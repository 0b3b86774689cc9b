/**
 * The disk-retention sweep run before each recording: when the drive holding the output
 * directory has less free space than the threshold, the oldest top-level recordings are removed,
 * each after its `.jpg` thumbnail, until enough space has been freed.
 *
 * The file system is a value: the set of paths that exist, the set whose removal raises
 * (`locked`), the directory listing and the free space of each mount point. Sizes are bytes;
 * gigabyte figures are exact reals.
 */
module Cleanup {
  import opened Strings
  import Paths

  // ----- the drive walk -----

  /**
   * The mount point `os.path.ismount` reaches walking `dirname` upward from `p`; a path that
   * is its own parent before any mount point is found gives `/`.
   */
  function Drive(p: string, isMount: string -> bool): string
    decreases |p|
  {
    if isMount(p) then p
    else
      var parent := Paths.Dirname(p);
      if parent == p then "/" else Drive(parent, isMount)
  }

  /** The drive is `/` or a mount point that is a prefix of the path it was walked from. */
  lemma {:induction false} DriveIsMountAbove(p: string, isMount: string -> bool)
    ensures var d := Drive(p, isMount);
      d == "/" || (isMount(d) && StartsWith(p, d))
  {
    if !isMount(p) {
      var parent := Paths.Dirname(p);
      if parent != p {
        DriveIsMountAbove(parent, isMount);
        var d := Drive(parent, isMount);
        if d != "/" {
          assert p[..|d|] == parent[..|d|];
        }
      }
    }
  }

  /** The `while not os.path.ismount(drive)` loop. */
  method FindDrive(outputDir: string, isMount: string -> bool) returns (drive: string)
    ensures drive == Drive(outputDir, isMount)
  {
    drive := outputDir;
    while !isMount(drive)
      invariant Drive(outputDir, isMount) == Drive(drive, isMount)
      decreases |drive|
    {
      var parent := Paths.Dirname(drive);
      if parent == drive {
        drive := "/";
        return;
      }
      drive := parent;
    }
  }

  // ----- the candidates -----

  /** A top-level directory entry: its name, `os.path.getctime` and `os.path.getsize`. */
  datatype Entry = Entry(name: string, ctime: real, size: nat)

  /** The recording extensions, in the order they are globbed. */
  const Extensions: seq<string> := [".mp4", ".mkv", ".avi", ".mov"]

  predicate IsRecording(name: string) {
    exists k :: 0 <= k < |Extensions| && EndsWith(name, Extensions[k])
  }

  /** `Path(output_dir).glob("*<ext>")`: the top-level entries whose name ends with `ext`, in listing order. */
  function Glob(listing: seq<Entry>, ext: string): (r: seq<Entry>)
    ensures forall e :: e in r <==> e in listing && EndsWith(e.name, ext)
  {
    if listing == [] then []
    else
      var rest := Glob(listing[..|listing| - 1], ext);
      var last := listing[|listing| - 1];
      assert listing == listing[..|listing| - 1] + [last];
      if EndsWith(last.name, ext) then rest + [last] else rest
  }

  /** The globs of `exts`, one after the other. */
  function Gathered(listing: seq<Entry>, exts: seq<string>): seq<Entry> {
    if exts == [] then []
    else Gathered(listing, exts[..|exts| - 1]) + Glob(listing, exts[|exts| - 1])
  }

  function Candidates(listing: seq<Entry>): seq<Entry> {
    Gathered(listing, Extensions)
  }

  /** The gathered entries are exactly the listed ones that end with one of the extensions. */
  lemma {:induction false} GatheredMembers(listing: seq<Entry>, exts: seq<string>, e: Entry)
    ensures e in Gathered(listing, exts) <==> e in listing && exists k :: 0 <= k < |exts| && EndsWith(e.name, exts[k])
  {
    if exts != [] {
      var init := exts[..|exts| - 1];
      GatheredMembers(listing, init, e);
      if e in listing && exists k :: 0 <= k < |exts| && EndsWith(e.name, exts[k]) {
        var k :| 0 <= k < |exts| && EndsWith(e.name, exts[k]);
        if k < |exts| - 1 {
          assert init[k] == exts[k];
        }
      }
      if exists k :: 0 <= k < |init| && EndsWith(e.name, init[k]) {
        var k :| 0 <= k < |init| && EndsWith(e.name, init[k]);
        assert exts[k] == init[k];
      }
    }
  }

  /** The candidates are the recordings of the top level of the directory and nothing else. */
  lemma CandidatesAreRecordings(listing: seq<Entry>, e: Entry)
    ensures e in Candidates(listing) <==> e in listing && IsRecording(e.name)
  {
    GatheredMembers(listing, Extensions, e);
  }

  /** The `for ext in [...]: video_files.extend(...)` loop. */
  method GatherCandidates(listing: seq<Entry>) returns (files: seq<Entry>)
    ensures files == Candidates(listing)
  {
    files := [];
    var i := 0;
    while i < |Extensions|
      invariant 0 <= i <= |Extensions|
      invariant files == Gathered(listing, Extensions[..i])
    {
      assert Extensions[..i + 1][..i] == Extensions[..i];
      files := files + Glob(listing, Extensions[i]);
      i := i + 1;
    }
    assert Extensions[..i] == Extensions;
  }

  // ----- the stable sort by creation time -----

  /** `x` placed after every entry of `s` that is not newer than it, counting from the end. */
  function Insert(s: seq<Entry>, x: Entry): (r: seq<Entry>)
    ensures |r| == |s| + 1
  {
    if s == [] || s[|s| - 1].ctime <= x.ctime then s + [x]
    else Insert(s[..|s| - 1], x) + [s[|s| - 1]]
  }

  /** `list.sort(key=os.path.getctime)`: a stable sort, oldest first. */
  function SortByCtime(s: seq<Entry>): (r: seq<Entry>)
    ensures |r| == |s|
  {
    if s == [] then [] else Insert(SortByCtime(s[..|s| - 1]), s[|s| - 1])
  }

  predicate Sorted(s: seq<Entry>) {
    forall i, j :: 0 <= i < j < |s| ==> s[i].ctime <= s[j].ctime
  }

  /** The entries created at `t`, in order. */
  function SameCtime(s: seq<Entry>, t: real): seq<Entry> {
    if s == [] then []
    else SameCtime(s[..|s| - 1], t) + if s[|s| - 1].ctime == t then [s[|s| - 1]] else []
  }

  lemma {:induction false} InsertPermutes(s: seq<Entry>, x: Entry)
    ensures multiset(Insert(s, x)) == multiset(s) + multiset{x}
  {
    if s != [] && x.ctime < s[|s| - 1].ctime {
      InsertPermutes(s[..|s| - 1], x);
      assert s == s[..|s| - 1] + [s[|s| - 1]];
    }
  }

  lemma {:induction false} InsertSorted(s: seq<Entry>, x: Entry)
    requires Sorted(s)
    ensures Sorted(Insert(s, x))
  {
    if s != [] && x.ctime < s[|s| - 1].ctime {
      var init := s[..|s| - 1];
      var last := s[|s| - 1];
      InsertSorted(init, x);
      InsertPermutes(init, x);
      var r := Insert(init, x);
      forall k | 0 <= k < |r|
        ensures r[k].ctime <= last.ctime
      {
        assert r[k] in multiset(r);
        assert r[k] == x || r[k] in multiset(init);
      }
    }
  }

  lemma {:induction false} SameCtimeAppend(a: seq<Entry>, b: seq<Entry>, t: real)
    ensures SameCtime(a + b, t) == SameCtime(a, t) + SameCtime(b, t)
  {
    if b != [] {
      var init := b[..|b| - 1];
      assert (a + b)[..|a + b| - 1] == a + init;
      SameCtimeAppend(a, init, t);
    } else {
      assert a + b == a;
    }
  }

  /** Entries created at the same time as `x` all stay before it; no other order changes. */
  lemma {:induction false} InsertStable(s: seq<Entry>, x: Entry, t: real)
    ensures SameCtime(Insert(s, x), t) == SameCtime(s, t) + SameCtime([x], t)
  {
    if s == [] || s[|s| - 1].ctime <= x.ctime {
      SameCtimeAppend(s, [x], t);
    } else {
      var init := s[..|s| - 1];
      var last := s[|s| - 1];
      InsertStable(init, x, t);
      SameCtimeAppend(Insert(init, x), [last], t);
      SameCtimeAppend(init, [last], t);
      assert s == init + [last];
      assert SameCtime([x], t) == if x.ctime == t then [x] else [];
      assert SameCtime([last], t) == if last.ctime == t then [last] else [];
    }
  }

  /** The sort orders by creation time, oldest first, and loses or invents no entry. */
  lemma {:induction false} SortByCtimeSortedPermutation(s: seq<Entry>)
    ensures Sorted(SortByCtime(s))
    ensures multiset(SortByCtime(s)) == multiset(s)
  {
    if s != [] {
      var init := s[..|s| - 1];
      SortByCtimeSortedPermutation(init);
      InsertSorted(SortByCtime(init), s[|s| - 1]);
      InsertPermutes(SortByCtime(init), s[|s| - 1]);
      assert s == init + [s[|s| - 1]];
    }
  }

  /** The sort is stable: entries with equal creation times keep their gathered order. */
  lemma {:induction false} SortByCtimeStable(s: seq<Entry>, t: real)
    ensures SameCtime(SortByCtime(s), t) == SameCtime(s, t)
  {
    if s != [] {
      var init := s[..|s| - 1];
      var last := s[|s| - 1];
      SortByCtimeStable(init, t);
      InsertStable(SortByCtime(init), last, t);
      SameCtimeAppend(init, [last], t);
      assert s == init + [last];
    }
  }

  // ----- the eviction -----

  /** `str(file_path).rsplit(".", 1)[0] + ".jpg"`. */
  function Thumbnail(path: string): string {
    Paths.RSplitDotRoot(path) + ".jpg"
  }

  /** The effect of one file's `try` block on the file system. */
  datatype Removal = Removal(present: set<string>, removed: seq<string>, ok: bool)

  /**
   * The thumbnail is removed first when it exists; a failed removal of it skips the video.
   * `ok` says the video itself was removed.
   */
  function Take(present: set<string>, locked: set<string>, path: string): (r: Removal)
    ensures r.ok ==> r.removed == (if Thumbnail(path) in present then [Thumbnail(path)] else []) + [path]
  {
    var thumb := Thumbnail(path);
    if thumb in present && thumb in locked then Removal(present, [], false)
    else
      var afterThumb := if thumb in present then present - {thumb} else present;
      var log := if thumb in present then [thumb] else [];
      if path in afterThumb && path !in locked then Removal(afterThumb - {path}, log + [path], true)
      else Removal(afterThumb, log, false)
  }

  /**
   * A file's removal takes only existing, removable paths, and the video is removed exactly
   * when its thumbnail, if present, could be removed first and the video then still existed
   * and could be removed.
   */
  lemma TakeRemoves(present: set<string>, locked: set<string>, path: string)
    ensures var r := Take(present, locked, path);
      && (forall p :: p in r.present <==> p in present && p !in r.removed)
      && (forall p :: p in r.removed ==> p in present && p !in locked)
      && (r.ok <==> && !(Thumbnail(path) in present && Thumbnail(path) in locked)
                    && path in present && path !in locked
                    && !(path == Thumbnail(path) && path in present))
  {
  }

  /** Whether `bytes_freed / 2**30 >= to_free_gb`. */
  predicate Enough(freed: nat, toFree: real) {
    freed as real / 1073741824.0 >= toFree
  }

  /** How the loop ended: all candidates visited, `break` on enough space, or `getsize` raised. */
  datatype Ending = Exhausted | Freed | Aborted

  /**
   * The state of the eviction loop: the file system, the paths removed in order, the indices
   * of the removed videos, `bytes_freed` and `files_removed`.
   */
  datatype Sweep = Sweep(present: set<string>, removed: seq<string>, taken: seq<nat>, freed: nat, count: nat)

  /** The eviction loop from candidate `i` on. */
  function Evict(dir: string, files: seq<Entry>, toFree: real, locked: set<string>, i: nat, s: Sweep): (Sweep, Ending)
    decreases |files| - i
  {
    if i >= |files| then (s, Exhausted)
    else
      var path := Paths.Child(dir, files[i].name);
      if path !in s.present then (s, Aborted)
      else
        var t := Take(s.present, locked, path);
        var s' := s.(present := t.present, removed := s.removed + t.removed);
        if !t.ok then Evict(dir, files, toFree, locked, i + 1, s')
        else
          var s'' := s'.(taken := s.taken + [i], freed := s.freed + files[i].size, count := s.count + 1);
          if Enough(s''.freed, toFree) then (s'', Freed)
          else Evict(dir, files, toFree, locked, i + 1, s'')
  }

  /** The sizes of the entries at `taken`. */
  function SizeOf(files: seq<Entry>, taken: seq<nat>): nat {
    if taken == [] then 0
    else SizeOf(files, taken[..|taken| - 1]) + (if taken[|taken| - 1] < |files| then files[taken[|taken| - 1]].size else 0)
  }

  /** The counters agree with the removed videos, visited in increasing index order. */
  predicate Accounted(files: seq<Entry>, s: Sweep, i: nat) {
    && s.count == |s.taken|
    && s.freed == SizeOf(files, s.taken)
    && (forall k :: 0 <= k < |s.taken| ==> s.taken[k] < i && s.taken[k] < |files|)
    && (forall k, l :: 0 <= k < l < |s.taken| ==> s.taken[k] < s.taken[l])
  }

  /**
   * `files_removed` counts and `bytes_freed` sums exactly the videos removed, and those are
   * taken oldest first.
   */
  lemma {:induction false} EvictAccounts(dir: string, files: seq<Entry>, toFree: real, locked: set<string>, i: nat, s: Sweep)
    requires i <= |files| && Accounted(files, s, i)
    ensures Accounted(files, Evict(dir, files, toFree, locked, i, s).0, |files|)
    decreases |files| - i
  {
    if i < |files| {
      if Paths.Child(dir, files[i].name) in s.present {
        var next := After(dir, files, toFree, locked, i, s);
        AfterStep(dir, files, toFree, locked, i, s);
        AfterAccounts(dir, files, toFree, locked, i, s);
        if GoesOn(dir, files, toFree, locked, i, s) {
          EvictAccounts(dir, files, toFree, locked, i + 1, next);
        } else {
          AccountedLater(files, next, next, i + 1, |files|);
        }
      } else {
        EvictAborts(dir, files, toFree, locked, i, s);
        AccountedLater(files, s, s, i, |files|);
      }
    }
  }

  /** The sweep once video `i`, found on disk, has been handled. */
  function After(dir: string, files: seq<Entry>, toFree: real, locked: set<string>, i: nat, s: Sweep): Sweep
    requires i < |files|
  {
    var t := Take(s.present, locked, Paths.Child(dir, files[i].name));
    var s' := s.(present := t.present, removed := s.removed + t.removed);
    if !t.ok then s' else s'.(taken := s.taken + [i], freed := s.freed + files[i].size, count := s.count + 1)
  }

  /** Whether the loop goes on after handling video `i`: its removal raised or did not free enough. */
  predicate GoesOn(dir: string, files: seq<Entry>, toFree: real, locked: set<string>, i: nat, s: Sweep)
    requires i < |files|
  {
    !Take(s.present, locked, Paths.Child(dir, files[i].name)).ok || !Enough(After(dir, files, toFree, locked, i, s).freed, toFree)
  }

  /** Handling a video found on disk: the loop goes on from the sweep after it, or ends there with `Freed`. */
  lemma AfterStep(dir: string, files: seq<Entry>, toFree: real, locked: set<string>, i: nat, s: Sweep)
    requires i < |files| && Paths.Child(dir, files[i].name) in s.present
    ensures GoesOn(dir, files, toFree, locked, i, s)
      ==> Evict(dir, files, toFree, locked, i, s) == Evict(dir, files, toFree, locked, i + 1, After(dir, files, toFree, locked, i, s))
    ensures !GoesOn(dir, files, toFree, locked, i, s)
      ==> Evict(dir, files, toFree, locked, i, s) == (After(dir, files, toFree, locked, i, s), Freed)
  {
    EvictStep(dir, files, toFree, locked, i, s);
  }

  /** Handling a video keeps the accounting. */
  lemma AfterAccounts(dir: string, files: seq<Entry>, toFree: real, locked: set<string>, i: nat, s: Sweep)
    requires i < |files| && Accounted(files, s, i)
    ensures Accounted(files, After(dir, files, toFree, locked, i, s), i + 1)
  {
    var t := Take(s.present, locked, Paths.Child(dir, files[i].name));
    if !t.ok {
      AccountedLater(files, s, After(dir, files, toFree, locked, i, s), i, i + 1);
    } else {
      AccountedTake(files, s, After(dir, files, toFree, locked, i, s), i);
    }
  }

  /** The accounting of a sweep holds for any later position and any sweep with the same counters. */
  lemma AccountedLater(files: seq<Entry>, s: Sweep, s': Sweep, i: nat, j: nat)
    requires i <= j && Accounted(files, s, i)
    requires s'.taken == s.taken && s'.freed == s.freed && s'.count == s.count
    ensures Accounted(files, s', j)
  {
  }

  /** Removing video `i` keeps the accounting. */
  lemma AccountedTake(files: seq<Entry>, s: Sweep, s'': Sweep, i: nat)
    requires i < |files| && Accounted(files, s, i)
    requires s''.taken == s.taken + [i] && s''.freed == s.freed + files[i].size && s''.count == s.count + 1
    ensures Accounted(files, s'', i + 1)
  {
    assert s''.taken[..|s''.taken| - 1] == s.taken;
  }

  /**
   * The loop breaks right after the first removal that frees enough: a `Freed` ending has freed
   * enough and had not before its last removal; any other ending never freed enough.
   */
  predicate StopsAtFirstEnough(files: seq<Entry>, toFree: real, before: Sweep, r: Sweep, e: Ending) {
    && (e != Freed ==> !Enough(r.freed, toFree))
    && (e == Freed ==> && Enough(r.freed, toFree) && |r.taken| > |before.taken|
                       && var j := r.taken[|r.taken| - 1];
                          && j < |files| && files[j].size <= r.freed
                          && !Enough(r.freed - files[j].size, toFree))
  }

  /** Started short of the target, the loop stops exactly as `StopsAtFirstEnough` says. */
  lemma {:induction false} EvictStopsAtFirstEnough(dir: string, files: seq<Entry>, toFree: real, locked: set<string>, i: nat, s: Sweep)
    requires !Enough(s.freed, toFree)
    ensures var r := Evict(dir, files, toFree, locked, i, s);
      StopsAtFirstEnough(files, toFree, s, r.0, r.1)
    decreases |files| - i
  {
    if i < |files| {
      var path := Paths.Child(dir, files[i].name);
      if path in s.present {
        var t := Take(s.present, locked, path);
        var s' := s.(present := t.present, removed := s.removed + t.removed);
        if !t.ok {
          EvictStep(dir, files, toFree, locked, i, s);
          EvictStopsAtFirstEnough(dir, files, toFree, locked, i + 1, s');
          StopsLater(files, toFree, s, s', Evict(dir, files, toFree, locked, i + 1, s'));
        } else {
          var s'' := s'.(taken := s.taken + [i], freed := s.freed + files[i].size, count := s.count + 1);
          if !Enough(s''.freed, toFree) {
            EvictStep(dir, files, toFree, locked, i, s);
            EvictStopsAtFirstEnough(dir, files, toFree, locked, i + 1, s'');
            StopsLater(files, toFree, s, s'', Evict(dir, files, toFree, locked, i + 1, s''));
          } else {
            EvictFreed(dir, files, toFree, locked, i, s);
          }
        }
      }
    }
  }

  /** A sweep that stops as required after a later start, one with no fewer removals, does so after `before` too. */
  lemma StopsLater(files: seq<Entry>, toFree: real, before: Sweep, later: Sweep, r: (Sweep, Ending))
    requires |before.taken| <= |later.taken|
    requires StopsAtFirstEnough(files, toFree, later, r.0, r.1)
    ensures StopsAtFirstEnough(files, toFree, before, r.0, r.1)
  {
  }

  /** A video that is not the last one removed hands the sweep on to the next video. */
  lemma EvictStep(dir: string, files: seq<Entry>, toFree: real, locked: set<string>, i: nat, s: Sweep)
    requires i < |files| && Paths.Child(dir, files[i].name) in s.present
    ensures var t := Take(s.present, locked, Paths.Child(dir, files[i].name));
      var s' := s.(present := t.present, removed := s.removed + t.removed);
      var s'' := s'.(taken := s.taken + [i], freed := s.freed + files[i].size, count := s.count + 1);
      && (!t.ok ==> Evict(dir, files, toFree, locked, i, s) == Evict(dir, files, toFree, locked, i + 1, s'))
      && (t.ok && !Enough(s''.freed, toFree) ==> Evict(dir, files, toFree, locked, i, s) == Evict(dir, files, toFree, locked, i + 1, s''))
      && (t.ok && Enough(s''.freed, toFree) ==> Evict(dir, files, toFree, locked, i, s) == (s'', Freed))
  {
  }

  /** A video missing from disk aborts the sweep where it stands. */
  lemma EvictAborts(dir: string, files: seq<Entry>, toFree: real, locked: set<string>, i: nat, s: Sweep)
    requires i < |files| && Paths.Child(dir, files[i].name) !in s.present
    ensures Evict(dir, files, toFree, locked, i, s) == (s, Aborted)
  {
  }

  /** The removal that reaches the target ends the sweep with it as the last one taken. */
  lemma EvictFreed(dir: string, files: seq<Entry>, toFree: real, locked: set<string>, i: nat, s: Sweep)
    requires i < |files| && Paths.Child(dir, files[i].name) in s.present
    requires !Enough(s.freed, toFree)
    requires var t := Take(s.present, locked, Paths.Child(dir, files[i].name));
      t.ok && Enough(s.freed + files[i].size, toFree)
    ensures var r := Evict(dir, files, toFree, locked, i, s);
      StopsAtFirstEnough(files, toFree, s, r.0, r.1)
  {
    EvictStep(dir, files, toFree, locked, i, s);
    var r := Evict(dir, files, toFree, locked, i, s);
    assert r.0.taken[|r.0.taken| - 1] == i;
  }

  /**
   * Only existing paths whose removal does not raise are removed, and the file system loses
   * exactly the removed paths.
   */
  lemma {:induction false} EvictRemovesOnly(dir: string, files: seq<Entry>, toFree: real, locked: set<string>, i: nat, s: Sweep,
                                            present: set<string>)
    requires forall p :: p in s.present <==> p in present && p !in s.removed
    requires forall p :: p in s.removed ==> p in present && p !in locked
    ensures var r := Evict(dir, files, toFree, locked, i, s).0;
      && (forall p :: p in r.present <==> p in present && p !in r.removed)
      && (forall p :: p in r.removed ==> p in present && p !in locked)
    decreases |files| - i
  {
    if i < |files| {
      var path := Paths.Child(dir, files[i].name);
      if path in s.present {
        var t := Take(s.present, locked, path);
        var s' := s.(present := t.present, removed := s.removed + t.removed);
        TakeRemoves(s.present, locked, path);
        if !t.ok {
          assert Evict(dir, files, toFree, locked, i, s) == Evict(dir, files, toFree, locked, i + 1, s');
          EvictRemovesOnly(dir, files, toFree, locked, i + 1, s', present);
        } else {
          var s'' := s'.(taken := s.taken + [i], freed := s.freed + files[i].size, count := s.count + 1);
          if !Enough(s''.freed, toFree) {
            assert Evict(dir, files, toFree, locked, i, s) == Evict(dir, files, toFree, locked, i + 1, s'');
            EvictRemovesOnly(dir, files, toFree, locked, i + 1, s'', present);
          }
        }
      }
    }
  }

  /** One file's `try` block: the thumbnail first when it exists, then the video; a raise skips the rest. */
  method TryRemove(present: set<string>, locked: set<string>, path: string)
    returns (left: set<string>, log: seq<string>, ok: bool)
    ensures Take(present, locked, path) == Removal(left, log, ok)
  {
    left, log, ok := present, [], false;
    var thumbnailPath := Thumbnail(path);
    if thumbnailPath in left {
      if thumbnailPath in locked {
        return;
      }
      left := left - {thumbnailPath};
      log := log + [thumbnailPath];
    }
    if path !in left || path in locked {
      return;
    }
    left := left - {path};
    log := log + [path];
    ok := true;
  }

  /** The eviction `for` loop over the sorted candidates, with its `break`. */
  method EvictOldest(dir: string, files: seq<Entry>, toFree: real, locked: set<string>, present0: set<string>)
    returns (present: set<string>, removed: seq<string>, bytesFreed: nat, filesRemoved: nat, ending: Ending,
             ghost taken: seq<nat>)
    ensures Evict(dir, files, toFree, locked, 0, Sweep(present0, [], [], 0, 0))
      == (Sweep(present, removed, taken, bytesFreed, filesRemoved), ending)
  {
    present, removed, bytesFreed, filesRemoved, taken := present0, [], 0, 0, [];
    var i := 0;
    while i < |files|
      invariant 0 <= i <= |files|
      invariant Evict(dir, files, toFree, locked, 0, Sweep(present0, [], [], 0, 0))
        == Evict(dir, files, toFree, locked, i, Sweep(present, removed, taken, bytesFreed, filesRemoved))
    {
      var path := Paths.Child(dir, files[i].name);
      if path !in present {
        // `os.path.getsize` raises outside the `try`
        ending := Aborted;
        return;
      }
      ghost var before := Sweep(present, removed, taken, bytesFreed, filesRemoved);
      var fileSize := files[i].size;
      var left, log, ok := TryRemove(present, locked, path);
      present, removed := left, removed + log;
      if ok {
        bytesFreed := bytesFreed + fileSize;
        filesRemoved := filesRemoved + 1;
        taken := taken + [i];
      }
      assert Sweep(present, removed, taken, bytesFreed, filesRemoved) == After(dir, files, toFree, locked, i, before);
      AfterStep(dir, files, toFree, locked, i, before);
      if ok {
        if Enough(bytesFreed, toFree) {
          ending := Freed;
          return;
        }
      }
      i := i + 1;
    }
    ending := Exhausted;
  }

  // ----- the whole check -----

  /** The default `min_free_gb`. */
  const DefaultMinFreeGb: real := 20.0

  /**
   * The disk as the check sees it: whether the output directory exists, the mount test, the
   * free bytes of each mount point, the directory listing, the paths that exist and those whose
   * removal raises.
   */
  datatype Disk = Disk(dirExists: bool, isMount: string -> bool, free: string -> nat, listing: seq<Entry>,
                       present: set<string>, locked: set<string>)

  /** What a check leaves: the file system, the paths removed in order, the counters, and the notification. */
  datatype Report = Report(present: set<string>, removed: seq<string>, freed: nat, count: nat, notified: bool)

  function Untouched(disk: Disk): Report {
    Report(disk.present, [], 0, 0, false)
  }

  /** `free_gb`: the free space of the drive holding `outputDir`, in gigabytes. */
  function FreeGb(outputDir: string, disk: Disk): real {
    disk.free(Drive(outputDir, disk.isMount)) as real / 1073741824.0
  }

  /** Whether the eviction loop is reached. */
  predicate Evicts(outputDir: string, minFreeGb: real, disk: Disk) {
    disk.dirExists && FreeGb(outputDir, disk) < minFreeGb && Candidates(disk.listing) != []
  }

  /**
   * `check_disk_space_and_cleanup(output_dir, min_free_gb)` on POSIX: with the directory present
   * and the drive short of space, the candidates are sorted oldest first and evicted until
   * `min_free_gb - free_gb` gigabytes are freed; the notification goes out when the bot is
   * enabled, unless a `getsize` raised and ended the check.
   */
  function Cleanup(outputDir: string, minFreeGb: real, disk: Disk, botEnabled: bool): Report {
    if !Evicts(outputDir, minFreeGb, disk) then Untouched(disk)
    else
      var toFree := minFreeGb - FreeGb(outputDir, disk);
      var run := Evict(outputDir, SortByCtime(Candidates(disk.listing)), toFree, disk.locked, 0, Sweep(disk.present, [], [], 0, 0));
      Report(run.0.present, run.0.removed, run.0.freed, run.0.count, run.1 != Aborted && botEnabled)
  }

  /** A missing directory, enough free space or no recordings leave the disk untouched and send nothing. */
  lemma CleanupIdle(outputDir: string, minFreeGb: real, disk: Disk, botEnabled: bool)
    requires !disk.dirExists || FreeGb(outputDir, disk) >= minFreeGb || forall e :: e in disk.listing ==> !IsRecording(e.name)
    ensures Cleanup(outputDir, minFreeGb, disk, botEnabled) == Untouched(disk)
  {
    if Candidates(disk.listing) != [] {
      CandidatesAreRecordings(disk.listing, Candidates(disk.listing)[0]);
    }
  }

  /**
   * A check removes only existing paths whose removal does not raise, the file system loses
   * exactly those, and a notification is sent only when the bot is enabled and eviction ran.
   */
  lemma CleanupRemovesOnly(outputDir: string, minFreeGb: real, disk: Disk, botEnabled: bool)
    ensures var r := Cleanup(outputDir, minFreeGb, disk, botEnabled);
      && (forall p :: p in r.present <==> p in disk.present && p !in r.removed)
      && (forall p :: p in r.removed ==> p in disk.present && p !in disk.locked)
      && (r.notified ==> botEnabled && Evicts(outputDir, minFreeGb, disk))
  {
    if Evicts(outputDir, minFreeGb, disk) {
      var toFree := minFreeGb - FreeGb(outputDir, disk);
      EvictRemovesOnly(outputDir, SortByCtime(Candidates(disk.listing)), toFree, disk.locked, 0, Sweep(disk.present, [], [], 0, 0), disk.present);
    }
  }

  /**
   * When eviction runs, `files_removed` and `bytes_freed` count and sum the removed candidates,
   * taken in sorted order, and the check stops freeing right after it has freed enough.
   */
  lemma CleanupFreesOldestUntilEnough(outputDir: string, minFreeGb: real, disk: Disk, botEnabled: bool)
    requires Evicts(outputDir, minFreeGb, disk)
    ensures var files := SortByCtime(Candidates(disk.listing));
      var toFree := minFreeGb - FreeGb(outputDir, disk);
      var run := Evict(outputDir, files, toFree, disk.locked, 0, Sweep(disk.present, [], [], 0, 0));
      && Accounted(files, run.0, |files|)
      && StopsAtFirstEnough(files, toFree, Sweep(disk.present, [], [], 0, 0), run.0, run.1)
      && (botEnabled && run.1 != Aborted ==> Cleanup(outputDir, minFreeGb, disk, botEnabled).notified)
  {
    var files := SortByCtime(Candidates(disk.listing));
    var toFree := minFreeGb - FreeGb(outputDir, disk);
    var start := Sweep(disk.present, [], [], 0, 0);
    EvictAccounts(outputDir, files, toFree, disk.locked, 0, start);
    EvictStopsAtFirstEnough(outputDir, files, toFree, disk.locked, 0, start);
  }

  /** The check, step by step. */
  method CheckDiskSpaceAndCleanup(outputDir: string, minFreeGb: real, disk: Disk, botEnabled: bool) returns (r: Report)
    ensures r == Cleanup(outputDir, minFreeGb, disk, botEnabled)
  {
    r := Untouched(disk);
    if !disk.dirExists {
      return;
    }
    var drive := FindDrive(outputDir, disk.isMount);
    var freeGb := disk.free(drive) as real / 1073741824.0;
    if freeGb < minFreeGb {
      var videoFiles := GatherCandidates(disk.listing);
      if videoFiles == [] {
        return;
      }
      videoFiles := SortByCtime(videoFiles);
      var toFree := minFreeGb - freeGb;
      var present, removed, bytesFreed, filesRemoved, ending, _ := EvictOldest(outputDir, videoFiles, toFree, disk.locked, disk.present);
      r := Report(present, removed, bytesFreed, filesRemoved, ending != Aborted && botEnabled);
    }
  }
}
