/**
 * The per-creator monitor: a `UserMonitor` polls one creator's channel, records a live stream
 * with ffmpeg into `<output>/<name>/<name>_<stamp>.mp4`, and when the stream ends makes the
 * thumbnail, compresses, uploads, and reports the links to Discord and to a text file beside
 * the recording. Fetching, ffmpeg, the uploads and the file system are inputs; the Discord bot
 * is the `DiscordBot.Bot` of this model, and the UI is the log of calls made on it.
 */
module Monitor {
  import opened Wrappers
  import opened Strings
  import Paths
  import Clock
  import Fansly
  import Cleanup
  import DiscordBot
  import Upload
  import Video
  import Seqs

  // ----- sanitize_username -----

  /** A character of `\w` (taken on ASCII). */
  predicate IsWordChar(c: char) {
    IsAsciiUpper(c) || IsAsciiLower(c) || IsDigit(c) || c == '_'
  }

  /** The characters `sanitize_username` keeps: `\w` and `-`. */
  predicate Allowed(c: char) {
    IsWordChar(c) || c == '-'
  }

  /** The characters `strip("-_")` removes from the ends. */
  predicate IsEdge(c: char) {
    c == '-' || c == '_'
  }

  /** `re.sub(r"[^\w\-]", "", s)`. */
  function Keep(s: string): (r: string)
    ensures forall i :: 0 <= i < |r| ==> Allowed(r[i])
  {
    if s == [] then []
    else
      var head := if Allowed(s[0]) then [s[0]] else [];
      ConcatChars(head, Keep(s[1..]), Allowed);
      head + Keep(s[1..])
  }

  /** The substitution works character by character: what it keeps of a concatenation is what it keeps of each part. */
  lemma {:induction false} KeepAppend(a: string, b: string)
    ensures Keep(a + b) == Keep(a) + Keep(b)
  {
    if a == [] {
      assert a + b == b;
    } else {
      var head := if Allowed(a[0]) then [a[0]] else [];
      assert (a + b)[0] == a[0] && (a + b)[1..] == a[1..] + b;
      calc {
        Keep(a + b);
        head + Keep(a[1..] + b);
        { KeepAppend(a[1..], b); }
        head + (Keep(a[1..]) + Keep(b));
        (head + Keep(a[1..])) + Keep(b);
        Keep(a) + Keep(b);
      }
    }
  }

  /** One character is kept exactly when it is a word character or `-`; with `KeepAppend` this fixes `Keep` on every string. */
  lemma KeepChar(c: char)
    ensures Keep([c]) == (if Allowed(c) then [c] else [])
  {
    assert [c][1..] == [];
  }

  /** `sanitize_username(username)`. */
  function SanitizeUsername(username: string): string {
    StripBy(Keep(username), IsEdge)
  }

  /** A name made of `\w` and `-` only, neither of whose ends is a `-` or a `_`. */
  predicate Clean(s: string) {
    (forall i :: 0 <= i < |s| ==> Allowed(s[i])) && (s == [] || (!IsEdge(s[0]) && !IsEdge(s[|s| - 1])))
  }

  /** A sanitised name holds only `\w` and `-`, and neither starts nor ends with `-` or `_`. */
  lemma SanitizeIsClean(username: string)
    ensures Clean(SanitizeUsername(username))
  {
    var k := Keep(username);
    var l := LStrip(k, IsEdge);
    LStripSuffix(k, IsEdge);
    RStripPrefix(l, IsEdge);
  }

  lemma {:induction false} KeepAllowed(s: string)
    requires forall i :: 0 <= i < |s| ==> Allowed(s[i])
    ensures Keep(s) == s
  {
    if s != [] {
      KeepAllowed(s[1..]);
      assert [s[0]] + s[1..] == s;
    }
  }

  /** `sanitize_username` leaves a name unchanged exactly when it is already clean. */
  lemma SanitizeFixes(username: string)
    ensures SanitizeUsername(username) == username <==> Clean(username)
  {
    if Clean(username) {
      KeepAllowed(username);
    } else {
      SanitizeIsClean(username);
    }
  }

  /** Sanitising twice is sanitising once. */
  lemma SanitizeIdempotent(username: string)
    ensures SanitizeUsername(SanitizeUsername(username)) == SanitizeUsername(username)
  {
    SanitizeIsClean(username);
    SanitizeFixes(SanitizeUsername(username));
  }

  // ----- the recording's path -----

  /** The recording's file name, `<s>_<YYYYmmdd_HHMMSS>.mp4`. */
  function RecordingName(s: string, now: Clock.DateTime): string {
    s + "_" + Clock.FileStamp(now) + ".mp4"
  }

  /** `os.path.join(output_directory, s, f"{s}_{timestamp}.mp4")` for the sanitised name `s`. */
  function OutputPath(outputDirectory: string, username: string, now: Clock.DateTime): string {
    var s := SanitizeUsername(username);
    Paths.Join(Paths.Join(outputDirectory, s), RecordingName(s, now))
  }

  predicate Ordinary(c: char) {
    c != '/' && c != '.'
  }

  lemma StampOrdinary(now: Clock.DateTime)
    ensures forall i :: 0 <= i < |Clock.FileStamp(now)| ==> Ordinary(Clock.FileStamp(now)[i])
  {
    var a, b, c := ZeroPad(now.year, 4), ZeroPad(now.month, 2), ZeroPad(now.day, 2);
    var d, e, f := ZeroPad(now.hour, 2), ZeroPad(now.minute, 2), ZeroPad(now.second, 2);
    ConcatChars(a, b, Ordinary);
    ConcatChars(a + b, c, Ordinary);
    ConcatChars(a + b + c, "_", Ordinary);
    ConcatChars(a + b + c + "_", d, Ordinary);
    ConcatChars(a + b + c + "_" + d, e, Ordinary);
    ConcatChars(a + b + c + "_" + d + e, f, Ordinary);
  }

  /** Characters other than `c` after a string do not move its last `c`. */
  lemma {:induction false} RFindPast(x: string, n: string, c: char)
    requires forall i :: 0 <= i < |n| ==> n[i] != c
    ensures RFind(x + n, c) == RFind(x, c)
    decreases |n|
  {
    if n == [] {
      assert x + n == x;
    } else {
      assert (x + n)[..|x + n| - 1] == x + n[..|n| - 1];
      RFindPast(x, n[..|n| - 1], c);
    }
  }

  predicate NotSlash(c: char) {
    c != '/'
  }

  /** After a directory part that is empty or ends with `/`, a name without `/` is the base name. */
  lemma BasenameAfter(x: string, n: string)
    requires x == "" || x[|x| - 1] == '/'
    requires forall i :: 0 <= i < |n| ==> n[i] != '/'
    ensures Paths.Basename(x + n) == n
  {
    RFindPast(x, n, '/');
    assert RFind(x, '/') == |x| - 1;
  }

  /** After such a directory part, `<stem>.mp4` splits into the path up to the stem and `.mp4`. */
  lemma SplitExtAfter(x: string, stem: string)
    requires x == "" || x[|x| - 1] == '/'
    requires |stem| > 0 && forall i :: 0 <= i < |stem| ==> Ordinary(stem[i])
    ensures Paths.SplitExt(x + (stem + ".mp4")) == (x + stem, ".mp4")
  {
    var y := x + stem;
    var p := x + (stem + ".mp4");
    assert p == (y + ".") + "mp4";
    RFindPast(y + ".", "mp4", '.');
    assert RFind(y + ".", '.') == |y|;
    ConcatChars(stem, ".mp4", NotSlash);
    RFindPast(x, stem + ".mp4", '/');
    assert RFind(x, '/') == |x| - 1;
    assert RFind(p, '.') == |y| && RFind(p, '/') == |x| - 1;
    assert p[|x|] == stem[0] && Ordinary(stem[0]);
    assert p[..|y|] == y && p[|y|..] == ".mp4";
  }

  /** The directory part of the recording's path, up to and including its last `/`. */
  function RecordingDir(outputDirectory: string, s: string): string {
    var d := Paths.Join(outputDirectory, s);
    if d == "" || EndsWith(d, "/") then d else d + "/"
  }

  /** `<s>_<YYYYmmdd_HHMMSS>`, the recording's name without its extension. */
  function RecordingStem(s: string, now: Clock.DateTime): string {
    s + "_" + Clock.FileStamp(now)
  }

  lemma StemOrdinary(username: string, now: Clock.DateTime)
    ensures var stem := RecordingStem(SanitizeUsername(username), now);
      |stem| > 0 && forall i :: 0 <= i < |stem| ==> Ordinary(stem[i])
  {
    var s := SanitizeUsername(username);
    SanitizeIsClean(username);
    StampOrdinary(now);
    ConcatChars(s, "_", Ordinary);
    ConcatChars(s + "_", Clock.FileStamp(now), Ordinary);
  }

  lemma OutputPathParts(outputDirectory: string, username: string, now: Clock.DateTime)
    ensures var s := SanitizeUsername(username);
      var x := RecordingDir(outputDirectory, s);
      && OutputPath(outputDirectory, username, now) == x + (RecordingStem(s, now) + ".mp4")
      && (x == "" || x[|x| - 1] == '/')
  {
    var s := SanitizeUsername(username);
    var stem := RecordingStem(s, now);
    StemOrdinary(username, now);
    assert RecordingName(s, now) == stem + ".mp4";
    assert !StartsWith(stem + ".mp4", "/") by {
      assert (stem + ".mp4")[0] == stem[0];
    }
  }

  /**
   * The recording's base name is `<s>_<stamp>.mp4` and its extension `.mp4`, whatever the output
   * directory: the thumbnail and the link file derived from it by `splitext` sit beside it under
   * the same name.
   */
  lemma OutputPathShape(outputDirectory: string, username: string, now: Clock.DateTime)
    ensures var p := OutputPath(outputDirectory, username, now);
      && Paths.Basename(p) == RecordingName(SanitizeUsername(username), now)
      && |p| >= 4 && Paths.SplitExt(p) == (p[..|p| - 4], ".mp4")
  {
    var s := SanitizeUsername(username);
    OutputPathParts(outputDirectory, username, now);
    StemOrdinary(username, now);
    PathShape(RecordingDir(outputDirectory, s), RecordingStem(s, now));
  }

  /** The file part and the extension of `<x><stem>.mp4` for a directory part `x`. */
  lemma PathShape(x: string, stem: string)
    requires x == "" || x[|x| - 1] == '/'
    requires |stem| > 0 && forall i :: 0 <= i < |stem| ==> Ordinary(stem[i])
    ensures var p := x + (stem + ".mp4");
      && Paths.Basename(p) == stem + ".mp4"
      && |p| >= 4 && Paths.SplitExt(p) == (p[..|p| - 4], ".mp4")
  {
    ConcatChars(stem, ".mp4", NotSlash);
    BasenameAfter(x, stem + ".mp4");
    SplitExtAfter(x, stem);
    var p := x + (stem + ".mp4");
    assert p[..|p| - 4] == x + stem;
  }

  /** The ffmpeg command line; development mode stops the recording after 60 seconds. */
  function FfmpegCommand(url: string, outputPath: string, devMode: bool): seq<string> {
    ["ffmpeg", "-loglevel", "quiet", "-i", url, "-c", "copy", "-f", "mp4"]
    + (if devMode then ["-t", "60"] else []) + [outputPath]
  }

  // ----- upload results -----

  /** A value Python treats as true: present and not empty. */
  predicate Truthy(u: Option<string>) {
    u.Some? && u.value != ""
  }

  /** An upload that reported success with a URL. */
  predicate Delivered(r: Upload.UploadResult) {
    r.success && Truthy(r.url)
  }

  /** The thumbnail link: jpg5's when jpg5 delivered one, else Bunkr's when it did, else none. */
  function ThumbnailUrl(jpg5: Upload.UploadResult, bunkr: Upload.UploadResult): (r: Option<string>)
    ensures r.Some? <==> Delivered(jpg5) || Delivered(bunkr)
    ensures Delivered(jpg5) ==> r == jpg5.url
    ensures !Delivered(jpg5) && r.Some? ==> r == bunkr.url
    ensures r.Some? ==> Truthy(r)
  {
    if Delivered(jpg5) then jpg5.url else if Delivered(bunkr) then bunkr.url else None
  }

  /** `{"service": ..., "result": ...}`: one upload of the video. */
  datatype Posted = Posted(service: string, result: Upload.UploadResult)

  predicate IsGofile(p: Posted) {
    Lower(p.service) == "gofile"
  }

  function Key(p: Posted): nat {
    if IsGofile(p) then 0 else 1
  }

  /** Puts `x` after every element whose key is not larger, as a stable sort does. */
  function Insert(x: Posted, sorted: seq<Posted>): seq<Posted> {
    if sorted == [] || Key(sorted[|sorted| - 1]) <= Key(x) then sorted + [x]
    else Insert(x, sorted[..|sorted| - 1]) + [sorted[|sorted| - 1]]
  }

  /** `sorted(videos, key=lambda u: 0 if u["service"].lower() == "gofile" else 1)`. */
  function GofileFirst(videos: seq<Posted>): seq<Posted> {
    if videos == [] then [] else Insert(videos[|videos| - 1], GofileFirst(videos[..|videos| - 1]))
  }

  /** The GoFile uploads, in their order. */
  function Gofiles(v: seq<Posted>): (r: seq<Posted>)
    ensures forall i :: 0 <= i < |r| ==> IsGofile(r[i])
  {
    if v == [] then []
    else Gofiles(v[..|v| - 1]) + (if IsGofile(v[|v| - 1]) then [v[|v| - 1]] else [])
  }

  /** The other uploads, in their order. */
  function Others(v: seq<Posted>): (r: seq<Posted>)
    ensures forall i :: 0 <= i < |r| ==> !IsGofile(r[i])
  {
    if v == [] then []
    else Others(v[..|v| - 1]) + (if IsGofile(v[|v| - 1]) then [] else [v[|v| - 1]])
  }

  lemma {:induction false} InsertGofile(x: Posted, g: seq<Posted>, o: seq<Posted>)
    requires IsGofile(x)
    requires forall i :: 0 <= i < |g| ==> IsGofile(g[i])
    requires forall i :: 0 <= i < |o| ==> !IsGofile(o[i])
    ensures Insert(x, g + o) == g + [x] + o
    decreases |o|
  {
    if o == [] {
      assert g + o == g;
    } else {
      var o' := o[..|o| - 1];
      assert (g + o)[..|g + o| - 1] == g + o';
      assert (g + o)[|g + o| - 1] == o[|o| - 1];
      InsertGofile(x, g, o');
      assert g + [x] + o' + [o[|o| - 1]] == g + [x] + o;
    }
  }

  lemma {:induction false} PartitionCounts(v: seq<Posted>)
    ensures multiset(Gofiles(v)) + multiset(Others(v)) == multiset(v)
  {
    if v != [] {
      PartitionCounts(v[..|v| - 1]);
      if IsGofile(v[|v| - 1]) {
        GofileGroups(v);
      } else {
        OtherGroups(v);
      }
      Seqs.MultisetLast(v);
    }
  }

  /**
   * The sort is stable: GoFile uploads come first and the others after, each group in its
   * original order.
   */
  lemma {:induction false} GofileFirstPartition(v: seq<Posted>)
    ensures GofileFirst(v) == Gofiles(v) + Others(v)
  {
    if v != [] {
      GofileFirstPartition(v[..|v| - 1]);
      if IsGofile(v[|v| - 1]) {
        GofileStep(v);
      } else {
        OtherStep(v);
      }
    }
  }

  /** A GoFile upload joins the end of the GoFile group. */
  lemma GofileStep(v: seq<Posted>)
    requires v != [] && IsGofile(v[|v| - 1])
    requires GofileFirst(v[..|v| - 1]) == Gofiles(v[..|v| - 1]) + Others(v[..|v| - 1])
    ensures GofileFirst(v) == Gofiles(v) + Others(v)
  {
    var v', x := v[..|v| - 1], v[|v| - 1];
    InsertGofile(x, Gofiles(v'), Others(v'));
    GofileGroups(v);
  }

  lemma GofileGroups(v: seq<Posted>)
    requires v != [] && IsGofile(v[|v| - 1])
    ensures Gofiles(v) == Gofiles(v[..|v| - 1]) + [v[|v| - 1]]
    ensures Others(v) == Others(v[..|v| - 1])
  {
  }

  /** Any other upload joins the end of the whole list. */
  lemma OtherStep(v: seq<Posted>)
    requires v != [] && !IsGofile(v[|v| - 1])
    requires GofileFirst(v[..|v| - 1]) == Gofiles(v[..|v| - 1]) + Others(v[..|v| - 1])
    ensures GofileFirst(v) == Gofiles(v) + Others(v)
  {
    var v', x := v[..|v| - 1], v[|v| - 1];
    InsertOther(x, GofileFirst(v'));
    OtherGroups(v);
    Seqs.AppendAssoc(Gofiles(v'), Others(v'), [x]);
  }

  lemma InsertOther(x: Posted, sorted: seq<Posted>)
    requires !IsGofile(x)
    ensures Insert(x, sorted) == sorted + [x]
  {
  }

  lemma OtherGroups(v: seq<Posted>)
    requires v != [] && !IsGofile(v[|v| - 1])
    ensures Gofiles(v) == Gofiles(v[..|v| - 1])
    ensures Others(v) == Others(v[..|v| - 1]) + [v[|v| - 1]]
  {
  }

  /** The sort neither loses nor repeats an upload. */
  lemma GofileFirstPermutes(v: seq<Posted>)
    ensures multiset(GofileFirst(v)) == multiset(v)
  {
    GofileFirstPartition(v);
    PartitionCounts(v);
  }

  // ----- send_end_message -----

  /** An optional value in an f-string: `None` prints as "None". */
  function Shown(u: Option<string>): string {
    if u.Some? then u.value else "None"
  }

  /** The links of one upload: every part's URL, or the one URL. */
  function Links(r: Upload.UploadResult): seq<string> {
    if r.multiple then r.urls else [Shown(r.url)]
  }

  function AllLinks(v: seq<Posted>): seq<string> {
    if v == [] then [] else Links(v[0].result) + AllLinks(v[1..])
  }

  lemma {:induction false} AllLinksAppend(a: seq<Posted>, b: seq<Posted>)
    ensures AllLinks(a + b) == AllLinks(a) + AllLinks(b)
  {
    if a != [] {
      assert (a + b)[0] == a[0] && (a + b)[1..] == a[1..] + b;
      AllLinksAppend(a[1..], b);
    } else {
      assert a + b == b;
    }
  }

  const Fence := "```"

  /** The notice's opening: the fence, the date, and the thumbnail line or an empty line. */
  function EndHead(thumbnailUrl: Option<string>, now: Clock.DateTime): string
    requires now.Valid()
  {
    "\U{1F7E2} Upload finished.\n" + Fence + "\n" + Clock.DateLine(now) + "\n"
    + (if Truthy(thumbnailUrl) then "[IMG]" + thumbnailUrl.value + "[/IMG]\n" else "\n")
  }

  /** The text `send_end_message` posts. */
  function EndMessage(videos: seq<Posted>, thumbnailUrl: Option<string>, now: Clock.DateTime): string
    requires now.Valid()
  {
    EndHead(thumbnailUrl, now) + (if videos != [] then Lines(AllLinks(GofileFirst(videos))) else "") + Fence
  }

  /**
   * Between its opening and the closing fence the notice holds one line per link: the GoFile
   * uploads' links first, then the others', each upload's parts in order.
   */
  lemma EndMessageLinks(videos: seq<Posted>, thumbnailUrl: Option<string>, now: Clock.DateTime)
    requires now.Valid()
    ensures EndMessage(videos, thumbnailUrl, now)
      == EndHead(thumbnailUrl, now) + Lines(AllLinks(Gofiles(videos)) + AllLinks(Others(videos))) + Fence
  {
    GofileFirstPartition(videos);
    AllLinksAppend(Gofiles(videos), Others(videos));
  }

  // ----- save_upload_results -----

  /** `"<Service> <k>: <url>"` for each part, numbered from `k`. */
  function Numbered(name: string, urls: seq<string>, k: nat): (r: seq<string>)
    ensures |r| == |urls|
  {
    if urls == [] then [] else [name + " " + NatToString(k) + ": " + urls[0]] + Numbered(name, urls[1..], k + 1)
  }

  /** The `i`-th part's line carries the number `k + i`. */
  lemma {:induction false} NumberedAt(name: string, urls: seq<string>, k: nat, i: nat)
    requires i < |urls|
    ensures Numbered(name, urls, k)[i] == name + " " + NatToString(k + i) + ": " + urls[i]
  {
    if i > 0 {
      NumberedAt(name, urls[1..], k + 1, i - 1);
    }
  }

  /** The report lines of one upload, under the capitalised service name. */
  function Entries(p: Posted): seq<string> {
    var name := Capitalize(p.service);
    if p.result.multiple then Numbered(name, p.result.urls, 1) else [name + ": " + Shown(p.result.url)]
  }

  function AllEntries(v: seq<Posted>): seq<string> {
    if v == [] then [] else Entries(v[0]) + AllEntries(v[1..])
  }

  /** A split upload's parts are listed as `<Service> 1:`, `<Service> 2:`, ..., one per URL. */
  lemma EntriesNumbered(p: Posted, i: nat)
    requires p.result.multiple && i < |p.result.urls|
    ensures |Entries(p)| == |p.result.urls|
    ensures Entries(p)[i] == Capitalize(p.service) + " " + NatToString(i + 1) + ": " + p.result.urls[i]
  {
    NumberedAt(Capitalize(p.service), p.result.urls, 1, i);
  }

  /** The text `save_upload_results` writes. */
  function ReportText(videos: seq<Posted>, thumbnailUrl: Option<string>, now: Clock.DateTime): string
    requires now.Valid()
  {
    Clock.DateLine(now) + "\n\n"
    + (if Truthy(thumbnailUrl) then "Thumbnail: " + thumbnailUrl.value + "\n\n" else "")
    + (if videos != [] then "Video Links:\n" + Lines(AllEntries(videos)) else "")
  }

  /** `os.path.splitext(path)[0] + ".txt"`. */
  function ReportPath(recording: string): string {
    Paths.SplitExtRoot(recording) + ".txt"
  }

  /** `os.path.splitext(path)[0] + ".jpg"`. */
  function ThumbnailPath(recording: string): string {
    Paths.SplitExtRoot(recording) + ".jpg"
  }

  /** The thumbnail and the link file of a recording replace its `.mp4` by `.jpg` and `.txt`. */
  lemma Siblings(outputDirectory: string, username: string, now: Clock.DateTime)
    ensures var p := OutputPath(outputDirectory, username, now);
      && |p| >= 4 && p[|p| - 4..] == ".mp4"
      && ThumbnailPath(p) == p[..|p| - 4] + ".jpg"
      && ReportPath(p) == p[..|p| - 4] + ".txt"
  {
    OutputPathShape(outputDirectory, username, now);
    var p := OutputPath(outputDirectory, username, now);
    assert Paths.SplitExt(p).0 + Paths.SplitExt(p).1 == p;
  }

  // ----- the monitor -----

  /** The settings the monitor reads. */
  datatype Settings = Settings(outputDirectory: string, minFreeDiskSpace: real, removeOldRecordings: bool,
                               devMode: bool, generateThumbnail: bool, compressVideos: bool, uploadVideos: bool,
                               discordEnable: bool, deleteOriginal: bool)

  /** A call made on the UI for this monitor's user. */
  datatype UiCall = AddUser | Update(status: string, recording: Option<bool>, currentFile: Option<string>)

  /** The calls that reach the UI: none before `initialize` has set it. */
  function Shows(ui: bool, calls: seq<UiCall>): seq<UiCall> {
    if ui then calls else []
  }

  /** The messages that reach the bot's queue: none while notifications are off. */
  function Posts(enabled: bool, messages: seq<string>): seq<string> {
    if enabled then messages else []
  }

  /** Posting `a` and then `b` posts `a + b`. */
  lemma PostsThen(queue: seq<string>, enabled: bool, a: seq<string>, b: seq<string>)
    ensures queue + Posts(enabled, a) + Posts(enabled, b) == queue + Posts(enabled, a + b)
  {
    if enabled {
      assert queue + a + b == queue + (a + b);
    } else {
      assert queue + [] + [] == queue;
    }
  }

  /** The cleanup `start_recording` runs when old recordings are to be removed. */
  function Tidied(settings: Settings, disk: Cleanup.Disk, botEnabled: bool): Option<Cleanup.Report> {
    if settings.removeOldRecordings
    then Some(Cleanup.Cleanup(settings.outputDirectory, settings.minFreeDiskSpace, disk, botEnabled))
    else None
  }

  /** The cleanup's notice, posted when the sweep ran with the bot enabled. */
  function Notices(cleanup: Option<Cleanup.Report>, notice: string): seq<string> {
    if cleanup.Some? && cleanup.value.notified then [notice] else []
  }

  const NotInitialized := "UserMonitor must be initialized first"

  /** What `os.path.exists(None)` raises. */
  const StatTypeError := "stat: path should be string, bytes, os.PathLike or integer, not NoneType"

  function StartingText(username: string): string {
    "\U{1F534} " + username + ": Stream Starting"
  }

  function EndedText(username: Option<string>): string {
    "\U{26AB} " + Shown(username) + ": Stream Ended"
  }

  /**
   * One round of `start_monitoring`: the cancellation that ends the loop, or the outcome of
   * `fetch_stream_data` (an error is an exception it raised).
   */
  datatype Poll = Cancelled | Fetched(stream: Result<Fansly.Stream>)

  /** What a round did. */
  datatype Action = Skip | Record(url: string) | Waiting | Errored | Exit

  /**
   * A round: a cancellation exits; while recording nothing is fetched; a live stream with a
   * playback URL is recorded; a failed fetch is reported and the loop goes on.
   */
  function Decide(recording: bool, poll: Poll): (a: Action)
    ensures a == Exit <==> poll.Cancelled?
    ensures recording && poll.Fetched? ==> a == Skip
    ensures a.Record? <==> !recording && poll.Fetched? && poll.stream.Ok?
                           && poll.stream.value.access && Truthy(poll.stream.value.playbackUrl)
    ensures a.Record? ==> poll.stream.value.playbackUrl == Some(a.url)
    ensures a == Errored <==> !recording && poll.Fetched? && poll.stream.Err?
  {
    match poll
    case Cancelled => Exit
    case Fetched(reply) =>
      if recording then Skip
      else if reply.Err? then Errored
      else if reply.value.access && Truthy(reply.value.playbackUrl) then Record(reply.value.playbackUrl.value)
      else Waiting
  }

  /** The last round was a cancellation. */
  predicate Stopped(actions: seq<Action>) {
    actions != [] && actions[|actions| - 1] == Exit
  }

  /** The rounds of the loop after `acc`, up to and including the first exit. */
  function Run(recording: bool, polls: seq<Poll>, acc: seq<Action>): seq<Action> {
    if polls == [] then acc
    else
      var a := Decide(recording, polls[0]);
      if a == Exit then acc + [a] else Run(recording, polls[1..], acc + [a])
  }

  /**
   * The loop decides each round as `Decide` says, runs until the polls are used up or the first
   * cancellation, and stops there.
   */
  lemma {:induction false} RunRounds(recording: bool, polls: seq<Poll>, acc: seq<Action>)
    ensures var r := Run(recording, polls, acc);
      && |acc| <= |r| <= |acc| + |polls| && r[..|acc|] == acc
      && (forall k :: |acc| <= k < |r| ==> r[k] == Decide(recording, polls[k - |acc|]))
      && (forall k :: |acc| <= k < |r| - 1 ==> r[k] != Exit)
      && (|r| < |acc| + |polls| ==> |r| > 0 && r[|r| - 1] == Exit)
  {
    if polls != [] {
      var a := Decide(recording, polls[0]);
      if a != Exit {
        RunRounds(recording, polls[1..], acc + [a]);
        var r := Run(recording, polls, acc);
        assert r[..|acc|] == (r[..|acc| + 1])[..|acc|];
      }
    }
  }

  /** What `start_recording` observes: the clock, the disk, the cleanup notice's text, and whether ffmpeg launched. */
  datatype StartEnv = StartEnv(now: Clock.DateTime, disk: Cleanup.Disk, notice: string, launched: bool)

  /**
   * What `handle_stream_end` observes: whether the recording exists, how the thumbnail ended, what
   * `compress_video` observes, the four upload results, the clock as `send_end_message` and
   * then `save_upload_results` read it, and whether the link file could be written.
   */
  datatype EndEnv = EndEnv(found: bool, thumbnail: Result<()>, compress: Video.CompressFs,
                           bunkrVideo: Upload.UploadResult, gofileVideo: Upload.UploadResult,
                           jpg5Thumbnail: Upload.UploadResult, bunkrThumbnail: Upload.UploadResult,
                           noticeNow: Clock.DateTime, reportNow: Clock.DateTime, written: bool)
  {
    /** Both clock readings are real instants. */
    predicate ClocksValid() {
      noticeNow.Valid() && reportNow.Valid()
    }
  }

  /** A round of the loop with what its recording, if any, observes. */
  datatype Round = Round(poll: Poll, start: StartEnv, end: EndEnv)

  function PollsOf(rounds: seq<Round>): (r: seq<Poll>)
    ensures |r| == |rounds| && forall k :: 0 <= k < |r| ==> r[k] == rounds[k].poll
  {
    if rounds == [] then [] else [rounds[0].poll] + PollsOf(rounds[1..])
  }

  /**
   * The end of a stream: the messages posted, the uploads asked for (path and service), the video
   * results as listed, the thumbnail link, the calls `compress_video` makes on the shared UI, the
   * calls made through `update_ui`, the link file written, whether the current recording is
   * forgotten, and what was raised.
   */
  datatype StreamEnd = StreamEnd(messages: seq<string>, uploads: seq<(string, string)>, videos: seq<Posted>,
                                 thumbnailUrl: Option<string>, shared: seq<UiCall>, calls: seq<UiCall>,
                                 report: Option<(string, string)>, clears: bool, raised: Option<string>)

  /** The call `compress_video` makes on the shared UI before anything else. */
  const CompressingCall := Update(Video.CompressingStatus, Some(false), None)

  /** What compression hands on, and the notices and shared UI calls it makes. */
  datatype Compressing = Compressing(video: string, notices: seq<string>, calls: seq<UiCall>)

  /** The compression step of `handle_stream_end` for the recording `path`: nothing when it is off. */
  function CompressStage(settings: Settings, path: string, env: EndEnv): Compressing {
    if !settings.compressVideos then Compressing(path, [], [])
    else
      var c := Video.CompressVideo(path, env.compress, settings.deleteOriginal);
      var notices := if c.notified then [Video.CompressNotice(path, env.compress.reduction)] else [];
      Compressing(c.path, notices, [CompressingCall])
  }

  /**
   * The part of `handle_stream_end` after compression, for the recording `path` and the video
   * `video` compression handed on: uploads, the notice, the link file, and the UI.
   */
  function Published(settings: Settings, path: string, video: string, thumbnail: Option<string>, env: EndEnv): StreamEnd
    requires env.ClocksValid()
  {
    var done := [Update("Stream ended", Some(false), None)];
    if !settings.uploadVideos then StreamEnd([], [], [], None, [], done, None, true, None)
    else
      var videos := if video != "" then [Posted("bunkr", env.bunkrVideo), Posted("gofile", env.gofileVideo)] else [];
      var url := if thumbnail.Some? then ThumbnailUrl(env.jpg5Thumbnail, env.bunkrThumbnail) else None;
      var uploads := (if video != "" then [(video, "bunkr"), (video, "gofile")] else [])
                     + (if thumbnail.Some? then [(thumbnail.value, "jpg5"), (thumbnail.value, "bunkr")] else []);
      var notice := if settings.discordEnable then [EndMessage(videos, url, env.noticeNow)] else [];
      var report := if env.written then Some((ReportPath(path), ReportText(videos, url, env.reportNow))) else None;
      StreamEnd(notice, uploads, videos, url, [], done, report, true, None)
  }

  /**
   * The part of `handle_stream_end` after the existence check and the thumbnail: compression,
   * then what `Published` describes.
   */
  function Finished(settings: Settings, path: string, thumbnail: Option<string>, env: EndEnv): StreamEnd
    requires env.ClocksValid()
  {
    var c := CompressStage(settings, path, env);
    var p := Published(settings, path, c.video, thumbnail, env);
    p.(messages := c.notices + p.messages, shared := c.calls)
  }

  /** `handle_stream_end` for the recording `path`. */
  function StreamEnded(settings: Settings, username: Option<string>, path: Option<string>, env: EndEnv): StreamEnd
    requires env.ClocksValid()
  {
    var ended := [EndedText(username)];
    if path.None? then StreamEnd(ended, [], [], None, [], [], None, false, Some(StatTypeError))
    else if !env.found then StreamEnd(ended, [], [], None, [], [], None, false, None)
    else
      var f := Found(settings, path.value, env);
      f.(messages := ended + f.messages)
  }

  /** `handle_stream_end` after the announcement, for a recording `path` that exists: the thumbnail, then `Finished`. */
  function Found(settings: Settings, path: string, env: EndEnv): StreamEnd
    requires env.ClocksValid()
  {
    if settings.generateThumbnail && env.thumbnail.Err? then
      StreamEnd([], [], [], None, [], [], None, false, Some(env.thumbnail.error))
    else
      var thumbnail := if settings.generateThumbnail then Some(ThumbnailPath(path)) else None;
      Finished(settings, path, thumbnail, env)
  }

  /**
   * Whatever happens, the end is announced first. A missing recording (or a thumbnail that
   * raised) stops there: nothing is uploaded or written and the recording is not forgotten.
   */
  lemma StreamEndStops(settings: Settings, username: Option<string>, path: Option<string>, env: EndEnv)
    requires env.ClocksValid()
    ensures var e := StreamEnded(settings, username, path, env);
      && 1 <= |e.messages| <= 3 && e.messages[0] == EndedText(username)
      && (path.None? || !env.found || (settings.generateThumbnail && env.thumbnail.Err?) <==> !e.clears)
      && (!e.clears ==> e.uploads == [] && e.report == None && e.shared == [] && e.calls == [] && |e.messages| == 1)
      && (!e.clears <==> e.raised.Some? || (path.Some? && !env.found))
  {
  }

  /**
   * A finished end forgets the recording and shows "Stream ended". With compression on,
   * `compress_video` first shows its status on the shared UI and posts its notice after a
   * successful run, right after the end announcement. The end notice comes last, and is sent
   * exactly when uploads and notifications are on.
   */
  lemma StreamEndNotices(settings: Settings, username: Option<string>, path: string, env: EndEnv)
    requires env.ClocksValid() && env.found && (settings.generateThumbnail ==> env.thumbnail.Ok?)
    ensures var e := StreamEnded(settings, username, Some(path), env);
      var compressed := settings.compressVideos && Video.CompressVideo(path, env.compress, settings.deleteOriginal).notified;
      var ended := settings.uploadVideos && settings.discordEnable;
      && e.clears && e.raised == None && e.calls == [Update("Stream ended", Some(false), None)]
      && e.shared == (if settings.compressVideos then [CompressingCall] else [])
      && |e.messages| == 1 + (if compressed then 1 else 0) + (if ended then 1 else 0)
      && e.messages[0] == EndedText(username)
      && (compressed ==> e.messages[1] == Video.CompressNotice(path, env.compress.reduction))
      && (ended ==> e.messages[|e.messages| - 1] == EndMessage(e.videos, e.thumbnailUrl, env.noticeNow))
  {
    var thumbnail := if settings.generateThumbnail then Some(ThumbnailPath(path)) else None;
    var cs := CompressStage(settings, path, env);
    var p := Published(settings, path, cs.video, thumbnail, env);
    PublishedNotices(settings, path, cs.video, thumbnail, env);
    assert Found(settings, path, env) == p.(messages := cs.notices + p.messages, shared := cs.calls);
  }

  /**
   * With uploads on, the video compression handed on goes to Bunkr and then GoFile and the
   * thumbnail to jpg5 and then Bunkr, the results are listed in that order, and the link file is
   * written beside the recording. With uploads off, nothing is uploaded or written.
   */
  lemma StreamEndUploads(settings: Settings, username: Option<string>, path: string, env: EndEnv)
    requires env.ClocksValid() && env.found && (settings.generateThumbnail ==> env.thumbnail.Ok?)
    ensures var e := StreamEnded(settings, username, Some(path), env);
      var video := if settings.compressVideos then Video.CompressVideo(path, env.compress, settings.deleteOriginal).path else path;
      && (!settings.uploadVideos ==> e.uploads == [] && e.report == None)
      && (settings.uploadVideos && video != "" ==>
            e.uploads[..2] == [(video, "bunkr"), (video, "gofile")]
            && e.videos == [Posted("bunkr", env.bunkrVideo), Posted("gofile", env.gofileVideo)])
      && (settings.uploadVideos && settings.generateThumbnail ==>
            e.uploads[|e.uploads| - 2..] == [(ThumbnailPath(path), "jpg5"), (ThumbnailPath(path), "bunkr")]
            && e.thumbnailUrl == ThumbnailUrl(env.jpg5Thumbnail, env.bunkrThumbnail))
      && (!settings.generateThumbnail ==> e.thumbnailUrl == None)
      && (e.report.Some? <==> settings.uploadVideos && env.written)
      && (e.report.Some? ==> e.report.value.0 == ReportPath(path))
  {
    var thumbnail := if settings.generateThumbnail then Some(ThumbnailPath(path)) else None;
    var cs := CompressStage(settings, path, env);
    var p := Published(settings, path, cs.video, thumbnail, env);
    PublishedUploads(settings, path, cs.video, thumbnail, env);
    assert Found(settings, path, env) == p.(messages := cs.notices + p.messages, shared := cs.calls);
  }

  /** The messages and UI calls of `Published` for any video handed on. */
  lemma PublishedNotices(settings: Settings, path: string, video: string, thumbnail: Option<string>, env: EndEnv)
    requires env.ClocksValid()
    ensures var p := Published(settings, path, video, thumbnail, env);
      && p.clears && p.raised == None && p.shared == [] && p.calls == [Update("Stream ended", Some(false), None)]
      && p.messages == (if settings.uploadVideos && settings.discordEnable then [EndMessage(p.videos, p.thumbnailUrl, env.noticeNow)] else [])
  {
  }

  /** The uploads, links and link file of `Published` for any video handed on. */
  lemma PublishedUploads(settings: Settings, path: string, video: string, thumbnail: Option<string>, env: EndEnv)
    requires env.ClocksValid() && (thumbnail.Some? ==> thumbnail.value == ThumbnailPath(path))
    ensures var p := Published(settings, path, video, thumbnail, env);
      && (!settings.uploadVideos ==> p.uploads == [] && p.report == None)
      && (settings.uploadVideos && video != "" ==>
            p.uploads[..2] == [(video, "bunkr"), (video, "gofile")]
            && p.videos == [Posted("bunkr", env.bunkrVideo), Posted("gofile", env.gofileVideo)])
      && (settings.uploadVideos && thumbnail.Some? ==>
            p.uploads[|p.uploads| - 2..] == [(ThumbnailPath(path), "jpg5"), (ThumbnailPath(path), "bunkr")]
            && p.thumbnailUrl == ThumbnailUrl(env.jpg5Thumbnail, env.bunkrThumbnail))
      && (thumbnail.None? ==> p.thumbnailUrl == None)
      && (p.report.Some? <==> settings.uploadVideos && env.written)
      && (p.report.Some? ==> p.report.value.0 == ReportPath(path))
  {
  }

  class UserMonitor {
    var username: Option<string>
    var userId: Option<string>
    var isRecording: bool
    var currentOutputPath: Option<string>
    /** Whether `initialize` has attached the UI. */
    var ui: bool
    var running: bool
    /** The calls made on the UI, in order. */
    var uiCalls: seq<UiCall>
    /** The link files written, by path. */
    var files: map<string, string>
    const bot: DiscordBot.Bot

    /** A monitor with a user id has a username. */
    predicate Valid()
      reads this
    {
      Truthy(userId) ==> username.Some?
    }

    /** `UserMonitor()`: nothing known, not recording, running. */
    constructor (bot: DiscordBot.Bot)
      ensures Valid()
      ensures username == None && userId == None && !isRecording && currentOutputPath == None && !ui && running
      ensures uiCalls == [] && files == map[] && this.bot == bot
    {
      username := None;
      userId := None;
      isRecording := false;
      currentOutputPath := None;
      ui := false;
      running := true;
      uiCalls := [];
      files := map[];
      this.bot := bot;
    }

    /**
     * `initialize(username)`: `userData` is the id `fetch_user_data` yields (`None` when the
     * record has none), or what it raised.
     */
    method Initialize(name: string, userData: Result<Option<string>>) returns (raised: Option<string>)
      modifies this
      ensures Valid()
      ensures username == Some(name) && ui
      ensures userData.Err? ==>
        && raised == Some(userData.error) && userId == old(userId)
        && uiCalls == old(uiCalls) + [AddUser, Update("Fetching user data...", None, None)]
      ensures userData.Ok? ==>
        && raised == None && userId == userData.value
        && uiCalls == old(uiCalls) + [AddUser, Update("Fetching user data...", None, None),
                                      Update("User data fetched successfully.", None, None)]
      ensures isRecording == old(isRecording) && currentOutputPath == old(currentOutputPath)
      ensures running == old(running) && files == old(files)
    {
      username := Some(name);
      ui := true;
      uiCalls := uiCalls + [AddUser, Update("Fetching user data...", None, None)];
      if userData.Err? {
        return Some(userData.error);
      }
      userId := userData.value;
      uiCalls := uiCalls + [Update("User data fetched successfully.", None, None)];
      raised := None;
    }

    /** `update_ui(status, recording, current_file)`. */
    method UpdateUi(status: string, recording: Option<bool>, currentFile: Option<string>)
      modifies this
      ensures uiCalls == old(uiCalls) + Shows(ui, [Update(status, recording, currentFile)])
      ensures username == old(username) && userId == old(userId) && isRecording == old(isRecording)
      ensures currentOutputPath == old(currentOutputPath) && ui == old(ui) && running == old(running)
      ensures files == old(files)
    {
      if ui {
        uiCalls := uiCalls + [Update(status, recording, currentFile)];
      }
    }

    /** `stop()`: the loop ends at its next test. */
    method Stop()
      modifies this
      ensures !running
      ensures username == old(username) && userId == old(userId) && isRecording == old(isRecording)
      ensures currentOutputPath == old(currentOutputPath) && ui == old(ui) && uiCalls == old(uiCalls)
      ensures files == old(files)
    {
      running := false;
    }

    /**
     * `start_recording(url)`: nothing while a recording runs. Otherwise the optional cleanup, the
     * starting notice, the recording's path, and ffmpeg; the monitor is recording exactly when
     * ffmpeg launched. The recording itself and the end task are the caller's.
     */
    method StartRecording(settings: Settings, url: string, env: StartEnv)
      returns (cleanup: Option<Cleanup.Report>, command: Option<seq<string>>)
      requires username.Some?
      modifies this, bot
      ensures username == old(username) && userId == old(userId) && ui == old(ui) && running == old(running)
      ensures files == old(files) && bot.enabled == old(bot.enabled)
      ensures old(isRecording) ==>
        && cleanup == None && command == None && isRecording
        && currentOutputPath == old(currentOutputPath) && uiCalls == old(uiCalls) && bot.queue == old(bot.queue)
      ensures !old(isRecording) ==>
        && cleanup == Tidied(settings, env.disk, bot.enabled)
        && bot.queue == old(bot.queue) + Posts(bot.enabled, Notices(cleanup, env.notice) + [StartingText(username.value)])
        && currentOutputPath == Some(OutputPath(settings.outputDirectory, username.value, env.now))
        && uiCalls == old(uiCalls) + Shows(ui, [Update("Recording", Some(true), Some(Paths.Basename(currentOutputPath.value)))])
        && command == Some(FfmpegCommand(url, currentOutputPath.value, settings.devMode))
        && isRecording == env.launched
    {
      if isRecording {
        return None, None;
      }
      cleanup := Tidy(settings, env, bot);
      command := Begin(settings, url, env);
      PostsThen(old(bot.queue), bot.enabled, Notices(cleanup, env.notice), [StartingText(username.value)]);
    }

    /** `start_recording` after the cleanup: the notice, the path, the UI, and ffmpeg. */
    method Begin(settings: Settings, url: string, env: StartEnv) returns (command: Option<seq<string>>)
      requires username.Some?
      modifies this, bot
      ensures username == old(username) && userId == old(userId) && ui == old(ui) && running == old(running)
      ensures files == old(files) && bot.enabled == old(bot.enabled)
      ensures bot.queue == old(bot.queue) + Posts(bot.enabled, [StartingText(username.value)])
      ensures currentOutputPath == Some(OutputPath(settings.outputDirectory, username.value, env.now))
      ensures uiCalls == old(uiCalls) + Shows(ui, [Update("Recording", Some(true), Some(Paths.Basename(currentOutputPath.value)))])
      ensures command == Some(FfmpegCommand(url, currentOutputPath.value, settings.devMode))
      ensures isRecording == env.launched
    {
      var name := username.value;
      var outputPath := OutputPath(settings.outputDirectory, name, env.now);
      bot.SendMessage(StartingText(name));
      currentOutputPath := Some(outputPath);
      UpdateUi("Recording", Some(true), Some(Paths.Basename(outputPath)));
      command := Some(FfmpegCommand(url, outputPath, settings.devMode));
      if env.launched {
        isRecording := true;
      } else {
        isRecording := false;
      }
    }

    /** `check_disk_space_and_cleanup` when old recordings are to be removed, with its notice. */
    static method Tidy(settings: Settings, env: StartEnv, bot: DiscordBot.Bot) returns (cleanup: Option<Cleanup.Report>)
      modifies bot
      ensures cleanup == Tidied(settings, env.disk, bot.enabled)
      ensures bot.queue == old(bot.queue) + Posts(bot.enabled, Notices(cleanup, env.notice))
      ensures bot.enabled == old(bot.enabled)
    {
      cleanup := None;
      if settings.removeOldRecordings {
        var report := Cleanup.CheckDiskSpaceAndCleanup(settings.outputDirectory, settings.minFreeDiskSpace, env.disk, bot.enabled);
        cleanup := Some(report);
        if report.notified {
          bot.SendMessage(env.notice);
        }
      }
    }

    /** `send_end_message(videos, thumbnail_url)`. */
    method SendEndMessage(videos: seq<Posted>, thumbnailUrl: Option<string>, now: Clock.DateTime)
      requires now.Valid()
      modifies bot
      ensures bot.queue == old(bot.queue) + Posts(bot.enabled, [EndMessage(videos, thumbnailUrl, now)])
      ensures bot.enabled == old(bot.enabled)
    {
      var message := ComposeEndMessage(videos, thumbnailUrl, now);
      bot.SendMessage(message);
    }

    /** The text of `send_end_message`, built line by line. */
    static method ComposeEndMessage(videos: seq<Posted>, thumbnailUrl: Option<string>, now: Clock.DateTime)
      returns (message: string)
      requires now.Valid()
      ensures message == EndMessage(videos, thumbnailUrl, now)
    {
      message := EndHead(thumbnailUrl, now);
      if videos != [] {
        var sorted := GofileFirst(videos);
        message := AppendAllLinks(message, sorted);
      }
      message := message + Fence;
    }

    /** The loop over the sorted uploads: each upload's links, one line each. */
    static method AppendAllLinks(message: string, sorted: seq<Posted>) returns (m: string)
      ensures m == message + Lines(AllLinks(sorted))
    {
      m := message;
      var i := 0;
      while i < |sorted|
        invariant 0 <= i <= |sorted|
        invariant m + Lines(AllLinks(sorted[i..])) == message + Lines(AllLinks(sorted))
      {
        ghost var links, later := Links(sorted[i].result), AllLinks(sorted[i + 1..]);
        assert AllLinks(sorted[i..]) == links + later by {
          assert sorted[i..][1..] == sorted[i + 1..];
        }
        LinesAfter(m, links, later);
        m := AppendLines(m, Links(sorted[i].result));
        i := i + 1;
      }
      assert sorted[i..] == [];
    }

    /** Appends each link and a newline. */
    static method AppendLines(message: string, links: seq<string>) returns (m: string)
      ensures m == message + Lines(links)
    {
      m := message;
      var j := 0;
      while j < |links|
        invariant 0 <= j <= |links|
        invariant m + Lines(links[j..]) == message + Lines(links)
      {
        assert links[j..][1..] == links[j + 1..];
        m := m + links[j] + "\n";
        j := j + 1;
      }
      assert links[j..] == [];
    }

    /** `save_upload_results(videos, thumbnail_url)`: written only while a recording is current. */
    method SaveUploadResults(videos: seq<Posted>, thumbnailUrl: Option<string>, now: Clock.DateTime, written: bool)
      requires now.Valid()
      modifies this
      ensures files == if currentOutputPath.Some? && written
                       then old(files)[ReportPath(currentOutputPath.value) := ReportText(videos, thumbnailUrl, now)]
                       else old(files)
      ensures username == old(username) && userId == old(userId) && isRecording == old(isRecording)
      ensures currentOutputPath == old(currentOutputPath) && ui == old(ui) && running == old(running)
      ensures uiCalls == old(uiCalls)
    {
      if currentOutputPath.Some? {
        var txtPath := ReportPath(currentOutputPath.value);
        var content := ReportText(videos, thumbnailUrl, now);
        if written {
          files := files[txtPath := content];
        }
      }
    }

    /** `handle_stream_end()`, with the end task running to completion. */
    method HandleStreamEnd(settings: Settings, env: EndEnv) returns (uploads: seq<(string, string)>, raised: Option<string>)
      requires env.ClocksValid()
      modifies this, bot
      ensures username == old(username) && userId == old(userId) && ui == old(ui) && running == old(running)
      ensures bot.enabled == old(bot.enabled)
      ensures var e := StreamEnded(settings, old(username), old(currentOutputPath), env);
        && !isRecording && uploads == e.uploads && raised == e.raised
        && bot.queue == old(bot.queue) + Posts(bot.enabled, e.messages)
        && uiCalls == old(uiCalls) + e.shared + Shows(ui, e.calls)
        && files == (if e.report.Some? then old(files)[e.report.value.0 := e.report.value.1] else old(files))
        && currentOutputPath == (if e.clears then None else old(currentOutputPath))
    {
      isRecording := false;
      bot.SendMessage(EndedText(username));
      uploads, raised := [], None;
      if currentOutputPath.None? {
        return [], Some(StatTypeError);
      }
      if !env.found {
        return;
      }
      ghost var f := Found(settings, currentOutputPath.value, env);
      uploads, raised := Conclude(settings, env);
      PostsThen(old(bot.queue), bot.enabled, [EndedText(old(username))], f.messages);
    }

    /** `handle_stream_end` once the recording is known to exist: the thumbnail, then `Finish`. */
    method Conclude(settings: Settings, env: EndEnv) returns (uploads: seq<(string, string)>, raised: Option<string>)
      requires env.ClocksValid() && currentOutputPath.Some?
      modifies this, bot
      ensures username == old(username) && userId == old(userId) && ui == old(ui) && running == old(running)
      ensures bot.enabled == old(bot.enabled) && isRecording == old(isRecording)
      ensures var f := Found(settings, old(currentOutputPath.value), env);
        && uploads == f.uploads && raised == f.raised
        && bot.queue == old(bot.queue) + Posts(bot.enabled, f.messages)
        && uiCalls == old(uiCalls) + f.shared + Shows(ui, f.calls)
        && files == (if f.report.Some? then old(files)[f.report.value.0 := f.report.value.1] else old(files))
        && currentOutputPath == (if f.clears then None else old(currentOutputPath))
    {
      var thumbnailPath: Option<string> := None;
      if settings.generateThumbnail {
        var thumbnailName := ThumbnailPath(currentOutputPath.value);
        if env.thumbnail.Err? {
          assert old(bot.queue) + [] == old(bot.queue) && old(uiCalls) + [] + [] == old(uiCalls);
          return [], Some(env.thumbnail.error);
        }
        thumbnailPath := Some(thumbnailName);
      }
      uploads := Finish(settings, thumbnailPath, env);
      raised := None;
    }

    /** What `handle_stream_end` does once the recording is known to exist and the thumbnail is made. */
    method Finish(settings: Settings, thumbnailPath: Option<string>, env: EndEnv) returns (uploads: seq<(string, string)>)
      requires env.ClocksValid() && currentOutputPath.Some?
      modifies this, bot
      ensures username == old(username) && userId == old(userId) && ui == old(ui) && running == old(running)
      ensures bot.enabled == old(bot.enabled) && isRecording == old(isRecording)
      ensures var f := Finished(settings, old(currentOutputPath.value), thumbnailPath, env);
        && uploads == f.uploads
        && bot.queue == old(bot.queue) + Posts(bot.enabled, f.messages)
        && uiCalls == old(uiCalls) + f.shared + Shows(ui, f.calls)
        && files == (if f.report.Some? then old(files)[f.report.value.0 := f.report.value.1] else old(files))
        && currentOutputPath == None
    {
      ghost var c := CompressStage(settings, currentOutputPath.value, env);
      ghost var p := Published(settings, currentOutputPath.value, c.video, thumbnailPath, env);
      assert Finished(settings, currentOutputPath.value, thumbnailPath, env)
          == p.(messages := c.notices + p.messages, shared := c.calls);
      var videoPath := currentOutputPath.value;
      if settings.compressVideos {
        videoPath := Compress(settings, env);
      }
      uploads := [];
      if settings.uploadVideos {
        uploads := Publish(settings, videoPath, thumbnailPath, env);
      }
      PostsThen(old(bot.queue), bot.enabled, c.notices, p.messages);
      UpdateUi("Stream ended", Some(false), None);
      currentOutputPath := None;
    }

    /**
     * `compress_video(current_output_path, username)`: its status goes to the shared UI whether or
     * not `initialize` attached it here, and its notice goes to the shared bot after a successful run.
     */
    method Compress(settings: Settings, env: EndEnv) returns (video: string)
      requires currentOutputPath.Some? && settings.compressVideos
      modifies this, bot
      ensures username == old(username) && userId == old(userId) && ui == old(ui) && running == old(running)
      ensures bot.enabled == old(bot.enabled) && isRecording == old(isRecording)
      ensures currentOutputPath == old(currentOutputPath) && files == old(files)
      ensures var c := CompressStage(settings, currentOutputPath.value, env);
        && video == c.video
        && uiCalls == old(uiCalls) + c.calls
        && bot.queue == old(bot.queue) + Posts(bot.enabled, c.notices)
    {
      var input := currentOutputPath.value;
      uiCalls := uiCalls + [CompressingCall];
      var c := Video.CompressVideo(input, env.compress, settings.deleteOriginal);
      if c.notified {
        bot.SendMessage(Video.CompressNotice(input, env.compress.reduction));
      }
      video := c.path;
    }

    /** The uploads, the notice and the link file of `handle_stream_end`, for the video at `videoPath`. */
    method Publish(settings: Settings, videoPath: string, thumbnailPath: Option<string>, env: EndEnv)
      returns (uploads: seq<(string, string)>)
      requires env.ClocksValid() && currentOutputPath.Some? && settings.uploadVideos
      modifies this, bot
      ensures username == old(username) && userId == old(userId) && ui == old(ui) && running == old(running)
      ensures bot.enabled == old(bot.enabled) && isRecording == old(isRecording)
      ensures uiCalls == old(uiCalls) && currentOutputPath == old(currentOutputPath)
      ensures var f := Published(settings, old(currentOutputPath.value), videoPath, thumbnailPath, env);
        && uploads == f.uploads
        && bot.queue == old(bot.queue) + Posts(bot.enabled, f.messages)
        && files == (if f.report.Some? then old(files)[f.report.value.0 := f.report.value.1] else old(files))
    {
      ghost var f := Published(settings, currentOutputPath.value, videoPath, thumbnailPath, env);
      var videos, thumbnailUrl := UploadAll(videoPath, thumbnailPath, env);
      assert f.videos == videos && f.thumbnailUrl == thumbnailUrl;
      uploads := (if videoPath != "" then [(videoPath, "bunkr"), (videoPath, "gofile")] else [])
                 + (if thumbnailPath.Some? then [(thumbnailPath.value, "jpg5"), (thumbnailPath.value, "bunkr")] else []);
      if settings.discordEnable {
        SendEndMessage(videos, thumbnailUrl, env.noticeNow);
        assert f.messages == [EndMessage(videos, thumbnailUrl, env.noticeNow)];
      } else {
        assert f.messages == [] && old(bot.queue) + [] == old(bot.queue);
      }
      SaveUploadResults(videos, thumbnailUrl, env.reportNow, env.written);
    }

    /** The uploads of the video and of the thumbnail, and the thumbnail link chosen from them. */
    static method UploadAll(videoPath: string, thumbnailPath: Option<string>, env: EndEnv)
      returns (videos: seq<Posted>, thumbnailUrl: Option<string>)
      ensures videos == if videoPath != "" then [Posted("bunkr", env.bunkrVideo), Posted("gofile", env.gofileVideo)] else []
      ensures thumbnailUrl == if thumbnailPath.Some? then ThumbnailUrl(env.jpg5Thumbnail, env.bunkrThumbnail) else None
    {
      videos := [];
      thumbnailUrl := None;
      if videoPath != "" {
        videos := videos + [Posted("bunkr", env.bunkrVideo), Posted("gofile", env.gofileVideo)];
      }
      if thumbnailPath.Some? {
        var jpg5Result, bunkrResult := env.jpg5Thumbnail, env.bunkrThumbnail;
        if jpg5Result.success && Truthy(jpg5Result.url) {
          thumbnailUrl := jpg5Result.url;
        } else if bunkrResult.success && Truthy(bunkrResult.url) {
          thumbnailUrl := bunkrResult.url;
        }
      }
    }

    /**
     * `start_monitoring()`: refuses a monitor without a user id; otherwise runs rounds while
     * running, each decided as `Decide` says, recording a live stream and then handling its end.
     */
    method StartMonitoring(settings: Settings, rounds: seq<Round>) returns (r: Result<seq<Action>>)
      requires Valid()
      requires forall k :: 0 <= k < |rounds| ==> rounds[k].end.ClocksValid()
      modifies this, bot
      ensures username == old(username) && userId == old(userId)
      ensures !Truthy(old(userId)) ==>
        && r == Err(NotInitialized)
        && running == old(running) && isRecording == old(isRecording)
        && bot.queue == old(bot.queue) && bot.sent == old(bot.sent)
      ensures Truthy(old(userId)) ==>
        && r == Ok(if old(running) then Run(old(isRecording), PollsOf(rounds), []) else [])
        && isRecording == old(isRecording)
        && running == (old(running) && !Stopped(r.value))
    {
      if !Truthy(userId) {
        return Err(NotInitialized);
      }
      if !running {
        return Ok([]);
      }
      var actions := PollLoop(settings, rounds);
      r := Ok(actions);
    }

    /** The `while self.running` loop of `start_monitoring()`. */
    method PollLoop(settings: Settings, rounds: seq<Round>) returns (actions: seq<Action>)
      requires username.Some? && running
      requires forall k :: 0 <= k < |rounds| ==> rounds[k].end.ClocksValid()
      modifies this, bot
      ensures username == old(username) && userId == old(userId)
      ensures actions == Run(old(isRecording), PollsOf(rounds), [])
      ensures isRecording == old(isRecording) && running == !Stopped(actions)
    {
      ghost var polls := PollsOf(rounds);
      ghost var recording := isRecording;
      actions := [];
      var i := 0;
      while running && i < |rounds|
        invariant 0 <= i <= |rounds|
        invariant username == old(username) && userId == old(userId) && username.Some? && isRecording == recording
        invariant running ==> !Stopped(actions) && Run(recording, polls, []) == Run(recording, polls[i..], actions)
        invariant !running ==> Stopped(actions) && Run(recording, polls, []) == actions
        decreases |rounds| - i
      {
        assert polls[i..][0] == rounds[i].poll && polls[i..][1..] == polls[i + 1..];
        var a := PollRound(settings, rounds[i]);
        actions := actions + [a];
        i := i + 1;
      }
      assert running ==> polls[i..] == [];
    }

    /** One round of the loop. */
    method PollRound(settings: Settings, round: Round) returns (a: Action)
      requires username.Some? && round.end.ClocksValid()
      modifies this, bot
      ensures a == Decide(old(isRecording), round.poll)
      ensures isRecording == old(isRecording) && running == (old(running) && a != Exit)
      ensures username == old(username) && userId == old(userId)
    {
      match round.poll
      case Cancelled =>
        Stop();
        a := Exit;
      case Fetched(reply) =>
        if isRecording {
          a := Skip;
        } else if reply.Err? {
          UpdateUi("Error occurred during monitoring", Some(false), None);
          a := Errored;
        } else if reply.value.access && Truthy(reply.value.playbackUrl) {
          var _, _ := StartRecording(settings, reply.value.playbackUrl.value, round.start);
          if isRecording {
            var _, _ := HandleStreamEnd(settings, round.end);
          }
          a := Record(reply.value.playbackUrl.value);
        } else {
          UpdateUi("Waiting for stream...", Some(false), None);
          a := Waiting;
        }
    }
  }
}
