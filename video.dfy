/**
 * Post-processing of a finished recording: the compression decision of `compress_video` and the
 * plan of `split_video_by_size` (how many parts, their names, where each cut starts, reuse of
 * parts split earlier). ffmpeg, ffprobe and the file system are inputs.
 */
module Video {
  import opened Wrappers
  import opened Strings
  import Paths

  const CompressedSuffix := "_compressed.mp4"
  /** The status `compress_video` shows for the user before anything else. */
  const CompressingStatus := "Compressing video..."
  const FloatZeroDivision := "float division by zero"

  // ----- compress_video -----

  /** `input.rsplit(".", 1)[0] + "_compressed.mp4"`: never the input path itself. */
  function CompressedPath(input: string): (r: string)
    ensures EndsWith(r, CompressedSuffix)
    ensures StartsWith(input, r[..|r| - |CompressedSuffix|])
    ensures r != input
  {
    var root := Paths.RSplitDotRoot(input);
    var r := root + CompressedSuffix;
    assert r[..|r| - |CompressedSuffix|] == root;
    assert r[|root|] == '_';
    r
  }

  /**
   * What `compress_video` observes: whether the compressed file is already there, whether the
   * input exists and its size in bytes, how ffmpeg ends (its exit code, or the exception that
   * prevented or interrupted it), whether the output exists afterwards, how removing the
   * original ends, and the size reduction as the success notice renders it.
   */
  datatype CompressFs = CompressFs(compressedExists: bool, inputExists: bool, inputSize: nat, exitCode: Result<int>,
                                   outputExists: bool, removal: Result<()>, reduction: string)

  /**
   * The outcome: the path handed on, whether ffmpeg was launched (true also when the launch
   * itself raised), whether the success notification was sent, whether removing the original was
   * attempted and whether it succeeded.
   */
  datatype Compression = Compression(path: string, ranFfmpeg: bool, notified: bool, removeAttempted: bool, removed: bool)

  /**
   * `compress_video(input)`: an existing compressed file is handed on as it is; a missing input is
   * handed on unchanged; otherwise ffmpeg runs and its output is handed on only when it exits with
   * 0 and the output exists, in which case the original is removed when `deleteOriginal` is on.
   * An empty input makes the size-reduction ratio divide by zero; the `except` around the run
   * catches that, so the input path is handed on with no notification and no removal.
   */
  function CompressVideo(input: string, fs: CompressFs, deleteOriginal: bool): (r: Compression)
    ensures r.path == CompressedPath(input) || r.path == input
    ensures r.path == CompressedPath(input) <==>
      fs.compressedExists || (fs.inputExists && fs.exitCode == Ok(0) && fs.outputExists && fs.inputSize > 0)
    ensures r.ranFfmpeg <==> !fs.compressedExists && fs.inputExists
    ensures r.notified <==> r.ranFfmpeg && r.path == CompressedPath(input)
    ensures r.removeAttempted <==> r.notified && deleteOriginal
    ensures r.removed <==> r.removeAttempted && fs.removal.Ok?
  {
    var compressed := CompressedPath(input);
    if fs.compressedExists then Compression(compressed, false, false, false, false)
    else if !fs.inputExists then Compression(input, false, false, false, false)
    else if fs.exitCode == Ok(0) && fs.outputExists && fs.inputSize > 0 then
      Compression(compressed, true, true, deleteOriginal, deleteOriginal && fs.removal.Ok?)
    else Compression(input, true, false, false, false)
  }

  /** The Discord notice `compress_video` posts after a successful run. */
  function CompressNotice(input: string, reduction: string): string {
    "\U{1F7E1} Video " + Paths.Basename(input) + " compressed successfully. Size reduced by " + reduction + "%."
  }

  /** A failed removal of the original does not change the path handed on. */
  lemma RemovalDoesNotMatter(input: string, fs: CompressFs, deleteOriginal: bool, removal: Result<()>)
    ensures CompressVideo(input, fs, deleteOriginal).path == CompressVideo(input, fs.(removal := removal), deleteOriginal).path
  {
  }

  // ----- split_video_by_size -----

  /** `math.ceil(x)`. */
  function Ceil(x: real): (n: int)
    ensures n as real >= x && (n - 1) as real < x
  {
    -((-x).Floor)
  }

  /** Multiplying both sides of `a <= b` (or `a < b`) by a positive factor keeps the order. */
  lemma ScaleOrder(a: real, b: real, m: real)
    requires m > 0.0
    ensures a <= b ==> a * m <= b * m
    ensures a < b ==> a * m < b * m
  {
  }

  /**
   * `math.ceil(size / maxSize)`: for a positive bound, the fewest parts of at most `maxSize`
   * bytes that hold `size` bytes.
   */
  function SegmentCount(size: nat, maxSize: real): (n: int)
    requires maxSize != 0.0
  {
    Ceil(size as real / maxSize)
  }

  lemma SegmentCountMinimal(size: nat, maxSize: real)
    requires maxSize > 0.0
    ensures var n := SegmentCount(size, maxSize);
      n >= 0 && size as real <= n as real * maxSize && (n - 1) as real * maxSize < size as real
  {
    var q := size as real / maxSize;
    var n := SegmentCount(size, maxSize);
    assert q * maxSize == size as real;
    assert n as real >= q && (n - 1) as real < q;
    ScaleOrder(q, n as real, maxSize);
    ScaleOrder((n - 1) as real, q, maxSize);
    assert (n - 1) as real * maxSize < q * maxSize;
    assert q >= 0.0;
    assert (n - 1) as real * maxSize < size as real;
  }

  /** `Path(video).stem`. */
  function StemOf(video: string): string {
    Paths.Stem(Paths.Basename(video))
  }

  /** `Path(video).parent / f"{stem}_chunks"`. */
  function ChunksDir(video: string): string {
    Paths.Child(Paths.Dirname(video), StemOf(video) + "_chunks")
  }

  /** The `i`-th part (from 0): `<stem>_part<i + 1><suffix>` inside the chunks directory. */
  function PartPath(video: string, i: nat): string {
    Paths.Child(ChunksDir(video), StemOf(video) + "_part" + NatToString(i + 1) + Paths.Suffix(Paths.Basename(video)))
  }

  /** `[f(0), ..., f(n - 1)]`, built by appending as the loops of the source do. */
  function Listing<T>(f: nat -> T, n: nat): (r: seq<T>)
    ensures |r| == n
    decreases n
  {
    if n == 0 then [] else Listing(f, n - 1) + [f(n - 1)]
  }

  lemma {:induction false} ListingIndex<T>(f: nat -> T, n: nat)
    ensures forall i :: 0 <= i < n ==> Listing(f, n)[i] == f(i)
    decreases n
  {
    if n > 0 {
      ListingIndex(f, n - 1);
    }
  }

  /** The first `n` part paths, in index order. */
  function Parts(video: string, n: nat): (r: seq<string>)
    ensures |r| == n
  {
    Listing(i => PartPath(video, i), n)
  }

  lemma ChildInjective(dir: string, a: string, b: string)
    requires Paths.Child(dir, a) == Paths.Child(dir, b)
    ensures a == b
  {
    var p := Paths.Child(dir, "");
    assert Paths.Child(dir, a) == p + a && Paths.Child(dir, b) == p + b;
    assert a == (p + a)[|p|..];
  }

  /** Two parts of the same video never share a path. */
  lemma PartsDistinct(video: string, i: nat, j: nat)
    requires i != j
    ensures PartPath(video, i) != PartPath(video, j)
  {
    if PartPath(video, i) == PartPath(video, j) {
      var pre := StemOf(video) + "_part";
      var suf := Paths.Suffix(Paths.Basename(video));
      var a := NatToString(i + 1);
      var b := NatToString(j + 1);
      ChildInjective(ChunksDir(video), pre + a + suf, pre + b + suf);
      InfixInjective(pre, a, b, suf);
      DigitsOfNat(i + 1);
      DigitsOfNat(j + 1);
    }
  }

  /** Two names that differ only between the same prefix and suffix differ there. */
  lemma InfixInjective(pre: string, a: string, b: string, suf: string)
    requires pre + a + suf == pre + b + suf
    ensures a == b
  {
    assert |a| == |b|;
    assert a == (pre + a + suf)[|pre|..|pre| + |a|];
    assert b == (pre + b + suf)[|pre|..|pre| + |b|];
  }

  /** One `ffmpeg -ss start -t length -c copy output` run. */
  datatype Cut = Cut(start: real, length: real, output: string)

  /** `i * segment_duration`, where the `i`-th cut starts. */
  function Start(i: nat, length: real): real {
    i as real * length
  }

  /** The first `k` cuts, each `length` long, the `i`-th starting at `Start(i, length)`. */
  function Cuts(video: string, length: real, k: nat): (r: seq<Cut>)
    ensures |r| == k
  {
    Listing(i => Cut(Start(i, length), length, PartPath(video, i)), k)
  }

  /** Each cut starts where the one before it ends; the first starts at 0. */
  lemma CutsContiguous(video: string, length: real, n: nat)
    ensures n > 0 ==> Cuts(video, length, n)[0].start == 0.0
    ensures forall i :: 0 <= i < n - 1 ==>
      Cuts(video, length, n)[i + 1].start == Cuts(video, length, n)[i].start + Cuts(video, length, n)[i].length
    ensures n > 0 ==> Cuts(video, length, n)[n - 1].start + length == Start(n, length)
  {
    var c := Cuts(video, length, n);
    ListingIndex(i => Cut(Start(i, length), length, PartPath(video, i)), n);
    forall i | 0 <= i < n - 1
      ensures c[i + 1].start == c[i].start + c[i].length
    {
      assert c[i] == Cut(Start(i, length), length, PartPath(video, i));
      assert c[i + 1] == Cut(Start(i + 1, length), length, PartPath(video, i + 1));
      StartStep(i, length);
    }
    if n > 0 {
      assert c[n - 1] == Cut(Start(n - 1, length), length, PartPath(video, n - 1));
      StartStep(n - 1, length);
    }
  }

  /** The `n` cuts of a video of `duration` seconds are contiguous and end at its end. */
  lemma CutsTile(video: string, duration: real, n: nat)
    requires n > 0
    ensures var c := Cuts(video, duration / n as real, n);
      && c[0].start == 0.0
      && (forall i :: 0 <= i < n - 1 ==> c[i + 1].start == c[i].start + c[i].length)
      && c[n - 1].start + c[n - 1].length == duration
  {
    var len := duration / n as real;
    CutsContiguous(video, len, n);
    ListingIndex(i => Cut(Start(i, len), len, PartPath(video, i)), n);
    StartOfLast(duration, n);
  }

  lemma StartStep(i: nat, length: real)
    ensures Start(i + 1, length) == Start(i, length) + length
  {
  }

  lemma StartOfLast(duration: real, n: nat)
    requires n > 0
    ensures Start(n, duration / n as real) == duration
  {
  }

  /** The first failing ffmpeg run from `i` on, or `n` when all of them succeed. */
  function FirstFailure(ffmpeg: nat -> Result<()>, i: nat, n: nat): (k: nat)
    requires i <= n
    ensures i <= k <= n
    ensures forall j :: i <= j < k ==> ffmpeg(j).Ok?
    ensures k < n ==> ffmpeg(k).Err?
    decreases n - i
  {
    if i == n then n else if ffmpeg(i).Err? then i else FirstFailure(ffmpeg, i + 1, n)
  }

  /**
   * What `split_video_by_size` observes: whether the video exists and its size in bytes, whether
   * the chunks directory and each part exist, what ffprobe reports as the duration (or raises),
   * and how each ffmpeg cut ends (`check=True` raises on failure).
   */
  datatype SplitFs = SplitFs(found: bool, size: nat, dirExists: bool, partExists: string -> bool,
                             duration: Result<real>, ffmpeg: nat -> Result<()>)

  /** The parts returned (or the exception raised) and the ffmpeg cuts run. */
  datatype SplitRun = SplitRun(result: Result<seq<string>>, cuts: seq<Cut>)

  function NotFound(video: string): string {
    "Video file not found: " + video
  }

  /** `range(n)` of a possibly negative count. */
  function Range(n: int): nat {
    if n < 0 then 0 else n
  }

  /**
   * `split_video_by_size(video, maxSize)`, the bound in bytes. A zero bound, like a zero part
   * count once ffprobe has answered, divides by zero.
   */
  function Split(video: string, maxSize: real, fs: SplitFs): (r: SplitRun)
  {
    if !fs.found then SplitRun(Err(NotFound(video)), [])
    else if maxSize == 0.0 then SplitRun(Err(FloatZeroDivision), [])
    else
      var n := SegmentCount(fs.size, maxSize);
      var m := Range(n);
      if fs.dirExists && forall i | 0 <= i < m :: fs.partExists(PartPath(video, i)) then
        SplitRun(Ok(Parts(video, m)), [])
      else if fs.duration.Err? then SplitRun(Err(fs.duration.error), [])
      else if n == 0 then SplitRun(Err(FloatZeroDivision), [])
      else
        Cutting(video, fs.duration.value / n as real, m, fs.ffmpeg)
  }

  /**
   * The cutting loop: the parts up to and including the first failing cut are cut, in order; the
   * list of parts is returned when none fails, the failure raised otherwise.
   */
  function Cutting(video: string, length: real, m: nat, ffmpeg: nat -> Result<()>): SplitRun {
    var k := FirstFailure(ffmpeg, 0, m);
    if k == m then SplitRun(Ok(Parts(video, m)), Cuts(video, length, m))
    else SplitRun(Err(ffmpeg(k).error), Cuts(video, length, k + 1))
  }

  /**
   * For a positive bound, a split that succeeds returns exactly the fewest parts that can hold the
   * video, in index order; it cuts nothing when they all exist already, and otherwise cuts each
   * of them once, in order, the cuts tiling the video.
   */
  lemma SplitParts(video: string, maxSize: real, fs: SplitFs)
    requires maxSize > 0.0
    ensures var r := Split(video, maxSize, fs);
      var n := SegmentCount(fs.size, maxSize);
      r.result.Ok? ==>
        && n >= 0 && fs.size as real <= n as real * maxSize && (n - 1) as real * maxSize < fs.size as real
        && r.result.value == Parts(video, n)
        && (r.cuts == [] || (fs.duration.Ok? && r.cuts == Cuts(video, fs.duration.value / n as real, n)))
  {
    SegmentCountMinimal(fs.size, maxSize);
  }

  /** A missing video raises before anything else happens. */
  lemma SplitMissing(video: string, maxSize: real, fs: SplitFs)
    requires !fs.found
    ensures Split(video, maxSize, fs) == SplitRun(Err(NotFound(video)), [])
  {
  }

  /** When the chunks directory holds every expected part, they are returned and nothing is cut. */
  lemma SplitReuses(video: string, maxSize: real, fs: SplitFs)
    requires fs.found && maxSize > 0.0 && fs.dirExists
    requires forall i :: 0 <= i < SegmentCount(fs.size, maxSize) ==> fs.partExists(PartPath(video, i))
    ensures Split(video, maxSize, fs) == SplitRun(Ok(Parts(video, SegmentCount(fs.size, maxSize))), [])
  {
    SegmentCountMinimal(fs.size, maxSize);
  }

  /** `split_video_by_size`, appending each part to the list before cutting it. */
  method SplitVideoBySize(video: string, maxSize: real, fs: SplitFs) returns (r: Result<seq<string>>, cuts: seq<Cut>)
    ensures Split(video, maxSize, fs) == SplitRun(r, cuts)
  {
    cuts := [];
    if !fs.found {
      return Err(NotFound(video)), cuts;
    }
    if maxSize == 0.0 {
      return Err(FloatZeroDivision), cuts;
    }
    var n := SegmentCount(fs.size, maxSize);
    var m := Range(n);
    if fs.dirExists && forall i | 0 <= i < m :: fs.partExists(PartPath(video, i)) {
      return Ok(Parts(video, m)), cuts;
    }
    if fs.duration.Err? {
      return Err(fs.duration.error), cuts;
    }
    if n == 0 {
      return Err(FloatZeroDivision), cuts;
    }
    r, cuts := CutParts(video, fs.duration.value / n as real, m, fs.ffmpeg);
  }

  /** The `for i in range(m)` loop of `split_video_by_size`. */
  method CutParts(video: string, length: real, m: nat, ffmpeg: nat -> Result<()>) returns (r: Result<seq<string>>, cuts: seq<Cut>)
    ensures Cutting(video, length, m, ffmpeg) == SplitRun(r, cuts)
  {
    cuts := [];
    var created: seq<string> := [];
    var i := 0;
    while i < m
      invariant 0 <= i <= m
      invariant created == Parts(video, i) && cuts == Cuts(video, length, i)
      invariant FirstFailure(ffmpeg, 0, m) >= i
    {
      var output := PartPath(video, i);
      assert Parts(video, i + 1) == created + [output];
      assert Cuts(video, length, i + 1) == cuts + [Cut(Start(i, length), length, output)];
      created := created + [output];
      cuts := cuts + [Cut(Start(i, length), length, output)];
      var run := ffmpeg(i);
      if run.Err? {
        assert FirstFailure(ffmpeg, 0, m) == i;
        return Err(run.error), cuts;
      }
      i := i + 1;
    }
    return Ok(created), cuts;
  }
}
