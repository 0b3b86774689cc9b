/**
 * The contact sheet written next to a recording: a few frames spread over the video, each
 * labelled with its timestamp, laid out in a grid whose size depends on the video's length.
 *
 * Pixels are not modelled: an image is its size and an identity, a drawing is the list of
 * paste and text operations on the canvas, and font metrics are a parameter.
 */
module Thumbnail {
  import opened Wrappers
  import opened Strings

  // ----- get_frame_timestamp -----

  /** Python's `x % m` for a positive float `m`: the remainder has the sign of `m`. */
  function FloatMod(x: real, m: real): real
    requires m > 0.0
  {
    x - m * (x / m).Floor as real
  }

  /** `f"{n:02d}"`: two digits at least; a negative number keeps its sign and is not padded. */
  function Pad2(n: int): string {
    if n >= 0 then ZeroPad(n, 2) else "-" + NatToString(-n)
  }

  /** The hours, minutes and seconds fields of `frame_idx / fps`, each floored as Python does. */
  function Fields(frameIdx: int, fps: real): (int, int, int)
    requires fps != 0.0
  {
    var seconds := frameIdx as real / fps;
    ((seconds / 3600.0).Floor, (FloatMod(seconds, 3600.0) / 60.0).Floor, FloatMod(seconds, 60.0).Floor)
  }

  /** `get_frame_timestamp(cap, frame_idx)` at `fps` frames a second. */
  function FrameTimestamp(frameIdx: int, fps: real): string
    requires fps != 0.0
  {
    var (hours, minutes, secs) := Fields(frameIdx, fps);
    Pad2(hours) + ":" + Pad2(minutes) + ":" + Pad2(secs)
  }

  lemma PositiveFactor(a: real, m: real)
    requires m > 0.0 && a * m >= 0.0
    ensures a >= 0.0
  {
  }

  /** Dividing by a whole number before or after flooring gives the same floor. */
  lemma FloorDiv(x: real, m: int)
    requires m > 0
    ensures (x / m as real).Floor == x.Floor / m
  {
    var s := x.Floor;
    var q := s / m;
    var r := s % m;
    var y := x / m as real;
    assert s == q * m + r && 0 <= r < m;
    assert y * m as real == x;
    assert (q * m) as real == q as real * m as real;
    assert ((q + 1) * m) as real == (q + 1) as real * m as real;
    assert q * m + r + 1 <= (q + 1) * m;
    assert (y - q as real) * m as real == x - q as real * m as real;
    PositiveFactor(y - q as real, m as real);
    assert ((q + 1) as real - y) * m as real == (q + 1) as real * m as real - x;
    PositiveFactor((q + 1) as real - y, m as real);
    assert y != (q + 1) as real;
  }

  /** The floor of Python's `x % m` is the remainder of the floor of `x`. */
  lemma FloorMod(x: real, m: int)
    requires m > 0
    ensures FloatMod(x, m as real).Floor == x.Floor % m
  {
    FloorDiv(x, m);
    var q := (x / m as real).Floor;
    assert FloatMod(x, m as real) == x - (m * q) as real;
  }

  /** A count of whole seconds splits into hours, minutes below 60 and seconds below 60. */
  lemma SplitSeconds(s: int)
    requires s >= 0
    ensures 3600 * (s / 3600) + 60 * (s % 3600 / 60) + s % 60 == s
    ensures s % 3600 / 60 < 60 && s % 60 < 60
  {
    var h := s / 3600;
    var r := s % 3600;
    assert s == 3600 * h + r && 0 <= r < 3600;
    assert s % 60 == r % 60 by {
      assert s == 60 * (60 * h + r / 60) + r % 60;
    }
  }

  /**
   * For a non-negative index the fields are the whole seconds `s` split into hours, minutes
   * and seconds: `3600 h + 60 m + sec == s`, with minutes and seconds below 60.
   */
  lemma FieldsOfSeconds(frameIdx: nat, fps: real)
    requires fps > 0.0
    ensures var s := (frameIdx as real / fps).Floor;
      && s >= 0
      && Fields(frameIdx, fps) == (s / 3600, s % 3600 / 60, s % 60)
      && 3600 * (s / 3600) + 60 * (s % 3600 / 60) + s % 60 == s
      && s % 3600 / 60 < 60 && s % 60 < 60
  {
    var seconds := frameIdx as real / fps;
    NonNegativeSeconds(frameIdx, fps);
    SecondsFields(seconds);
    SplitSeconds(seconds.Floor);
  }

  lemma NonNegativeSeconds(frameIdx: nat, fps: real)
    requires fps > 0.0
    ensures frameIdx as real / fps >= 0.0
  {
    var seconds := frameIdx as real / fps;
    assert seconds * fps == frameIdx as real;
    PositiveFactor(seconds, fps);
  }

  /** The fields of a non-negative count of seconds are those of its whole part. */
  lemma SecondsFields(seconds: real)
    requires seconds >= 0.0
    ensures var s := seconds.Floor;
      && s >= 0
      && (seconds / 3600.0).Floor == s / 3600
      && (FloatMod(seconds, 3600.0) / 60.0).Floor == s % 3600 / 60
      && FloatMod(seconds, 60.0).Floor == s % 60
  {
    FloorDiv(seconds, 3600);
    FloorMod(seconds, 3600);
    FloorDiv(FloatMod(seconds, 3600.0), 60);
    FloorMod(seconds, 60);
  }

  /** For a non-negative index each field is printed as two digits or more, without a sign. */
  lemma TimestampText(frameIdx: nat, fps: real)
    requires fps > 0.0
    ensures var s := (frameIdx as real / fps).Floor;
      FrameTimestamp(frameIdx, fps) == ZeroPad(s / 3600, 2) + ":" + ZeroPad(s % 3600 / 60, 2) + ":" + ZeroPad(s % 60, 2)
  {
    FieldsOfSeconds(frameIdx, fps);
  }

  // ----- the layout -----

  /**
   * The frame count and the column count `auto_create_thumbnail` picks for a video of
   * `durationMinutes`: more frames, and no fewer columns, for longer videos.
   */
  function Layout(durationMinutes: real): (r: (nat, nat))
    ensures r.1 > 0 && r.0 % r.1 == 0 && r.0 >= r.1
  {
    if durationMinutes < 10.0 then (4, 2)
    else if durationMinutes < 30.0 then (6, 3)
    else if durationMinutes < 60.0 then (9, 3)
    else if durationMinutes < 120.0 then (12, 4)
    else (16, 4)
  }

  /** A longer video never gets fewer frames or fewer columns. */
  lemma LayoutMonotone(d: real, d': real)
    requires d <= d'
    ensures Layout(d).0 <= Layout(d').0 && Layout(d).1 <= Layout(d').1
  {
  }

  /** `(n + cols - 1) // cols`. */
  function Rows(n: nat, cols: nat): nat
    requires cols > 0
  {
    (n + cols - 1) / cols
  }

  /** Division is unique: a quotient and remainder in range are `a / c` and `a % c`. */
  lemma DivUnique(a: int, c: int, q: int, r: int)
    requires c > 0 && a == q * c + r && 0 <= r < c
    ensures a / c == q
  {
    var q', r' := a / c, a % c;
    assert a == q' * c + r' && 0 <= r' < c;
    if q != q' {
      var d := q - q';
      assert d * c == q * c - q' * c;
      if d > 0 {
        MulLe(1, d, c);
      } else {
        MulLe(d, -1, c);
      }
    }
  }

  /** The row count is the least that holds `n` frames, `cols` to a row. */
  lemma RowsCeil(n: nat, cols: nat)
    requires cols > 0
    ensures Rows(n, cols) * cols >= n
    ensures n > 0 ==> (Rows(n, cols) - 1) * cols < n
    ensures n % cols == 0 ==> Rows(n, cols) == n / cols
  {
    var q := n / cols;
    var r := n % cols;
    assert n == q * cols + r;
    if r == 0 {
      DivUnique(n + cols - 1, cols, q, cols - 1);
    } else {
      assert n + cols - 1 == (q + 1) * cols + (r - 1);
      DivUnique(n + cols - 1, cols, q + 1, r - 1);
      assert (q + 1) * cols == q * cols + cols;
    }
  }

  /** A full extraction fills every row of the chosen layout. */
  lemma LayoutFillsRows(durationMinutes: real)
    ensures var (frames, cols) := Layout(durationMinutes);
      Rows(frames, cols) * cols == frames
  {
    var (frames, cols) := Layout(durationMinutes);
    RowsCeil(frames, cols);
  }

  /** The top-left corner of frame `idx`: column `idx % cols`, row `idx // cols`. */
  function Cell(idx: nat, cols: nat, w: nat, h: nat): (int, int)
    requires cols > 0
  {
    ((idx % cols) * w, (idx / cols) * h)
  }

  lemma MulStrict(a: int, b: int, w: int)
    requires a < b && w > 0
    ensures a * w < b * w
  {
  }

  /** Different frames of a grid with non-empty cells never share a corner. */
  lemma CellsDistinct(i: nat, j: nat, cols: nat, w: nat, h: nat)
    requires cols > 0 && w > 0 && h > 0 && i != j
    ensures Cell(i, cols, w, h) != Cell(j, cols, w, h)
  {
    if i % cols == j % cols {
      assert i / cols != j / cols by {
        assert i == i / cols * cols + i % cols;
        assert j == j / cols * cols + j % cols;
      }
      if i / cols < j / cols { MulStrict(i / cols, j / cols, h); } else { MulStrict(j / cols, i / cols, h); }
    } else {
      if i % cols < j % cols { MulStrict(i % cols, j % cols, w); } else { MulStrict(j % cols, i % cols, w); }
    }
  }

  lemma MulLe(a: int, b: int, w: int)
    requires a <= b && w >= 0
    ensures a * w <= b * w
  {
  }

  /** Every cell of the first `n` frames lies inside the `cols·w × rows·h` canvas. */
  lemma CellInside(idx: nat, n: nat, cols: nat, w: nat, h: nat)
    requires cols > 0 && idx < n
    ensures var (x, y) := Cell(idx, cols, w, h);
      && 0 <= x && x + w <= cols * w
      && 0 <= y && y + h <= Rows(n, cols) * h
  {
    MulLe(idx % cols + 1, cols, w);
    RowsCeil(n, cols);
    assert idx / cols < Rows(n, cols) by {
      assert idx == idx / cols * cols + idx % cols;
      if idx / cols >= Rows(n, cols) {
        MulLe(Rows(n, cols), idx / cols, cols);
      }
    }
    MulLe(idx / cols + 1, Rows(n, cols), h);
    MulLe(0, idx % cols, w);
    MulLe(0, idx / cols, h);
  }

  // ----- create_thumbnail -----

  /** An image: its size and what it shows. */
  datatype Image = Image(width: nat, height: nat, content: nat)

  /** A processed frame and its timestamp label. */
  datatype Shot = Shot(image: Image, timestamp: string)

  datatype Ink = Black | White

  /** A drawing operation on the canvas, in the order it is made. */
  datatype Op = Paste(image: Image, x: int, y: int) | Text(left: real, top: real, text: string, ink: Ink)

  /** A saved contact sheet: the canvas size, what was drawn on it, the file and the JPEG quality. */
  datatype Sheet = Sheet(width: nat, height: nat, ops: seq<Op>, path: string, quality: nat)

  const IntZeroDivision := "integer division or modulo by zero"

  /** Where a label of width `textWidth` goes in the cell at `(x, y)`: 10 from the right, 30 from the bottom. */
  function LabelAt(x: int, y: int, w: nat, h: nat, textWidth: real): (real, real) {
    ((x + w) as real - textWidth - 10.0, (y + h - 30) as real)
  }

  /** Frame `idx` of the sheet: pasted into its cell, then its label in black one pixel down-right, then in white. */
  function FrameOps(idx: nat, shot: Shot, cols: nat, w: nat, h: nat, textLength: string -> real): seq<Op>
    requires cols > 0
  {
    var (x, y) := Cell(idx, cols, w, h);
    var (tx, ty) := LabelAt(x, y, w, h, textLength(shot.timestamp));
    [Paste(shot.image, x, y), Text(tx + 1.0, ty + 1.0, shot.timestamp, Black), Text(tx, ty, shot.timestamp, White)]
  }

  /** The operations of the whole sheet, frame by frame. */
  function SheetOps(shots: seq<Shot>, cols: nat, w: nat, h: nat, textLength: string -> real): (r: seq<Op>)
    requires cols > 0
    ensures |r| == 3 * |shots|
  {
    if shots == [] then []
    else SheetOps(shots[..|shots| - 1], cols, w, h, textLength) + FrameOps(|shots| - 1, shots[|shots| - 1], cols, w, h, textLength)
  }

  /** The operations for frame `idx` sit at `3·idx`, in paste, shadow, text order. */
  lemma {:induction false} SheetOpsAt(shots: seq<Shot>, cols: nat, w: nat, h: nat, textLength: string -> real, idx: nat)
    requires cols > 0 && idx < |shots|
    ensures SheetOps(shots, cols, w, h, textLength)[3 * idx..3 * idx + 3] == FrameOps(idx, shots[idx], cols, w, h, textLength)
  {
    var init := shots[..|shots| - 1];
    var r := SheetOps(shots, cols, w, h, textLength);
    if idx < |shots| - 1 {
      SheetOpsAt(init, cols, w, h, textLength, idx);
      assert r[3 * idx..3 * idx + 3] == SheetOps(init, cols, w, h, textLength)[3 * idx..3 * idx + 3];
      assert init[idx] == shots[idx];
    } else {
      assert r[3 * idx..3 * idx + 3] == FrameOps(idx, shots[idx], cols, w, h, textLength);
    }
  }

  /**
   * `create_thumbnail(frames_with_timestamps, cols, save_path, quality)`: nothing is saved for
   * no frames; otherwise a canvas of `cols` cells of the first frame's size per row, as many
   * rows as needed, with every frame drawn. A zero `cols` raises.
   */
  function Compose(shots: seq<Shot>, cols: nat, savePath: string, quality: nat, textLength: string -> real): Result<Option<Sheet>> {
    if shots == [] then Ok(None)
    else if cols == 0 then Err(IntZeroDivision)
    else
      var w := shots[0].image.width;
      var h := shots[0].image.height;
      Ok(Some(Sheet(cols * w, Rows(|shots|, cols) * h, SheetOps(shots, cols, w, h, textLength), savePath, quality)))
  }

  /**
   * Every frame of a saved sheet is pasted at its own cell, inside the canvas, with its label
   * drawn shadow first.
   */
  lemma ComposePlacesEveryFrame(shots: seq<Shot>, cols: nat, savePath: string, quality: nat, textLength: string -> real, idx: nat)
    requires idx < |shots|
    requires Compose(shots, cols, savePath, quality, textLength).Ok?
    ensures var sheet := Compose(shots, cols, savePath, quality, textLength).value.value;
      var (x, y) := Cell(idx, cols, shots[0].image.width, shots[0].image.height);
      var ops := sheet.ops[3 * idx..3 * idx + 3];
      && ops[0] == Paste(shots[idx].image, x, y)
      && 0 <= x && x + shots[0].image.width <= sheet.width
      && 0 <= y && y + shots[0].image.height <= sheet.height
      && ops[1].Text? && ops[2].Text? && ops[1].ink == Black && ops[2].ink == White
      && ops[1].left == ops[2].left + 1.0 && ops[1].top == ops[2].top + 1.0
      && ops[2].text == shots[idx].timestamp
  {
    var w := shots[0].image.width;
    var h := shots[0].image.height;
    SheetOpsAt(shots, cols, w, h, textLength, idx);
    CellInside(idx, |shots|, cols, w, h);
  }

  /** One pass of the drawing loop: the paste, then the shadow, then the label. */
  method DrawFrame(ops: seq<Op>, idx: nat, shot: Shot, cols: nat, w: nat, h: nat, textLength: string -> real)
    returns (drawn: seq<Op>)
    requires cols > 0
    ensures drawn == ops + FrameOps(idx, shot, cols, w, h, textLength)
  {
    var row := idx / cols;
    var col := idx % cols;
    var xOffset, yOffset := col * w, row * h;
    drawn := ops + [Paste(shot.image, xOffset, yOffset)];
    var textWidth := textLength(shot.timestamp);
    var textX := (xOffset + w) as real - textWidth - 10.0;
    var textY := (yOffset + h - 30) as real;
    drawn := drawn + [Text(textX + 1.0, textY + 1.0, shot.timestamp, Black)];
    drawn := drawn + [Text(textX, textY, shot.timestamp, White)];
  }

  /** The drawing loop of `create_thumbnail`. */
  method DrawAll(shots: seq<Shot>, cols: nat, w: nat, h: nat, textLength: string -> real) returns (ops: seq<Op>)
    requires cols > 0
    ensures ops == SheetOps(shots, cols, w, h, textLength)
  {
    ops := [];
    var idx := 0;
    while idx < |shots|
      invariant 0 <= idx <= |shots|
      invariant ops == SheetOps(shots[..idx], cols, w, h, textLength)
    {
      assert shots[..idx + 1][..idx] == shots[..idx] && shots[..idx + 1][idx] == shots[idx];
      ops := DrawFrame(ops, idx, shots[idx], cols, w, h, textLength);
      idx := idx + 1;
    }
    assert shots[..idx] == shots;
  }

  /** `create_thumbnail`: the early return, the canvas, the drawing and the save. */
  method CreateThumbnail(shots: seq<Shot>, cols: nat, savePath: string, quality: nat, textLength: string -> real)
    returns (r: Result<Option<Sheet>>)
    ensures r == Compose(shots, cols, savePath, quality, textLength)
  {
    if shots == [] {
      return Ok(None);
    }
    if cols == 0 {
      return Err(IntZeroDivision);
    }
    var rows := (|shots| + cols - 1) / cols;
    var w, h := shots[0].image.width, shots[0].image.height;
    var ops := DrawAll(shots, cols, w, h, textLength);
    r := Ok(Some(Sheet(cols * w, rows * h, ops, savePath, quality)));
  }

  // ----- the capture and seek_frame -----

  /** A call on the capture that moves it or reads from it. */
  datatype CapOp = SetFrame(n: int) | SetRatio(frameIdx: int, total: int) | Read

  /**
   * The video `cv2.VideoCapture` opens: whether it opens, its frame rate and frame count, and
   * what the k-th `read()` on a capture returns (`None` when `ret` is false).
   */
  datatype Video = Video(opens: bool, fps: real, frameCount: int, reply: nat -> Option<Image>)

  /** `ret and frame is not None and frame.size > 0`. */
  predicate Valid(frame: Option<Image>) {
    frame.Some? && frame.value.width > 0 && frame.value.height > 0
  }

  /** The calls made on a capture so far, and how many of them were reads. */
  datatype Cursor = Cursor(log: seq<CapOp>, readCount: nat)

  /** An open capture: what it was opened on, and the calls made on it. */
  class Capture {
    const video: Video
    var log: seq<CapOp>
    var readCount: nat

    constructor (video: Video)
      ensures this.video == video && log == [] && readCount == 0
    {
      this.video := video;
      log := [];
      readCount := 0;
    }

    /** `cap.set(...)`. */
    method Set(op: CapOp)
      requires !op.Read?
      modifies this
      ensures log == old(log) + [op] && readCount == old(readCount)
    {
      log := log + [op];
    }

    /** `cap.read()`. */
    method Read() returns (frame: Option<Image>)
      modifies this
      ensures frame == video.reply(old(readCount))
      ensures log == old(log) + [CapOp.Read] && readCount == old(readCount) + 1
    {
      frame := video.reply(readCount);
      log := log + [CapOp.Read];
      readCount := readCount + 1;
    }
  }

  /** `min(30, target_frame_idx)` reads, none for a negative index. */
  function Skips(idx: int): nat {
    if idx < 0 then 0 else if idx < 30 then idx else 30
  }

  function Reads(n: nat): (r: seq<CapOp>)
    ensures |r| == n && forall k :: 0 <= k < n ==> r[k] == CapOp.Read
  {
    if n == 0 then [] else Reads(n - 1) + [CapOp.Read]
  }

  /** How attempt `attempt` positions the capture, and how many frames it reads past. */
  function Strategy(attempt: nat, idx: int, total: int): (seq<CapOp>, nat) {
    if attempt == 0 then ([SetFrame(idx)], 0)
    else if attempt == 1 then ([SetRatio(idx, total)], 0)
    else ([SetFrame(if idx - 30 > 0 then idx - 30 else 0)] + Reads(Skips(idx)), Skips(idx))
  }

  const MaxAttempts: nat := 3

  /** One attempt of `seek_frame`: position by its strategy, then read one frame. */
  function Probe(video: Video, idx: int, attempt: nat, c: Cursor): (r: (Option<Image>, Cursor))
    ensures r.1.readCount > c.readCount && r.0 == video.reply(r.1.readCount - 1)
    ensures c.log <= r.1.log && r.1.log != [] && r.1.log[|r.1.log| - 1] == CapOp.Read
  {
    var (moves, skipped) := Strategy(attempt, idx, video.frameCount);
    var k := c.readCount + skipped;
    (video.reply(k), Cursor(c.log + moves + [CapOp.Read], k + 1))
  }

  /** The position reset to frame 0 after a failed attempt. */
  function Rewound(c: Cursor): Cursor {
    Cursor(c.log + [SetFrame(0)], c.readCount)
  }

  /**
   * `seek_frame(cap, idx)` from attempt `attempt` on: position, read, and return a valid frame,
   * or reset the position to 0 and try the next strategy.
   */
  function Seek(video: Video, idx: int, attempt: nat, c: Cursor): (r: (Option<Image>, Cursor))
    ensures r.1.readCount >= c.readCount
    decreases MaxAttempts - attempt
  {
    if attempt >= MaxAttempts then (None, c)
    else
      var (frame, after) := Probe(video, idx, attempt, c);
      if Valid(frame) then (frame, after)
      else Seek(video, idx, attempt + 1, Rewound(after))
  }

  /** An attempt that reads a valid frame ends the seek with it. */
  lemma SeekHit(video: Video, idx: int, attempt: nat, c: Cursor)
    requires attempt < MaxAttempts && Valid(Probe(video, idx, attempt, c).0)
    ensures Seek(video, idx, attempt, c) == Probe(video, idx, attempt, c)
  {
  }

  /** An attempt that reads no valid frame rewinds and hands over to the next strategy. */
  lemma SeekMiss(video: Video, idx: int, attempt: nat, c: Cursor)
    requires attempt < MaxAttempts && !Valid(Probe(video, idx, attempt, c).0)
    ensures Seek(video, idx, attempt, c) == Seek(video, idx, attempt + 1, Rewound(Probe(video, idx, attempt, c).1))
  {
  }

  /** With every strategy tried, the seek gives up where it stands. */
  lemma SeekGivesUp(video: Video, idx: int, attempt: nat, c: Cursor)
    requires attempt >= MaxAttempts
    ensures Seek(video, idx, attempt, c) == (None, c)
  {
  }

  /** What a seek's result says about the cursor it leaves. */
  predicate SeekEnds(attempt: nat, video: Video, r: (Option<Image>, Cursor)) {
    && (r.0.Some? ==> Valid(r.0) && r.1.readCount > 0 && r.0 == video.reply(r.1.readCount - 1)
                      && r.1.log != [] && r.1.log[|r.1.log| - 1] == CapOp.Read)
    && (r.0.None? && attempt < MaxAttempts ==> r.1.log != [] && r.1.log[|r.1.log| - 1] == SetFrame(0))
  }

  /**
   * A seek returns a valid frame, the one its last read returned, or, after all three
   * strategies failed, nothing, having reset the position to 0 last.
   */
  lemma {:induction false} SeekOutcome(video: Video, idx: int, attempt: nat, c: Cursor)
    ensures SeekEnds(attempt, video, Seek(video, idx, attempt, c))
    decreases MaxAttempts - attempt
  {
    if attempt < MaxAttempts {
      var p := Probe(video, idx, attempt, c);
      if Valid(p.0) {
        SeekHit(video, idx, attempt, c);
      } else {
        var d := Rewound(p.1);
        SeekMiss(video, idx, attempt, c);
        SeekOutcome(video, idx, attempt + 1, d);
        if attempt + 1 >= MaxAttempts {
          SeekGivesUp(video, idx, attempt + 1, d);
        }
        MissEnds(video, attempt, d, Seek(video, idx, attempt + 1, d));
      }
    }
  }

  /** A failed attempt's rewind is the last call when no later attempt is left to find a frame. */
  lemma MissEnds(video: Video, attempt: nat, d: Cursor, r: (Option<Image>, Cursor))
    requires SeekEnds(attempt + 1, video, r)
    requires d.log != [] && d.log[|d.log| - 1] == SetFrame(0)
    requires attempt + 1 >= MaxAttempts ==> r == (None, d)
    ensures SeekEnds(attempt, video, r)
  {
  }

  /** One attempt of `seek_frame`: its positioning, then the read it validates. */
  method Attempt(cap: Capture, idx: int, attempt: nat) returns (frame: Option<Image>)
    modifies cap
    ensures (frame, Cursor(cap.log, cap.readCount)) == Probe(cap.video, idx, attempt, Cursor(old(cap.log), old(cap.readCount)))
  {
    ghost var c := Cursor(cap.log, cap.readCount);
    ghost var plan := Strategy(attempt, idx, cap.video.frameCount);
    if attempt == 0 {
      cap.Set(SetFrame(idx));
    } else if attempt == 1 {
      cap.Set(SetRatio(idx, cap.video.frameCount));
    } else {
      ghost var base := cap.log;
      cap.Set(SetFrame(if idx - 30 > 0 then idx - 30 else 0));
      var n := if 30 < idx then 30 else idx;
      var j := 0;
      while j < n
        invariant 0 <= j && (n >= 0 ==> j <= n) && (n < 0 ==> j == 0)
        invariant cap.log == base + [SetFrame(if idx - 30 > 0 then idx - 30 else 0)] + Reads(j)
        invariant cap.readCount == old(cap.readCount) + j
      {
        var _ := cap.Read();
        j := j + 1;
      }
      assert j == Skips(idx);
    }
    frame := cap.Read();
    assert cap.log == c.log + plan.0 + [CapOp.Read] && cap.readCount == c.readCount + plan.1 + 1;
    assert frame == cap.video.reply(c.readCount + plan.1);
  }

  /** `seek_frame(cap, target_frame_idx)`: the attempt loop. */
  method SeekFrame(cap: Capture, idx: int) returns (frame: Option<Image>)
    modifies cap
    ensures (frame, Cursor(cap.log, cap.readCount)) == Seek(cap.video, idx, 0, Cursor(old(cap.log), old(cap.readCount)))
  {
    ghost var start := Cursor(cap.log, cap.readCount);
    var attempt := 0;
    while attempt < MaxAttempts
      invariant attempt <= MaxAttempts
      invariant Seek(cap.video, idx, 0, start) == Seek(cap.video, idx, attempt, Cursor(cap.log, cap.readCount))
    {
      ghost var before := Cursor(cap.log, cap.readCount);
      frame := Attempt(cap, idx, attempt);
      if Valid(frame) {
        SeekHit(cap.video, idx, attempt, before);
        return;
      }
      cap.Set(SetFrame(0));
      SeekMiss(cap.video, idx, attempt, before);
      attempt := attempt + 1;
    }
    SeekGivesUp(cap.video, idx, attempt, Cursor(cap.log, cap.readCount));
    frame := None;
  }

  // ----- extract_frames -----

  /** The frames read so far by index, and the calls made on the capture. */
  datatype Reader = Reader(cache: map<int, Image>, cursor: Cursor)

  /** The frame for `idx`: the cached one, or a seek's, which is cached when the seek succeeds. */
  function Fetch(video: Video, idx: int, rd: Reader): (Option<Image>, Reader) {
    if idx in rd.cache then (Some(rd.cache[idx]), rd)
    else
      var (frame, c) := Seek(video, idx, 0, rd.cursor);
      if frame.Some? then (frame, Reader(rd.cache[idx := frame.value], c)) else (None, Reader(rd.cache, c))
  }

  /** The reading loop of one batch: each frame found is kept with its timestamp. */
  function Gather(video: Video, batch: seq<int>, pending: seq<Shot>, rd: Reader): (seq<Shot>, Reader)
    requires video.fps != 0.0
  {
    if batch == [] then (pending, rd)
    else
      var (frame, rd') := Fetch(video, batch[0], rd);
      Gather(video, batch[1..], if frame.Some? then pending + [Shot(frame.value, FrameTimestamp(batch[0], video.fps))] else pending, rd')
  }

  /** The processing of a batch: each frame is resized, and a frame whose processing raises is dropped. */
  function Processed(pending: seq<Shot>, resize: Image -> Option<Image>, out: seq<Shot>): seq<Shot> {
    if pending == [] then out
    else
      var resized := resize(pending[0].image);
      Processed(pending[1..], resize, if resized.Some? then out + [Shot(resized.value, pending[0].timestamp)] else out)
  }

  /** The batch loop of `extract_frames`, two indices at a time. */
  function Extract(video: Video, indices: seq<int>, resize: Image -> Option<Image>, out: seq<Shot>, rd: Reader): (seq<Shot>, Reader)
    requires video.fps != 0.0
    decreases |indices|
  {
    if indices == [] then (out, rd)
    else
      var n := if |indices| < 2 then |indices| else 2;
      var (pending, rd') := Gather(video, indices[..n], [], rd);
      Extract(video, indices[n..], resize, Processed(pending, resize, out), rd')
  }

  /** The indices one at a time: read (or reuse), stamp and process each before the next. */
  function OneByOne(video: Video, indices: seq<int>, resize: Image -> Option<Image>, out: seq<Shot>, rd: Reader): (seq<Shot>, Reader)
    requires video.fps != 0.0
  {
    if indices == [] then (out, rd)
    else
      var (frame, rd') := Fetch(video, indices[0], rd);
      var out' := if frame.Some? then Processed([Shot(frame.value, FrameTimestamp(indices[0], video.fps))], resize, out) else out;
      OneByOne(video, indices[1..], resize, out', rd')
  }

  lemma {:induction false} ProcessedAppend(p: seq<Shot>, q: seq<Shot>, resize: Image -> Option<Image>, out: seq<Shot>)
    ensures Processed(p + q, resize, out) == Processed(q, resize, Processed(p, resize, out))
  {
    if p != [] {
      assert (p + q)[0] == p[0] && (p + q)[1..] == p[1..] + q;
      var resized := resize(p[0].image);
      ProcessedAppend(p[1..], q, resize, if resized.Some? then out + [Shot(resized.value, p[0].timestamp)] else out);
    } else {
      assert p + q == q;
    }
  }

  lemma {:induction false} GatherOneByOne(video: Video, batch: seq<int>, rest: seq<int>, resize: Image -> Option<Image>,
                                          pending: seq<Shot>, out: seq<Shot>, rd: Reader)
    requires video.fps != 0.0
    ensures var (p, rd') := Gather(video, batch, pending, rd);
      OneByOne(video, batch + rest, resize, Processed(pending, resize, out), rd)
        == OneByOne(video, rest, resize, Processed(p, resize, out), rd')
  {
    if batch == [] {
      assert batch + rest == rest;
    } else {
      var (frame, rd1) := Fetch(video, batch[0], rd);
      assert (batch + rest)[0] == batch[0] && (batch + rest)[1..] == batch[1..] + rest;
      if frame.Some? {
        var shot := Shot(frame.value, FrameTimestamp(batch[0], video.fps));
        ProcessedAppend(pending, [shot], resize, out);
        GatherOneByOne(video, batch[1..], rest, resize, pending + [shot], out, rd1);
      } else {
        GatherOneByOne(video, batch[1..], rest, resize, pending, out, rd1);
      }
    }
  }

  /**
   * Reading two indices before processing them changes nothing: the result is that of taking
   * the indices one by one, so frames come out in index order.
   */
  lemma {:induction false} BatchesChangeNothing(video: Video, indices: seq<int>, resize: Image -> Option<Image>, out: seq<Shot>, rd: Reader)
    requires video.fps != 0.0
    ensures Extract(video, indices, resize, out, rd) == OneByOne(video, indices, resize, out, rd)
    decreases |indices|
  {
    if indices != [] {
      var n := if |indices| < 2 then |indices| else 2;
      var (pending, rd') := Gather(video, indices[..n], [], rd);
      assert indices[..n] + indices[n..] == indices;
      GatherOneByOne(video, indices[..n], indices[n..], resize, [], out, rd);
      BatchesChangeNothing(video, indices[n..], resize, Processed(pending, resize, out), rd');
    }
  }

  /** Each index yields at most one frame, a repeated index is never sought again, and a cached frame is reused. */
  lemma {:induction false} OneByOneAtMost(video: Video, indices: seq<int>, resize: Image -> Option<Image>, out: seq<Shot>, rd: Reader)
    requires video.fps != 0.0
    ensures |OneByOne(video, indices, resize, out, rd).0| <= |out| + |indices|
    ensures |OneByOne(video, indices, resize, out, rd).0| >= |out|
  {
    if indices != [] {
      var (frame, rd') := Fetch(video, indices[0], rd);
      if frame.Some? {
        var shot := Shot(frame.value, FrameTimestamp(indices[0], video.fps));
        var resized := resize(shot.image);
        assert Processed([shot], resize, out) == Processed([], resize, if resized.Some? then out + [Shot(resized.value, shot.timestamp)] else out);
        OneByOneAtMost(video, indices[1..], resize, Processed([shot], resize, out), rd');
      } else {
        OneByOneAtMost(video, indices[1..], resize, out, rd');
      }
    }
  }

  /** A cached index costs no call on the capture. */
  lemma FetchCached(video: Video, idx: int, rd: Reader)
    requires idx in rd.cache
    ensures Fetch(video, idx, rd) == (Some(rd.cache[idx]), rd)
  {
  }

  /** `extract_frames(video_path, num_frames)` given the indices `np.linspace` spreads over the video. */
  function Extracted(video: Video, indices: seq<int>, resize: Image -> Option<Image>): seq<Shot>
    requires video.fps != 0.0
  {
    if !video.opens then [] else Extract(video, indices, resize, [], Reader(map[], Cursor([], 0))).0
  }

  /** An unopenable video gives no frames; otherwise at most one per index, in index order. */
  lemma ExtractedAtMost(video: Video, indices: seq<int>, resize: Image -> Option<Image>)
    requires video.fps != 0.0
    ensures !video.opens ==> Extracted(video, indices, resize) == []
    ensures |Extracted(video, indices, resize)| <= |indices|
    ensures video.opens ==> Extracted(video, indices, resize) == OneByOne(video, indices, resize, [], Reader(map[], Cursor([], 0))).0
  {
    var rd := Reader(map[], Cursor([], 0));
    BatchesChangeNothing(video, indices, resize, [], rd);
    OneByOneAtMost(video, indices, resize, [], rd);
  }

  /** The reading loop of one batch. */
  method ReadBatch(cap: Capture, batch: seq<int>, cache: map<int, Image>)
    returns (pending: seq<Shot>, cache': map<int, Image>)
    requires cap.video.fps != 0.0
    modifies cap
    ensures Gather(cap.video, batch, [], Reader(cache, Cursor(old(cap.log), old(cap.readCount))))
      == (pending, Reader(cache', Cursor(cap.log, cap.readCount)))
  {
    pending, cache' := [], cache;
    var j := 0;
    while j < |batch|
      invariant 0 <= j <= |batch|
      invariant Gather(cap.video, batch, [], Reader(cache, Cursor(old(cap.log), old(cap.readCount))))
        == Gather(cap.video, batch[j..], pending, Reader(cache', Cursor(cap.log, cap.readCount)))
    {
      var idx := batch[j];
      assert batch[j..][1..] == batch[j + 1..];
      if idx in cache' {
        pending := pending + [Shot(cache'[idx], FrameTimestamp(idx, cap.video.fps))];
      } else {
        var frame := SeekFrame(cap, idx);
        if frame.Some? {
          cache' := cache'[idx := frame.value];
          pending := pending + [Shot(frame.value, FrameTimestamp(idx, cap.video.fps))];
        }
      }
      j := j + 1;
    }
  }

  /** The processing loop of one batch, collecting results in submission order. */
  method ProcessBatch(pending: seq<Shot>, resize: Image -> Option<Image>, out: seq<Shot>) returns (shots: seq<Shot>)
    ensures shots == Processed(pending, resize, out)
  {
    shots := out;
    var k := 0;
    while k < |pending|
      invariant 0 <= k <= |pending|
      invariant Processed(pending, resize, out) == Processed(pending[k..], resize, shots)
    {
      assert pending[k..][1..] == pending[k + 1..];
      var result := resize(pending[k].image);
      if result.Some? {
        shots := shots + [Shot(result.value, pending[k].timestamp)];
      }
      k := k + 1;
    }
  }

  /** The batch loop from index `i`: the batch of the next two indices, then the rest. */
  lemma ExtractStep(video: Video, indices: seq<int>, i: nat, resize: Image -> Option<Image>, out: seq<Shot>, rd: Reader)
    requires video.fps != 0.0 && i < |indices|
    ensures var end := if i + 2 < |indices| then i + 2 else |indices|;
      var (pending, rd') := Gather(video, indices[i..end], [], rd);
      && Extract(video, indices[i..], resize, out, rd) == Extract(video, indices[end..], resize, Processed(pending, resize, out), rd')
      && Processed([], resize, out) == out
  {
    var end := if i + 2 < |indices| then i + 2 else |indices|;
    assert indices[i..][..end - i] == indices[i..end] && indices[i..][end - i..] == indices[end..];
  }

  /** `extract_frames`: open the capture, then the batch loop. */
  method ExtractFrames(video: Video, indices: seq<int>, resize: Image -> Option<Image>) returns (shots: seq<Shot>)
    requires video.fps != 0.0
    ensures shots == Extracted(video, indices, resize)
  {
    if !video.opens {
      return [];
    }
    var cap := new Capture(video);
    shots := [];
    var cache: map<int, Image> := map[];
    var i := 0;
    while i < |indices|
      invariant 0 <= i <= |indices| && cap.video == video
      invariant Extract(video, indices, resize, [], Reader(map[], Cursor([], 0)))
        == Extract(video, indices[i..], resize, shots, Reader(cache, Cursor(cap.log, cap.readCount)))
    {
      var end := if i + 2 < |indices| then i + 2 else |indices|;
      ExtractStep(video, indices, i, resize, shots, Reader(cache, Cursor(cap.log, cap.readCount)));
      var pending;
      pending, cache := ReadBatch(cap, indices[i..end], cache);
      if pending != [] {
        shots := ProcessBatch(pending, resize, shots);
      }
      i := end;
    }
  }

  // ----- auto_create_thumbnail -----

  const FloatZeroDivision := "float division by zero"

  /** The JPEG quality `create_thumbnail` saves with by default. */
  const Quality: nat := 85

  /**
   * `auto_create_thumbnail(video_path, save_path)`: nothing for a video that does not open; the
   * length in minutes picks the layout, then the frames at `spacing(frames)` are extracted and
   * laid out. A zero frame rate raises.
   */
  function AutoThumbnail(video: Video, savePath: string, spacing: nat -> seq<int>, resize: Image -> Option<Image>,
                         textLength: string -> real): Result<Option<Sheet>>
  {
    if !video.opens then Ok(None)
    else if video.fps == 0.0 then Err(FloatZeroDivision)
    else
      var (frames, cols) := Layout(video.frameCount as real / video.fps / 60.0);
      Compose(Extracted(video, spacing(frames), resize), cols, savePath, Quality, textLength)
  }

  /**
   * Once the frame rate is known, the thumbnail never raises: it is saved exactly when some
   * frame was extracted, `cols` cells wide, at the default quality, with three drawing
   * operations per frame.
   */
  lemma AutoThumbnailSaves(video: Video, savePath: string, spacing: nat -> seq<int>, resize: Image -> Option<Image>,
                           textLength: string -> real)
    requires video.opens && video.fps != 0.0
    ensures var (frames, cols) := Layout(video.frameCount as real / video.fps / 60.0);
      var r := AutoThumbnail(video, savePath, spacing, resize, textLength);
      var shots := Extracted(video, spacing(frames), resize);
      && r.Ok?
      && (r.value.Some? <==> shots != [])
      && (r.value.Some? ==> r.value.value.width == cols * shots[0].image.width && r.value.value.quality == Quality
                            && |r.value.value.ops| == 3 * |shots|)
  {
  }

  /** The whole of `auto_create_thumbnail`. */
  method AutoCreateThumbnail(video: Video, savePath: string, spacing: nat -> seq<int>, resize: Image -> Option<Image>,
                             textLength: string -> real) returns (r: Result<Option<Sheet>>)
    ensures r == AutoThumbnail(video, savePath, spacing, resize, textLength)
  {
    if !video.opens {
      return Ok(None);
    }
    var cap := new Capture(video);
    var fps := cap.video.fps;
    var totalFrames := cap.video.frameCount;
    if fps == 0.0 {
      return Err(FloatZeroDivision);
    }
    var durationMinutes := totalFrames as real / fps / 60.0;
    var numFrames, cols := Layout(durationMinutes).0, Layout(durationMinutes).1;
    var shots := ExtractFrames(video, spacing(numFrames), resize);
    r := CreateThumbnail(shots, cols, savePath, Quality, textLength);
  }
}
