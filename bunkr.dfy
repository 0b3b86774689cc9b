/**
 * The Bunkr uploader (`src/upload/bunkr.py`): the size strings of the server's `check` reply,
 * the pre-upload file test, the hand-built multipart body of a chunk, and the three nested
 * bounded retry loops of an upload (per chunk, for the finalize call, for the whole file with a
 * fresh upload node between tries).
 *
 * Every request the uploader sends is appended to its `requests` log. The reply to a request
 * is an input indexed by the request's position in that log; so are the random values
 * `uuid4()` draws, indexed by the number of requests sent before the draw.
 */
module Bunkr {
  import opened Wrappers
  import opened Strings
  import Paths
  import Seqs

  /** `MAX_RETRIES`: the bound of every retry loop. */
  const MaxRetries := 3
  const MiB := 1024 * 1024
  /** The `chunk_size` used when the configuration has none. */
  const DefaultChunkSize := 25000000
  /** The `maxSize` assumed when the server's `check` reply has none. */
  const DefaultMaxSize := "2000MB"
  const BoundaryPrefix := "----geckoformboundary"

  // ----- size strings -----

  /** `int(s.replace("MB", "").strip()) * 1024 * 1024`; `None` is the `ValueError` of `int`. */
  function ParseSize(s: string): (r: Option<int>)
    ensures r.Some? ==> r.value % MiB == 0
  {
    match ParseInt(ReplaceAll(s, "MB", ""))
    case None => None
    case Some(n) => MulMiB(n); Some(n * MiB)
  }

  lemma MulMiB(n: int)
    ensures (n * MiB) % MiB == 0
  {
    assert n * MiB == MiB * n + 0;
  }

  /** `"<n>MB"` is `n` mebibytes. */
  lemma ParseSizeOfMB(n: nat)
    ensures ParseSize(NatToString(n) + "MB") == Some(n * MiB)
  {
    var digits := NatToString(n);
    ReplaceAllThenPattern(digits, "MB");
    ParseIntOfIntToString(n);
  }

  lemma NatToString2000()
    ensures NatToString(2000) == "2000"
  {
    assert NatToString(2) == "2";
    assert NatToString(20) == NatToString(2) + ['0'];
    assert NatToString(200) == NatToString(20) + ['0'];
    assert NatToString(2000) == NatToString(200) + ['0'];
  }

  /** The default limit is 2000 MiB. */
  lemma DefaultMaxSizeValue()
    ensures ParseSize(DefaultMaxSize) == Some(2000 * MiB)
  {
    NatToString2000();
    ParseSizeOfMB(2000);
    assert NatToString(2000) + "MB" == DefaultMaxSize;
  }

  const ValueErrorText := "invalid literal for int() with base 10"
  const NoneAttributeText := "'NoneType' object has no attribute"

  /** The `chunkSize` entry of the server's `check` reply. */
  datatype ChunkSizeConfig = ChunkSizeConfig(max: Option<string>, default: Option<string>)

  /** The parts of the server's `check` reply the uploader reads. */
  datatype Check = Check(maintenance: bool, maxSize: Option<string>, chunkSize: Option<ChunkSizeConfig>)

  /**
   * The chunk size the constructor settles on: the requested one unless it exceeds the
   * server's `chunkSize.max`, else the server's `chunkSize.default`. A missing entry raises
   * `AttributeError`, an unparsable one `ValueError`.
   */
  function ChunkSizeFor(requested: int, check: Check): (r: Result<int>)
    ensures r.Ok? <==>
      check.chunkSize.Some? && check.chunkSize.value.max.Some? && ParseSize(check.chunkSize.value.max.value).Some?
      && (requested <= ParseSize(check.chunkSize.value.max.value).value
          || (check.chunkSize.value.default.Some? && ParseSize(check.chunkSize.value.default.value).Some?))
    ensures r.Ok? && requested <= ParseSize(check.chunkSize.value.max.value).value ==> r.value == requested
    ensures r.Ok? && requested > ParseSize(check.chunkSize.value.max.value).value ==>
      r.value == ParseSize(check.chunkSize.value.default.value).value
  {
    if check.chunkSize.None? || check.chunkSize.value.max.None? then Err(NoneAttributeText)
    else match ParseSize(check.chunkSize.value.max.value)
      case None => Err(ValueErrorText)
      case Some(maxBytes) =>
        if requested <= maxBytes then Ok(requested)
        else if check.chunkSize.value.default.None? then Err(NoneAttributeText)
        else match ParseSize(check.chunkSize.value.default.value)
          case None => Err(ValueErrorText)
          case Some(d) => Ok(d)
  }

  /** With sizes written as `"<n>MB"`, the chunk size is the request when it fits, else the default. */
  lemma ChunkSizeOfMB(requested: int, maxMB: nat, defaultMB: nat, maintenance: bool, maxSize: Option<string>)
    ensures var check := Check(maintenance, maxSize,
        Some(ChunkSizeConfig(Some(NatToString(maxMB) + "MB"), Some(NatToString(defaultMB) + "MB"))));
      ChunkSizeFor(requested, check) == Ok(if requested <= maxMB * MiB then requested else defaultMB * MiB)
  {
    ParseSizeOfMB(maxMB);
    ParseSizeOfMB(defaultMB);
  }

  /** A file on disk as the uploader sees it. */
  datatype FileInfo = FileInfo(path: string, present: bool, readable: bool, content: seq<byte>, contentType: Option<string>)

  /**
   * `verify_file`: false for a missing or unreadable file and for one larger than `maxSize`
   * (default `"2000MB"`); an unparsable `maxSize` raises.
   */
  function VerifyFile(file: FileInfo, check: Check): (r: Result<bool>)
    ensures !file.present || !file.readable ==> r == Ok(false)
    ensures file.present && file.readable ==>
      var limit := ParseSize(check.maxSize.GetOr(DefaultMaxSize));
      (r.Err? <==> limit.None?) && (r.Ok? ==> r.value == (|file.content| <= limit.value))
  {
    if !file.present || !file.readable then Ok(false)
    else match ParseSize(check.maxSize.GetOr(DefaultMaxSize))
      case None => Err(ValueErrorText)
      case Some(maxBytes) => Ok(|file.content| <= maxBytes)
  }

  /** Without a `maxSize` in the reply, a file of exactly 2000 MiB passes and one byte more fails. */
  lemma VerifyFileDefaultLimit(file: FileInfo, maintenance: bool, chunkSize: Option<ChunkSizeConfig>)
    requires file.present && file.readable
    ensures VerifyFile(file, Check(maintenance, None, chunkSize)) == Ok(|file.content| <= 2000 * MiB)
  {
    DefaultMaxSizeValue();
  }

  // ----- chunk arithmetic -----

  /** `math.ceil(a / b)` for a non-zero `b` of either sign. */
  function CeilDiv(a: nat, b: int): (r: int)
    requires b != 0
    ensures b > 0 ==> r >= 0 && ((a == 0 && r == 0) || (a > 0 && (r - 1) * b < a <= r * b))
    ensures b < 0 ==> r <= 0
  {
    if b > 0 then (a + b - 1) / b else -(a / -b)
  }

  /** Exactly the non-empty files no larger than one chunk go out in a single request. */
  lemma SingleChunkIff(size: nat, chunk: int)
    requires chunk > 0
    ensures CeilDiv(size, chunk) == 1 <==> 0 < size <= chunk
  {
  }

  /** Chunk `k` of `total` starts inside the file: every chunk carries at least one byte. */
  lemma ChunkStartsInFile(size: nat, chunk: int, k: nat)
    requires chunk > 0 && k < CeilDiv(size, chunk)
    ensures k * chunk < size
  {
    var total := CeilDiv(size, chunk);
    assert k * chunk <= (total - 1) * chunk by {
      assert k <= total - 1;
    }
  }

  /** `f.seek(offset); f.read(n)`: at most `n` bytes from `offset`, fewer at the end of the file. */
  function ReadAt(content: seq<byte>, offset: nat, n: nat): (r: seq<byte>)
    ensures |r| <= n
    ensures offset + |r| <= |content| || r == []
  {
    if offset >= |content| then []
    else if offset + n <= |content| then content[offset..offset + n]
    else content[offset..]
  }

  /** Reading the chunks one after another covers the whole file, in order. */
  lemma {:induction false} ChunksCoverFile(content: seq<byte>, chunk: nat, k: nat)
    requires chunk > 0 && k * chunk <= |content|
    ensures ChunksFrom(content, chunk, k) == content[k * chunk..]
    decreases |content| - k * chunk
  {
    if k * chunk < |content| && (k + 1) * chunk <= |content| {
      ChunksCoverFile(content, chunk, k + 1);
      var here := ReadAt(content, k * chunk, chunk);
      assert here == content[k * chunk..(k + 1) * chunk];
      assert content[k * chunk..] == here + content[(k + 1) * chunk..];
    }
  }

  /** The bytes of chunks `k`, `k + 1`, ... up to the end of the file, concatenated. */
  function ChunksFrom(content: seq<byte>, chunk: nat, k: nat): seq<byte>
    requires chunk > 0
    decreases |content| - k * chunk
  {
    if k * chunk >= |content| then []
    else if (k + 1) * chunk > |content| then ReadAt(content, k * chunk, chunk)
    else ReadAt(content, k * chunk, chunk) + ChunksFrom(content, chunk, k + 1)
  }

  // ----- the multipart body of a chunk (RFC 7578) -----

  /** The boundary of one chunk request: the prefix and 24 hex digits of a fresh uuid. */
  function BoundaryOf(hex: string): string {
    BoundaryPrefix + (if |hex| <= 24 then hex else hex[..24])
  }

  /** The six `dz*` fields, in the order the dictionary literal lists them. */
  function DzFields(dzuuid: string, index: nat, totalSize: nat, chunkSize: int, totalChunks: int, offset: nat)
    : seq<(string, string)>
  {
    [("dzuuid", dzuuid), ("dzchunkindex", IntToString(index)), ("dztotalfilesize", IntToString(totalSize)),
     ("dzchunksize", IntToString(chunkSize)), ("dztotalchunkcount", IntToString(totalChunks)),
     ("dzchunkbyteoffset", IntToString(offset))]
  }

  function Disposition(name: string): string {
    "Content-Disposition: form-data; name=\"" + name + "\""
  }

  /** The four lines `form_data` gets for each field. */
  function FieldLines(boundary: string, fields: seq<(string, string)>): seq<string> {
    if fields == [] then []
    else ["--" + boundary, Disposition(fields[0].0), "", fields[0].1] + FieldLines(boundary, fields[1..])
  }

  /** The lines of `form_data`: the fields, then the header of the `files[]` part. */
  function FormLines(boundary: string, fields: seq<(string, string)>, filename: string): seq<string> {
    FieldLines(boundary, fields) + ["--" + boundary, FileDisposition(filename), FileContentType, ""]
  }

  /** `"\r\n".join(form_data).encode() + b"\r\n" + chunk_data + end_boundary`. */
  function ChunkPayload(boundary: string, fields: seq<(string, string)>, filename: string, data: seq<byte>): seq<byte> {
    Utf8(Join(FormLines(boundary, fields, filename), "\r\n")) + Utf8("\r\n") + data
    + Utf8("\r\n--" + boundary + "--\r\n")
  }

  /** One form field as a part: delimiter line, disposition header, blank line, value. */
  function FieldPart(boundary: string, name: string, value: string): string {
    "--" + boundary + "\r\n" + Disposition(name) + "\r\n" + "\r\n" + value + "\r\n"
  }

  function FieldParts(boundary: string, fields: seq<(string, string)>): string {
    if fields == [] then "" else FieldPart(boundary, fields[0].0, fields[0].1) + FieldParts(boundary, fields[1..])
  }

  function FileDisposition(filename: string): string {
    "Content-Disposition: form-data; name=\"files[]\"; filename=\"" + filename + "\""
  }

  const FileContentType := "Content-Type: application/octet-stream"

  /** The header of the file part, up to and including the blank line before the bytes. */
  function FileHeader(boundary: string, filename: string): string {
    "--" + boundary + "\r\n" + FileDisposition(filename) + "\r\n" + FileContentType + "\r\n" + "\r\n"
  }

  /** Joining two non-empty runs of lines, each followed by the separator. */
  lemma {:induction false} JoinAppend(a: seq<string>, b: seq<string>, sep: string)
    requires |a| >= 1 && |b| >= 1
    ensures Join(a + b, sep) + sep == (Join(a, sep) + sep) + (Join(b, sep) + sep)
    decreases |a|
  {
    var ab := a + b;
    assert ab[0] == a[0];
    if |a| == 1 {
      assert ab[1..] == b;
      assert Join(ab, sep) == a[0] + sep + Join(b, sep);
      calc {
        Join(ab, sep) + sep;
        (a[0] + sep + Join(b, sep)) + sep;
        (a[0] + sep) + (Join(b, sep) + sep);
      }
    } else {
      assert ab[1..] == a[1..] + b;
      JoinAppend(a[1..], b, sep);
      var x, y := Join(a[1..], sep), Join(b, sep);
      assert Join(ab, sep) == a[0] + sep + Join(a[1..] + b, sep);
      assert Join(a, sep) == a[0] + sep + x;
      calc {
        Join(ab, sep) + sep;
        (a[0] + sep + Join(a[1..] + b, sep)) + sep;
        a[0] + sep + (Join(a[1..] + b, sep) + sep);
        a[0] + sep + ((x + sep) + (y + sep));
        (a[0] + sep + x + sep) + (y + sep);
      }
    }
  }

  lemma JoinFour(x0: string, x1: string, x2: string, x3: string, sep: string)
    ensures Join([x0, x1, x2, x3], sep) + sep == x0 + sep + x1 + sep + x2 + sep + x3 + sep
  {
    assert [x0, x1, x2, x3][1..] == [x1, x2, x3];
    assert [x1, x2, x3][1..] == [x2, x3];
    assert [x2, x3][1..] == [x3];
    assert Join([x2, x3], sep) == x2 + sep + x3;
    assert Join([x1, x2, x3], sep) == x1 + sep + (x2 + sep + x3);
    assert Join([x0, x1, x2, x3], sep) == x0 + sep + (x1 + sep + (x2 + sep + x3));
  }

  lemma {:induction false} FieldLinesText(boundary: string, fields: seq<(string, string)>)
    requires |fields| >= 1
    ensures |FieldLines(boundary, fields)| >= 1
    ensures Join(FieldLines(boundary, fields), "\r\n") + "\r\n" == FieldParts(boundary, fields)
    decreases |fields|
  {
    var four := ["--" + boundary, Disposition(fields[0].0), "", fields[0].1];
    JoinFour(four[0], four[1], four[2], four[3], "\r\n");
    if |fields| > 1 {
      FieldLinesText(boundary, fields[1..]);
      JoinAppend(four, FieldLines(boundary, fields[1..]), "\r\n");
    } else {
      assert FieldLines(boundary, fields) == four + [];
      assert four + [] == four;
    }
  }

  /** The text before the chunk's bytes: the field parts, then the file part's header. */
  lemma FormText(boundary: string, fields: seq<(string, string)>, filename: string)
    requires |fields| >= 1
    ensures Join(FormLines(boundary, fields, filename), "\r\n") + "\r\n"
      == FieldParts(boundary, fields) + FileHeader(boundary, filename)
  {
    var fl := FieldLines(boundary, fields);
    var tail := ["--" + boundary, FileDisposition(filename), FileContentType, ""];
    FieldLinesText(boundary, fields);
    JoinAppend(fl, tail, "\r\n");
    JoinFour(tail[0], tail[1], tail[2], tail[3], "\r\n");
    assert Join(tail, "\r\n") + "\r\n" == FileHeader(boundary, filename);
  }

  /**
   * The body of a chunk, as laid out on the wire: one part per field, in order, then the
   * `files[]` part header, the chunk's bytes, and the closing delimiter `CRLF--boundary--CRLF`.
   */
  lemma ChunkPayloadLayout(boundary: string, fields: seq<(string, string)>, filename: string, data: seq<byte>)
    requires |fields| >= 1
    ensures ChunkPayload(boundary, fields, filename, data)
      == Utf8(FieldParts(boundary, fields) + FileHeader(boundary, filename)) + data
         + Utf8("\r\n--" + boundary + "--\r\n")
  {
    var text := Join(FormLines(boundary, fields, filename), "\r\n");
    FormText(boundary, fields, filename);
    Utf8Concat(text, "\r\n");
  }

  /** The six fields of a chunk body, written out: each is one `form-data` part of its own. */
  lemma DzFieldParts(boundary: string, dzuuid: string, index: nat, totalSize: nat, chunkSize: int, totalChunks: int, offset: nat)
    ensures FieldParts(boundary, DzFields(dzuuid, index, totalSize, chunkSize, totalChunks, offset))
      == FieldPart(boundary, "dzuuid", dzuuid)
         + (FieldPart(boundary, "dzchunkindex", IntToString(index))
         + (FieldPart(boundary, "dztotalfilesize", IntToString(totalSize))
         + (FieldPart(boundary, "dzchunksize", IntToString(chunkSize))
         + (FieldPart(boundary, "dztotalchunkcount", IntToString(totalChunks))
         + FieldPart(boundary, "dzchunkbyteoffset", IntToString(offset))))))
  {
    var f := DzFields(dzuuid, index, totalSize, chunkSize, totalChunks, offset);
    var p := seq(6, i requires 0 <= i < 6 => FieldPart(boundary, f[i].0, f[i].1));
    assert FieldParts(boundary, f[5..]) == p[5] by { assert f[5..][1..] == []; }
    assert FieldParts(boundary, f[4..]) == p[4] + p[5] by { assert f[4..][1..] == f[5..]; }
    assert FieldParts(boundary, f[3..]) == p[3] + (p[4] + p[5]) by { assert f[3..][1..] == f[4..]; }
    assert FieldParts(boundary, f[2..]) == p[2] + (p[3] + (p[4] + p[5])) by { assert f[2..][1..] == f[3..]; }
    assert FieldParts(boundary, f[1..]) == p[1] + (p[2] + (p[3] + (p[4] + p[5]))) by { assert f[1..][1..] == f[2..]; }
    assert FieldParts(boundary, f) == p[0] + (p[1] + (p[2] + (p[3] + (p[4] + p[5])))) by { assert f[1..] == f[1..]; }
  }

  // ----- requests, replies and the retry loops -----

  /** A reply's JSON body, as far as the uploader reads it: `success`, each `files[i].url`, `url`. */
  datatype Json = Json(success: bool, files: seq<Option<string>>, url: Option<string>)

  /** What a request brings back: an exception, or a status and a body that may not be JSON. */
  datatype Reply = Raised(error: string) | Response(status: int, json: Option<Json>)

  /**
   * The requests the uploader sends after construction. A chunk request records the values of
   * its form fields and its bytes; `Payload` gives the body it posts.
   */
  datatype Request =
    | SingleUpload(endpoint: Option<string>, filename: string, contentType: Option<string>, albumHeader: string, content: seq<byte>)
    | ChunkUpload(endpoint: Option<string>, dzuuid: string, index: nat, totalSize: nat, chunkSize: int,
                  totalChunks: int, offset: nat, boundary: string, filename: string, data: seq<byte>)
    | FinishChunks(endpoint: Option<string>, dzuuid: string, original: string, contentType: Option<string>, albumId: Option<string>)
    | NodeLookup

  /**
   * The outside world of one uploader: the reply to the n-th request it sends, and what
   * `uuid4()` yields when drawn after n requests (as a string for `dzuuid`, as hex digits for a
   * boundary).
   */
  datatype Network = Network(reply: nat -> Reply, uuid: nat -> string, hex: nat -> string)

  /** The multipart body a chunk request posts. */
  function Payload(req: Request): seq<byte>
    requires req.ChunkUpload?
  {
    ChunkPayload(req.boundary, DzFields(req.dzuuid, req.index, req.totalSize, req.chunkSize, req.totalChunks, req.offset),
                 req.filename, req.data)
  }

  const JsonErrorText := "Expecting value: line 1 column 1 (char 0)"

  /** A `200` reply whose body parses. */
  predicate Accepted(reply: Reply) {
    reply.Response? && reply.status == 200 && reply.json.Some?
  }

  /** The URL a `200` reply with `success` and a non-empty `files` list carries, if it is one. */
  function FileUrl(reply: Reply): Option<Option<string>> {
    if Accepted(reply) && reply.json.value.success && |reply.json.value.files| > 0
    then Some(reply.json.value.files[0]) else None
  }

  /** Python truthiness of an upload's return value: a non-empty URL. */
  predicate Truthy(url: Option<string>) {
    url.Some? && url.value != ""
  }

  /** How the chunk protocol ends: the URL it returns and the request log it leaves. */
  datatype Run = Run(url: Option<string>, log: seq<Request>)

  /** One chunked upload: where it goes, the file, the chunking and the shared `dzuuid`. */
  datatype ChunkJob = ChunkJob(endpoint: Option<string>, file: FileInfo, name: string, chunkSize: int, total: int,
                               dzuuid: string, albumId: Option<string>)
  {
    predicate Valid() { total <= 0 || chunkSize > 0 }
  }

  /** The n-th request when it uploads chunk `k`: its offset, bytes, fields and a fresh boundary. */
  function ChunkRequest(job: ChunkJob, net: Network, k: nat, n: nat): Request
    requires job.chunkSize > 0
  {
    var offset := k * job.chunkSize;
    ChunkUpload(job.endpoint, job.dzuuid, k, |job.file.content|, job.chunkSize, job.total, offset,
                BoundaryOf(net.hex(n)), job.name, ReadAt(job.file.content, offset, job.chunkSize))
  }

  /** The `finishchunks` request of a job. */
  function FinishRequest(job: ChunkJob): Request {
    FinishChunks(job.endpoint, job.dzuuid, job.name, job.file.contentType, job.albumId)
  }

  /** Where `_upload_chunk_file` stands: try `tries` of chunk `k`, or try `tries` of finalizing. */
  datatype Phase = Sending(k: nat, tries: nat) | Finishing(tries: nat)

  /** Whether a phase still sends a request: a chunk is left, or a finalize try is left. */
  predicate Active(job: ChunkJob, phase: Phase) {
    match phase
    case Sending(k, _) => k < job.total
    case Finishing(tries) => tries < MaxRetries
  }

  /** A measure that every step of the chunk protocol decreases. */
  function Rank(job: ChunkJob, phase: Phase): nat {
    match phase
    case Sending(k, tries) => if k < job.total then (job.total - k) * 8 + (if tries < MaxRetries then MaxRetries - tries else 0) + 4 else 0
    case Finishing(tries) => if tries < MaxRetries then MaxRetries - tries else 0
  }

  /** The request an active phase sends as the n-th request. */
  function RequestAt(job: ChunkJob, net: Network, phase: Phase, n: nat): Request
    requires job.Valid() && Active(job, phase)
  {
    match phase
    case Sending(k, _) => ChunkRequest(job, net, k, n)
    case Finishing(_) => FinishRequest(job)
  }

  /** What the reply to a phase's request leads to: another phase, or the end with the URL returned. */
  datatype Step = Continue(next: Phase) | Stop(url: Option<string>)

  /**
   * A chunk whose reply is a `200` with a JSON body moves on to the next chunk or, when it is
   * the last one and the body says `success`, to finalizing; any other reply is retried, and
   * the third failure of a chunk gives up. A finish reply that carries a URL ends the upload
   * with it; otherwise the next finalize try follows, and when none is left the chunk loop has
   * no chunk left either and the upload returns `None`.
   */
  function StepAt(job: ChunkJob, net: Network, phase: Phase, n: nat): (r: Step)
    requires Active(job, phase)
    ensures r.Continue? ==> Rank(job, r.next) < Rank(job, phase)
  {
    var reply := net.reply(n);
    match phase
    case Sending(k, tries) =>
      if Accepted(reply) then
        Continue(if k == job.total - 1 && reply.json.value.success then Finishing(0) else Sending(k + 1, 0))
      else if tries + 1 < MaxRetries then Continue(Sending(k, tries + 1))
      else Stop(None)
    case Finishing(tries) =>
      match FileUrl(reply)
      case Some(url) => Stop(url)
      case None => Continue(Finishing(tries + 1))
  }

  /** `_upload_chunk_file` from `phase` on, after the requests in `log`. */
  function ChunkRun(job: ChunkJob, net: Network, phase: Phase, log: seq<Request>): Run
    requires job.Valid()
    decreases Rank(job, phase)
  {
    if !Active(job, phase) then Run(None, log)
    else
      var next := log + [RequestAt(job, net, phase, |log|)];
      match StepAt(job, net, phase, |log|)
      case Stop(url) => Run(url, next)
      case Continue(p) => ChunkRun(job, net, p, next)
  }

  /**
   * The chunk protocol only appends to the log, and each request it appends is the chunk
   * request for its own chunk index built at that position (offset, bytes, fields, a fresh
   * boundary) or the job's finish request.
   */
  lemma {:induction false} ChunkRunLog(job: ChunkJob, net: Network, phase: Phase, log: seq<Request>)
    requires job.Valid()
    ensures var r := ChunkRun(job, net, phase, log);
      && log <= r.log
      && forall i | |log| <= i < |r.log| ::
           if r.log[i].ChunkUpload? then job.chunkSize > 0 && r.log[i] == ChunkRequest(job, net, r.log[i].index, i)
           else r.log[i] == FinishRequest(job)
    decreases Rank(job, phase)
  {
    if Active(job, phase) {
      var next := log + [RequestAt(job, net, phase, |log|)];
      var step := StepAt(job, net, phase, |log|);
      if step.Continue? {
        ChunkRunLog(job, net, step.next, next);
      }
    }
  }

  /** Every request one chunked upload sends carries the same `dzuuid` and goes to the same URL. */
  lemma SameUpload(job: ChunkJob, net: Network, log: seq<Request>)
    requires job.Valid()
    ensures var r := ChunkRun(job, net, Sending(0, 0), log);
      forall i | |log| <= i < |r.log| ::
        (r.log[i].ChunkUpload? || r.log[i].FinishChunks?) && r.log[i].dzuuid == job.dzuuid && r.log[i].endpoint == job.endpoint
  {
    ChunkRunLog(job, net, Sending(0, 0), log);
  }

  /** An active phase sends its own request first; a spent one sends nothing and returns `None`. */
  lemma ChunkRunFirst(job: ChunkJob, net: Network, phase: Phase, log: seq<Request>)
    requires job.Valid()
    ensures var r := ChunkRun(job, net, phase, log);
      if Active(job, phase) then |r.log| > |log| && r.log[|log|] == RequestAt(job, net, phase, |log|)
      else r == Run(None, log)
  {
    if Active(job, phase) {
      var next := log + [RequestAt(job, net, phase, |log|)];
      var step := StepAt(job, net, phase, |log|);
      if step.Continue? {
        ChunkRunLog(job, net, step.next, next);
      }
    }
  }

  /**
   * How one request of a chunked upload follows the one before it, sent as the n-th: a chunk
   * is sent again only after its reply was not accepted, the next chunk only after an accepted
   * reply, the first finish request only after the last chunk's reply said `success`, and
   * another finish request only after one that brought no URL.
   */
  predicate Follows(job: ChunkJob, net: Network, prev: Request, cur: Request, n: nat) {
    if cur.ChunkUpload? then
      && prev.ChunkUpload? && cur.index < job.total
      && (if Accepted(net.reply(n)) then cur.index == prev.index + 1 else cur.index == prev.index)
    else if prev.ChunkUpload? then
      prev.index == job.total - 1 && Accepted(net.reply(n)) && net.reply(n).json.value.success
    else FileUrl(net.reply(n)).None?
  }

  predicate Steps(job: ChunkJob, net: Network, s: seq<Request>, lo: nat) {
    forall i | lo < i < |s| :: Follows(job, net, s[i - 1], s[i], i - 1)
  }

  /** One step of the protocol, from an active phase to the active phase after it. */
  lemma StepFollows(job: ChunkJob, net: Network, phase: Phase, n: nat)
    requires job.Valid() && Active(job, phase)
    requires StepAt(job, net, phase, n).Continue? && Active(job, StepAt(job, net, phase, n).next)
    ensures Follows(job, net, RequestAt(job, net, phase, n), RequestAt(job, net, StepAt(job, net, phase, n).next, n + 1), n)
  {
  }

  lemma {:induction false} ChunkRunSteps(job: ChunkJob, net: Network, phase: Phase, log: seq<Request>)
    requires job.Valid()
    ensures Steps(job, net, ChunkRun(job, net, phase, log).log, |log|)
    decreases Rank(job, phase)
  {
    if Active(job, phase) {
      var next := log + [RequestAt(job, net, phase, |log|)];
      var step := StepAt(job, net, phase, |log|);
      if step.Continue? {
        var r := ChunkRun(job, net, step.next, next);
        ChunkRunSteps(job, net, step.next, next);
        ChunkRunFirst(job, net, step.next, next);
        ChunkRunLog(job, net, step.next, next);
        if Active(job, step.next) {
          StepFollows(job, net, phase, |log|);
          assert Follows(job, net, r.log[|log|], r.log[|log| + 1], |log|);
        }
      }
    }
  }

  /** The chunk protocol only appends to the log. */
  lemma {:induction false} ChunkRunPrefix(job: ChunkJob, net: Network, phase: Phase, log: seq<Request>)
    requires job.Valid()
    ensures log <= ChunkRun(job, net, phase, log).log
    decreases Rank(job, phase)
  {
    if Active(job, phase) {
      var next := log + [RequestAt(job, net, phase, |log|)];
      var step := StepAt(job, net, phase, |log|);
      if step.Continue? {
        ChunkRunPrefix(job, net, step.next, next);
      }
    }
  }

  /** From finalize try `tries` on, only finish requests are sent, at most `MaxRetries - tries` of them. */
  lemma {:induction false} FinishingReach(job: ChunkJob, net: Network, tries: nat, log: seq<Request>)
    requires job.Valid() && tries <= MaxRetries
    ensures var r := ChunkRun(job, net, Finishing(tries), log);
      |r.log| <= |log| + MaxRetries - tries && forall i | |log| <= i < |r.log| :: r.log[i].FinishChunks?
    decreases MaxRetries - tries
  {
    if tries < MaxRetries {
      var next := log + [FinishRequest(job)];
      if FileUrl(net.reply(|log|)).None? {
        FinishingReach(job, net, tries + 1, next);
        ChunkRunPrefix(job, net, Finishing(tries + 1), next);
        assert ChunkRun(job, net, Finishing(tries), log) == ChunkRun(job, net, Finishing(tries + 1), next);
        assert next[|log|].FinishChunks?;
      }
    }
  }

  /**
   * From chunk `k`, try `tries` on, every chunk request is for chunk `k` or later, and those
   * for chunk `k` come within the first `MaxRetries - tries` requests.
   */
  lemma {:induction false} SendingReach(job: ChunkJob, net: Network, k: nat, tries: nat, log: seq<Request>)
    requires job.Valid() && tries < MaxRetries
    ensures var r := ChunkRun(job, net, Sending(k, tries), log);
      forall i | |log| <= i < |r.log| && r.log[i].ChunkUpload? ::
        r.log[i].index >= k && (r.log[i].index == k ==> i < |log| + MaxRetries - tries)
    decreases Rank(job, Sending(k, tries))
  {
    var phase := Sending(k, tries);
    if k < job.total {
      var next := log + [ChunkRequest(job, net, k, |log|)];
      assert next[|log|].index == k;
      var step := StepAt(job, net, phase, |log|);
      if step.Continue? {
        var r := ChunkRun(job, net, step.next, next);
        assert ChunkRun(job, net, phase, log) == r;
        ChunkRunPrefix(job, net, step.next, next);
        if step.next.Finishing? {
          FinishingReach(job, net, 0, next);
        } else {
          SendingReach(job, net, step.next.k, step.next.tries, next);
          assert step.next.k == k ==> step.next.tries == tries + 1;
        }
      }
    }
  }

  /** No chunk is sent more than `MaxRetries` times, and the upload is finalized at most that often. */
  predicate Bounded(s: seq<Request>, lo: nat) {
    forall i, j | lo <= i && i + MaxRetries <= j < |s| ::
      && (s[i].ChunkUpload? && s[j].ChunkUpload? ==> s[i].index < s[j].index)
      && !(s[i].FinishChunks? && s[j].FinishChunks?)
  }

  lemma {:induction false} ChunkRunBounded(job: ChunkJob, net: Network, phase: Phase, log: seq<Request>)
    requires job.Valid() && phase.tries < MaxRetries
    ensures Bounded(ChunkRun(job, net, phase, log).log, |log|)
    decreases Rank(job, phase)
  {
    var r := ChunkRun(job, net, phase, log);
    match phase {
      case Sending(k, tries) => SendingReach(job, net, k, tries, log);
      case Finishing(tries) => FinishingReach(job, net, tries, log);
    }
    if Active(job, phase) {
      var next := log + [RequestAt(job, net, phase, |log|)];
      var step := StepAt(job, net, phase, |log|);
      if step.Continue? && step.next.tries < MaxRetries {
        ChunkRunBounded(job, net, step.next, next);
        ChunkRunLog(job, net, phase, log);
        ChunkRunFirst(job, net, phase, log);
        assert r == ChunkRun(job, net, step.next, next);
        forall i, j | |log| <= i && i + MaxRetries <= j < |r.log|
          ensures r.log[i].ChunkUpload? && r.log[j].ChunkUpload? ==> r.log[i].index < r.log[j].index
          ensures !(r.log[i].FinishChunks? && r.log[j].FinishChunks?)
        {
          if i > |log| {
            assert |next| <= i;
          }
        }
      }
    }
  }

  /** A URL comes only from the last request, a finish request whose reply carried it. */
  lemma {:induction false} ChunkRunUrl(job: ChunkJob, net: Network, phase: Phase, log: seq<Request>)
    requires job.Valid()
    ensures var r := ChunkRun(job, net, phase, log);
      r.url.Some? ==> |r.log| > |log| && r.log[|r.log| - 1] == FinishRequest(job) && FileUrl(net.reply(|r.log| - 1)) == Some(r.url)
    decreases Rank(job, phase)
  {
    if Active(job, phase) {
      var next := log + [RequestAt(job, net, phase, |log|)];
      var step := StepAt(job, net, phase, |log|);
      if step.Continue? {
        ChunkRunUrl(job, net, step.next, next);
      }
    }
  }

  /** The requests for chunks `k` to the last, each sent once, the first as the n-th request. */
  function ChunkSeries(job: ChunkJob, net: Network, k: nat, n: nat): (r: seq<Request>)
    requires job.chunkSize > 0
    ensures |r| == if k < job.total then job.total - k else 0
    ensures forall i | 0 <= i < |r| :: r[i] == ChunkRequest(job, net, k + i, n + i)
    decreases job.total - k
  {
    if k >= job.total then [] else [ChunkRequest(job, net, k, n)] + ChunkSeries(job, net, k + 1, n + 1)
  }

  /** The bytes the chunk requests of a log carry, in order. */
  function Data(s: seq<Request>): seq<byte> {
    if s == [] then [] else (if s[0].ChunkUpload? then s[0].data else []) + Data(s[1..])
  }

  /** A server that accepts every request with `success` and the URL `url` in `files[0]`. */
  ghost predicate Smooth(net: Network, url: string) {
    forall m :: FileUrl(net.reply(m)) == Some(Some(url))
  }

  /**
   * When the server accepts everything, each chunk from `k` on is sent exactly once, then one
   * finish request, and the URL it returns is the upload's result.
   */
  lemma {:induction false} HappyRun(job: ChunkJob, net: Network, url: string, k: nat, log: seq<Request>)
    requires job.chunkSize > 0 && k < job.total && Smooth(net, url)
    ensures ChunkRun(job, net, Sending(k, 0), log)
      == Run(Some(url), log + ChunkSeries(job, net, k, |log|) + [FinishRequest(job)])
    decreases job.total - k
  {
    if k == job.total - 1 {
      HappyLast(job, net, url, log);
      SeriesLast(job, net, |log|);
    } else {
      var next := log + [ChunkRequest(job, net, k, |log|)];
      HappyNext(job, net, url, k, log);
      HappyRun(job, net, url, k + 1, next);
      SeriesCons(job, net, k, log);
    }
  }

  lemma SeriesLast(job: ChunkJob, net: Network, n: nat)
    requires job.chunkSize > 0 && job.total >= 1
    ensures ChunkSeries(job, net, job.total - 1, n) == [ChunkRequest(job, net, job.total - 1, n)]
  {
  }

  lemma SeriesCons(job: ChunkJob, net: Network, k: nat, log: seq<Request>)
    requires job.chunkSize > 0 && k + 1 < job.total
    ensures log + ChunkSeries(job, net, k, |log|)
      == (log + [ChunkRequest(job, net, k, |log|)]) + ChunkSeries(job, net, k + 1, |log| + 1)
  {
    var req := ChunkRequest(job, net, k, |log|);
    assert ChunkSeries(job, net, k, |log|) == [req] + ChunkSeries(job, net, k + 1, |log| + 1);
  }

  /** An accepted chunk other than the last moves on to the next one. */
  lemma HappyNext(job: ChunkJob, net: Network, url: string, k: nat, log: seq<Request>)
    requires job.chunkSize > 0 && k + 1 < job.total && FileUrl(net.reply(|log|)) == Some(Some(url))
    ensures ChunkRun(job, net, Sending(k, 0), log)
      == ChunkRun(job, net, Sending(k + 1, 0), log + [ChunkRequest(job, net, k, |log|)])
  {
  }

  /** An accepted last chunk, then a finish request whose reply carries the URL. */
  lemma HappyLast(job: ChunkJob, net: Network, url: string, log: seq<Request>)
    requires job.chunkSize > 0 && job.total >= 1
    requires FileUrl(net.reply(|log|)) == Some(Some(url)) && FileUrl(net.reply(|log| + 1)) == Some(Some(url))
    ensures ChunkRun(job, net, Sending(job.total - 1, 0), log)
      == Run(Some(url), log + [ChunkRequest(job, net, job.total - 1, |log|)] + [FinishRequest(job)])
  {
    var next := log + [ChunkRequest(job, net, job.total - 1, |log|)];
    AcceptedLast(job, net, url, |log|);
    LastChunkStep(job, net, log);
    HappyFinish(job, net, url, next);
  }

  /** A last chunk whose reply leads to finalizing sends that chunk, then finalizes. */
  lemma LastChunkStep(job: ChunkJob, net: Network, log: seq<Request>)
    requires job.chunkSize > 0 && job.total >= 1
    requires StepAt(job, net, Sending(job.total - 1, 0), |log|) == Continue(Finishing(0))
    ensures ChunkRun(job, net, Sending(job.total - 1, 0), log)
      == ChunkRun(job, net, Finishing(0), log + [ChunkRequest(job, net, job.total - 1, |log|)])
  {
    SendingRequest(job, net, job.total - 1, |log|);
    ChunkRunContinues(job, net, Sending(job.total - 1, 0), log);
  }

  lemma AcceptedLast(job: ChunkJob, net: Network, url: string, n: nat)
    requires job.total >= 1 && FileUrl(net.reply(n)) == Some(Some(url))
    ensures StepAt(job, net, Sending(job.total - 1, 0), n) == Continue(Finishing(0))
  {
  }

  lemma SendingRequest(job: ChunkJob, net: Network, k: nat, n: nat)
    requires job.chunkSize > 0 && k < job.total
    ensures RequestAt(job, net, Sending(k, 0), n) == ChunkRequest(job, net, k, n)
  {
  }

  /** One step of the chunk protocol that does not end it. */
  lemma ChunkRunContinues(job: ChunkJob, net: Network, phase: Phase, log: seq<Request>)
    requires job.Valid() && Active(job, phase) && StepAt(job, net, phase, |log|).Continue?
    ensures ChunkRun(job, net, phase, log)
      == ChunkRun(job, net, StepAt(job, net, phase, |log|).next, log + [RequestAt(job, net, phase, |log|)])
  {
  }

  /** A finish request whose reply carries the URL ends the upload with it. */
  lemma HappyFinish(job: ChunkJob, net: Network, url: string, log: seq<Request>)
    requires job.Valid() && FileUrl(net.reply(|log|)) == Some(Some(url))
    ensures ChunkRun(job, net, Finishing(0), log) == Run(Some(url), log + [FinishRequest(job)])
  {
    assert StepAt(job, net, Finishing(0), |log|) == Stop(Some(url));
  }

  lemma MulMono(a: int, b: int, c: int)
    requires a <= b && c > 0
    ensures a * c <= b * c
  {
    assert b * c - a * c == (b - a) * c;
  }

  /** Chunk `k` exists exactly when it starts inside the file. */
  lemma ChunkBounds(size: nat, chunk: int, k: nat)
    requires chunk > 0
    ensures k < CeilDiv(size, chunk) <==> k * chunk < size
  {
    var total := CeilDiv(size, chunk);
    if k < total {
      ChunkStartsInFile(size, chunk, k);
    } else {
      MulMono(total, k, chunk);
    }
  }

  /** The chunks from `k` on carry the file's bytes from chunk `k`'s offset on, in order. */
  lemma {:induction false} SeriesData(job: ChunkJob, net: Network, k: nat, n: nat)
    requires job.chunkSize > 0 && job.total == CeilDiv(|job.file.content|, job.chunkSize)
    ensures Data(ChunkSeries(job, net, k, n)) == ChunksFrom(job.file.content, job.chunkSize, k)
    decreases job.total - k
  {
    var content, cs := job.file.content, job.chunkSize;
    ChunkBounds(|content|, cs, k);
    ChunkBounds(|content|, cs, k + 1);
    if k < job.total {
      var rest := ChunkSeries(job, net, k + 1, n + 1);
      var s := [ChunkRequest(job, net, k, n)] + rest;
      assert s[1..] == rest;
      SeriesData(job, net, k + 1, n + 1);
      if (k + 1) * cs > |content| {
        assert Data(rest) == [];
      }
    }
  }

  /**
   * The successful chunked upload of a non-empty file: every chunk sent once, in order, then
   * one finish request; the chunks' bytes put together are the file, and the URL the server
   * gives back is returned.
   */
  lemma HappyPath(job: ChunkJob, net: Network, url: string, log: seq<Request>)
    requires job.chunkSize > 0 && |job.file.content| > 0 && job.total == CeilDiv(|job.file.content|, job.chunkSize)
    requires Smooth(net, url)
    ensures var r := ChunkRun(job, net, Sending(0, 0), log);
      var sent := ChunkSeries(job, net, 0, |log|);
      && r.url == Some(url) && r.log == log + sent + [FinishRequest(job)]
      && |sent| == job.total && Data(sent) == job.file.content
  {
    HappyRun(job, net, url, 0, log);
    SeriesData(job, net, 0, |log|);
    ChunksCoverFile(job.file.content, job.chunkSize, 0);
  }

  /** The single request of `_upload_single_file`. */
  function SingleRequest(endpoint: Option<string>, name: string, file: FileInfo, albumId: Option<string>): Request {
    SingleUpload(endpoint, name, file.contentType,
                 if Truthy(albumId) then albumId.value else "", file.content)
  }

  /**
   * What `_upload_single_file` returns for its reply: the URL of a successful `200` reply,
   * `None` for any other status or an unsuccessful body; a raised request or a body that is
   * not JSON propagates.
   */
  function SingleOutcome(reply: Reply): (r: Result<Option<string>>)
    ensures r.Ok? && r.value.Some? ==> FileUrl(reply) == Some(r.value)
    ensures r.Err? <==> reply.Raised? || (reply.status == 200 && reply.json.None?)
  {
    match reply
    case Raised(e) => Err(e)
    case Response(status, json) =>
      if status != 200 then Ok(None)
      else if json.None? then Err(JsonErrorText)
      else if json.value.success && |json.value.files| > 0 then Ok(json.value.files[0])
      else Ok(None)
  }

  /** The fixed part of a whole-file upload: the file, its chunking and the album. */
  datatype FileJob = FileJob(file: FileInfo, name: string, chunkSize: int, total: int, albumId: Option<string>)
  {
    predicate Valid() { total <= 0 || chunkSize > 0 }
  }

  /** The chunked upload of a try that starts after `n` requests, with the `dzuuid` drawn then. */
  function JobAt(job: FileJob, endpoint: Option<string>, net: Network, n: nat): ChunkJob {
    ChunkJob(endpoint, job.file, job.name, job.chunkSize, job.total, net.uuid(n), job.albumId)
  }

  /** How one try of `upload_file` ends: its outcome and the request log it leaves. */
  datatype Try = Try(outcome: Result<Option<string>>, log: seq<Request>)

  /** One try of `upload_file`: a single request for one chunk, the chunked protocol otherwise. */
  function Attempt(job: FileJob, endpoint: Option<string>, net: Network, log: seq<Request>): Try
    requires job.Valid()
  {
    if job.total == 1 then Try(SingleOutcome(net.reply(|log|)), log + [SingleRequest(endpoint, job.name, job.file, job.albumId)])
    else var run := ChunkRun(JobAt(job, endpoint, net, |log|), net, Sending(0, 0), log); Try(Ok(run.url), run.log)
  }

  /** A whole-file run: the outcome, the request log and the upload URL it leaves behind. */
  datatype FileRun = FileRun(result: Result<Option<string>>, log: seq<Request>, endpoint: Option<string>)

  /** `upload_file` before its loop: maintenance, the file test and the chunk count. */
  function Precheck(file: FileInfo, check: Check, chunkSize: int): (r: Result<Option<int>>)
    ensures r.Ok? && r.value.Some? ==> !check.maintenance && VerifyFile(file, check) == Ok(true) && chunkSize != 0
    ensures r.Ok? && r.value.Some? ==> r.value.value == CeilDiv(|file.content|, chunkSize)
    ensures check.maintenance ==> r == Ok(None)
    ensures !check.maintenance && VerifyFile(file, check) == Ok(false) ==> r == Ok(None)
  {
    if check.maintenance then Ok(None)
    else match VerifyFile(file, check)
      case Err(e) => Err(e)
      case Ok(false) => Ok(None)
      case Ok(true) => if chunkSize == 0 then Err("division by zero") else Ok(Some(CeilDiv(|file.content|, chunkSize)))
  }

  /** How many upload-node lookups a log holds. */
  function Lookups(s: seq<Request>): nat {
    if s == [] then 0 else Lookups(s[..|s| - 1]) + (if s[|s| - 1].NodeLookup? then 1 else 0)
  }

  lemma LookupsAppend(s: seq<Request>, x: Request)
    ensures Lookups(s + [x]) == Lookups(s) + (if x.NodeLookup? then 1 else 0)
  {
    assert (s + [x])[..|s|] == s;
  }

  /** The chunk protocol sends no node lookup. */
  lemma {:induction false} ChunkRunLookups(job: ChunkJob, net: Network, phase: Phase, log: seq<Request>)
    requires job.Valid()
    ensures Lookups(ChunkRun(job, net, phase, log).log) == Lookups(log)
    decreases Rank(job, phase)
  {
    if Active(job, phase) {
      var next := log + [RequestAt(job, net, phase, |log|)];
      LookupsAppend(log, RequestAt(job, net, phase, |log|));
      var step := StepAt(job, net, phase, |log|);
      if step.Continue? {
        ChunkRunLookups(job, net, step.next, next);
      }
    }
  }

  /** The chunk protocol's summary for one try: no lookup, and a URL only from a finish reply. */
  lemma ChunkRunOutcome(job: ChunkJob, net: Network, log: seq<Request>)
    requires job.Valid()
    ensures var r := ChunkRun(job, net, Sending(0, 0), log);
      && log <= r.log && Lookups(r.log) == Lookups(log)
      && (r.url.Some? ==> |r.log| > |log| && FileUrl(net.reply(|r.log| - 1)) == Some(r.url) && r.log[|r.log| - 1].FinishChunks?)
  {
    ChunkRunPrefix(job, net, Sending(0, 0), log);
    ChunkRunLookups(job, net, Sending(0, 0), log);
    ChunkRunUrl(job, net, Sending(0, 0), log);
  }

  /**
   * What a try may do to the log: append upload requests only, never a node lookup, and
   * return a URL only when the reply to its last request, an upload request, carried it.
   */
  predicate TryShape(net: Network, log: seq<Request>, t: Try) {
    && log <= t.log && Lookups(t.log) == Lookups(log)
    && (t.outcome.Ok? && t.outcome.value.Some? ==>
          |t.log| > |log| && FileUrl(net.reply(|t.log| - 1)) == Some(t.outcome.value)
          && (t.log[|t.log| - 1].SingleUpload? || t.log[|t.log| - 1].FinishChunks?))
  }

  lemma AttemptLog(job: FileJob, endpoint: Option<string>, net: Network, log: seq<Request>)
    requires job.Valid()
    ensures TryShape(net, log, Attempt(job, endpoint, net, log))
  {
    var t := Attempt(job, endpoint, net, log);
    if job.total == 1 {
      var req := SingleRequest(endpoint, job.name, job.file, job.albumId);
      assert t == Try(SingleOutcome(net.reply(|log|)), log + [req]);
      LookupsAppend(log, req);
    } else {
      var cj := JobAt(job, endpoint, net, |log|);
      var run := ChunkRun(cj, net, Sending(0, 0), log);
      assert t == Try(Ok(run.url), run.log);
      ChunkRunOutcome(cj, net, log);
    }
  }

  /** The try `upload_file` repeats, as a function of the upload URL and the log before it. */
  function Tries(job: FileJob, net: Network): (Option<string>, seq<Request>) -> Try
    requires job.Valid()
  {
    (endpoint: Option<string>, log: seq<Request>) => Attempt(job, endpoint, net, log)
  }

  ghost predicate WellBehaved(attempt: (Option<string>, seq<Request>) -> Try, net: Network) {
    forall endpoint, log :: TryShape(net, log, attempt(endpoint, log))
  }

  lemma TriesWellBehaved(job: FileJob, net: Network)
    requires job.Valid()
    ensures WellBehaved(Tries(job, net), net)
  {
    forall endpoint, log ensures TryShape(net, log, Tries(job, net)(endpoint, log)) {
      AttemptLog(job, endpoint, net, log);
    }
  }

  /**
   * The whole-file retry loop of `upload_file` from try number `tries` on, around `attempt`:
   * a truthy URL is returned; after a failed try other than the last the upload node is
   * looked up again, and a lookup that raises, or whose body is not JSON, ends the loop with
   * that exception.
   */
  function Whole(attempt: (Option<string>, seq<Request>) -> Try, net: Network, tries: nat,
                 endpoint: Option<string>, log: seq<Request>): FileRun
    requires tries < MaxRetries
    decreases MaxRetries - tries
  {
    var t := attempt(endpoint, log);
    if t.outcome.Ok? && Truthy(t.outcome.value) then FileRun(t.outcome, t.log, endpoint)
    else if tries + 1 >= MaxRetries then FileRun(Ok(None), t.log, endpoint)
    else
      var next := t.log + [NodeLookup];
      match net.reply(|t.log|)
      case Raised(e) => FileRun(Err(e), next, endpoint)
      case Response(_, json) =>
        if json.None? then FileRun(Err(JsonErrorText), next, endpoint)
        else Whole(attempt, net, tries + 1, json.value.url, next)
  }

  /** The retry loop goes on after this try: it failed, it was not the last, and the lookup answered with JSON. */
  predicate Retries(attempt: (Option<string>, seq<Request>) -> Try, net: Network, tries: nat,
                    endpoint: Option<string>, log: seq<Request>)
  {
    var t := attempt(endpoint, log);
    && !(t.outcome.Ok? && Truthy(t.outcome.value)) && tries + 1 < MaxRetries
    && net.reply(|t.log|).Response? && net.reply(|t.log|).json.Some?
  }

  /** The log after a retried try: the try's requests and the node lookup. */
  function RetryLog(attempt: (Option<string>, seq<Request>) -> Try, endpoint: Option<string>, log: seq<Request>): seq<Request> {
    attempt(endpoint, log).log + [NodeLookup]
  }

  lemma WholeRetries(attempt: (Option<string>, seq<Request>) -> Try, net: Network, tries: nat,
                     endpoint: Option<string>, log: seq<Request>)
    requires tries < MaxRetries && Retries(attempt, net, tries, endpoint, log)
    ensures var next := RetryLog(attempt, endpoint, log);
      Whole(attempt, net, tries, endpoint, log) == Whole(attempt, net, tries + 1, net.reply(|next| - 1).json.value.url, next)
  {
  }

  /**
   * Around tries that behave, the retry loop only appends to the log and looks the upload
   * node up fewer than `MaxRetries - tries` times.
   */
  lemma {:induction false} WholeLookups(attempt: (Option<string>, seq<Request>) -> Try, net: Network, tries: nat,
                                      endpoint: Option<string>, log: seq<Request>)
    requires tries < MaxRetries && WellBehaved(attempt, net)
    ensures var r := Whole(attempt, net, tries, endpoint, log);
      log <= r.log && Lookups(r.log) < Lookups(log) + MaxRetries - tries
    decreases MaxRetries - tries
  {
    RetryLookups(attempt, net, endpoint, log);
    if Retries(attempt, net, tries, endpoint, log) {
      var next := RetryLog(attempt, endpoint, log);
      WholeRetries(attempt, net, tries, endpoint, log);
      WholeLookups(attempt, net, tries + 1, net.reply(|next| - 1).json.value.url, next);
      Seqs.PrefixTrans(log, next, Whole(attempt, net, tries + 1, net.reply(|next| - 1).json.value.url, next).log);
    } else {
      TryBehaves(attempt, net, endpoint, log);
      WholeLookupsEnd(attempt, net, tries, endpoint, log);
    }
  }

  lemma RetryLookups(attempt: (Option<string>, seq<Request>) -> Try, net: Network, endpoint: Option<string>, log: seq<Request>)
    requires WellBehaved(attempt, net)
    ensures var next := RetryLog(attempt, endpoint, log);
      log <= next && Lookups(next) == Lookups(log) + 1
  {
    var t := attempt(endpoint, log);
    assert TryShape(net, log, t);
    LookupsAppend(t.log, NodeLookup);
    Seqs.PrefixAppend(log, t.log, [NodeLookup]);
  }

  lemma WholeLookupsEnd(attempt: (Option<string>, seq<Request>) -> Try, net: Network, tries: nat,
                        endpoint: Option<string>, log: seq<Request>)
    requires tries < MaxRetries && !Retries(attempt, net, tries, endpoint, log)
    requires TryShape(net, log, attempt(endpoint, log))
    requires var next := RetryLog(attempt, endpoint, log); log <= next && Lookups(next) == Lookups(log) + 1
    ensures var r := Whole(attempt, net, tries, endpoint, log);
      log <= r.log && Lookups(r.log) < Lookups(log) + MaxRetries - tries
  {
  }

  lemma TryBehaves(attempt: (Option<string>, seq<Request>) -> Try, net: Network, endpoint: Option<string>, log: seq<Request>)
    requires WellBehaved(attempt, net)
    ensures TryShape(net, log, attempt(endpoint, log))
  {
  }

  lemma WholeErrEnd(attempt: (Option<string>, seq<Request>) -> Try, net: Network, tries: nat,
                    endpoint: Option<string>, log: seq<Request>)
    requires tries < MaxRetries && !Retries(attempt, net, tries, endpoint, log)
    requires TryShape(net, log, attempt(endpoint, log))
    ensures var r := Whole(attempt, net, tries, endpoint, log);
      r.result.Err? ==> |r.log| > |log| && r.log[|r.log| - 1].NodeLookup?
  {
  }

  lemma WholeUrlEnd(attempt: (Option<string>, seq<Request>) -> Try, net: Network, tries: nat,
                    endpoint: Option<string>, log: seq<Request>)
    requires tries < MaxRetries && !Retries(attempt, net, tries, endpoint, log)
    requires TryShape(net, log, attempt(endpoint, log))
    ensures var r := Whole(attempt, net, tries, endpoint, log);
      && (r.result.Ok? ==> r.result.value.None? || Truthy(r.result.value))
      && (r.result.Ok? && r.result.value.Some? ==>
            |r.log| > |log| && FileUrl(net.reply(|r.log| - 1)) == Some(r.result.value)
            && (r.log[|r.log| - 1].SingleUpload? || r.log[|r.log| - 1].FinishChunks?))
  {
  }

  /** Around tries that behave, an exception ends the retry loop only right after a node lookup. */
  lemma {:induction false} WholeErr(attempt: (Option<string>, seq<Request>) -> Try, net: Network, tries: nat,
                                      endpoint: Option<string>, log: seq<Request>)
    requires tries < MaxRetries && WellBehaved(attempt, net)
    ensures var r := Whole(attempt, net, tries, endpoint, log);
      r.result.Err? ==> |r.log| > |log| && r.log[|r.log| - 1].NodeLookup?
    decreases MaxRetries - tries
  {
    if Retries(attempt, net, tries, endpoint, log) {
      var next := RetryLog(attempt, endpoint, log);
      WholeRetries(attempt, net, tries, endpoint, log);
      WholeErr(attempt, net, tries + 1, net.reply(|next| - 1).json.value.url, next);
    } else {
      TryBehaves(attempt, net, endpoint, log);
      WholeErrEnd(attempt, net, tries, endpoint, log);
    }
  }

  /**
   * Around tries that behave, the retry loop returns a non-empty URL, which the reply to its
   * last request (an upload request) carried, or `None`.
   */
  lemma {:induction false} WholeUrl(attempt: (Option<string>, seq<Request>) -> Try, net: Network, tries: nat,
                                      endpoint: Option<string>, log: seq<Request>)
    requires tries < MaxRetries && WellBehaved(attempt, net)
    ensures var r := Whole(attempt, net, tries, endpoint, log);
      && (r.result.Ok? ==> r.result.value.None? || Truthy(r.result.value))
      && (r.result.Ok? && r.result.value.Some? ==>
            |r.log| > |log| && FileUrl(net.reply(|r.log| - 1)) == Some(r.result.value)
            && (r.log[|r.log| - 1].SingleUpload? || r.log[|r.log| - 1].FinishChunks?))
    decreases MaxRetries - tries
  {
    if Retries(attempt, net, tries, endpoint, log) {
      var next := RetryLog(attempt, endpoint, log);
      WholeRetries(attempt, net, tries, endpoint, log);
      WholeUrl(attempt, net, tries + 1, net.reply(|next| - 1).json.value.url, next);
    } else {
      TryBehaves(attempt, net, endpoint, log);
      WholeUrlEnd(attempt, net, tries, endpoint, log);
    }
  }

  /** `upload_file` after construction, from the upload URL and the log it finds. */
  function FileOutcome(check: Check, chunkSize: int, file: FileInfo, albumId: Option<string>,
                       endpoint: Option<string>, net: Network, log: seq<Request>): FileRun
  {
    match Precheck(file, check, chunkSize)
    case Err(e) => FileRun(Err(e), log, endpoint)
    case Ok(None) => FileRun(Ok(None), log, endpoint)
    case Ok(Some(total)) => Whole(Tries(FileJob(file, Paths.Basename(file.path), chunkSize, total, albumId), net), net, 0, endpoint, log)
  }

  /** `upload_file` sends nothing in maintenance or for a file `verify_file` turns down. */
  lemma FileOutcomeSkips(check: Check, chunkSize: int, file: FileInfo, albumId: Option<string>,
                         endpoint: Option<string>, net: Network, log: seq<Request>)
    requires check.maintenance || VerifyFile(file, check) != Ok(true)
    ensures var r := FileOutcome(check, chunkSize, file, albumId, endpoint, net, log);
      r.log == log && r.endpoint == endpoint && (r.result.Ok? ==> r.result.value.None?)
  {
  }

  /**
   * `upload_file` only appends to the log; its result is a non-empty URL that the reply to its
   * last request carried, `None`, or an exception.
   */
  lemma FileOutcomeShape(check: Check, chunkSize: int, file: FileInfo, albumId: Option<string>,
                         endpoint: Option<string>, net: Network, log: seq<Request>)
    ensures UploadShape(net, log, FileOutcome(check, chunkSize, file, albumId, endpoint, net, log))
  {
    var pre := Precheck(file, check, chunkSize);
    if pre.Ok? && pre.value.Some? {
      var job := FileJob(file, Paths.Basename(file.path), chunkSize, pre.value.value, albumId);
      JobShape(job, net, endpoint, log);
      assert FileOutcome(check, chunkSize, file, albumId, endpoint, net, log) == Whole(Tries(job, net), net, 0, endpoint, log);
    }
  }

  /** The retry loop around the tries of one file only appends, and returns a carried URL or `None`. */
  lemma JobShape(job: FileJob, net: Network, endpoint: Option<string>, log: seq<Request>)
    requires job.Valid()
    ensures UploadShape(net, log, Whole(Tries(job, net), net, 0, endpoint, log))
  {
    TriesWellBehaved(job, net);
    WholeLookups(Tries(job, net), net, 0, endpoint, log);
    WholeUrl(Tries(job, net), net, 0, endpoint, log);
  }

  /** What `upload_files` has collected so far: the URLs, the request log, the upload URL. */
  datatype Batch = Batch(urls: seq<string>, log: seq<Request>, endpoint: Option<string>)

  /** The files listed by `order`, as indices into `files`. */
  predicate Indices(order: seq<nat>, files: seq<FileInfo>) {
    forall j | 0 <= j < |order| :: order[j] < |files|
  }

  /** `upload_file` of one uploader, as a function of the file, the upload URL and the log before it. */
  function Uploads(check: Check, chunkSize: int, albumId: Option<string>, net: Network)
    : (FileInfo, Option<string>, seq<Request>) -> FileRun
  {
    (file: FileInfo, endpoint: Option<string>, log: seq<Request>) => FileOutcome(check, chunkSize, file, albumId, endpoint, net, log)
  }

  /** What `upload_file` may do: append to the log, and return `None` or a URL a reply carried. */
  predicate UploadShape(net: Network, log: seq<Request>, r: FileRun) {
    && log <= r.log
    && (r.result.Ok? ==> r.result.value.None? || Truthy(r.result.value))
    && (r.result.Ok? && r.result.value.Some? ==> |r.log| > |log| && FileUrl(net.reply(|r.log| - 1)) == Some(r.result.value))
  }

  ghost predicate Behaves(upload: (FileInfo, Option<string>, seq<Request>) -> FileRun, net: Network) {
    forall file, endpoint, log :: UploadShape(net, log, upload(file, endpoint, log))
  }

  lemma UploadsBehave(check: Check, chunkSize: int, albumId: Option<string>, net: Network)
    ensures Behaves(Uploads(check, chunkSize, albumId, net), net)
  {
    forall file, endpoint, log ensures UploadShape(net, log, Uploads(check, chunkSize, albumId, net)(file, endpoint, log)) {
      FileOutcomeShape(check, chunkSize, file, albumId, endpoint, net, log);
    }
  }

  /**
   * `upload_files` from the i-th completed upload on: each file's `upload_file` in completion
   * order, keeping the truthy results; a file that fails or raises adds nothing.
   */
  function BatchRun(upload: (FileInfo, Option<string>, seq<Request>) -> FileRun, files: seq<FileInfo>, order: seq<nat>,
                    i: nat, acc: Batch): Batch
    requires Indices(order, files)
    decreases |order| - i
  {
    if i >= |order| then acc
    else
      var f := upload(files[order[i]], acc.endpoint, acc.log);
      var kept := if f.result.Ok? && Truthy(f.result.value) then [f.result.value.value] else [];
      BatchRun(upload, files, order, i + 1, Batch(acc.urls + kept, f.log, f.endpoint))
  }

  /** One completed upload: its truthy URL is kept, its log and upload URL carry over. */
  lemma BatchStep(upload: (FileInfo, Option<string>, seq<Request>) -> FileRun, files: seq<FileInfo>, order: seq<nat>,
                  i: nat, acc: Batch)
    requires Indices(order, files) && i < |order|
    ensures var f := upload(files[order[i]], acc.endpoint, acc.log);
      BatchRun(upload, files, order, i, acc)
        == BatchRun(upload, files, order, i + 1,
                    Batch(acc.urls + (if f.result.Ok? && Truthy(f.result.value) then [f.result.value.value] else []), f.log, f.endpoint))
  {
  }

  /** Every URL of `urls` is non-empty and came in a reply to one of the requests of `log`. */
  ghost predicate Carried(net: Network, urls: seq<string>, log: seq<Request>) {
    forall j | 0 <= j < |urls| :: urls[j] != "" && exists n | 0 <= n < |log| :: FileUrl(net.reply(n)) == Some(Some(urls[j]))
  }

  /** `upload_files` only appends to the log and returns at most one URL per file. */
  lemma {:induction false} BatchCount(upload: (FileInfo, Option<string>, seq<Request>) -> FileRun, net: Network,
                                      files: seq<FileInfo>, order: seq<nat>, i: nat, acc: Batch)
    requires Indices(order, files) && Behaves(upload, net)
    ensures var r := BatchRun(upload, files, order, i, acc);
      && acc.log <= r.log && acc.urls <= r.urls
      && |r.urls| <= |acc.urls| + (if i < |order| then |order| - i else 0)
    decreases |order| - i
  {
    if i < |order| {
      var f := upload(files[order[i]], acc.endpoint, acc.log);
      assert UploadShape(net, acc.log, f);
      var kept := if f.result.Ok? && Truthy(f.result.value) then [f.result.value.value] else [];
      BatchCount(upload, net, files, order, i + 1, Batch(acc.urls + kept, f.log, f.endpoint));
    }
  }

  /** Every URL `upload_files` returns is non-empty and came in a reply of the server. */
  lemma {:induction false} BatchUrls(upload: (FileInfo, Option<string>, seq<Request>) -> FileRun, net: Network,
                                     files: seq<FileInfo>, order: seq<nat>, i: nat, acc: Batch)
    requires Indices(order, files) && Behaves(upload, net) && Carried(net, acc.urls, acc.log)
    ensures Carried(net, BatchRun(upload, files, order, i, acc).urls, BatchRun(upload, files, order, i, acc).log)
    decreases |order| - i
  {
    if i < |order| {
      var f := upload(files[order[i]], acc.endpoint, acc.log);
      assert UploadShape(net, acc.log, f);
      var kept := if f.result.Ok? && Truthy(f.result.value) then [f.result.value.value] else [];
      var acc' := Batch(acc.urls + kept, f.log, f.endpoint);
      forall j | 0 <= j < |acc'.urls|
        ensures acc'.urls[j] != "" && exists n | 0 <= n < |acc'.log| :: FileUrl(net.reply(n)) == Some(Some(acc'.urls[j]))
      {
        if j < |acc.urls| {
          var n :| 0 <= n < |acc.log| && FileUrl(net.reply(n)) == Some(Some(acc.urls[j]));
          assert n < |acc'.log|;
        } else {
          assert acc'.urls[j] == f.result.value.value;
          assert FileUrl(net.reply(|f.log| - 1)) == Some(Some(acc'.urls[j]));
        }
      }
      BatchUrls(upload, net, files, order, i + 1, acc');
    }
  }

  class Uploader {
    const token: string
    const silent: bool
    const check: Check
    var chunkSize: int
    var uploadUrl: Option<string>
    /** Every request sent since construction, in order. */
    var requests: seq<Request>

    constructor (token: string, silent: bool, check: Check, chunkSize: int, uploadUrl: Option<string>)
      ensures this.token == token && this.silent == silent && this.check == check
      ensures this.chunkSize == chunkSize && this.uploadUrl == uploadUrl && requests == []
    {
      this.token := token;
      this.silent := silent;
      this.check := check;
      this.chunkSize := chunkSize;
      this.uploadUrl := uploadUrl;
      requests := [];
    }

    /** `refresh_url`: asks for an upload node and takes its `url`. */
    method RefreshUrl(net: Network) returns (r: Result<()>)
      modifies this
      ensures requests == old(requests) + [NodeLookup] && chunkSize == old(chunkSize)
      ensures var reply := net.reply(|old(requests)|);
        && (r.Ok? <==> reply.Response? && reply.json.Some?)
        && (r.Ok? ==> uploadUrl == reply.json.value.url)
        && (r.Err? ==> uploadUrl == old(uploadUrl) && r.error == if reply.Raised? then reply.error else JsonErrorText)
    {
      var reply := net.reply(|requests|);
      requests := requests + [NodeLookup];
      match reply {
        case Raised(e) => return Err(e);
        case Response(_, json) =>
          if json.None? {
            return Err(JsonErrorText);
          }
          uploadUrl := json.value.url;
          return Ok(());
      }
    }

    /** `_upload_single_file`: one request with the whole file. */
    method UploadSingleFile(file: FileInfo, albumId: Option<string>, net: Network) returns (r: Result<Option<string>>)
      modifies this
      ensures requests == old(requests) + [SingleRequest(uploadUrl, Paths.Basename(file.path), file, albumId)]
      ensures r == SingleOutcome(net.reply(|old(requests)|))
      ensures uploadUrl == old(uploadUrl) && chunkSize == old(chunkSize)
    {
      var reply := net.reply(|requests|);
      var header := if albumId.Some? && albumId.value != "" then albumId.value else "";
      requests := requests + [SingleUpload(uploadUrl, Paths.Basename(file.path), file.contentType, header, file.content)];
      match reply {
        case Raised(e) => r := Err(e);
        case Response(status, json) =>
          if status == 200 {
            if json.None? {
              r := Err(JsonErrorText);
            } else if json.value.success && |json.value.files| > 0 {
              r := Ok(json.value.files[0]);
            } else {
              r := Ok(None);
            }
          } else {
            r := Ok(None);
          }
      }
    }

    /**
     * The finalize loop of `_upload_chunk_file`: `Some(url)` when it returns, `None` when its
     * tries run out and the chunk loop goes on.
     */
    method FinishChunkUpload(ghost job: ChunkJob, dzuuid: string, filename: string, file: FileInfo,
                             albumId: Option<string>, net: Network) returns (r: Option<Option<string>>)
      requires job.Valid() && job == ChunkJob(uploadUrl, file, filename, chunkSize, job.total, dzuuid, albumId)
      modifies this
      ensures uploadUrl == old(uploadUrl) && chunkSize == old(chunkSize)
      ensures var run := ChunkRun(job, net, Finishing(0), old(requests));
        requests == run.log && (if r.Some? then r.value == run.url else run.url == None)
    {
      var tries := 0;
      while tries < MaxRetries
        invariant ChunkRun(job, net, Finishing(0), old(requests)) == ChunkRun(job, net, Finishing(tries), requests)
        invariant uploadUrl == old(uploadUrl) && chunkSize == old(chunkSize)
      {
        var reply := net.reply(|requests|);
        requests := requests + [FinishChunks(uploadUrl, dzuuid, filename, file.contentType, albumId)];
        if reply.Response? && reply.status == 200 && reply.json.Some?
           && reply.json.value.success && |reply.json.value.files| > 0 {
          return Some(reply.json.value.files[0]);
        }
        tries := tries + 1;
      }
      return None;
    }

    /**
     * The retry loop of chunk `k` in `_upload_chunk_file`: `Some(url)` when the upload returns
     * there, `None` when it goes on with the next chunk.
     */
    method UploadChunk(ghost job: ChunkJob, dzuuid: string, filename: string, file: FileInfo, total: int,
                       albumId: Option<string>, k: nat, net: Network) returns (r: Option<Option<string>>)
      requires job.Valid() && job == ChunkJob(uploadUrl, file, filename, chunkSize, total, dzuuid, albumId)
      requires k < total
      modifies this
      ensures uploadUrl == old(uploadUrl) && chunkSize == old(chunkSize)
      ensures ChunkRun(job, net, Sending(k, 0), old(requests))
        == if r.Some? then Run(r.value, requests) else ChunkRun(job, net, Sending(k + 1, 0), requests)
    {
      var retries := 0;
      while true
        invariant 0 <= retries < MaxRetries
        invariant ChunkRun(job, net, Sending(k, 0), old(requests)) == ChunkRun(job, net, Sending(k, retries), requests)
        invariant uploadUrl == old(uploadUrl) && chunkSize == old(chunkSize)
        decreases MaxRetries - retries
      {
        var n := |requests|;
        var offset := k * chunkSize;
        var data := ReadAt(file.content, offset, chunkSize);
        var boundary := BoundaryOf(net.hex(n));
        var reply := net.reply(n);
        requests := requests + [ChunkUpload(uploadUrl, dzuuid, k, |file.content|, chunkSize, total, offset, boundary, filename, data)];
        if reply.Response? && reply.status == 200 && reply.json.Some? {
          if k == total - 1 && reply.json.value.success {
            r := FinishChunkUpload(job, dzuuid, filename, file, albumId, net);
          } else {
            r := None;
          }
          return;
        }
        retries := retries + 1;
        if retries >= MaxRetries {
          return Some(None);
        }
      }
    }

    /**
     * `_upload_chunk_file`: one `dzuuid` for the whole file; chunk after chunk, each tried up
     * to `MaxRetries` times, the last one followed by up to `MaxRetries` finalize requests.
     */
    method UploadChunkFile(file: FileInfo, total: int, albumId: Option<string>, net: Network) returns (url: Option<string>)
      requires total <= 0 || chunkSize > 0
      modifies this
      ensures uploadUrl == old(uploadUrl) && chunkSize == old(chunkSize)
      ensures ChunkRun(ChunkJob(uploadUrl, file, Paths.Basename(file.path), chunkSize, total, net.uuid(|old(requests)|), albumId),
                       net, Sending(0, 0), old(requests)) == Run(url, requests)
    {
      var dzuuid := net.uuid(|requests|);
      var filename := Paths.Basename(file.path);
      ghost var job := ChunkJob(uploadUrl, file, filename, chunkSize, total, dzuuid, albumId);
      var k: nat := 0;
      while k < total
        invariant ChunkRun(job, net, Sending(0, 0), old(requests)) == ChunkRun(job, net, Sending(k, 0), requests)
        invariant uploadUrl == old(uploadUrl) && chunkSize == old(chunkSize)
        decreases total - k
      {
        var r := UploadChunk(job, dzuuid, filename, file, total, albumId, k, net);
        if r.Some? {
          return r.value;
        }
        k := k + 1;
      }
      return None;
    }

    /** One try of `upload_file`: a single request for one chunk, the chunked protocol otherwise. */
    method UploadAttempt(ghost job: FileJob, file: FileInfo, total: int, albumId: Option<string>, net: Network)
      returns (result: Result<Option<string>>)
      requires job == FileJob(file, Paths.Basename(file.path), chunkSize, total, albumId) && job.Valid()
      modifies this
      ensures uploadUrl == old(uploadUrl) && chunkSize == old(chunkSize)
      ensures Attempt(job, uploadUrl, net, old(requests)) == Try(result, requests)
    {
      if total == 1 {
        result := UploadSingleFile(file, albumId, net);
      } else {
        var url := UploadChunkFile(file, total, albumId, net);
        result := Ok(url);
      }
    }

    /** The retry loop of `upload_file`. */
    method UploadTries(ghost job: FileJob, file: FileInfo, total: int, albumId: Option<string>, net: Network)
      returns (r: Result<Option<string>>)
      requires job == FileJob(file, Paths.Basename(file.path), chunkSize, total, albumId) && job.Valid()
      modifies this
      ensures chunkSize == old(chunkSize)
      ensures Whole(Tries(job, net), net, 0, old(uploadUrl), old(requests)) == FileRun(r, requests, uploadUrl)
    {
      ghost var attempt := Tries(job, net);
      var retries := 0;
      while true
        invariant 0 <= retries < MaxRetries && chunkSize == old(chunkSize)
        invariant Whole(attempt, net, 0, old(uploadUrl), old(requests)) == Whole(attempt, net, retries, uploadUrl, requests)
        decreases MaxRetries - retries
      {
        ghost var log := requests;
        var result := UploadAttempt(job, file, total, albumId, net);
        assert attempt(uploadUrl, log) == Try(result, requests);
        if result.Ok? && result.value.Some? && result.value.value != "" {
          return result;
        }
        retries := retries + 1;
        if retries >= MaxRetries {
          return Ok(None);
        }
        var refreshed := RefreshUrl(net);
        if refreshed.Err? {
          return Err(refreshed.error);
        }
      }
    }

    /**
     * `upload_file`: nothing is sent while the server is in maintenance or the file fails
     * `verify_file`; otherwise up to `MaxRetries` tries, single or chunked by the chunk count,
     * refreshing the upload URL between tries.
     */
    method UploadFile(file: FileInfo, albumId: Option<string>, net: Network) returns (r: Result<Option<string>>)
      modifies this
      ensures chunkSize == old(chunkSize)
      ensures FileOutcome(check, old(chunkSize), file, albumId, old(uploadUrl), net, old(requests)) == FileRun(r, requests, uploadUrl)
      ensures Uploads(check, old(chunkSize), albumId, net)(file, old(uploadUrl), old(requests)) == FileRun(r, requests, uploadUrl)
    {
      if check.maintenance {
        return Ok(None);
      }
      var verified := VerifyFile(file, check);
      if verified.Err? {
        return Err(verified.error);
      }
      if !verified.value {
        return Ok(None);
      }
      if chunkSize == 0 {
        return Err("division by zero");
      }
      var total := CeilDiv(|file.content|, chunkSize);
      r := UploadTries(FileJob(file, Paths.Basename(file.path), chunkSize, total, albumId), file, total, albumId, net);
    }

    /**
     * `upload_files`: `upload_file` for every file, taken in the order the uploads complete
     * (`order`, which is the order of `files` when only one worker runs), keeping the truthy
     * URLs; a file whose upload fails or raises adds nothing.
     */
    method UploadFiles(files: seq<FileInfo>, albumId: Option<string>, batchSize: int, order: seq<nat>, net: Network)
      returns (urls: seq<string>)
      requires |order| == |files| && Indices(order, files)
      requires forall j, k | 0 <= j < k < |order| :: order[j] != order[k]
      requires batchSize <= 1 ==> forall j | 0 <= j < |order| :: order[j] == j
      modifies this
      ensures chunkSize == old(chunkSize)
      ensures BatchRun(Uploads(check, chunkSize, albumId, net), files, order, 0, Batch([], old(requests), old(uploadUrl)))
        == Batch(urls, requests, uploadUrl)
    {
      ghost var upload := Uploads(check, chunkSize, albumId, net);
      urls := [];
      var i := 0;
      while i < |order|
        invariant i <= |order| && chunkSize == old(chunkSize)
        invariant BatchRun(upload, files, order, 0, Batch([], old(requests), old(uploadUrl)))
          == BatchRun(upload, files, order, i, Batch(urls, requests, uploadUrl))
      {
        urls := UploadNext(upload, files, order, i, albumId, net, urls);
        i := i + 1;
      }
    }

    /** One completed upload of `upload_files`: its truthy URL joins the list. */
    method UploadNext(ghost upload: (FileInfo, Option<string>, seq<Request>) -> FileRun, files: seq<FileInfo>,
                      order: seq<nat>, i: nat, albumId: Option<string>, net: Network, urls: seq<string>)
      returns (more: seq<string>)
      requires Indices(order, files) && i < |order| && upload == Uploads(check, chunkSize, albumId, net)
      modifies this
      ensures chunkSize == old(chunkSize)
      ensures BatchRun(upload, files, order, i, Batch(urls, old(requests), old(uploadUrl)))
        == BatchRun(upload, files, order, i + 1, Batch(more, requests, uploadUrl))
    {
      ghost var before := Batch(urls, requests, uploadUrl);
      var result := UploadFile(files[order[i]], albumId, net);
      BatchStep(upload, files, order, i, before);
      more := urls;
      if result.Ok? && result.value.Some? && result.value.value != "" {
        more := urls + [result.value.value];
      }
      assert more == before.urls + if result.Ok? && Truthy(result.value) then [result.value.value] else [];
    }
  }

  /**
   * What the three requests of the constructor bring back, each an exception or a parsed
   * body: whether the token verifies (`success`), the server's `check` settings, and the
   * upload node's `url`.
   */
  datatype Handshake = Handshake(verify: Result<bool>, check: Result<Check>, node: Result<Option<string>>)

  /**
   * What the constructor ends with: the chunk size it settles on, or the exception it raises.
   * The token must verify, then the settings and the upload node are read, and the requested
   * chunk size (25000000 by default) is replaced by the server's default when it exceeds the
   * server's maximum.
   */
  function Construction(chunkSize: Option<int>, hs: Handshake): (r: Result<int>)
    ensures hs.verify.Err? ==> r == Err(hs.verify.error)
    ensures hs.verify == Ok(false) ==> r == Err("Invalid API token.")
    ensures r.Ok? <==>
      && hs.verify == Ok(true) && hs.check.Ok? && hs.node.Ok?
      && ChunkSizeFor(chunkSize.GetOr(DefaultChunkSize), hs.check.value).Ok?
    ensures r.Ok? ==> r.value == ChunkSizeFor(chunkSize.GetOr(DefaultChunkSize), hs.check.value).value
  {
    match hs.verify
    case Err(e) => Err(e)
    case Ok(valid) =>
      if !valid then Err("Invalid API token.")
      else if hs.check.Err? then Err(hs.check.error)
      else if hs.node.Err? then Err(hs.node.error)
      else ChunkSizeFor(chunkSize.GetOr(DefaultChunkSize), hs.check.value)
  }

  /** The constructor, step by step; a new uploader has sent nothing yet. */
  method Connect(token: string, chunkSize: Option<int>, silent: Option<bool>, hs: Handshake) returns (r: Result<Uploader>)
    ensures r.Ok? <==> Construction(chunkSize, hs).Ok?
    ensures r.Err? ==> r.error == Construction(chunkSize, hs).error
    ensures r.Ok? ==>
      && fresh(r.value) && r.value.requests == []
      && r.value.token == token && r.value.silent == silent.GetOr(false)
      && r.value.check == hs.check.value && r.value.uploadUrl == hs.node.value
      && r.value.chunkSize == Construction(chunkSize, hs).value
  {
    if hs.verify.Err? {
      return Err(hs.verify.error);
    }
    if !hs.verify.value {
      return Err("Invalid API token.");
    }
    if hs.check.Err? {
      return Err(hs.check.error);
    }
    if hs.node.Err? {
      return Err(hs.node.error);
    }
    var size := ChunkSizeFor(chunkSize.GetOr(DefaultChunkSize), hs.check.value);
    if size.Err? {
      return Err(size.error);
    }
    var uploader := new Uploader(token, silent.GetOr(false), hs.check.value, size.value, hs.node.value);
    return Ok(uploader);
  }
}
