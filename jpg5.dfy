/**
 * The jpg5 image host client (`src/upload/jpg5.py`): the cookie file, the scrape of the
 * upload token from the home page, the account check and the hand-built multipart body of an
 * upload. The home page, the upload reply, the cookie file's contents, the uuid and the clock
 * are inputs.
 */
module Jpg5 {
  import opened Wrappers
  import opened Strings
  import Paths
  import opened Dicts
  import Seqs

  const CookiesFile := "jpg5_cookies.json"
  const TokenMarker := "PF.obj.config.auth_token"
  const Boundary := "----geckoformboundary1424e527941717af31b4c0c14514a0fc"

  type Cookies = Dict<string, string>

  /** One `{"name": ..., "value": ...}` entry of the cookie file; either key may be missing. */
  datatype CookieRecord = CookieRecord(name: Option<string>, value: Option<string>)

  // ----- the cookie file -----

  /** `save_cookies`: one record per cookie, in the dictionary's order. */
  function SaveCookies(cookies: Cookies): (r: seq<CookieRecord>)
    ensures |r| == |cookies|
  {
    if cookies == [] then []
    else [CookieRecord(Some(cookies[0].0), Some(cookies[0].1))] + SaveCookies(cookies[1..])
  }

  predicate Complete(records: seq<CookieRecord>) {
    forall i :: 0 <= i < |records| ==> records[i].name.Some? && records[i].value.Some?
  }

  function Pairs(records: seq<CookieRecord>): (r: seq<(string, string)>)
    requires Complete(records)
    ensures |r| == |records|
    ensures forall i :: 0 <= i < |r| ==> r[i] == (records[i].name.value, records[i].value.value)
  {
    if records == [] then [] else [(records[0].name.value, records[0].value.value)] + Pairs(records[1..])
  }

  /**
   * `load_cookies`: the dictionary built from the records of the file, or `{}` when the file
   * is missing or unreadable (`None`) or a record lacks a key.
   */
  function LoadCookies(file: Option<seq<CookieRecord>>): (r: Cookies)
    ensures Valid(r)
    ensures file.None? || !Complete(file.value) ==> r == []
  {
    if file.Some? && Complete(file.value) then
      ValidSetAll([], Pairs(file.value));
      SetAll([], Pairs(file.value))
    else []
  }

  lemma {:induction false} PairsOfSave(cookies: Cookies)
    ensures Complete(SaveCookies(cookies)) && Pairs(SaveCookies(cookies)) == cookies
  {
    if cookies != [] {
      PairsOfSave(cookies[1..]);
      assert SaveCookies(cookies) == [CookieRecord(Some(cookies[0].0), Some(cookies[0].1))] + SaveCookies(cookies[1..]);
    }
  }

  /** Loading what was saved gives the same dictionary back, keys in the same order. */
  lemma LoadSaveCookies(cookies: Cookies)
    requires Valid(cookies)
    ensures LoadCookies(Some(SaveCookies(cookies))) == cookies
  {
    PairsOfSave(cookies);
    SetAllOfValid(cookies);
  }

  /** With repeated names in the file, the value of the last record wins. */
  lemma LoadCookiesLastWins(records: seq<CookieRecord>, k: string)
    requires Complete(records)
    ensures Get(LoadCookies(Some(records)), k) == LastValue(Pairs(records), k)
  {
    GetSetAll([], Pairs(records), k);
  }

  // ----- the upload token -----

  /** `script.string and marker in script.string`. */
  predicate HasMarker(script: Option<string>) {
    script.Some? && script.value != "" && Contains(script.value, TokenMarker)
  }

  /** The first line that contains `t`, if any. */
  function FirstLineWith(lines: seq<string>, t: string): (r: Option<string>)
    ensures r.Some? ==> Contains(r.value, t)
    ensures r.None? <==> forall j :: 0 <= j < |lines| ==> !Contains(lines[j], t)
  {
    if lines == [] then None
    else if Contains(lines[0], t) then Some(lines[0])
    else FirstLineWith(lines[1..], t)
  }

  /** The line found is one of `lines`, and no line before it contains `t`: `next` takes the first. */
  lemma {:induction false} FirstLineWithIsFirst(lines: seq<string>, t: string)
    ensures var r := FirstLineWith(lines, t);
      r.Some? ==> exists j :: 0 <= j < |lines| && lines[j] == r.value && forall k :: 0 <= k < j ==> !Contains(lines[k], t)
  {
    if lines != [] && !Contains(lines[0], t) {
      var rest := lines[1..];
      FirstLineWithIsFirst(rest, t);
      var r := FirstLineWith(rest, t);
      if r.Some? {
        var j :| 0 <= j < |rest| && rest[j] == r.value && forall k :: 0 <= k < j ==> !Contains(rest[k], t);
        assert lines[j + 1] == r.value;
        forall k | 0 <= k < j + 1
          ensures !Contains(lines[k], t)
        {
          if k > 0 {
            assert lines[k] == rest[k - 1];
          }
        }
      }
    } else if lines != [] {
      assert lines[0] == FirstLineWith(lines, t).value;
    }
  }

  predicate IsQuoteOrSemicolon(c: char) { c == '"' || c == ';' }

  const IndexError := "list index out of range"

  /**
   * The token in a script: its first line containing the marker, stripped, then the text
   * between the first and the second `=`, stripped of whitespace and then of `"` and `;`.
   * A line without `=` raises `IndexError`.
   */
  function ScriptToken(script: string): (r: Result<string>)
    ensures r.Err? ==> r.error == IndexError
  {
    match FirstLineWith(SplitLines(script), TokenMarker)
    case None => Err(IndexError)
    case Some(line) =>
      var parts := Split(Strip(line), '=');
      if |parts| < 2 then Err(IndexError)
      else Ok(StripBy(Strip(parts[1]), IsQuoteOrSemicolon))
  }

  /** The token has no `=` in it, and neither end is a `"` or a `;`. */
  lemma ScriptTokenShape(script: string)
    ensures var r := ScriptToken(script);
      r.Ok? ==> forall k :: 0 <= k < |r.value| ==> r.value[k] != '='
    ensures var r := ScriptToken(script);
      r.Ok? && r.value != [] ==> !IsQuoteOrSemicolon(r.value[0]) && !IsQuoteOrSemicolon(r.value[|r.value| - 1])
  {
    var found := FirstLineWith(SplitLines(script), TokenMarker);
    if found.Some? {
      LineTokenShape(found.value);
    }
  }

  /** The same for the token cut out of one line. */
  lemma LineTokenShape(line: string)
    ensures var parts := Split(Strip(line), '=');
      |parts| >= 2 ==> var t := StripBy(Strip(parts[1]), IsQuoteOrSemicolon);
        && (forall k :: 0 <= k < |t| ==> t[k] != '=')
        && (t != [] ==> !IsQuoteOrSemicolon(t[0]) && !IsQuoteOrSemicolon(t[|t| - 1]))
  {
    var stripped := Strip(line);
    var parts := Split(stripped, '=');
    if |parts| >= 2 {
      var i := Find(stripped, '=');
      assert parts[1] == Split(stripped[i + 1..], '=')[0];
      SplitHead(stripped[i + 1..], '=');
      StripNoChar(parts[1], '=');
      NoCharInStrip(Strip(parts[1]), IsQuoteOrSemicolon, '=');
    }
  }

  /** Stripping keeps a string free of a character. */
  lemma StripNoChar(s: string, c: char)
    requires forall k :: 0 <= k < |s| ==> s[k] != c
    ensures forall k :: 0 <= k < |Strip(s)| ==> Strip(s)[k] != c
  {
    NoCharInStrip(s, IsSpace, c);
  }

  lemma NoCharInStrip(s: string, drop: char -> bool, c: char)
    requires forall k :: 0 <= k < |s| ==> s[k] != c
    ensures forall k :: 0 <= k < |StripBy(s, drop)| ==> StripBy(s, drop)[k] != c
  {
    var l := LStrip(s, drop);
    LStripSuffix(s, drop);
    assert c !in s;
    assert c !in l;
    RStripPrefix(l, drop);
    assert c !in RStrip(l, drop);
  }

  /** A script that has the marker always has a line with it, so only a missing `=` raises. */
  lemma MarkerLineExists(script: string)
    requires Contains(script, TokenMarker)
    ensures FirstLineWith(SplitLines(script), TokenMarker).Some?
    ensures ScriptToken(script).Err? <==> Find(Strip(FirstLineWith(SplitLines(script), TokenMarker).value), '=') < 0
  {
    assert forall k :: 0 <= k < |TokenMarker| ==> !IsLineBreak(TokenMarker[k]);
    LineContaining(script, TokenMarker);
  }

  /** The token of the first script that has the marker; `None` when no script has it. */
  function TokenOf(scripts: seq<Option<string>>): (r: Result<Option<string>>)
    ensures r == Ok(None) <==> forall i :: 0 <= i < |scripts| ==> !HasMarker(scripts[i])
    ensures r.Err? ==> r.error == IndexError
  {
    if scripts == [] then Ok(None)
    else if HasMarker(scripts[0]) then
      match ScriptToken(scripts[0].value)
      case Ok(t) => Ok(Some(t))
      case Err(e) => Err(e)
    else TokenOf(scripts[1..])
  }

  /** The home page as the scraper sees it: its `<script>` strings and the cookies it sets. */
  datatype Page = Page(scripts: seq<Option<string>>, setCookies: seq<(string, string)>)

  /**
   * `get_token`: loads the cookie file, fetches the page (an `Err` when the request raises),
   * scans the scripts and stops at the first that has the marker, merges the page's cookies into
   * a copy of the loaded ones and saves them. `saved` is what the cookie file then holds, `None`
   * when it is not written because an exception left the function first.
   */
  method GetToken(file: Option<seq<CookieRecord>>, page: Result<Page>)
    returns (token: Result<Option<string>>, saved: Option<seq<CookieRecord>>)
    ensures page.Err? ==> token == Err(page.error)
    ensures page.Ok? ==> token == TokenOf(page.value.scripts)
    ensures saved.Some? <==> page.Ok? && token.Ok?
    ensures saved.Some? ==> saved.value == SaveCookies(SetAll(LoadCookies(file), page.value.setCookies))
  {
    var cookies := LoadCookies(file);
    if page.Err? {
      return Err(page.error), None;
    }
    token := ScanScripts(page.value.scripts);
    if token.Err? {
      return token, None;
    }
    var updated := MergeSetCookies(cookies, page.value.setCookies);
    saved := Some(SaveCookies(updated));
  }

  /** The scan of `get_token`: the first script with the marker gives the token. */
  method ScanScripts(scripts: seq<Option<string>>) returns (token: Result<Option<string>>)
    ensures token == TokenOf(scripts)
  {
    token := Ok(None);
    var i := 0;
    while i < |scripts|
      invariant 0 <= i <= |scripts|
      invariant TokenOf(scripts[i..]) == TokenOf(scripts)
      invariant token == Ok(None)
    {
      if HasMarker(scripts[i]) {
        var t := ScriptToken(scripts[i].value);
        if t.Err? {
          return Err(t.error);
        }
        return Ok(Some(t.value));
      }
      assert scripts[i..][1..] == scripts[i + 1..];
      i := i + 1;
    }
  }

  /** The loaded cookies, copied, with each cookie the page set assigned over them in order. */
  method MergeSetCookies(cookies: Cookies, setC: seq<(string, string)>) returns (updated: Cookies)
    ensures updated == SetAll(cookies, setC)
  {
    updated := cookies;
    var k := 0;
    while k < |setC|
      invariant 0 <= k <= |setC|
      invariant updated == SetAll(cookies, setC[..k])
    {
      assert setC[..k + 1][..k] == setC[..k];
      updated := Set(updated, setC[k].0, setC[k].1);
      k := k + 1;
    }
    assert setC[..|setC|] == setC;
  }

  /**
   * After `get_token` the cookie file keeps every cookie it had, in its place, and each name
   * the page set holds the last value the page gave it.
   */
  lemma MergedCookieFile(file: Option<seq<CookieRecord>>, setCookies: seq<(string, string)>, k: string)
    ensures var before := LoadCookies(file);
      var after := LoadCookies(Some(SaveCookies(SetAll(before, setCookies))));
      |after| >= |before| && Keys(after)[..|before|] == Keys(before)
      && Get(after, k) == (if LastValue(setCookies, k).Some? then LastValue(setCookies, k) else Get(before, k))
  {
    var before := LoadCookies(file);
    ValidSetAll(before, setCookies);
    LoadSaveCookies(SetAll(before, setCookies));
    KeysSetAll(before, setCookies);
    GetSetAll(before, setCookies, k);
  }

  predicate NotLineBreak(c: char) { !IsLineBreak(c) }
  predicate NotEqualsSign(c: char) { c != '=' }

  /** A script holding `PF.obj.config.auth_token = "<tok>";` yields `tok`. */
  lemma ScriptTokenOfAssignment(tok: string)
    requires forall k :: 0 <= k < |tok| ==> !IsLineBreak(tok[k]) && tok[k] != '=' && !IsQuoteOrSemicolon(tok[k])
    ensures ScriptToken(TokenMarker + " = \"" + tok + "\";") == Ok(tok)
  {
    var tail := " \"" + tok + "\";";
    var script := TokenMarker + " =" + tail;
    assert TokenMarker + " = \"" + tok + "\";" == script;
    AssignmentIsOneLine(tok, tail, script);
    assert StartsWith(script, TokenMarker);
    assert FirstLineWith(SplitLines(script), TokenMarker) == Some(script);
    assert Strip(script) == script by {
      assert !IsSpace(script[0]) && !IsSpace(script[|script| - 1]);
    }
    AssignmentSplit(tok, tail, script);
    StripTail(tok, tail);
    StripQuoted(tok);
  }

  lemma TailChars(tok: string, tail: string, p: char -> bool)
    requires forall k :: 0 <= k < |tok| ==> p(tok[k])
    requires p(' ') && p('"') && p(';')
    requires tail == " \"" + tok + "\";"
    ensures forall k :: 0 <= k < |tail| ==> p(tail[k])
  {
    ConcatChars(" \"", tok, p);
    ConcatChars(" \"" + tok, "\";", p);
  }

  lemma AssignmentIsOneLine(tok: string, tail: string, script: string)
    requires forall k :: 0 <= k < |tok| ==> !IsLineBreak(tok[k])
    requires tail == " \"" + tok + "\";" && script == TokenMarker + " =" + tail
    ensures SplitLines(script) == [script]
  {
    TailChars(tok, tail, NotLineBreak);
    ConcatChars(TokenMarker, " =", NotLineBreak);
    ConcatChars(TokenMarker + " =", tail, NotLineBreak);
    assert FindLineBreak(script) < 0;
  }

  lemma AssignmentSplit(tok: string, tail: string, script: string)
    requires forall k :: 0 <= k < |tok| ==> tok[k] != '='
    requires tail == " \"" + tok + "\";" && script == TokenMarker + " =" + tail
    ensures |Split(script, '=')| >= 2 && Split(script, '=')[1] == tail
  {
    TailChars(tok, tail, NotEqualsSign);
    assert Find(tail, '=') < 0;
    var head := TokenMarker + " ";
    assert script == head + ("=" + tail);
    FindConcat(head, "=" + tail, '=');
    assert Find(script, '=') == |head|;
    assert script[|head| + 1..] == tail;
  }

  lemma StripTail(tok: string, tail: string)
    requires tail == " \"" + tok + "\";"
    ensures Strip(tail) == "\"" + tok + "\";"
  {
    var quoted := "\"" + tok + "\";";
    assert tail[1..] == quoted;
    assert LStrip(tail, IsSpace) == quoted;
    assert RStrip(quoted, IsSpace) == quoted;
  }

  lemma StripQuoted(tok: string)
    requires forall k :: 0 <= k < |tok| ==> !IsQuoteOrSemicolon(tok[k])
    ensures StripBy("\"" + tok + "\";", IsQuoteOrSemicolon) == tok
  {
    var q := "\"" + tok + "\";";
    var t1 := tok + "\";";
    assert q[1..] == t1;
    assert LStrip(q, IsQuoteOrSemicolon) == LStrip(t1, IsQuoteOrSemicolon);
    if tok == [] {
      assert t1 == ['"', ';'];
      assert t1[1..] == [';'];
      assert LStrip(t1, IsQuoteOrSemicolon) == LStrip([';'], IsQuoteOrSemicolon);
      assert [';'][1..] == [];
    } else {
      assert t1[0] == tok[0];
      assert LStrip(t1, IsQuoteOrSemicolon) == t1;
      var t2 := tok + "\"";
      assert t1[..|t1| - 1] == t2;
      assert RStrip(t1, IsQuoteOrSemicolon) == RStrip(t2, IsQuoteOrSemicolon);
      assert t2[..|t2| - 1] == tok;
      assert RStrip(t2, IsQuoteOrSemicolon) == RStrip(tok, IsQuoteOrSemicolon);
    }
  }

  /** The page is fetched and yields a truthy token. */
  predicate TokenFound(page: Result<Page>) {
    page.Ok? && var t := TokenOf(page.value.scripts); t.Ok? && t.value.Some? && t.value.value != ""
  }

  /** `verify`: raises when the cookie file gives no cookies or no token is found. */
  method Verify(file: Option<seq<CookieRecord>>, page: Result<Page>) returns (raised: Option<string>)
    ensures LoadCookies(file) == [] ==> raised == Some("No cookies found in " + CookiesFile)
    ensures raised.None? <==> LoadCookies(file) != [] && TokenFound(page)
  {
    var cookies := LoadCookies(file);
    if cookies == [] {
      return Some("No cookies found in " + CookiesFile);
    }
    var token, _ := GetToken(file, page);
    if token.Err? {
      return Some(token.error);
    }
    if token.value.None? || token.value.value == "" {
      return Some("Authentication token not found");
    }
    return None;
  }

  // ----- the upload -----

  /** `get_content_type`: the MIME type of the seven known extensions. */
  const ContentTypes: Dict<string, string> := [
    (".jpg", "image/jpeg"), (".jpeg", "image/jpeg"), (".png", "image/png"), (".gif", "image/gif"),
    (".webp", "image/webp"), (".mp4", "video/mp4"), (".webm", "video/webm")]

  const OctetStream := "application/octet-stream"

  function GetContentType(ext: string): string {
    Get(ContentTypes, ext).GetOr(OctetStream)
  }

  /** A listed extension gets its media type, and only an unlisted one gets `application/octet-stream`. */
  lemma ContentTypeCases(ext: string)
    ensures GetContentType(ext) == OctetStream <==> ext !in Keys(ContentTypes)
    ensures ext in Keys(ContentTypes) ==> Some(GetContentType(ext)) == Get(ContentTypes, ext)
  {
  }

  /** The header of the file part. */
  function FileHeader(filename: string, contentType: string): string {
    "--" + Boundary + "\r\n"
    + "Content-Disposition: form-data; name=\"source\"; filename=\"" + filename + "\"\r\n"
    + "Content-Type: " + contentType + "\r\n"
    + "\r\n"
  }

  /** One form field, with the delimiter that ends the previous part. */
  function FieldPart(key: string, value: string): string {
    "\r\n--" + Boundary + "\r\n"
    + "Content-Disposition: form-data; name=\"" + key + "\"\r\n\r\n"
    + value
  }

  function FieldsText(fields: seq<(string, string)>): string {
    if fields == [] then ""
    else FieldsText(fields[..|fields| - 1]) + FieldPart(fields[|fields| - 1].0, fields[|fields| - 1].1)
  }

  const Closing := "\r\n--" + Boundary + "--\r\n"

  /** The fields after the file, in order. */
  function FormFields(timestamp: nat, token: string, nsfw: bool): seq<(string, string)> {
    [("type", "file"), ("action", "upload"), ("timestamp", NatToString(timestamp)),
     ("auth_token", token), ("nsfw", if nsfw then "1" else "0")]
  }

  /** The whole request body. */
  function Body(filename: string, contentType: string, content: seq<byte>, fields: seq<(string, string)>): seq<byte> {
    Utf8(FileHeader(filename, contentType)) + content + Utf8(FieldsText(fields)) + Utf8(Closing)
  }

  /**
   * The body loop: the file part as UTF-8, the raw file bytes, each field part encoded in turn,
   * the closing delimiter.
   */
  method BuildBody(filename: string, contentType: string, content: seq<byte>, fields: seq<(string, string)>)
    returns (body: seq<byte>)
    ensures body == Body(filename, contentType, content, fields)
  {
    var head := Utf8(FileHeader(filename, contentType)) + content;
    body := head;
    var i := 0;
    while i < |fields|
      invariant 0 <= i <= |fields|
      invariant body == head + Utf8(FieldsText(fields[..i]))
    {
      var text, part := FieldsText(fields[..i]), FieldPart(fields[i].0, fields[i].1);
      assert fields[..i + 1][..i] == fields[..i];
      assert FieldsText(fields[..i + 1]) == text + part;
      Utf8Concat(text, part);
      Seqs.AppendAssoc(head, Utf8(text), Utf8(part));
      body := body + Utf8(part);
      i := i + 1;
    }
    assert fields[..|fields|] == fields;
    body := body + Utf8(Closing);
  }

  /**
   * The upload body as laid out on the wire: the file part under `source`, then `type`,
   * `action`, `timestamp`, `auth_token` and `nsfw`, then the closing delimiter.
   */
  lemma BodyLayout(timestamp: nat, token: string, nsfw: bool)
    ensures FieldsText(FormFields(timestamp, token, nsfw))
      == FieldPart("type", "file") + FieldPart("action", "upload")
         + FieldPart("timestamp", NatToString(timestamp)) + FieldPart("auth_token", token)
         + FieldPart("nsfw", if nsfw then "1" else "0")
  {
    var f := FormFields(timestamp, token, nsfw);
    FieldsTextOfFive(f[0], f[1], f[2], f[3], f[4]);
    assert f == [f[0], f[1], f[2], f[3], f[4]];
  }

  lemma FieldsTextOfFive(a: (string, string), b: (string, string), c: (string, string), d: (string, string), e: (string, string))
    ensures FieldsText([a, b, c, d, e])
      == FieldPart(a.0, a.1) + FieldPart(b.0, b.1) + FieldPart(c.0, c.1) + FieldPart(d.0, d.1) + FieldPart(e.0, e.1)
  {
    var f := [a, b, c, d, e];
    assert f[..0] == [];
    FieldsTextSnoc(f, 0);
    assert FieldsText(f[..1]) == FieldPart(a.0, a.1);
    FieldsTextSnoc(f, 1);
    FieldsTextSnoc(f, 2);
    FieldsTextSnoc(f, 3);
    FieldsTextSnoc(f, 4);
    assert f[..5] == f;
  }

  lemma FieldsTextSnoc(fields: seq<(string, string)>, k: nat)
    requires k < |fields|
    ensures FieldsText(fields[..k + 1]) == FieldsText(fields[..k]) + FieldPart(fields[k].0, fields[k].1)
  {
    assert fields[..k + 1][..k] == fields[..k];
  }

  /** The upload reply, as far as callers look at it: `status_code`, `image.url`, other keys. */
  datatype Reply = Reply(statusCode: Option<int>, image: Option<Option<string>>, otherKeys: nat)
  {
    /** A non-empty dictionary. */
    predicate Truthy() { statusCode.Some? || image.Some? || otherKeys > 0 }
  }

  /** `{"error": "Failed to parse server response"}`. */
  const ParseFailure := Reply(None, None, 1)

  /** What the POST gives: an exception, a body that is not JSON, or a JSON reply. */
  datatype PostOutcome = Raised(error: string) | Unparsable | Parsed(reply: Reply)

  datatype Request = Request(body: seq<byte>, cookies: Cookies)

  /**
   * What `upload_file` returns for a POST that was sent: the exception's text, the parse-failure
   * dictionary for a body that is not JSON, or the JSON reply as it is.
   */
  function ReplyOf(outcome: PostOutcome): (r: Result<Reply>)
    ensures r.Err? <==> outcome.Raised?
    ensures outcome.Unparsable? ==> r.value == ParseFailure && r.value.Truthy()
    ensures outcome.Parsed? ==> r.value == outcome.reply
  {
    match outcome
    case Raised(e) => Err(e)
    case Unparsable => Ok(ParseFailure)
    case Parsed(reply) => Ok(reply)
  }

  /** `str(uuid4()) + ext.lower()`, the name the file is uploaded under. */
  function UploadName(uuid: string, filePath: string): string {
    uuid + Lower(Paths.SplitExt(Paths.Basename(filePath)).1)
  }

  /**
   * `upload_file(path, nsfw)`. The existence check comes before any request; then `get_token`
   * (which rewrites the cookie file), the cookie file is loaded again with the current time in
   * seconds under `__ddg10_`, and the body is posted. `request` is what was posted, if anything.
   */
  method UploadFile(filePath: string, nsfw: bool, fileExists: bool, content: seq<byte>,
                    file: Option<seq<CookieRecord>>, page: Result<Page>, uuid: string,
                    millis: nat, seconds: nat, post: Request -> PostOutcome)
    returns (r: Result<Reply>, request: Option<Request>)
    ensures !fileExists ==> r == Err("File not found: " + filePath) && request.None?
    ensures request.Some? <==> fileExists && TokenFound(page)
    ensures request.Some? ==>
      var token := TokenOf(page.value.scripts).value.value;
      var ext := Lower(Paths.SplitExt(Paths.Basename(filePath)).1);
      var stored := LoadCookies(Some(SaveCookies(SetAll(LoadCookies(file), page.value.setCookies))));
      request.value.body == Body(uuid + ext, GetContentType(ext), content, FormFields(millis, token, nsfw))
      && request.value.cookies == Set(stored, "__ddg10_", NatToString(seconds))
    ensures request.Some? ==> r == ReplyOf(post(request.value))
    ensures fileExists && request.None? ==> r.Err?
  {
    if !fileExists {
      return Err("File not found: " + filePath), None;
    }
    var token, saved := GetToken(file, page);
    if token.Err? {
      return Err(token.error), None;
    }
    if token.value.None? || token.value.value == "" {
      return Err("Authentication token not found"), None;
    }
    var ext := Lower(Paths.SplitExt(Paths.Basename(filePath)).1);
    var uuidFilename := uuid + ext;
    var cookies := LoadCookies(saved);
    cookies := Set(cookies, "__ddg10_", NatToString(seconds));
    var contentType := GetContentType(ext);
    var body := BuildBody(uuidFilename, contentType, content, FormFields(millis, token.value.value, nsfw));
    request := Some(Request(body, cookies));
    r := ReplyOf(post(request.value));
  }
}
