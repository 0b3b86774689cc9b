/**
 * The upload front door: `upload_file(path, service)` dispatches to jpg5, GoFile or Bunkr and
 * folds whatever happens into one fixed-shape result record; `verify_uploaders` builds the list
 * of services that uploads are allowed to reach. What the jpg5 and GoFile uploaders return is an
 * input here (they are modelled in their own modules); the Bunkr path runs the Bunkr uploader and
 * the video splitter of this model.
 */
module Upload {
  import opened Wrappers
  import opened Dicts
  import Bunkr
  import Jpg5
  import Video

  /** `{"success", "url", "multiple", "urls"}`, plus `"error"` when an exception was caught. */
  datatype UploadResult = UploadResult(success: bool, url: Option<string>, multiple: bool, urls: seq<string>,
                                       error: Option<string>)

  /** The record every call starts from. */
  const Initial := UploadResult(false, None, false, [], None)

  const Services := ["bunkr", "jpg5", "gofile"]

  const MaxFileSizeMissing := "'BunkrUploader' object has no attribute 'max_file_size'"

  function UnsupportedText(service: string): string {
    "Unsupported upload service: " + service
  }

  /** The initial record with the text of a caught exception. */
  function Failed(e: string): UploadResult {
    Initial.(error := Some(e))
  }

  /** The record and the split files whose removal was attempted. */
  datatype Outcome = Outcome(result: UploadResult, removed: seq<string>)

  // ----- jpg5 and GoFile -----

  /**
   * The jpg5 branch, given what jpg5's `upload_file` returned or raised: a reply whose
   * `status_code` is 500 is a failure; any other non-empty reply is a success whose URL is
   * `image.url`, which may be missing.
   */
  function Jpg5Result(reply: Result<Jpg5.Reply>): (r: UploadResult)
    ensures r.error.Some? <==> reply.Err?
    ensures r.success <==> reply.Ok? && reply.value.statusCode.GetOr(200) != 500 && reply.value.Truthy()
    ensures r.url == if r.success then reply.value.image.GetOr(None) else None
    ensures !r.multiple && r.urls == []
  {
    match reply
    case Err(e) => Failed(e)
    case Ok(rep) =>
      if rep.statusCode.GetOr(200) == 500 then Initial
      else if rep.Truthy() then Initial.(success := true, url := rep.image.GetOr(None))
      else Initial
  }

  /**
   * The GoFile branch, given what GoFile's `uploadFile` returned or raised: a success exactly when
   * the returned data holds `downloadPage`, which becomes the URL.
   */
  function GoFileResult(data: Result<Option<Dict<string, string>>>): (r: UploadResult)
    ensures r.error.Some? <==> data.Err?
    ensures r.success <==> data.Ok? && data.value.Some? && Get(data.value.value, "downloadPage").Some?
    ensures r.url == if r.success then Get(data.value.value, "downloadPage") else None
    ensures !r.multiple && r.urls == []
  {
    match data
    case Err(e) => Failed(e)
    case Ok(None) => Initial
    case Ok(Some(d)) =>
      if Get(d, "downloadPage").Some? then Initial.(success := true, url := Get(d, "downloadPage"))
      else Initial
  }

  // ----- Bunkr -----

  /**
   * What the Bunkr branch observes: the token, the file's size (or the exception `getsize`
   * raises), the constructor's handshake, the uploader's size limit (`None`: the attribute does
   * not exist), how each path reads, the splitter's file system, the Bunkr network, and how
   * removing each split file ends.
   */
  datatype BunkrEnv = BunkrEnv(token: string, size: Result<nat>, hs: Bunkr.Handshake, maxFileSize: Option<nat>,
                               files: string -> Bunkr.FileInfo, split: Video.SplitFs, net: Bunkr.Network,
                               removal: string -> Result<()>)

  /** `max_size_gb * 0.9`, in bytes. */
  function SplitBound(limit: nat): real {
    limit as real * 0.9
  }

  /** `range(n)` as a completion order: the order of a single worker. */
  function Identity(n: nat): (r: seq<nat>)
    ensures |r| == n && forall j | 0 <= j < n :: r[j] == j
  {
    seq(n, j requires 0 <= j => j)
  }

  /** How the uploader reads each of the paths. */
  function FilesOf(paths: seq<string>, files: string -> Bunkr.FileInfo): (r: seq<Bunkr.FileInfo>)
    ensures |r| == |paths| && forall j | 0 <= j < |paths| :: r[j] == files(paths[j])
  {
    seq(|paths|, j requires 0 <= j < |paths| => files(paths[j]))
  }

  /** The settings of the uploader the branch constructs (`config={"silent": True}`). */
  predicate Constructed(env: BunkrEnv) {
    Bunkr.Construction(None, env.hs).Ok?
  }

  /** `upload_files(paths, None, 1)` on a new uploader: the URLs, the requests, the upload URL. */
  function BunkrBatch(paths: seq<string>, env: BunkrEnv): Bunkr.Batch
    requires Constructed(env)
  {
    var files := FilesOf(paths, env.files);
    Bunkr.BatchRun(Bunkr.Uploads(env.hs.check.value, Bunkr.Construction(None, env.hs).value, None, env.net),
                   files, Identity(|files|), 0, Bunkr.Batch([], [], env.hs.node.value))
  }

  /** The URLs `upload_files(paths, None, 1)` returns. */
  function BunkrMany(paths: seq<string>, env: BunkrEnv): seq<string>
    requires Constructed(env)
  {
    BunkrBatch(paths, env).urls
  }

  /** `upload_file(path)` on a new uploader: what it returns or raises. */
  function BunkrOne(path: string, env: BunkrEnv): Result<Option<string>>
    requires Constructed(env)
  {
    Bunkr.FileOutcome(env.hs.check.value, Bunkr.Construction(None, env.hs).value, env.files(path), None,
                      env.hs.node.value, env.net, []).result
  }

  /**
   * The removals `for p in split_paths: os.remove(p)` attempts inside one `try`: every path up
   * to the first whose removal fails.
   */
  function Removals(paths: seq<string>, removal: string -> Result<()>): seq<string> {
    if paths == [] then []
    else if removal(paths[0]).Err? then [paths[0]]
    else [paths[0]] + Removals(paths[1..], removal)
  }

  /** The removals stop exactly at the first failure: all but the last attempted one succeeded. */
  lemma {:induction false} RemovalsStop(paths: seq<string>, removal: string -> Result<()>)
    ensures var r := Removals(paths, removal);
      && r <= paths
      && (forall j | 0 <= j < |r| - 1 :: removal(r[j]).Ok?)
      && (r == paths || (r != [] && removal(r[|r| - 1]).Err?))
      && (r == paths <== forall j | 0 <= j < |paths| :: removal(paths[j]).Ok?)
  {
    if paths != [] && removal(paths[0]).Ok? {
      RemovalsStop(paths[1..], removal);
      var rest := Removals(paths[1..], removal);
      assert Removals(paths, removal) == [paths[0]] + rest;
      assert forall j | 0 <= j < |paths| - 1 :: paths[1..][j] == paths[j + 1];
    }
  }

  /**
   * What the calls of the Bunkr branch come to: the constructor (the chunk size it settles on),
   * the split, `upload_file` of the whole file, `upload_files` of the parts, and the removals of
   * the parts. The branch reads only those it reaches.
   */
  datatype Effects = Effects(construction: Result<int>, split: Result<seq<string>>, one: Result<Option<string>>,
                             many: seq<string>, removed: seq<string>)

  function EffectsOf(path: string, env: BunkrEnv): Effects {
    var c := Bunkr.Construction(None, env.hs);
    var split := Video.Split(path, SplitBound(env.maxFileSize.GetOr(0)), env.split).result;
    Effects(c, split,
            if c.Ok? then BunkrOne(path, env) else Ok(None),
            if c.Ok? && split.Ok? then BunkrMany(split.value, env) else [],
            if split.Ok? then Removals(split.value, env.removal) else [])
  }

  /** The record of a split upload: several URLs, and a success exactly when there are any. */
  function ManyRecord(urls: seq<string>): (r: UploadResult)
    ensures r.success <==> urls != []
    ensures r.success ==> r.multiple && r.urls == urls && r.url.None? && r.error.None?
    ensures !r.success ==> r == Initial
  {
    if urls != [] then Initial.(success := true, multiple := true, urls := urls) else Initial
  }

  /** The record of a whole-file upload: a success exactly when a non-empty URL came back. */
  function OneRecord(url: Result<Option<string>>): (r: UploadResult)
    ensures url.Err? <==> r.error.Some?
    ensures url.Err? ==> r == Failed(url.error)
    ensures r.success <==> url.Ok? && Bunkr.Truthy(url.value)
    ensures r.success ==> r.url == url.value && !r.multiple && r.urls == [] && r.error.None?
    ensures url.Ok? && !r.success ==> r == Initial
  {
    match url
    case Err(e) => Failed(e)
    case Ok(u) => if Bunkr.Truthy(u) then Initial.(success := true, url := u) else Initial
  }

  /**
   * The Bunkr branch: the size is read, the uploader constructed, and the size compared with
   * the uploader's limit; a larger file is split into parts of at most 0.9 of the limit, which
   * are uploaded one after the other, and the parts are removed afterwards when `deleteSplit`
   * is on; a file within the limit is uploaded whole.
   */
  function BunkrBranch(size: Result<nat>, maxFileSize: Option<nat>, deleteSplit: bool, fx: Effects): Outcome {
    match size
    case Err(e) => Outcome(Failed(e), [])
    case Ok(n) =>
      if fx.construction.Err? then Outcome(Failed(fx.construction.error), [])
      else if maxFileSize.None? then Outcome(Failed(MaxFileSizeMissing), [])
      else if n > maxFileSize.value then
        if fx.split.Err? then Outcome(Failed(fx.split.error), [])
        else Outcome(ManyRecord(fx.many), if deleteSplit then fx.removed else [])
      else Outcome(OneRecord(fx.one), [])
  }

  // ----- the dispatch -----

  /**
   * `upload_file(path, service)`, given what each branch comes to (`bunkr` is `BunkrBranch` of
   * the path): a known service that is not in `verified` gets the initial record untouched; an
   * unknown one raises, which is caught into the record.
   */
  function Dispatch(verified: seq<string>, service: string, jpg5: Result<Jpg5.Reply>,
                    gofile: Result<Option<Dict<string, string>>>, bunkr: Outcome): Outcome
  {
    if service == "jpg5" then
      if "jpg5" !in verified then Outcome(Initial, []) else Outcome(Jpg5Result(jpg5), [])
    else if service == "gofile" then
      if "gofile" !in verified then Outcome(Initial, []) else Outcome(GoFileResult(gofile), [])
    else if service == "bunkr" then
      if "bunkr" !in verified then Outcome(Initial, []) else bunkr
    else Outcome(Failed(UnsupportedText(service)), [])
  }

  /**
   * The fixed shape of the record: a caught exception leaves everything else initial; several
   * URLs come only with success and without a single URL; a single success carries no list.
   */
  predicate Shaped(r: UploadResult) {
    && (r.error.Some? ==> r == Failed(r.error.value))
    && (r.multiple ==> r.success && r.urls != [] && r.url.None?)
    && (!r.multiple ==> r.urls == [])
    && (!r.success ==> r.url.None? && !r.multiple)
  }

  lemma BunkrShaped(size: Result<nat>, maxFileSize: Option<nat>, deleteSplit: bool, fx: Effects)
    ensures Shaped(BunkrBranch(size, maxFileSize, deleteSplit, fx).result)
  {
  }

  /** Every record `upload_file` returns has the fixed shape. */
  lemma DispatchShaped(verified: seq<string>, service: string, jpg5: Result<Jpg5.Reply>,
                       gofile: Result<Option<Dict<string, string>>>, bunkr: Outcome)
    requires Shaped(bunkr.result)
    ensures Shaped(Dispatch(verified, service, jpg5, gofile, bunkr).result)
  {
  }

  /** A service that is not verified is never reached, and nothing is removed. */
  lemma UnverifiedShortCircuits(verified: seq<string>, service: string, jpg5: Result<Jpg5.Reply>,
                                gofile: Result<Option<Dict<string, string>>>, bunkr: Outcome)
    requires service in Services && service !in verified
    ensures Dispatch(verified, service, jpg5, gofile, bunkr) == Outcome(Initial, [])
  {
  }

  /**
   * As written, the uploader has no `max_file_size`, so once the size is read and the uploader
   * constructed, every Bunkr upload ends in the caught `AttributeError`, before any request is
   * sent and without removing anything.
   */
  lemma BunkrAsWritten(size: Result<nat>, deleteSplit: bool, fx: Effects)
    requires size.Ok? && fx.construction.Ok?
    ensures BunkrBranch(size, None, deleteSplit, fx) == Outcome(Failed(MaxFileSizeMissing), [])
  {
  }

  /**
   * With a limit, a file larger than it is uploaded in parts: the upload succeeds, with several
   * URLs, exactly when `upload_files` returned any; the parts are removed exactly when
   * `deleteSplit` is on. A file within the limit is uploaded whole.
   */
  lemma BunkrLimitRule(size: nat, limit: nat, deleteSplit: bool, fx: Effects)
    requires fx.construction.Ok?
    ensures var o := BunkrBranch(Ok(size), Some(limit), deleteSplit, fx);
      && (size > limit && fx.split.Err? ==> o == Outcome(Failed(fx.split.error), []))
      && (size > limit && fx.split.Ok? ==>
           && (o.result.success <==> fx.many != []) && o.result.urls == fx.many
           && o.removed == (if deleteSplit then fx.removed else []))
      && (size <= limit ==> o.removed == [] && (o.result.success <==> fx.one.Ok? && Bunkr.Truthy(fx.one.value)))
  {
  }

  /** Each URL of a split upload is a non-empty one that a reply of the Bunkr network carried. */
  lemma BunkrManyCarried(paths: seq<string>, env: BunkrEnv)
    requires Constructed(env)
    ensures Bunkr.Carried(env.net, BunkrMany(paths, env), BunkrBatch(paths, env).log)
  {
    var files := FilesOf(paths, env.files);
    var upload := Bunkr.Uploads(env.hs.check.value, Bunkr.Construction(None, env.hs).value, None, env.net);
    Bunkr.UploadsBehave(env.hs.check.value, Bunkr.Construction(None, env.hs).value, None, env.net);
    Bunkr.BatchUrls(upload, env.net, files, Identity(|files|), 0, Bunkr.Batch([], [], env.hs.node.value));
  }

  // ----- verify_uploaders -----

  /** The services a `verify_uploaders` call appends, in its fixed order. */
  function Newly(bunkr: bool, jpg5: bool, gofile: bool): seq<string> {
    (if bunkr then ["bunkr"] else []) + (if jpg5 then ["jpg5"] else []) + (if gofile then ["gofile"] else [])
  }

  /** A call appends each service exactly when its check passed, in the order bunkr, jpg5, gofile. */
  lemma NewlyMembers(bunkr: bool, jpg5: bool, gofile: bool)
    ensures var s := Newly(bunkr, jpg5, gofile);
      && ("bunkr" in s <==> bunkr) && ("jpg5" in s <==> jpg5) && ("gofile" in s <==> gofile)
      && (forall j | 0 <= j < |s| :: s[j] in Services)
      && (forall j, k | 0 <= j < k < |s| :: IndexOf(s[j]) < IndexOf(s[k]))
  {
  }

  /** The list one call builds, append by append, is `Newly`. */
  lemma NewlyAppended(bunkr: bool, jpg5: bool, gofile: bool, passed: seq<string>)
    requires passed == (if bunkr then [] + ["bunkr"] else []) + (if jpg5 then ["jpg5"] else []) + (if gofile then ["gofile"] else [])
    ensures passed == Newly(bunkr, jpg5, gofile)
  {
  }

  function IndexOf(service: string): nat {
    if service == "bunkr" then 0 else if service == "jpg5" then 1 else 2
  }

  /** The module-level `verified_uploaders` list, and the calls that read and extend it. */
  class Registry {
    var verified: seq<string>

    constructor ()
      ensures verified == []
    {
      verified := [];
    }

    /**
     * `verify_uploaders`: each check runs in its own `try`; a service is appended when its check
     * does not raise. The list is never cleared, so a second call appends again.
     */
    method VerifyUploaders(token: string, hs: Bunkr.Handshake, jpg5File: Option<seq<Jpg5.CookieRecord>>,
                           jpg5Page: Result<Jpg5.Page>, gofileRaised: Option<string>)
      returns (r: seq<string>)
      modifies this
      ensures verified == old(verified) + Newly(Bunkr.Construction(None, hs).Ok?,
        Jpg5.LoadCookies(jpg5File) != [] && Jpg5.TokenFound(jpg5Page), gofileRaised.None?)
      ensures r == verified
    {
      var passed: seq<string> := [];
      var bunkr := Bunkr.Connect(token, None, Some(true), hs);
      if bunkr.Ok? {
        passed := passed + ["bunkr"];
      }
      var jpg5 := Jpg5.Verify(jpg5File, jpg5Page);
      if jpg5.None? {
        passed := passed + ["jpg5"];
      }
      if gofileRaised.None? {
        passed := passed + ["gofile"];
      }
      NewlyAppended(bunkr.Ok?, jpg5.None?, gofileRaised.None?, passed);
      verified := verified + passed;
      r := verified;
    }

    /** The removal loop of the Bunkr branch: it stops at the first removal that raises. */
    static method RemoveSplits(paths: seq<string>, removal: string -> Result<()>) returns (attempted: seq<string>)
      ensures attempted == Removals(paths, removal)
    {
      attempted := [];
      var i := 0;
      while i < |paths|
        invariant 0 <= i <= |paths|
        invariant Removals(paths, removal) == attempted + Removals(paths[i..], removal)
      {
        assert paths[i..][1..] == paths[i + 1..];
        attempted := attempted + [paths[i]];
        if removal(paths[i]).Err? {
          return;
        }
        i := i + 1;
      }
    }

    /** `upload_file(path, service)`, filling the record field by field. */
    method UploadFile(path: string, service: string, jpg5: Result<Jpg5.Reply>,
                      gofile: Result<Option<Dict<string, string>>>, env: BunkrEnv, deleteSplit: bool)
      returns (r: UploadResult, removed: seq<string>)
      ensures Dispatch(verified, service, jpg5, gofile, BunkrBranch(env.size, env.maxFileSize, deleteSplit, EffectsOf(path, env)))
        == Outcome(r, removed)
    {
      r := Initial;
      removed := [];
      if service == "jpg5" {
        if "jpg5" !in verified {
          return;
        }
        if jpg5.Err? {
          r := r.(error := Some(jpg5.error));
          return;
        }
        if jpg5.value.statusCode.GetOr(200) == 500 {
          return;
        }
        if jpg5.value.Truthy() {
          r := r.(success := true);
          r := r.(url := jpg5.value.image.GetOr(None));
        }
      } else if service == "gofile" {
        if "gofile" !in verified {
          return;
        }
        if gofile.Err? {
          r := r.(error := Some(gofile.error));
          return;
        }
        if gofile.value.Some? && Get(gofile.value.value, "downloadPage").Some? {
          r := r.(success := true);
          r := r.(url := Get(gofile.value.value, "downloadPage"));
        }
      } else if service == "bunkr" {
        if "bunkr" !in verified {
          return;
        }
        r, removed := UploadBunkr(path, env, deleteSplit);
      } else {
        r := r.(error := Some(UnsupportedText(service)));
      }
    }

    /** The Bunkr branch of `upload_file`, once the service is known to be verified. */
    static method UploadBunkr(path: string, env: BunkrEnv, deleteSplit: bool) returns (r: UploadResult, removed: seq<string>)
      ensures BunkrBranch(env.size, env.maxFileSize, deleteSplit, EffectsOf(path, env)) == Outcome(r, removed)
    {
      r := Initial;
      removed := [];
      if env.size.Err? {
        r := r.(error := Some(env.size.error));
        return;
      }
      var connected := Bunkr.Connect(env.token, None, Some(true), env.hs);
      if connected.Err? {
        r := r.(error := Some(connected.error));
        return;
      }
      var uploader := connected.value;
      if env.maxFileSize.None? {
        r := r.(error := Some(MaxFileSizeMissing));
        return;
      }
      if env.size.value > env.maxFileSize.value {
        var split, _ := Video.SplitVideoBySize(path, SplitBound(env.maxFileSize.value), env.split);
        if split.Err? {
          r := r.(error := Some(split.error));
          return;
        }
        var files := FilesOf(split.value, env.files);
        var urls := uploader.UploadFiles(files, None, 1, Identity(|files|), env.net);
        if urls != [] {
          r := r.(success := true);
          r := r.(multiple := true);
          r := r.(urls := urls);
        }
        if deleteSplit {
          removed := RemoveSplits(split.value, env.removal);
        }
      } else {
        var url := uploader.UploadFile(env.files(path), None, env.net);
        if url.Err? {
          r := r.(error := Some(url.error));
          return;
        }
        if Bunkr.Truthy(url.value) {
          r := r.(success := true);
          r := r.(url := url.value);
        }
      }
    }
  }
}
