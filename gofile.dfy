/**
 * The GoFile client (`src/upload/gofile.py`): the status check every reply goes through,
 * server selection, and the request `uploadFile` assembles. Each HTTP reply is an input;
 * `Err` stands for a request, JSON decoding or missing-key exception.
 */
module GoFile {
  import opened Wrappers
  import opened Strings
  import opened Dicts

  /** A decoded GoFile API reply: its `status` and its `data` payload. */
  datatype Reply<D> = Reply(status: string, data: D)

  /** One entry of `serversAllZone`. */
  datatype Server = Server(name: string, zone: string)

  /** A multipart POST to a GoFile upload server: its URL, form fields and headers. */
  datatype UploadRequest = UploadRequest(url: string, data: Dict<string, string>, headers: Dict<string, string>)

  /** Python truthiness of an optional string: present and non-empty. */
  predicate Truthy(s: Option<string>) {
    s.Some? && s.value != ""
  }

  /**
   * `response_handler`: the payload of an `"ok"` reply; an exception carrying the piece of the
   * status after its first `-` when the status contains `"error-"`; `None` for anything else.
   */
  function ResponseHandler<D>(reply: Reply<D>): (r: Result<Option<D>>)
    ensures reply.status == "ok" ==> r == Ok(Some(reply.data))
    ensures r.Err? <==> reply.status != "ok" && Contains(reply.status, "error-")
    ensures r.Ok? && reply.status != "ok" ==> r.value.None?
    ensures r.Err? ==>
      var i := Find(reply.status, '-');
      0 <= i && StartsWith(reply.status[i + 1..], r.error)
      && (forall k :: 0 <= k < |r.error| ==> r.error[k] != '-')
      && (i + 1 + |r.error| == |reply.status| || reply.status[i + 1 + |r.error|] == '-')
  {
    if reply.status == "ok" then Ok(Some(reply.data))
    else if Contains(reply.status, "error-") then
      ContainsFind(reply.status, "error-", 5);
      var i := Find(reply.status, '-');
      SplitHead(reply.status[i + 1..], '-');
      Err(Split(reply.status, '-')[1])
    else Ok(None)
  }

  /** `checkAccountExists`: true iff the reply arrives and its status is `"ok"`. */
  function CheckAccountExists<D>(reply: Result<Reply<D>>): (r: bool)
  {
    reply.Ok? && reply.value.status == "ok"
  }

  /** The account check accepts exactly the replies `response_handler` turns into a payload. */
  lemma CheckAccountExistsAgreesWithHandler<D>(reply: Result<Reply<D>>)
    ensures CheckAccountExists(reply) <==> reply.Ok? && ResponseHandler(reply.value).Ok? && ResponseHandler(reply.value).value.Some?
  {
    if reply.Ok? && reply.value.status != "ok" {
      var h := ResponseHandler(reply.value);
      assert h.Err? || h.value.None?;
    }
  }

  /** `[s for s in servers if s["zone"] == zone]`. */
  function InZone(servers: seq<Server>, zone: string): (r: seq<Server>)
    ensures |r| <= |servers|
    ensures forall k :: 0 <= k < |r| ==> r[k].zone == zone && r[k] in servers
  {
    if servers == [] then []
    else if servers[0].zone == zone then [servers[0]] + InZone(servers[1..], zone)
    else InZone(servers[1..], zone)
  }

  /** The position of the first server in `zone`, or -1. */
  function ZoneIndex(servers: seq<Server>, zone: string): (i: int)
    ensures -1 <= i < |servers|
    ensures i >= 0 ==> servers[i].zone == zone
    ensures forall j :: 0 <= j < |servers| && (i < 0 || j < i) ==> servers[j].zone != zone
  {
    if servers == [] then -1
    else if servers[0].zone == zone then 0
    else var k := ZoneIndex(servers[1..], zone); if k < 0 then -1 else k + 1
  }

  /** The filtered list is empty exactly when no server is in the zone, and starts with the first one that is. */
  lemma {:induction false} InZoneHead(servers: seq<Server>, zone: string)
    ensures InZone(servers, zone) == [] <==> ZoneIndex(servers, zone) < 0
    ensures InZone(servers, zone) != [] ==> InZone(servers, zone)[0] == servers[ZoneIndex(servers, zone)]
  {
    if servers != [] && servers[0].zone != zone {
      InZoneHead(servers[1..], zone);
    }
  }

  const NoServersAvailable := "noServersAvailable"
  const NotSubscriptable := "'NoneType' object is not subscriptable"

  /**
   * `getServer(zone)`: the servers of the reply's `serversAllZone` in `zone`, else all of them,
   * and the first of that list.
   */
  function GetServer(reply: Result<Reply<seq<Server>>>, zone: string): (r: Result<Server>)
    ensures reply.Err? ==> r == Err(reply.error)
    ensures reply.Ok? && reply.value.status == "ok" ==>
      var servers := reply.value.data;
      var i := ZoneIndex(servers, zone);
      (r.Ok? <==> |servers| > 0)
      && (r.Ok? && i >= 0 ==> r.value == servers[i])
      && (r.Ok? && i < 0 ==> r.value == servers[0])
      && (r.Err? ==> r.error == NoServersAvailable)
    ensures reply.Ok? && reply.value.status != "ok" ==> r.Err?
  {
    match reply
    case Err(e) => Err(e)
    case Ok(rep) =>
      match ResponseHandler(rep)
      case Err(e) => Err(e)
      case Ok(None) => Err(NotSubscriptable)
      case Ok(Some(servers)) =>
        var available := InZone(servers, zone);
        var available := if available == [] && servers != [] then servers else available;
        InZoneHead(servers, zone);
        if available != [] then Ok(available[0]) else Err(NoServersAvailable)
  }

  /**
   * The request of `uploadFile(file, token, folderId, server)`: the server is looked up (zone
   * `eu`) only when none is given, then the file is opened; `fileExists` says whether it opens.
   * The error for a file that does not open is schematic: Python's text also carries the errno
   * and the quoted path.
   */
  function UploadRequestFor(token: Option<string>, folderId: Option<string>, server: Option<string>,
                            serverReply: Result<Reply<seq<Server>>>, fileExists: bool): (r: Result<UploadRequest>)
    ensures r.Ok? <==> (server.Some? || GetServer(serverReply, "eu").Ok?) && fileExists
    ensures r.Ok? ==>
      var name := if server.Some? then server.value else GetServer(serverReply, "eu").value.name;
      r.value.url == "https://" + name + ".gofile.io/uploadFile"
    ensures r.Ok? ==> Keys(r.value.data) == (if Truthy(folderId) then ["folderId"] else [])
    ensures r.Ok? ==> Get(r.value.data, "folderId") == (if Truthy(folderId) then folderId else None)
    ensures r.Ok? ==> Keys(r.value.headers) == (if Truthy(token) then ["Authorization"] else [])
    ensures r.Ok? && Truthy(token) ==> Get(r.value.headers, "Authorization") == Some("Bearer " + token.value)
  {
    var name: Result<string> :=
      if server.Some? then Ok(server.value)
      else match GetServer(serverReply, "eu") case Ok(s) => Ok(s.name) case Err(e) => Err(e);
    if name.Err? then Err(name.error)
    else if !fileExists then Err("No such file or directory")
    else
      var data: Dict<string, string> := if Truthy(folderId) then Set([], "folderId", folderId.value) else [];
      var headers: Dict<string, string> := if Truthy(token) then Set([], "Authorization", "Bearer " + token.value) else [];
      Ok(UploadRequest("https://" + name.value + ".gofile.io/uploadFile", data, headers))
  }

  /** `uploadFile`: the request, then the status check on the upload server's reply to it. */
  function UploadFile<D>(token: Option<string>, folderId: Option<string>, server: Option<string>,
                         serverReply: Result<Reply<seq<Server>>>, fileExists: bool,
                         post: UploadRequest -> Result<Reply<D>>): (r: Result<Option<D>>)
    ensures UploadRequestFor(token, folderId, server, serverReply, fileExists).Err? ==> r.Err?
    ensures r.Ok? && r.value.Some? ==>
      var req := UploadRequestFor(token, folderId, server, serverReply, fileExists);
      req.Ok? && post(req.value).Ok? && post(req.value).value.status == "ok"
      && r.value.value == post(req.value).value.data
    ensures var req := UploadRequestFor(token, folderId, server, serverReply, fileExists);
      req.Ok? && post(req.value).Err? ==> r == Err(post(req.value).error)
    ensures var req := UploadRequestFor(token, folderId, server, serverReply, fileExists);
      req.Ok? && post(req.value).Ok? && post(req.value).value.status == "ok" ==>
        r == Ok(Some(post(req.value).value.data))
    ensures var req := UploadRequestFor(token, folderId, server, serverReply, fileExists);
      req.Ok? && post(req.value).Ok? && post(req.value).value.status != "ok" ==>
        (r.Err? <==> Contains(post(req.value).value.status, "error-")) && (r.Ok? ==> r.value.None?)
  {
    match UploadRequestFor(token, folderId, server, serverReply, fileExists)
    case Err(e) => Err(e)
    case Ok(req) =>
      match post(req)
      case Err(e) => Err(e)
      case Ok(reply) => ResponseHandler(reply)
  }
}
