/** The server provider: saves live behind a JSON HTTP API at
    `<endpoint>/saves`, scoped by a `userId` query parameter. */
module ServerSync {
  import opened Wrappers
  import opened Strings
  import opened Json
  import opened SyncTypes
  import opened Http

  /** `normalizeEndpoint`: blank gives `""`; an address with an `http(s)://`
      scheme or a root-relative path (`/api`) is kept; anything else gets the
      scheme `useHttps` selects. Trailing slashes are dropped in every case. */
  function NormalizeEndpoint(endpoint: string, useHttps: bool): (r: string)
    ensures Trim(endpoint) == "" ==> r == ""
    ensures Trim(endpoint) != "" && (HasHttpScheme(Trim(endpoint)) || StartsWith(Trim(endpoint), "/")) ==>
      r == StripTrailingSlashes(Trim(endpoint))
    ensures Trim(endpoint) != "" && !HasHttpScheme(Trim(endpoint)) && !StartsWith(Trim(endpoint), "/") ==>
      r == (if useHttps then "https://" else "http://") + StripTrailingSlashes(Trim(endpoint))
  {
    var trimmed := Trim(endpoint);
    if trimmed == "" then ""
    else if HasHttpScheme(trimmed) then StripTrailingSlashes(trimmed)
    else if StartsWith(trimmed, "/") then StripTrailingSlashes(trimmed)
    else (if useHttps then "https://" else "http://") + StripTrailingSlashes(trimmed)
  }

  /** A normalised endpoint never ends with `/`, so appending `/saves` never
      doubles a slash. */
  lemma NormalizeEndpointNoTrailingSlash(endpoint: string, useHttps: bool)
    ensures var r := NormalizeEndpoint(endpoint, useHttps); r != "" ==> r[|r| - 1] != '/'
  {
    var t := Trim(endpoint);
    var r := NormalizeEndpoint(endpoint, useHttps);
    if t == "" {
    } else if HasHttpScheme(t) || StartsWith(t, "/") {
      assert r == StripTrailingSlashes(t);
    } else {
      var scheme := if useHttps then "https://" else "http://";
      assert r == scheme + StripTrailingSlashes(t);
      KeepsLastCharacter(scheme, t);
    }
  }

  /** A text that does not start with `/` keeps a last character other than
      `/` once its trailing slashes are gone, whatever is put before it. */
  lemma KeepsLastCharacter(scheme: string, t: string)
    requires t != "" && !StartsWith(t, "/")
    ensures var r := scheme + StripTrailingSlashes(t); r[|r| - 1] != '/'
  {
    var s := StripTrailingSlashes(t);
    assert t[0] != '/';
    assert s != "";
    assert (scheme + s)[|scheme + s| - 1] == s[|s| - 1];
  }

  /** Payloads above 512 KiB are compressed. */
  const CompressThreshold: int := 512 * 1024

  /** `shouldCompress`. */
  predicate ShouldCompress(payload: string) {
    |payload| > CompressThreshold
  }

  /** `compressPayload`. `streamAvailable` says whether `CompressionStream`
      exists; `gzip` is the compressor, `None` when it fails. Without a
      compressor, or when it fails, the text is sent as it is with no extra
      header; otherwise the compressed bytes go with `Content-Encoding: gzip`. */
  function CompressPayload(payload: string, streamAvailable: bool, gzip: string -> Option<seq<int>>)
    : (r: (Body, map<string, string>))
    ensures !streamAvailable || gzip(payload).None? ==> r == (Text(payload), map[])
    ensures streamAvailable && gzip(payload).Some? ==>
      r == (Gzipped(gzip(payload).value), map["Content-Encoding" := "gzip"])
  {
    if !streamAvailable then (Text(payload), map[])
    else match gzip(payload)
      case None => (Text(payload), map[])
      case Some(bytes) => (Gzipped(bytes), map["Content-Encoding" := "gzip"])
  }

  /** How a receiver reads a body: a gzip-encoded one through `gunzip`. */
  function ReceivedText(body: Body, headers: map<string, string>, gunzip: seq<int> -> Option<string>): Option<string> {
    match body
    case Text(s) => if "Content-Encoding" in headers then None else Some(s)
    case Gzipped(bytes) =>
      if "Content-Encoding" in headers && headers["Content-Encoding"] == "gzip" then gunzip(bytes) else None
    case NoBody => None
  }

  /** Whichever way `compressPayload` goes, a receiver whose `gunzip` undoes
      the compressor reads back exactly the payload. */
  lemma CompressPayloadPreservesPayload(payload: string, streamAvailable: bool,
                                        gzip: string -> Option<seq<int>>, gunzip: seq<int> -> Option<string>)
    requires gzip(payload).Some? ==> gunzip(gzip(payload).value) == Some(payload)
    ensures var (body, headers) := CompressPayload(payload, streamAvailable, gzip);
      ReceivedText(body, headers, gunzip) == Some(payload)
  {
  }

  /** What `createServerProvider` fixes once. */
  datatype Provider = Provider(endpoint: string, userId: string)

  /** `createServerProvider`. */
  function CreateServerProvider(config: SyncConfig): (r: Provider)
    ensures r.endpoint == NormalizeEndpoint(config.serverConfig.endpoint, config.useHttps)
    ensures r.userId == config.serverConfig.userId
  {
    Provider(NormalizeEndpoint(config.serverConfig.endpoint, config.useHttps), config.serverConfig.userId)
  }

  /** The URL `request` builds: the endpoint and the path, then
      `userId=<encoded id>` after `&` when the path already has a query and
      after `?` when it has none; nothing when there is no user id.
      `encode` is `encodeURIComponent`. */
  function BuildUrl(p: Provider, path: string, encode: string -> string): (r: string)
    ensures p.userId == "" ==> r == p.endpoint + path
    ensures p.userId != "" ==>
      r == p.endpoint + path + (if Contains(path, "?") then "&" else "?") + "userId=" + encode(p.userId)
  {
    if p.userId == "" then p.endpoint + path
    else
      var separator := if Contains(path, "?") then "&" else "?";
      p.endpoint + path + separator + "userId=" + encode(p.userId)
  }

  /** With a user id, the URL is the endpoint and path followed by exactly
      one separator: `?` opens the query when the path has none, `&` extends
      the query it has. */
  lemma BuildUrlSeparator(p: Provider, path: string, encode: string -> string)
    requires p.userId != ""
    ensures var r := BuildUrl(p, path, encode);
      && StartsWith(r, p.endpoint + path)
      && |r| > |p.endpoint + path|
      && (r[|p.endpoint + path|] == '?' <==> !Contains(path, "?"))
      && (r[|p.endpoint + path|] == '&' <==> Contains(path, "?"))
  {
    var base := p.endpoint + path;
    var r := BuildUrl(p, path, encode);
    assert r[..|base|] == base;
  }

  /** The request `request` sends: JSON content type by default, overridden
      or extended by the caller's headers. */
  function MakeRequest(p: Provider, verb: string, path: string, headers: map<string, string>,
                       body: Body, encode: string -> string): (r: Request)
    ensures r.verb == verb && r.url == BuildUrl(p, path, encode) && r.body == body
    ensures r.headers.Keys == headers.Keys + {"Content-Type"}
    ensures forall k :: k in headers ==> r.headers[k] == headers[k]
    ensures "Content-Type" !in headers ==> r.headers["Content-Type"] == "application/json"
  {
    Request(verb, BuildUrl(p, path, encode), map["Content-Type" := "application/json"] + headers, body)
  }

  /** `text.replace(/\s+/g, ' ').slice(0, 200)`: the body as quoted in error
      messages. */
  function Preview(text: string): (r: string)
    ensures |r| <= 200
    ensures forall i :: 0 <= i < |r| && IsSpace(r[i]) ==> r[i] == ' '
    ensures forall i, j :: 0 <= i && j == i + 1 && j < |r| ==> !(IsSpace(r[i]) && IsSpace(r[j]))
    ensures |CollapseSpaces(text)| <= 200 ==> r == CollapseSpaces(text)
    ensures |CollapseSpaces(text)| > 200 ==> r == CollapseSpaces(text)[..200]
  {
    var c := CollapseSpaces(text);
    var r := Take(c, 200);
    assert forall i :: 0 <= i < |r| ==> r[i] == c[i];
    r
  }

  function StatusError(status: int, preview: string): string {
    "服务器响应错误 (" + IntToString(status) + ")：" + (if preview == "" then "无内容" else preview)
  }

  function NotJsonError(preview: string): string {
    "服务器返回非 JSON 内容，请确认服务器地址指向后端 API。响应片段：" + preview
  }

  const BadJsonError: string := "服务器返回的 JSON 无法解析"

  /** `parseJsonResponse`: a response that is not ok raises an error quoting
      its status and a preview of its body; an ok response without a JSON
      content type raises an error quoting the preview; a body that does not
      parse raises; otherwise the parsed body is the result. */
  function ParseJsonResponse(status: int, contentType: string, text: string, parse: string -> Option<Json>)
    : (r: Outcome<Json>)
    ensures r.Returned? <==> Ok(status) && Contains(contentType, "application/json") && parse(text).Some?
    ensures r.Returned? ==> r.value == parse(text).value
    ensures !Ok(status) ==> r == Threw(StatusError(status, Preview(text)))
    ensures Ok(status) && !Contains(contentType, "application/json") ==> r == Threw(NotJsonError(Preview(text)))
  {
    if !Ok(status) then Threw(StatusError(status, Preview(text)))
    else if !Contains(contentType, "application/json") then Threw(NotJsonError(Preview(text)))
    else match parse(text)
      case None => Threw(BadJsonError)
      case Some(j) => Returned(j)
  }

  /** The error for a failed status carries the status rendered in decimal,
      and the preview (or the fixed "no content" text when the body is
      blank). */
  lemma StatusErrorQuotesStatus(status: int, text: string)
    ensures var m := StatusError(status, Preview(text));
      && Contains(m, IntToString(status))
      && (Preview(text) != "" ==> EndsWith(m, Preview(text)))
  {
    var m := StatusError(status, Preview(text));
    var prefix := "服务器响应错误 (";
    assert OccursAt(m, IntToString(status), |prefix|) by {
      assert m == prefix + IntToString(status) + ")：" + (if Preview(text) == "" then "无内容" else Preview(text));
    }
  }

  const SummaryPath: string := "/saves?summary=1"

  function SavePath(id: string, encode: string -> string): string {
    "/saves/" + encode(id)
  }

  /** `connect`: false without an endpoint, with no request; otherwise
      whether the summary listing answered ok. A network failure is
      caught and also gives false. */
  method Connect(p: Provider, server: Server, encode: string -> string) returns (r: bool, sent: seq<Request>)
    ensures p.endpoint == "" ==> !r && sent == []
    ensures p.endpoint != "" ==>
      && sent == [MakeRequest(p, "GET", SummaryPath, map[], NoBody, encode)]
      && (r <==> server(sent).Response? && Ok(server(sent).status))
  {
    if p.endpoint == "" {
      return false, [];
    }
    sent := [MakeRequest(p, "GET", SummaryPath, map[], NoBody, encode)];
    var reply := server(sent);
    r := reply.Response? && Ok(reply.status);
  }

  /** `listSaves`: the summary listing; a body that is not an array counts as
      an empty listing. Failures of the request or of `parseJsonResponse`
      propagate. */
  method ListSaves(p: Provider, server: Server, encode: string -> string, parse: string -> Option<Json>)
    returns (r: Outcome<seq<Json>>, sent: seq<Request>)
    ensures sent == [MakeRequest(p, "GET", SummaryPath, map[], NoBody, encode)]
    ensures server(sent).NetworkError? ==> r.Threw?
    ensures server(sent).Response? ==>
      var reply := server(sent);
      var body := ParseJsonResponse(reply.status, reply.contentType, reply.text, parse);
      && (body.Threw? ==> r == Threw(body.message))
      && (body.Returned? && body.value.JArr? ==> r == Returned(body.value.items))
      && (body.Returned? && !body.value.JArr? ==> r == Returned([]))
  {
    sent := [MakeRequest(p, "GET", SummaryPath, map[], NoBody, encode)];
    var reply := server(sent);
    if reply.NetworkError? {
      return Threw(reply.message), sent;
    }
    var body := ParseJsonResponse(reply.status, reply.contentType, reply.text, parse);
    if body.Threw? {
      return Threw(body.message), sent;
    }
    r := if body.value.JArr? then Returned(body.value.items) else Returned([]);
  }

  /** `getSave`: the parsed body of `GET /saves/<id>`; any failure throws,
      a missing save included. */
  method GetSave(p: Provider, server: Server, id: string, encode: string -> string, parse: string -> Option<Json>)
    returns (r: Outcome<Json>, sent: seq<Request>)
    ensures sent == [MakeRequest(p, "GET", SavePath(id, encode), map[], NoBody, encode)]
    ensures server(sent).NetworkError? ==> r.Threw?
    ensures server(sent).Response? ==>
      r == ParseJsonResponse(server(sent).status, server(sent).contentType, server(sent).text, parse)
  {
    sent := [MakeRequest(p, "GET", SavePath(id, encode), map[], NoBody, encode)];
    var reply := server(sent);
    if reply.NetworkError? {
      return Threw(reply.message), sent;
    }
    r := ParseJsonResponse(reply.status, reply.contentType, reply.text, parse);
  }

  /** The body and extra headers `uploadSave` sends for a payload. */
  function UploadBody(payload: string, streamAvailable: bool, gzip: string -> Option<seq<int>>)
    : (r: (Body, map<string, string>))
    ensures !ShouldCompress(payload) ==> r == (Text(payload), map[])
    ensures ShouldCompress(payload) ==> r == CompressPayload(payload, streamAvailable, gzip)
  {
    if ShouldCompress(payload) then CompressPayload(payload, streamAvailable, gzip) else (Text(payload), map[])
  }

  /** `uploadSave`: a save without an `id` is refused with no request;
      any other is PUT as JSON to `/saves/<id>`, compressed when large. A
      reply that is not ok goes through `parseJsonResponse`, which always
      throws then, so the call never returns false after a request. */
  method UploadSave(p: Provider, server: Server, save: CloudSaveSlot, stringify: CloudSaveSlot -> string,
                    streamAvailable: bool, gzip: string -> Option<seq<int>>, encode: string -> string,
                    parse: string -> Option<Json>)
    returns (r: Outcome<bool>, sent: seq<Request>)
    ensures save.id == "" ==> r == Returned(false) && sent == []
    ensures save.id != "" ==>
      var (body, extra) := UploadBody(stringify(save), streamAvailable, gzip);
      && sent == [MakeRequest(p, "PUT", SavePath(save.id, encode),
                              map["Content-Type" := "application/json"] + extra, body, encode)]
      && (server(sent).NetworkError? ==> r.Threw?)
      && (server(sent).Response? && Ok(server(sent).status) ==> r == Returned(true))
      && (server(sent).Response? && !Ok(server(sent).status) ==>
            r == Threw(StatusError(server(sent).status, Preview(server(sent).text))))
  {
    if save.id == "" {
      return Returned(false), [];
    }
    var (body, extra) := UploadBody(stringify(save), streamAvailable, gzip);
    sent := [MakeRequest(p, "PUT", SavePath(save.id, encode),
                         map["Content-Type" := "application/json"] + extra, body, encode)];
    var reply := server(sent);
    if reply.NetworkError? {
      return Threw(reply.message), sent;
    }
    if !Ok(reply.status) {
      var failure := ParseJsonResponse(reply.status, reply.contentType, reply.text, parse);
      return Threw(failure.message), sent;
    }
    r := Returned(true);
  }

  /** `deleteSave`: DELETE of `/saves/<id>`; as with uploads, a reply that is
      not ok throws, so the result is true whenever it returns. */
  method DeleteSave(p: Provider, server: Server, id: string, encode: string -> string, parse: string -> Option<Json>)
    returns (r: Outcome<bool>, sent: seq<Request>)
    ensures sent == [MakeRequest(p, "DELETE", SavePath(id, encode), map[], NoBody, encode)]
    ensures server(sent).NetworkError? ==> r.Threw?
    ensures server(sent).Response? && Ok(server(sent).status) ==> r == Returned(true)
    ensures server(sent).Response? && !Ok(server(sent).status) ==>
      r == Threw(StatusError(server(sent).status, Preview(server(sent).text)))
  {
    sent := [MakeRequest(p, "DELETE", SavePath(id, encode), map[], NoBody, encode)];
    var reply := server(sent);
    if reply.NetworkError? {
      return Threw(reply.message), sent;
    }
    if !Ok(reply.status) {
      var failure := ParseJsonResponse(reply.status, reply.contentType, reply.text, parse);
      return Threw(failure.message), sent;
    }
    r := Returned(true);
  }
}
