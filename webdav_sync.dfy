/** The WebDAV provider: saves are files `slot_<n>.json` in one collection
    of a WebDAV server (RFC 4918), reached with HTTP Basic credentials
    (RFC 7617). */
module WebDavSync {
  import opened Wrappers
  import opened Strings
  import opened Seqs
  import opened Json
  import opened SyncTypes
  import opened Http
  import Base64

  // ----- Normalisers -------------------------------------------------------

  /** `normalizeUrl`: blank gives `""`; a URL with an `http://` or `https://`
      scheme (any case) keeps it; any other input gets the scheme `useHttps`
      selects. Trailing slashes are dropped in both cases. */
  function NormalizeUrl(url: string, useHttps: bool): (r: string)
    ensures Trim(url) == "" ==> r == ""
    ensures Trim(url) != "" && HasHttpScheme(Trim(url)) ==> r == StripTrailingSlashes(Trim(url))
    ensures Trim(url) != "" && !HasHttpScheme(Trim(url)) ==>
      r == (if useHttps then "https://" else "http://") + StripTrailingSlashes(Trim(url))
  {
    var trimmed := Trim(url);
    if trimmed == "" then ""
    else if HasHttpScheme(trimmed) then StripTrailingSlashes(trimmed)
    else (if useHttps then "https://" else "http://") + StripTrailingSlashes(trimmed)
  }

  /** The result ends in `/` only when what it was given was blank apart from
      slashes and had no scheme: every address with a host loses its trailing
      slashes. */
  lemma NormalizeUrlTrailingSlash(url: string, useHttps: bool)
    requires var r := NormalizeUrl(url, useHttps); r != "" && r[|r| - 1] == '/'
    ensures !HasHttpScheme(Trim(url))
    ensures forall i :: 0 <= i < |Trim(url)| ==> Trim(url)[i] == '/'
  {
  }

  /** `normalizeBasePath`: a blank path is `/`; a leading and a trailing `/`
      are added when missing. */
  function NormalizeBasePath(path: string): (r: string)
    ensures r != "" && r[0] == '/' && r[|r| - 1] == '/'
    ensures Trim(path) == "" ==> r == "/"
    ensures var t := Trim(path); t != "" ==>
      r == (if t[0] == '/' then "" else "/") + t + (if t[|t| - 1] == '/' then "" else "/")
  {
    var t := Trim(path);
    WithSlashes(if t == "" then "/" else t)
  }

  /** `raw` with a `/` put in front and at the end where one is missing. */
  function WithSlashes(raw: string): (r: string)
    requires raw != ""
    ensures r == (if raw[0] == '/' then "" else "/") + raw + (if raw[|raw| - 1] == '/' then "" else "/")
  {
    var withLeading := if StartsWith(raw, "/") then raw else "/" + raw;
    assert withLeading[|withLeading| - 1] == raw[|raw| - 1];
    if EndsWith(withLeading, "/") then withLeading else withLeading + "/"
  }

  /** Normalising a normalised base path changes nothing. */
  lemma NormalizeBasePathIdempotent(path: string)
    ensures NormalizeBasePath(NormalizeBasePath(path)) == NormalizeBasePath(path)
  {
    NormalizeBasePathKeeps(NormalizeBasePath(path));
  }

  /** A trimmed path that already starts and ends with `/` is kept as it is. */
  lemma NormalizeBasePathKeeps(path: string)
    requires path != "" && path[0] == '/' && path[|path| - 1] == '/'
    ensures NormalizeBasePath(path) == path
  {
    TrimUnchanged(path);
  }

  // ----- Credentials -------------------------------------------------------

  /** The string has only characters `btoa` accepts (code points up to 0xFF). */
  predicate IsLatin1(s: string) {
    forall i :: 0 <= i < |s| ==> s[i] as int < 256
  }

  function Latin1Bytes(s: string): (r: seq<Base64.Byte>)
    requires IsLatin1(s)
    ensures |r| == |s| && forall i :: 0 <= i < |s| ==> r[i] == s[i] as int
  {
    seq(|s|, i requires 0 <= i < |s| => s[i] as int)
  }

  function Latin1String(bytes: seq<Base64.Byte>): (r: string)
    ensures |r| == |bytes| && forall i :: 0 <= i < |r| ==> r[i] as int == bytes[i]
  {
    seq(|bytes|, i requires 0 <= i < |bytes| => bytes[i] as char)
  }

  const InvalidCharacter: string := "InvalidCharacterError"

  /** `buildAuthHeader`: no header when both credentials are empty; otherwise
      `Basic` and the Base64 of `username:password`. `btoa` throws when that
      string holds a character above 0xFF. */
  function BuildAuthHeader(username: string, password: string): (r: Outcome<Option<string>>)
    ensures r == Returned(None) <==> username == "" && password == ""
    ensures r.Threw? <==> (username != "" || password != "") && !IsLatin1(username + ":" + password)
    ensures r.Returned? && r.value.Some? ==>
      r.value.value == "Basic " + Base64.Encode(Latin1Bytes(username + ":" + password))
  {
    if username == "" && password == "" then Returned(None)
    else
      var credentials := username + ":" + password;
      if !IsLatin1(credentials) then Threw(InvalidCharacter)
      else Returned(Some("Basic " + Base64.Encode(Latin1Bytes(credentials))))
  }

  /** The header carries the credentials recoverably: after `Basic ` comes a
      Base64 text that decodes to exactly `username:password`. */
  lemma AuthHeaderDecodes(username: string, password: string)
    requires BuildAuthHeader(username, password).Returned?
    requires BuildAuthHeader(username, password).value.Some?
    ensures var h := BuildAuthHeader(username, password).value.value;
      && StartsWith(h, "Basic ")
      && var decoded := Base64.Decode(h[6..]);
      && decoded.Some?
      && Latin1String(decoded.value) == username + ":" + password
  {
    var credentials := username + ":" + password;
    var bytes := Latin1Bytes(credentials);
    var h := "Basic " + Base64.Encode(bytes);
    assert h[6..] == Base64.Encode(bytes);
    Base64.DecodeEncode(bytes);
    assert Latin1String(bytes) == credentials;
  }

  // ----- File names --------------------------------------------------------

  /** `fileNameFromId`. */
  function FileNameFromId(id: string): (r: string)
    ensures EndsWith(r, ".json")
    ensures EndsWith(id, ".json") ==> r == id
    ensures !EndsWith(id, ".json") && StartsWith(id, "slot_") ==> r == id + ".json"
    ensures !EndsWith(id, ".json") && !StartsWith(id, "slot_") ==> r == "slot_" + id + ".json"
  {
    if EndsWith(id, ".json") then id
    else if StartsWith(id, "slot_") then id + ".json"
    else "slot_" + id + ".json"
  }

  /** A file name is its own file name, and an id not yet naming a file
      always comes out prefixed with `slot_`. */
  lemma FileNameFromIdIdempotent(id: string)
    ensures FileNameFromId(FileNameFromId(id)) == FileNameFromId(id)
    ensures !EndsWith(id, ".json") ==> StartsWith(FileNameFromId(id), "slot_")
  {
    if !EndsWith(id, ".json") && StartsWith(id, "slot_") {
      assert (id + ".json")[..5] == id[..5];
    }
  }

  /** The name of a save file: `slot_*.json`. */
  predicate IsSlotFileName(name: string) {
    StartsWith(name, "slot_") && EndsWith(name, ".json")
  }

  // ----- The provider ------------------------------------------------------

  /** What `createWebDavProvider` fixes once: the normalised server address,
      the normalised collection path and the `Authorization` value. */
  datatype Provider = Provider(baseUrl: string, basePath: string, authHeader: Option<string>)

  const DefaultBasePath: string := "/dxc-saves/"

  /** `createWebDavProvider`. An empty configured base path means the default
      one; building the credentials header may throw. */
  function CreateWebDavProvider(config: SyncConfig): (r: Outcome<Provider>)
    ensures r.Threw? <==> BuildAuthHeader(config.webdavConfig.username, config.webdavConfig.password).Threw?
    ensures r.Returned? ==>
      && r.value.baseUrl == NormalizeUrl(config.webdavConfig.url, config.useHttps)
      && r.value.basePath == NormalizeBasePath(if config.webdavConfig.basePath == "" then DefaultBasePath else config.webdavConfig.basePath)
      && r.value.authHeader == BuildAuthHeader(config.webdavConfig.username, config.webdavConfig.password).value
  {
    var w := config.webdavConfig;
    match BuildAuthHeader(w.username, w.password)
    case Threw(m) => Threw(m)
    case Returned(auth) =>
      Returned(Provider(
        NormalizeUrl(w.url, config.useHttps),
        NormalizeBasePath(if w.basePath == "" then DefaultBasePath else w.basePath),
        auth))
  }

  /** `buildHeaders`: the extra headers, with `Authorization` set (and
      overriding any extra one) when there are credentials. */
  function BuildHeaders(auth: Option<string>, extra: map<string, string>): (r: map<string, string>)
    ensures auth.Some? ==> r.Keys == extra.Keys + {"Authorization"} && r["Authorization"] == auth.value
    ensures auth.None? ==> r == extra
    ensures forall k :: k in extra && k != "Authorization" ==> k in r && r[k] == extra[k]
  {
    if auth.Some? then extra["Authorization" := auth.value] else extra
  }

  function CollectionUrl(p: Provider): string {
    p.baseUrl + p.basePath
  }

  function FileUrl(p: Provider, fileName: string): string {
    p.baseUrl + p.basePath + fileName
  }

  function Propfind(p: Provider, depth: string): Request {
    Request("PROPFIND", CollectionUrl(p), BuildHeaders(p.authHeader, map["Depth" := depth]), NoBody)
  }

  function Mkcol(p: Provider): Request {
    Request("MKCOL", CollectionUrl(p), BuildHeaders(p.authHeader, map[]), NoBody)
  }

  function GetRequest(p: Provider, fileName: string): Request {
    Request("GET", FileUrl(p, fileName), BuildHeaders(p.authHeader, map[]), NoBody)
  }

  /** A listing or re-check succeeded: `ok`, or 207 Multi-Status. */
  predicate Listed(reply: Reply)
    requires reply.Response?
  {
    Ok(reply.status) || reply.status == 207
  }

  /** `ensureCollection` (the provider's `connect`): PROPFIND the collection
      with depth 0; on 404 create it with MKCOL, where 405 Method Not Allowed
      means it already exists (section 9.3.1 of RFC 4918); when MKCOL fails
      otherwise, the answer is a second PROPFIND. A network failure at any
      step rejects. */
  method EnsureCollection(p: Provider, server: Server) returns (r: Outcome<bool>, sent: seq<Request>)
    ensures p.baseUrl == "" ==> r == Returned(false) && sent == []
    ensures p.baseUrl != "" ==> 1 <= |sent| <= 3 && sent[0] == Propfind(p, "0")
    ensures p.baseUrl != "" && server(sent[..1]).NetworkError? ==> r.Threw? && |sent| == 1
    ensures p.baseUrl != "" && server(sent[..1]).Response? && Listed(server(sent[..1])) ==>
      r == Returned(true) && |sent| == 1
    ensures (p.baseUrl != "" && server(sent[..1]).Response? && !Listed(server(sent[..1])) &&
             server(sent[..1]).status != 404) ==> r == Returned(false) && |sent| == 1
    ensures p.baseUrl != "" && server(sent[..1]).Response? && server(sent[..1]).status == 404 ==>
      && |sent| >= 2 && sent[1] == Mkcol(p)
      && var mk := server(sent[..2]);
      && (mk.NetworkError? ==> r.Threw? && |sent| == 2)
      && (mk.Response? && (Ok(mk.status) || mk.status == 201 || mk.status == 405) ==>
            r == Returned(true) && |sent| == 2)
      && (mk.Response? && !(Ok(mk.status) || mk.status == 201 || mk.status == 405) ==>
            && |sent| == 3 && sent[2] == Propfind(p, "0")
            && var retry := server(sent);
            && (retry.NetworkError? ==> r.Threw?)
            && (retry.Response? ==> r == Returned(Listed(retry))))
  {
    sent := [];
    if p.baseUrl == "" {
      return Returned(false), sent;
    }
    sent := sent + [Propfind(p, "0")];
    assert sent[..1] == sent;
    var first := server(sent);
    if first.NetworkError? {
      return Threw(first.message), sent;
    }
    if Listed(first) {
      return Returned(true), sent;
    }
    if first.status != 404 {
      return Returned(false), sent;
    }
    sent := sent + [Mkcol(p)];
    assert sent[..1] == [Propfind(p, "0")] && sent[..2] == sent;
    var mk := server(sent);
    if mk.NetworkError? {
      return Threw(mk.message), sent;
    }
    if Ok(mk.status) || mk.status == 201 || mk.status == 405 {
      return Returned(true), sent;
    }
    sent := sent + [Propfind(p, "0")];
    assert sent[..1] == [Propfind(p, "0")] && sent[..2] == [Propfind(p, "0"), Mkcol(p)];
    var retry := server(sent);
    if retry.NetworkError? {
      return Threw(retry.message), sent;
    }
    r := Returned(Listed(retry));
  }

  // ----- Listing -----------------------------------------------------------

  /** `href.split('/').filter(Boolean).pop() || ''`: the last non-empty
      `/`-separated segment of a path, or `""` when there is none. */
  function LastSegment(href: string): (r: string)
    ensures forall i :: 0 <= i < |r| ==> r[i] != '/'
    ensures var t := StripTrailingSlashes(href);
      && EndsWith(t, r) && (|r| < |t| ==> t[|t| - |r| - 1] == '/')
      && (r == "" <==> t == "")
  {
    AfterLastSlash(StripTrailingSlashes(href))
  }

  /** The text after the last `/` of `s` (all of it when there is none). */
  function AfterLastSlash(s: string): (r: string)
    ensures forall i :: 0 <= i < |r| ==> r[i] != '/'
    ensures EndsWith(s, r) && (|r| < |s| ==> s[|s| - |r| - 1] == '/')
    ensures s != "" && s[|s| - 1] != '/' ==> r != ""
  {
    if s == "" || s[|s| - 1] == '/' then ""
    else
      var r := AfterLastSlash(s[..|s| - 1]) + [s[|s| - 1]];
      assert s[..|s| - 1] + [s[|s| - 1]] == s;
      r
  }

  /** The name an href contributes to the listing: the last segment of the
      decoded href, kept only when it names a save file. Empty hrefs are
      skipped before decoding. */
  function NameOf(href: string, decode: string -> Option<string>): Option<string> {
    if href == "" then None
    else match decode(href)
      case None => None
      case Some(d) => if IsSlotFileName(LastSegment(d)) then Some(LastSegment(d)) else None
  }

  /** Some non-empty href fails to decode (`decodeURIComponent` throws). */
  predicate Undecodable(hrefs: seq<string>, decode: string -> Option<string>) {
    exists i :: 0 <= i < |hrefs| && hrefs[i] != "" && decode(hrefs[i]).None?
  }

  /** The filter/map/filter pipeline of `listFiles` before deduplication,
      once every href has decoded: the save-file names in href order. */
  function HrefNames(hrefs: seq<string>, decode: string -> Option<string>): seq<string> {
    if hrefs == [] then []
    else
      var names := HrefNames(hrefs[..|hrefs| - 1], decode);
      match NameOf(hrefs[|hrefs| - 1], decode)
      case Some(n) => names + [n]
      case None => names
  }

  /** Every name of the pipeline comes from some href: the `i`th. */
  lemma {:induction false} NameFromHref(hrefs: seq<string>, decode: string -> Option<string>, j: int)
    returns (i: int)
    requires 0 <= j < |HrefNames(hrefs, decode)|
    ensures 0 <= i < |hrefs| && NameOf(hrefs[i], decode) == Some(HrefNames(hrefs, decode)[j])
  {
    var init := hrefs[..|hrefs| - 1];
    HrefNamesStep(hrefs, decode);
    if j < |HrefNames(init, decode)| {
      i := NameFromHref(init, decode, j);
      assert hrefs[i] == init[i];
    } else {
      i := |hrefs| - 1;
    }
  }

  /** One more href adds at most its own name at the end. */
  lemma HrefNamesStep(hrefs: seq<string>, decode: string -> Option<string>)
    requires hrefs != []
    ensures var names, all := HrefNames(hrefs[..|hrefs| - 1], decode), HrefNames(hrefs, decode);
      && names <= all && |all| <= |names| + 1
      && (|all| == |names| + 1 ==> NameOf(hrefs[|hrefs| - 1], decode) == Some(all[|names|]))
  {
  }

  /** Every href that names a save file contributes its name. */
  lemma {:induction false} HrefNamed(hrefs: seq<string>, decode: string -> Option<string>, i: int, x: string)
    requires 0 <= i < |hrefs| && NameOf(hrefs[i], decode) == Some(x)
    ensures x in HrefNames(hrefs, decode)
  {
    var init := hrefs[..|hrefs| - 1];
    if i < |init| {
      assert init[i] == hrefs[i];
      HrefNamed(init, decode, i, x);
      HrefNamesStep(hrefs, decode);
      var names, all := HrefNames(init, decode), HrefNames(hrefs, decode);
      var k :| 0 <= k < |names| && names[k] == x;
      assert all[k] == x;
    } else {
      HrefNamesLast(hrefs, decode, x);
    }
  }

  lemma HrefNamesLast(hrefs: seq<string>, decode: string -> Option<string>, x: string)
    requires hrefs != [] && NameOf(hrefs[|hrefs| - 1], decode) == Some(x)
    ensures x in HrefNames(hrefs, decode)
  {
  }


  const UriError: string := "URIError: URI malformed"

  /** The names `listFiles` returns for the hrefs of a multistatus body:
      every save-file name among the hrefs' last segments, each once; a
      non-empty href that does not decode makes the whole listing throw. */
  function NamesFromHrefs(hrefs: seq<string>, decode: string -> Option<string>): (r: Outcome<seq<string>>)
    ensures r.Threw? <==> Undecodable(hrefs, decode)
    ensures r.Returned? ==> NoDuplicates(r.value)
    ensures r.Returned? ==> forall j :: 0 <= j < |r.value| ==>
      IsSlotFileName(r.value[j]) && exists i :: 0 <= i < |hrefs| && NameOf(hrefs[i], decode) == Some(r.value[j])
    ensures r.Returned? ==> forall i :: 0 <= i < |hrefs| && NameOf(hrefs[i], decode).Some? ==>
      NameOf(hrefs[i], decode).value in r.value
    ensures r.Returned? ==> InFirstOrder(HrefNames(hrefs, decode), r.value)
  {
    if Undecodable(hrefs, decode) then Threw(UriError)
    else
      DedupNames(hrefs, decode);
      DedupFirstOrder(HrefNames(hrefs, decode));
      Returned(Dedup(HrefNames(hrefs, decode)))
  }

  lemma DedupNames(hrefs: seq<string>, decode: string -> Option<string>)
    ensures var r := Dedup(HrefNames(hrefs, decode));
      && (forall j :: 0 <= j < |r| ==>
            IsSlotFileName(r[j]) && exists i :: 0 <= i < |hrefs| && NameOf(hrefs[i], decode) == Some(r[j]))
      && (forall i :: 0 <= i < |hrefs| && NameOf(hrefs[i], decode).Some? ==> NameOf(hrefs[i], decode).value in r)
  {
    var ns := HrefNames(hrefs, decode);
    var r := Dedup(ns);
    forall j | 0 <= j < |r|
      ensures IsSlotFileName(r[j]) && exists i :: 0 <= i < |hrefs| && NameOf(hrefs[i], decode) == Some(r[j])
    {
      assert r[j] in ns;
      var k :| 0 <= k < |ns| && ns[k] == r[j];
      var i := NameFromHref(hrefs, decode, k);
    }
    forall i | 0 <= i < |hrefs| && NameOf(hrefs[i], decode).Some?
      ensures NameOf(hrefs[i], decode).value in r
    {
      HrefNamed(hrefs, decode, i, NameOf(hrefs[i], decode).value);
      var k :| 0 <= k < |ns| && ns[k] == NameOf(hrefs[i], decode).value;
      assert ns[k] in r;
    }
  }

  /** What `listFiles` makes of the reply to its PROPFIND: nothing unless the
      listing succeeded, otherwise the names found in the hrefs that
      `hrefsOf` (the XML parser) extracts from the body. */
  function FilesFromReply(reply: Reply, hrefsOf: string -> seq<string>, decode: string -> Option<string>)
    : (r: Outcome<seq<string>>)
    ensures reply.NetworkError? ==> r.Threw?
    ensures reply.Response? && !Listed(reply) ==> r == Returned([])
    ensures reply.Response? && Listed(reply) ==> r == NamesFromHrefs(hrefsOf(reply.text), decode)
  {
    match reply
    case NetworkError(m) => Threw(m)
    case Response(_, _, text) =>
      if !Listed(reply) then Returned([]) else NamesFromHrefs(hrefsOf(text), decode)
  }

  /** `listFiles`: one PROPFIND with depth 1 on the collection. */
  method ListFiles(p: Provider, server: Server, hrefsOf: string -> seq<string>, decode: string -> Option<string>)
    returns (r: Outcome<seq<string>>, sent: seq<Request>)
    ensures sent == [Propfind(p, "1")]
    ensures r == FilesFromReply(server(sent), hrefsOf, decode)
  {
    sent := [Propfind(p, "1")];
    r := FilesFromReply(server(sent), hrefsOf, decode);
  }

  /** What `getSaveFromFile` makes of the reply to its GET: nothing for a
      reply that is not ok or a body that is not JSON, otherwise the parsed
      body (which may be `null`). */
  function SaveFromReply(reply: Reply, parse: string -> Option<Json>): (r: Outcome<Option<Json>>)
    ensures r.Threw? <==> reply.NetworkError?
    ensures r.Returned? && r.value.Some? <==> reply.Response? && Ok(reply.status) && parse(reply.text).Some?
    ensures r.Returned? && r.value.Some? ==> r.value == parse(reply.text)
  {
    match reply
    case NetworkError(m) => Threw(m)
    case Response(status, _, text) => if !Ok(status) then Returned(None) else Returned(parse(text))
  }

  /** The saves `listSaves` keeps from the replies to its GETs, in order:
      the truthy parsed bodies (`filter(save => !!save)`). */
  function Kept(replies: seq<Reply>, parse: string -> Option<Json>): (r: seq<Json>)
    ensures |r| <= |replies|
    ensures forall j :: 0 <= j < |r| ==> Truthy(r[j])
    ensures forall j :: 0 <= j < |r| ==> exists k :: 0 <= k < |replies| && SaveFromReply(replies[k], parse) == Returned(Some(r[j]))
  {
    if replies == [] then []
    else
      var init := Kept(replies[..|replies| - 1], parse);
      var last := replies[|replies| - 1];
      var r := match SaveFromReply(last, parse)
        case Returned(Some(j)) => if Truthy(j) then init + [j] else init
        case _ => init;
      assert forall j :: 0 <= j < |r| ==> exists k :: 0 <= k < |replies| && SaveFromReply(replies[k], parse) == Returned(Some(r[j])) by {
        forall j | 0 <= j < |r|
          ensures exists k :: 0 <= k < |replies| && SaveFromReply(replies[k], parse) == Returned(Some(r[j]))
        {
          if j < |init| {
            var k :| 0 <= k < |replies| - 1 && SaveFromReply(replies[..|replies| - 1][k], parse) == Returned(Some(init[j]));
            assert replies[..|replies| - 1][k] == replies[k];
          } else {
            assert SaveFromReply(replies[|replies| - 1], parse) == Returned(Some(r[j]));
          }
        }
      }
      r
  }

  /** When every file answers ok with a truthy JSON body, nothing is
      dropped. */
  lemma {:induction false} KeptAll(replies: seq<Reply>, parse: string -> Option<Json>)
    requires forall k :: 0 <= k < |replies| ==>
      var s := SaveFromReply(replies[k], parse); s.Returned? && s.value.Some? && Truthy(s.value.value)
    ensures |Kept(replies, parse)| == |replies|
  {
    if replies != [] {
      KeptAll(replies[..|replies| - 1], parse);
    }
  }

  /** A file whose GET fails, whose body does not parse, or whose body
      parses to a falsy value is skipped: the listing is the same as
      without it. */
  lemma {:induction false} KeptSkipsFailure(before: seq<Reply>, bad: Reply, after: seq<Reply>, parse: string -> Option<Json>)
    requires SaveFromReply(bad, parse).Returned?
    requires SaveFromReply(bad, parse).value.None? || !Truthy(SaveFromReply(bad, parse).value.value)
    ensures Kept(before + [bad] + after, parse) == Kept(before + after, parse)
  {
    if after == [] {
      assert (before + [bad] + after)[..|before + [bad] + after| - 1] == before;
      assert before + after == before;
    } else {
      var a := after[..|after| - 1];
      KeptSkipsFailure(before, bad, a, parse);
      assert (before + [bad] + after)[..|before + [bad] + after| - 1] == before + [bad] + a;
      assert (before + after)[..|before + after| - 1] == before + a;
    }
  }

  /** `listSaves`: the listing, then one GET per listed file (the concurrent
      `Promise.all` taken in order, stopping at the first network failure),
      keeping the saves that came back. */
  method ListSaves(p: Provider, server: Server, hrefsOf: string -> seq<string>,
                   decode: string -> Option<string>, parse: string -> Option<Json>)
    returns (r: Outcome<seq<Json>>, sent: seq<Request>)
    ensures |sent| >= 1 && sent[..1] == [Propfind(p, "1")]
    ensures var files := FilesFromReply(server([Propfind(p, "1")]), hrefsOf, decode);
      && (files.Threw? ==> r.Threw? && |sent| == 1)
      && (files.Returned? ==>
            |sent| <= 1 + |files.value| &&
            forall k :: 0 <= k < |sent| - 1 ==> sent[1 + k] == GetRequest(p, files.value[k]))
      && (r.Returned? ==>
            files.Returned? && |sent| == 1 + |files.value| &&
            r.value == Kept(Replies(server, sent, 1), parse))
      && (r.Threw? && files.Returned? ==> |sent| > 1 && server(sent).NetworkError?)
  {
    var files, listed := ListFiles(p, server, hrefsOf, decode);
    if files.Threw? {
      return Threw(files.message), listed;
    }
    var names := files.value;
    r, sent := FetchFiles(p, server, parse, names, listed);
    assert |listed| == 1 && sent[..1] == listed;
  }

  /** The GETs of `listSaves` after the requests `before`: one per file, in
      order, stopping at the first network failure. */
  method FetchFiles(p: Provider, server: Server, parse: string -> Option<Json>,
                    names: seq<string>, before: seq<Request>)
    returns (r: Outcome<seq<Json>>, sent: seq<Request>)
    ensures |before| <= |sent| <= |before| + |names| && sent[..|before|] == before
    ensures forall k :: 0 <= k < |sent| - |before| ==> sent[|before| + k] == GetRequest(p, names[k])
    ensures r.Returned? ==>
      |sent| == |before| + |names| && r.value == Kept(Replies(server, sent, |before|), parse)
    ensures r.Threw? ==> |sent| > |before| && server(sent).NetworkError?
  {
    sent := before;
    var saves: seq<Json> := [];
    var i := 0;
    while i < |names|
      invariant 0 <= i <= |names|
      invariant |sent| == |before| + i && sent[..|before|] == before
      invariant forall k :: 0 <= k < |sent| - |before| ==> sent[|before| + k] == GetRequest(p, names[k])
      invariant saves == Kept(Replies(server, sent, |before|), parse)
    {
      var previous := sent;
      sent := sent + [GetRequest(p, names[i])];
      assert sent[..|before|] == before by {
        RepliesSnoc(server, previous, GetRequest(p, names[i]), |before|);
      }
      var one := SaveFromReply(server(sent), parse);
      if one.Threw? {
        return Threw(one.message), sent;
      }
      FetchStep(server, previous, GetRequest(p, names[i]), |before|, parse);
      if one.value.Some? && Truthy(one.value.value) {
        saves := saves + [one.value.value];
      }
      i := i + 1;
    }
    r := Returned(saves);
  }

  /** One more GET that did not fail adds its save, if it kept one. */
  lemma FetchStep(server: Server, previous: seq<Request>, req: Request, from: nat, parse: string -> Option<Json>)
    requires from <= |previous| && SaveFromReply(server(previous + [req]), parse).Returned?
    ensures var one := SaveFromReply(server(previous + [req]), parse).value;
      var saves := Kept(Replies(server, previous, from), parse);
      Kept(Replies(server, previous + [req], from), parse) ==
        if one.Some? && Truthy(one.value) then saves + [one.value] else saves
  {
    RepliesSnoc(server, previous, req, from);
    KeptSnoc(Replies(server, previous, from), server(previous + [req]), parse);
  }

  lemma KeptSnoc(replies: seq<Reply>, last: Reply, parse: string -> Option<Json>)
    requires SaveFromReply(last, parse).Returned?
    ensures var one := SaveFromReply(last, parse).value;
      Kept(replies + [last], parse) ==
        if one.Some? && Truthy(one.value) then Kept(replies, parse) + [one.value] else Kept(replies, parse)
  {
    assert (replies + [last])[..|replies|] == replies;
  }

  /** `getSave` reads the file the id names. */
  method GetSave(p: Provider, server: Server, id: string, parse: string -> Option<Json>)
    returns (r: Outcome<Option<Json>>, sent: seq<Request>)
    ensures sent == [GetRequest(p, FileNameFromId(id))]
    ensures r == SaveFromReply(server(sent), parse)
  {
    sent := [GetRequest(p, FileNameFromId(id))];
    r := SaveFromReply(server(sent), parse);
  }

  /** The file a save is uploaded to: always `slot_<slotIndex>.json`, whatever
      its `id`. */
  function UploadFileName(index: int): (r: string)
    ensures IsSlotFileName(r)
  {
    "slot_" + IntToString(index) + ".json"
  }

  /** `uploadSave`: a save without a (non-zero) `slotIndex` is refused without
      a request; any other is PUT as JSON to its slot's file, and the result
      is whether the server answered ok. */
  method UploadSave(p: Provider, server: Server, save: CloudSaveSlot, stringify: CloudSaveSlot -> string)
    returns (r: Outcome<bool>, sent: seq<Request>)
    ensures save.slotIndex.None? || save.slotIndex.value == 0 ==> r == Returned(false) && sent == []
    ensures save.slotIndex.Some? && save.slotIndex.value != 0 ==>
      && sent == [Request("PUT", FileUrl(p, UploadFileName(save.slotIndex.value)),
                          BuildHeaders(p.authHeader, map["Content-Type" := "application/json"]),
                          Text(stringify(save)))]
      && (server(sent).NetworkError? ==> r.Threw?)
      && (server(sent).Response? ==> r == Returned(Ok(server(sent).status)))
  {
    if save.slotIndex.None? || save.slotIndex.value == 0 {
      return Returned(false), [];
    }
    var name := UploadFileName(save.slotIndex.value);
    sent := [Request("PUT", FileUrl(p, name),
                     BuildHeaders(p.authHeader, map["Content-Type" := "application/json"]),
                     Text(stringify(save)))];
    var reply := server(sent);
    if reply.NetworkError? {
      return Threw(reply.message), sent;
    }
    r := Returned(Ok(reply.status));
  }

  /** Two saves for the same slot go to the same file even when their ids
      differ. */
  lemma UploadIgnoresId(a: CloudSaveSlot, b: CloudSaveSlot)
    requires a.slotIndex == b.slotIndex && a.slotIndex.Some?
    ensures UploadFileName(a.slotIndex.value) == UploadFileName(b.slotIndex.value)
  {
  }

  /** `deleteSave`: DELETE of the file the id names; a 404 counts as done. */
  method DeleteSave(p: Provider, server: Server, id: string) returns (r: Outcome<bool>, sent: seq<Request>)
    ensures sent == [Request("DELETE", FileUrl(p, FileNameFromId(id)), BuildHeaders(p.authHeader, map[]), NoBody)]
    ensures server(sent).NetworkError? ==> r.Threw?
    ensures server(sent).Response? ==> r == Returned(Ok(server(sent).status) || server(sent).status == 404)
  {
    sent := [Request("DELETE", FileUrl(p, FileNameFromId(id)), BuildHeaders(p.authHeader, map[]), NoBody)];
    var reply := server(sent);
    if reply.NetworkError? {
      return Threw(reply.message), sent;
    }
    r := Returned(Ok(reply.status) || reply.status == 404);
  }
}
