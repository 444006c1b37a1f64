/** The development server's save endpoint under `/api/saves`: one
    directory of JSON files per sanitised user id, listed, read, written and
    deleted over HTTP. The file system is a map from user directory to its
    entries in `readdir` order; decompression, UTF-8 decoding and the JSON
    codec are parameters. */
module DevSaveServer {
  import opened Wrappers
  import opened Strings
  import opened Json
  import SyncSlots

  const ApiBase: string := "/api/saves"

  // ----- Names ---------------------------------------------------------------

  /** `[a-zA-Z0-9_-]`. */
  predicate IsUserIdChar(c: char) {
    ('a' <= c <= 'z') || ('A' <= c <= 'Z') || ('0' <= c <= '9') || c == '_' || c == '-'
  }

  /** `[a-zA-Z0-9_.-]`. */
  predicate IsFileNameChar(c: char) {
    IsUserIdChar(c) || c == '.'
  }

  /** `s.replace(/[^a-zA-Z0-9_-]/g, '_')`. */
  function MaskUserId(s: string): (r: string)
    ensures |r| == |s|
    ensures forall i :: 0 <= i < |s| ==> r[i] == (if IsUserIdChar(s[i]) then s[i] else '_')
  {
    if s == [] then [] else [if IsUserIdChar(s[0]) then s[0] else '_'] + MaskUserId(s[1..])
  }

  /** `sanitizeUserId`: trimmed, every character outside `[a-zA-Z0-9_-]`
      replaced by `_`, cut to 64 characters. It is empty exactly when the
      value is blank. */
  function SanitizeUserId(value: string): (r: string)
    ensures |r| <= 64
    ensures forall i :: 0 <= i < |r| ==> IsUserIdChar(r[i])
    ensures r == "" <==> Trim(value) == ""
    ensures |Trim(value)| <= 64 ==> |r| == |Trim(value)|
    ensures forall i :: 0 <= i < |r| && IsUserIdChar(Trim(value)[i]) ==> r[i] == Trim(value)[i]
  {
    MaskedPrefix(Trim(value));
    Take(MaskUserId(Trim(value)), 64)
  }

  /** The first 64 characters of a masked text. */
  lemma MaskedPrefix(t: string)
    ensures var r := Take(MaskUserId(t), 64);
      && (forall i :: 0 <= i < |r| ==> IsUserIdChar(r[i]))
      && (r == "" <==> t == "")
      && (|t| <= 64 ==> |r| == |t|)
      && (forall i :: 0 <= i < |r| && IsUserIdChar(t[i]) ==> r[i] == t[i])
  {
    var masked := MaskUserId(t);
    var r := Take(masked, 64);
    assert forall i :: 0 <= i < |r| ==> r[i] == masked[i];
  }

  /** `sanitizeFileName`: the same length, the characters of
      `[a-zA-Z0-9_.-]` kept and every other one replaced by `_`. */
  function SanitizeFileName(value: string): (r: string)
    ensures |r| == |value|
    ensures forall i :: 0 <= i < |r| ==> IsFileNameChar(r[i])
    ensures forall i :: 0 <= i < |value| && IsFileNameChar(value[i]) ==> r[i] == value[i]
    ensures forall i :: 0 <= i < |value| && !IsFileNameChar(value[i]) ==> r[i] == '_'
  {
    seq(|value|, i requires 0 <= i < |value| => if IsFileNameChar(value[i]) then value[i] else '_')
  }

  /** A name is left alone by `sanitizeFileName` exactly when all its
      characters are already allowed. */
  lemma SanitizeFileNameFixedPoints(value: string)
    ensures SanitizeFileName(value) == value <==> forall i :: 0 <= i < |value| ==> IsFileNameChar(value[i])
  {
    if SanitizeFileName(value) == value {
      forall i | 0 <= i < |value|
        ensures IsFileNameChar(value[i])
      {
        assert SanitizeFileName(value)[i] == value[i];
      }
    }
  }

  /** `normalizeFileName`: the sanitised value, or `slot_unknown` for an
      empty one, with `.json` appended unless it already ends so. The result
      is one entry of the user directory: no separator, never `.` or `..`. */
  function NormalizeFileName(value: string): (r: string)
    ensures EndsWith(r, ".json")
    ensures forall i :: 0 <= i < |r| ==> IsFileNameChar(r[i])
    ensures '/' !in r && r != "." && r != ".."
    ensures value != "" && EndsWith(SanitizeFileName(value), ".json") ==> r == SanitizeFileName(value)
    ensures value != "" && !EndsWith(SanitizeFileName(value), ".json") ==> r == SanitizeFileName(value) + ".json"
  {
    var safe := SanitizeFileName(if value == "" then "slot_unknown" else value);
    WithJsonSuffix(safe);
    if EndsWith(safe, ".json") then safe else safe + ".json"
  }

  /** A safe name with `.json` ensured at its end is still safe. */
  lemma WithJsonSuffix(safe: string)
    requires forall i :: 0 <= i < |safe| ==> IsFileNameChar(safe[i])
    ensures var r := if EndsWith(safe, ".json") then safe else safe + ".json";
      && EndsWith(r, ".json")
      && (forall i :: 0 <= i < |r| ==> IsFileNameChar(r[i]))
      && '/' !in r && r != "." && r != ".."
  {
    var r := if EndsWith(safe, ".json") then safe else safe + ".json";
    assert r[|r| - 5..] == ".json";
    forall i | 0 <= i < |r|
      ensures IsFileNameChar(r[i])
    {
      if i >= |safe| {
        assert r[i] == ".json"[i - |safe|];
      }
    }
    assert forall i :: 0 <= i < |r| ==> r[i] != '/';
  }

  lemma SlotUnknownIsSafe()
    ensures SanitizeFileName("slot_unknown") == "slot_unknown"
  {
    SanitizeFileNameFixedPoints("slot_unknown");
  }

  /** An empty name becomes `slot_unknown.json`. */
  lemma NormalizeEmptyName()
    ensures NormalizeFileName("") == "slot_unknown.json"
  {
    SlotUnknownIsSafe();
    assert !EndsWith("slot_unknown", ".json");
    assert "slot_unknown" + ".json" == "slot_unknown.json";
  }

  /** Normalising a file name twice is normalising it once. */
  lemma NormalizeFileNameIdempotent(value: string)
    ensures NormalizeFileName(NormalizeFileName(value)) == NormalizeFileName(value)
  {
    var n := NormalizeFileName(value);
    SanitizeFileNameFixedPoints(n);
  }

  /** `s.replace(/^\/+/, '')`. */
  function StripLeadingSlashes(s: string): (r: string)
    ensures |r| <= |s| && r == s[|s| - |r|..]
    ensures r != [] ==> r[0] != '/'
    ensures forall i :: 0 <= i < |s| - |r| ==> s[i] == '/'
  {
    if s != [] && s[0] == '/' then StripLeadingSlashes(s[1..]) else s
  }

  /** `toUpperCase` on the letters a request method is made of. */
  function UpperAscii(s: string): string {
    if s == [] then []
    else [if 'a' <= s[0] <= 'z' then (s[0] as int - 32) as char else s[0]] + UpperAscii(s[1..])
  }

  /** A text without lower-case letters is its own upper case. */
  lemma UpperAsciiKeeps(s: string)
    requires forall i :: 0 <= i < |s| ==> !('a' <= s[i] <= 'z')
    ensures UpperAscii(s) == s
  {
    if s != [] {
      UpperAsciiKeeps(s[1..]);
    }
  }

  // ----- The file system -------------------------------------------------------

  /** A directory entry as `readdir` with file types reports it, with the
      text a file holds. */
  datatype DirEntry = DirEntry(name: string, isFile: bool, content: string)

  type Dir = seq<DirEntry>

  /** The `local-sync` tree: one directory per sanitised user id. */
  type Storage = map<string, Dir>

  /** A directory never holds two entries of the same name. */
  predicate DistinctNames(dir: Dir) {
    forall i, j :: 0 <= i < j < |dir| ==> dir[i].name != dir[j].name
  }

  predicate WellFormed(fs: Storage) {
    forall user :: user in fs ==> DistinctNames(fs[user])
  }

  /** The position of the entry called `name`. */
  function FindEntry(dir: Dir, name: string): (r: Option<nat>)
    ensures r.None? <==> forall i :: 0 <= i < |dir| ==> dir[i].name != name
    ensures r.Some? ==> r.value < |dir| && dir[r.value].name == name
    ensures r.Some? ==> forall i :: 0 <= i < r.value ==> dir[i].name != name
  {
    if dir == [] then None
    else if dir[0].name == name then Some(0)
    else
      match FindEntry(dir[1..], name)
      case None => None
      case Some(i) => Some(i + 1)
  }

  /** `writeFile`: the file's text replaced, or a new file at the end. */
  function WriteFile(dir: Dir, name: string, content: string): Dir {
    match FindEntry(dir, name)
    case Some(i) => dir[i := DirEntry(name, true, content)]
    case None => dir + [DirEntry(name, true, content)]
  }

  /** `unlink` of the entry at `i`. */
  function Unlink(dir: Dir, i: nat): Dir
    requires i < |dir|
  {
    dir[..i] + dir[i + 1..]
  }

  /** After a write, the name holds a file with the written text. */
  lemma ReadAfterWrite(dir: Dir, name: string, content: string)
    ensures var d := WriteFile(dir, name, content);
      FindEntry(d, name).Some? && d[FindEntry(d, name).value] == DirEntry(name, true, content)
  {
    var d := WriteFile(dir, name, content);
    match FindEntry(dir, name)
    case Some(i) =>
      assert d[i] == DirEntry(name, true, content);
      assert forall k :: 0 <= k < i ==> d[k] == dir[k];
    case None =>
      assert d[|dir|] == DirEntry(name, true, content);
      assert forall k :: 0 <= k < |dir| ==> d[k] == dir[k];
  }

  /** Where `name` is found depends only on which entries carry it. */
  lemma {:induction false} FindEntrySameNames(d1: Dir, d2: Dir, name: string)
    requires |d1| <= |d2|
    requires forall k :: 0 <= k < |d1| ==> (d1[k].name == name <==> d2[k].name == name)
    requires forall k :: |d1| <= k < |d2| ==> d2[k].name != name
    ensures FindEntry(d1, name) == FindEntry(d2, name)
  {
    if d2 != [] && d1 != [] && d1[0].name != name {
      FindEntrySameNames(d1[1..], d2[1..], name);
    }
  }

  /** A write leaves every other name finding what it found before. */
  lemma WriteKeepsOthers(dir: Dir, name: string, content: string, other: string)
    requires other != name
    ensures var d := WriteFile(dir, name, content);
      && FindEntry(d, other) == FindEntry(dir, other)
      && (FindEntry(dir, other).Some? ==> d[FindEntry(d, other).value] == dir[FindEntry(dir, other).value])
  {
    var d := WriteFile(dir, name, content);
    var found := FindEntry(dir, name);
    if found.Some? {
      assert forall k :: 0 <= k < |d| && k != found.value ==> d[k] == dir[k];
    } else {
      assert forall k :: 0 <= k < |dir| ==> d[k] == dir[k];
    }
    FindEntrySameNames(dir, d, other);
  }

  /** Writing and unlinking keep the names of a directory distinct. */
  lemma ChangesKeepNamesDistinct(dir: Dir, name: string, content: string, i: nat)
    requires DistinctNames(dir)
    ensures DistinctNames(WriteFile(dir, name, content))
    ensures i < |dir| ==> DistinctNames(Unlink(dir, i))
  {
    if i < |dir| {
      var u := Unlink(dir, i);
      assert forall k :: 0 <= k < |u| ==> u[k] == dir[if k < i then k else k + 1];
    }
  }

  /** Once the only entry called `name` is unlinked, the name is gone. */
  lemma UnlinkRemoves(dir: Dir, name: string)
    requires DistinctNames(dir) && FindEntry(dir, name).Some?
    ensures FindEntry(Unlink(dir, FindEntry(dir, name).value), name).None?
  {
    var i := FindEntry(dir, name).value;
    var u := Unlink(dir, i);
    assert forall k :: 0 <= k < |u| ==> u[k] == dir[if k < i then k else k + 1];
  }

  // ----- Requests and replies --------------------------------------------------

  /** What `new URL(req.url, …)` yields that the endpoint reads: the path and
      the `userId` and `summary` query parameters (`searchParams.get`). */
  datatype Url = Url(pathname: string, userId: Option<string>, summary: Option<string>)

  /** A request: no URL stands for an empty `req.url`; the raw body bytes as
      `readBody` collects them. */
  datatype DevRequest = DevRequest(url: Option<Url>, verb: Option<string>, contentEncoding: string, body: seq<int>)

  /** `next()`, a JSON reply, or the plugin's catch-all 500 for an exception
      that escapes the handler (its text is the exception's message). */
  datatype DevReply = Next | Reply(status: int, body: Json) | Crashed

  datatype Response = Response(reply: DevReply, storage: Storage)

  /** The body decoders and the JSON codec the endpoint relies on. */
  datatype Codecs = Codecs(
    gunzip: seq<int> -> Option<string>,
    utf8: seq<int> -> string,
    parse: string -> Option<Json>,
    stringify: Json -> string)

  /** `JSON.parse(JSON.stringify(v))` gives `v` back. */
  ghost predicate JsonRoundTrips(c: Codecs) {
    forall j :: c.parse(c.stringify(j)) == Some(j)
  }

  const CompressedMessage: string := "Invalid compressed payload"
  const JsonBodyMessage: string := "Invalid JSON body"
  const UserIdRequiredMessage: string := "userId is required"
  const MethodNotAllowedMessage: string := "Method not allowed"
  const NotFoundMessage: string := "Not found"
  const ReadFailedMessage: string := "Failed to read save"
  const InvalidPayloadMessage: string := "Invalid payload"
  const DeleteFailedMessage: string := "Failed to delete save"

  function ErrorBody(message: string): Json {
    JObj(map["error" := JStr(message)])
  }

  const OkBody: Json := JObj(map["ok" := JBool(true)])

  /** The request is one for the endpoint. */
  predicate Routed(req: DevRequest) {
    req.url.Some? && StartsWith(req.url.value.pathname, ApiBase)
  }

  /** The request methods the endpoint tells apart. */
  datatype Verb = GetVerb | PutVerb | PostVerb | DeleteVerb | OtherVerb(name: string)

  /** `(req.method || 'GET').toUpperCase()`. */
  function VerbOf(req: DevRequest): (r: Verb)
    ensures req.verb.None? || req.verb == Some("") ==> r == GetVerb
    ensures r.OtherVerb? ==> r.name != "GET" && r.name != "PUT" && r.name != "POST" && r.name != "DELETE"
  {
    UpperAsciiKeeps("GET");
    var m := UpperAscii(if req.verb.Some? && req.verb.value != "" then req.verb.value else "GET");
    if m == "GET" then GetVerb
    else if m == "PUT" then PutVerb
    else if m == "POST" then PostVerb
    else if m == "DELETE" then DeleteVerb
    else OtherVerb(m)
  }

  /** The path below `/api/saves` without its leading slashes. */
  function Remainder(pathname: string): (r: string)
    requires StartsWith(pathname, ApiBase)
    ensures r != [] ==> r[0] != '/'
    ensures |ApiBase| + |r| <= |pathname| && r == pathname[|pathname| - |r|..]
    ensures forall i :: |ApiBase| <= i < |pathname| - |r| ==> pathname[i] == '/'
  {
    StripLeadingSlashes(pathname[|ApiBase|..])
  }

  function UserIdParam(u: Url): string {
    if u.userId.Some? then u.userId.value else ""
  }

  function IsSummary(u: Url): bool {
    u.summary == Some("1")
  }

  predicate HasBody(verb: Verb) {
    verb == PutVerb || verb == PostVerb
  }

  /** The body text: decompressed when the content encoding names gzip,
      nothing when that fails. */
  function BodyText(req: DevRequest, c: Codecs): Option<string> {
    if Contains(req.contentEncoding, "gzip") then c.gunzip(req.body) else Some(c.utf8(req.body))
  }

  datatype BodyResult = Payload(value: Json) | BadBody(message: string)

  /** The payload: `null` for a method without a body or an empty body, the
      parsed body otherwise; the two refusals for a body that does not
      decompress or does not parse. */
  function ReadPayload(verb: Verb, req: DevRequest, c: Codecs): (r: BodyResult)
    ensures !HasBody(verb) ==> r == Payload(JNull)
    ensures r == BadBody(CompressedMessage) <==>
      HasBody(verb) && Contains(req.contentEncoding, "gzip") && c.gunzip(req.body).None?
    ensures r == BadBody(JsonBodyMessage) <==>
      HasBody(verb) && BodyText(req, c).Some? && BodyText(req, c).value != "" && c.parse(BodyText(req, c).value).None?
    ensures r.BadBody? ==> r.message == CompressedMessage || r.message == JsonBodyMessage
    ensures HasBody(verb) && BodyText(req, c) == Some("") ==> r == Payload(JNull)
    ensures HasBody(verb) && BodyText(req, c).Some? && c.parse(BodyText(req, c).value).Some? && BodyText(req, c).value != "" ==>
      r == Payload(c.parse(BodyText(req, c).value).value)
  {
    if !HasBody(verb) then Payload(JNull)
    else
      match BodyText(req, c)
      case None => BadBody(CompressedMessage)
      case Some(text) =>
        if text == "" then Payload(JNull)
        else
          match c.parse(text)
          case None => BadBody(JsonBodyMessage)
          case Some(j) => Payload(j)
  }

  /** `(userIdParam || payload?.userId || '').trim()`: the query parameter
      wins, the payload's `userId` stands in for an empty one; nothing when
      the payload's id is truthy but not a string (`trim` then throws). */
  function ResolveUserId(param: string, payload: Json): (r: Option<string>)
    ensures param != "" ==> r == Some(Trim(param))
    ensures param == "" && !TruthyField(Get(payload, "userId")) ==> r == Some("")
    ensures param == "" && TruthyField(Get(payload, "userId")) && Get(payload, "userId").value.JStr? ==>
      r == Some(Trim(Get(payload, "userId").value.s))
    ensures r.None? <==> param == "" && TruthyField(Get(payload, "userId")) && !Get(payload, "userId").value.JStr?
  {
    if param != "" then Some(Trim(param))
    else
      match Get(payload, "userId")
      case Some(v) =>
        if !Truthy(v) then Some("")
        else if v.JStr? then Some(Trim(v.s))
        else None
      case None => Some("")
  }

  /** The directory of a user; `mkdir` with `recursive` creates it. */
  function UserDir(fs: Storage, user: string): Dir {
    if user in fs then fs[user] else []
  }

  // ----- Listing ---------------------------------------------------------------

  /** An array's own enumerable properties as an object: each item under
      its decimal index. */
  function IndexFields(items: seq<Json>): (r: map<string, Json>)
    ensures forall k :: k in r ==> k != [] && IsDigit(k[0])
    ensures |items| > 0 ==> NatToString(|items| - 1) in r && r[NatToString(|items| - 1)] == items[|items| - 1]
  {
    if items == [] then map[]
    else IndexFields(items[..|items| - 1])[NatToString(|items| - 1) := items[|items| - 1]]
  }

  /** `const { data, ...rest } = parsed`: an object without its `data`; an
      array's own properties are its indices, so it has none to remove. */
  function WithoutData(j: Json): (r: Json)
    requires IsObject(j)
    ensures r.JObj? && "data" !in r.fields
    ensures j.JObj? ==> r.fields == j.fields - {"data"}
    ensures j.JArr? ==> r.fields == IndexFields(j.items)
  {
    match j
    case JObj(f) => JObj(f - {"data"})
    case JArr(items) => JObj(IndexFields(items))
  }

  /** What a directory entry contributes to the listing: a `.json` file
      whose text parses to an object or array, without its `data` in a
      summary listing. */
  function Shown(e: DirEntry, parse: string -> Option<Json>, isSummary: bool): (r: Option<Json>)
    ensures r.Some? <==> e.isFile && EndsWith(e.name, ".json") && parse(e.content).Some? && IsObject(parse(e.content).value)
    ensures r.Some? && !isSummary ==> r.value == parse(e.content).value
    ensures r.Some? && isSummary ==> r.value == WithoutData(parse(e.content).value)
  {
    if !e.isFile || !EndsWith(e.name, ".json") then None
    else
      match parse(e.content)
      case None => None
      case Some(j) =>
        if Truthy(j) && IsObject(j) then Some(if isSummary then WithoutData(j) else j) else None
  }

  /** The listing before sorting, in directory order. */
  function Listed(dir: Dir, parse: string -> Option<Json>, isSummary: bool): seq<Json> {
    if dir == [] then []
    else
      var prev := Listed(dir[..|dir| - 1], parse, isSummary);
      match Shown(dir[|dir| - 1], parse, isSummary)
      case Some(j) => prev + [j]
      case None => prev
  }

  /** A value is listed exactly when some entry of the directory shows it. */
  lemma {:induction false} ListedMembers(dir: Dir, parse: string -> Option<Json>, isSummary: bool)
    ensures forall j :: j in Listed(dir, parse, isSummary) <==> exists e :: e in dir && Shown(e, parse, isSummary) == Some(j)
  {
    if dir != [] {
      var init, last := dir[..|dir| - 1], dir[|dir| - 1];
      ListedMembers(init, parse, isSummary);
      assert dir == init + [last];
      var all, prev := Listed(dir, parse, isSummary), Listed(init, parse, isSummary);
      assert all == prev + (if Shown(last, parse, isSummary).Some? then [Shown(last, parse, isSummary).value] else []);
      forall j
        ensures j in all <==> exists e :: e in dir && Shown(e, parse, isSummary) == Some(j)
      {
        if j in all {
          if j in prev {
            var e :| e in init && Shown(e, parse, isSummary) == Some(j);
            assert e in dir;
          } else {
            assert Shown(last, parse, isSummary) == Some(j) && last in dir;
          }
        }
        if exists e :: e in dir && Shown(e, parse, isSummary) == Some(j) {
          var e :| e in dir && Shown(e, parse, isSummary) == Some(j);
          if e != last {
            assert e in init;
          }
        }
      }
    }
  }

  /** The sort key `Number(save.slotIndex) || 0`. A number sorts at its
      value, and so does a one-element array holding it, since `Number`
      reads an array through its string form; a missing index, `null`, an
      object or an array of any other length sorts at 0. */
  function SortKey(j: Json): (r: int)
    ensures var v := Get(j, "slotIndex"); v.Some? && v.value.JNum? ==> r == v.value.n
    ensures var v := Get(j, "slotIndex");
      v.Some? && v.value.JArr? && |v.value.items| == 1 && v.value.items[0].JNum? ==> r == v.value.items[0].n
    ensures var v := Get(j, "slotIndex");
      v.None? || v == Some(JNull) || v.value.JObj? || (v.value.JArr? && |v.value.items| != 1) ==> r == 0
  {
    match Get(j, "slotIndex")
    case Some(v) => NumberOfValue(v)
    case None => 0
  }

  /** `Number(v) || 0` for a JSON value. */
  function NumberOfValue(v: Json): (r: int)
    ensures v.JArr? && |v.items| == 1 && v.items[0].JNum? ==> r == v.items[0].n
    decreases v, 0
  {
    match v
    case JNum(n) => n
    case JBool(b) => if b then 1 else 0
    case JStr(s) => NumberOfText(s)
    case JArr(items) => if |items| == 1 then LoneElementNumber(items[0]) else 0
    case _ => 0
  }

  /** `Number(String(e)) || 0` for the only element `e` of an array: `null`
      reads as `""` and a boolean as a word, both 0; a nested array is read
      through its own string form again. */
  function LoneElementNumber(e: Json): int
    decreases e, 1
  {
    match e
    case JNum(n) => n
    case JStr(s) => NumberOfText(s)
    case JArr(_) => NumberOfValue(e)
    case _ => 0
  }

  predicate AllDigits(s: string) {
    forall i :: 0 <= i < |s| ==> IsDigit(s[i])
  }

  /** `Number(s) || 0` for the texts that are optionally signed decimal
      integers; any other text counts as 0. */
  function NumberOfText(s: string): int {
    var t := Trim(s);
    if t == "" then 0
    else if AllDigits(t) then DigitsValue(t)
    else if |t| > 1 && t[0] == '-' && AllDigits(t[1..]) then -(DigitsValue(t[1..]) as int)
    else if |t| > 1 && t[0] == '+' && AllDigits(t[1..]) then DigitsValue(t[1..])
    else 0
  }

  /** `s` in ascending order of `key`. */
  predicate SortedBy(key: Json -> int, s: seq<Json>) {
    forall i, j :: 0 <= i < j < |s| ==> key(s[i]) <= key(s[j])
  }

  /** The saves of `s` with key `k`, in order. */
  function WithKey(key: Json -> int, s: seq<Json>, k: int): seq<Json> {
    if s == [] then []
    else (if key(s[0]) == k then [s[0]] else []) + WithKey(key, s[1..], k)
  }

  /** `x` placed before the first save whose key is not smaller. */
  function InsertBy(key: Json -> int, x: Json, s: seq<Json>): seq<Json> {
    if s == [] || key(x) <= key(s[0]) then [x] + s
    else [s[0]] + InsertBy(key, x, s[1..])
  }

  /** `saves.sort((a, b) => key(a) - key(b))`, as a stable insertion sort. */
  function SortBy(key: Json -> int, s: seq<Json>): seq<Json> {
    if s == [] then [] else InsertBy(key, s[0], SortBy(key, s[1..]))
  }

  /** The listing order: by slot key. */
  function SortBySlot(s: seq<Json>): seq<Json> {
    SortBy(SortKey, s)
  }

  /** Inserting adds exactly the one save. */
  lemma {:induction false} InsertMultiset(key: Json -> int, x: Json, s: seq<Json>)
    ensures multiset(InsertBy(key, x, s)) == multiset(s) + multiset{x}
  {
    if !(s == [] || key(x) <= key(s[0])) {
      InsertMultiset(key, x, s[1..]);
      assert s == [s[0]] + s[1..];
    }
  }

  /** A lower bound of `x` and of every save of `s` bounds the result. */
  lemma {:induction false} InsertBounded(key: Json -> int, x: Json, s: seq<Json>, b: int)
    requires b <= key(x) && forall i :: 0 <= i < |s| ==> b <= key(s[i])
    ensures forall i :: 0 <= i < |InsertBy(key, x, s)| ==> b <= key(InsertBy(key, x, s)[i])
  {
    var r := InsertBy(key, x, s);
    if s == [] || key(x) <= key(s[0]) {
      assert r[1..] == s;
    } else {
      InsertBounded(key, x, s[1..], b);
      assert r[1..] == InsertBy(key, x, s[1..]);
    }
  }

  /** Inserting into a sorted sequence keeps it sorted. */
  lemma {:induction false} InsertSorted(key: Json -> int, x: Json, s: seq<Json>)
    requires SortedBy(key, s)
    ensures SortedBy(key, InsertBy(key, x, s))
  {
    var r := InsertBy(key, x, s);
    if s == [] || key(x) <= key(s[0]) {
      assert r[1..] == s;
      forall i, j | 0 <= i < j < |r|
        ensures key(r[i]) <= key(r[j])
      {
        assert r[j] == s[j - 1];
        if i > 0 {
          assert r[i] == s[i - 1];
        }
      }
    } else {
      var t := InsertBy(key, x, s[1..]);
      InsertSorted(key, x, s[1..]);
      InsertBounded(key, x, s[1..], key(s[0]));
      assert r[1..] == t && r[0] == s[0];
      forall i, j | 0 <= i < j < |r|
        ensures key(r[i]) <= key(r[j])
      {
        assert r[j] == t[j - 1];
        if i > 0 {
          assert r[i] == t[i - 1];
        }
      }
    }
  }

  /** Inserting `x` puts it before every save of its key that was there
      already. */
  lemma {:induction false} InsertWithKey(key: Json -> int, x: Json, s: seq<Json>, k: int)
    ensures WithKey(key, InsertBy(key, x, s), k) == (if key(x) == k then [x] else []) + WithKey(key, s, k)
  {
    if s == [] || key(x) <= key(s[0]) {
      WithKeyCons(key, x, s, k);
    } else {
      InsertWithKey(key, x, s[1..], k);
      WithKeyCons(key, s[0], InsertBy(key, x, s[1..]), k);
      WithKeyCons(key, s[0], s[1..], k);
      assert [s[0]] + s[1..] == s;
    }
  }

  lemma WithKeyCons(key: Json -> int, y: Json, s: seq<Json>, k: int)
    ensures WithKey(key, [y] + s, k) == (if key(y) == k then [y] else []) + WithKey(key, s, k)
  {
    assert ([y] + s)[1..] == s;
  }

  /** The sort is sorted by the key, holds the same saves, and keeps saves
      of equal key in their original order. */
  lemma {:induction false} SortFacts(key: Json -> int, s: seq<Json>)
    ensures SortedBy(key, SortBy(key, s))
    ensures multiset(SortBy(key, s)) == multiset(s)
    ensures forall k :: WithKey(key, SortBy(key, s), k) == WithKey(key, s, k)
  {
    if s != [] {
      var t := SortBy(key, s[1..]);
      SortFacts(key, s[1..]);
      InsertSorted(key, s[0], t);
      InsertMultiset(key, s[0], t);
      forall k
        ensures WithKey(key, SortBy(key, s), k) == WithKey(key, s, k)
      {
        InsertWithKey(key, s[0], t, k);
      }
      assert s == [s[0]] + s[1..];
    }
  }

  /** What a listing reply holds: exactly what the directory shows, sorted by
      slot key, stable, with no `data` in a summary listing. */
  lemma ListingContents(dir: Dir, parse: string -> Option<Json>, isSummary: bool)
    ensures var l := SortBySlot(Listed(dir, parse, isSummary));
      && SortedBy(SortKey, l)
      && multiset(l) == multiset(Listed(dir, parse, isSummary))
      && (forall k :: WithKey(SortKey, l, k) == WithKey(SortKey, Listed(dir, parse, isSummary), k))
      && (forall j :: j in l <==> exists e :: e in dir && Shown(e, parse, isSummary) == Some(j))
      && (isSummary ==> forall j :: j in l ==> j.JObj? && "data" !in j.fields)
  {
    var listed := Listed(dir, parse, isSummary);
    var l := SortBySlot(listed);
    SortFacts(SortKey, listed);
    ListedMembers(dir, parse, isSummary);
    forall j
      ensures j in l <==> j in listed
    {
      assert j in l <==> j in multiset(l);
      assert j in listed <==> j in multiset(listed);
    }
  }

  /** The listing loop: every `.json` file of the directory that parses to
      an object, in directory order. */
  method ListSaves(dir: Dir, parse: string -> Option<Json>, isSummary: bool) returns (saves: seq<Json>)
    ensures saves == Listed(dir, parse, isSummary)
  {
    saves := [];
    var i := 0;
    while i < |dir|
      invariant 0 <= i <= |dir|
      invariant saves == Listed(dir[..i], parse, isSummary)
    {
      var entry := dir[i];
      assert dir[..i + 1][..i] == dir[..i];
      if entry.isFile && EndsWith(entry.name, ".json") {
        var parsed := parse(entry.content);
        if parsed.Some? {
          var j := parsed.value;
          if Truthy(j) && IsObject(j) {
            if isSummary {
              saves := saves + [WithoutData(j)];
            } else {
              saves := saves + [j];
            }
          }
        }
      }
      i := i + 1;
    }
    assert dir[..|dir|] == dir;
  }

  // ----- Writing a save --------------------------------------------------------

  /** The slot index of a path: the value of its first digit run. */
  function PathSlotIndex(rest: string): Option<int> {
    SyncSlots.ParseSlotIndex(rest)
  }

  /** The record a `PUT` stores: the payload with `userId` set to the
      resolved id, a falsy `id` replaced by the path, and a missing or null
      `slotIndex` taken from the path's digits when it has any. An array's
      new properties are not part of its JSON text. */
  function Prepared(payload: Json, resolved: string, rest: string): (r: Json)
    requires IsObject(payload)
    ensures IsObject(r)
    ensures payload.JArr? ==> r == payload
    ensures payload.JObj? ==> r.JObj? && Get(r, "userId") == Some(JStr(resolved))
    ensures payload.JObj? ==> Get(r, "id") == (if TruthyField(Get(payload, "id")) then Get(payload, "id") else Some(JStr(rest)))
    ensures payload.JObj? && (Get(payload, "slotIndex").None? || Get(payload, "slotIndex") == Some(JNull)) ==>
      Get(r, "slotIndex") == (if PathSlotIndex(rest).Some? then Some(JNum(PathSlotIndex(rest).value)) else Get(payload, "slotIndex"))
    ensures payload.JObj? && !(Get(payload, "slotIndex").None? || Get(payload, "slotIndex") == Some(JNull)) ==>
      Get(r, "slotIndex") == Get(payload, "slotIndex")
    ensures payload.JObj? ==> forall k :: k in payload.fields && k != "userId" && k != "id" && k != "slotIndex" ==>
      Get(r, k) == Get(payload, k)
    ensures payload.JObj? ==> forall k :: k in r.fields ==> k in payload.fields || k == "userId" || k == "id" || k == "slotIndex"
  {
    match payload
    case JArr(_) => payload
    case JObj(f) =>
      var f1 := f["userId" := JStr(resolved)];
      var f2 := f1["id" := if TruthyField(Get(payload, "id")) then Get(payload, "id").value else JStr(rest)];
      var absent := Get(payload, "slotIndex").None? || Get(payload, "slotIndex") == Some(JNull);
      JObj(if absent && PathSlotIndex(rest).Some? then f2["slotIndex" := JNum(PathSlotIndex(rest).value)] else f2)
  }

  // ----- Routing ---------------------------------------------------------------

  datatype DirResponse = DirResponse(reply: DevReply, dir: Dir)

  /** The reply below the user directory: the listing at the root (`GET`
      only), and `GET`, `PUT` and `DELETE` of one normalised file name. */
  function Serve(dir: Dir, verb: Verb, rest: string, isSummary: bool, payload: Json, resolved: string, c: Codecs)
    : DirResponse
  {
    if rest == "" then
      if verb != GetVerb then DirResponse(Reply(405, ErrorBody(MethodNotAllowedMessage)), dir)
      else DirResponse(Reply(200, JArr(SortBySlot(Listed(dir, c.parse, isSummary)))), dir)
    else
      var name := NormalizeFileName(rest);
      var found := FindEntry(dir, name);
      if verb == GetVerb then
        match found
        case None => DirResponse(Reply(404, ErrorBody(NotFoundMessage)), dir)
        case Some(i) =>
          if !dir[i].isFile then DirResponse(Reply(500, ErrorBody(ReadFailedMessage)), dir)
          else
            match c.parse(dir[i].content)
            case None => DirResponse(Reply(500, ErrorBody(ReadFailedMessage)), dir)
            case Some(j) => DirResponse(Reply(200, j), dir)
      else if verb == PutVerb then
        if !Truthy(payload) || !IsObject(payload) then DirResponse(Reply(400, ErrorBody(InvalidPayloadMessage)), dir)
        else if found.Some? && !dir[found.value].isFile then DirResponse(Crashed, dir)
        else DirResponse(Reply(200, OkBody), WriteFile(dir, name, c.stringify(Prepared(payload, resolved, rest))))
      else if verb == DeleteVerb then
        match found
        case None => DirResponse(Reply(200, OkBody), dir)
        case Some(i) =>
          if !dir[i].isFile then DirResponse(Reply(500, ErrorBody(DeleteFailedMessage)), dir)
          else DirResponse(Reply(200, OkBody), Unlink(dir, i))
      else DirResponse(Reply(405, ErrorBody(MethodNotAllowedMessage)), dir)
  }

  /** The collection root: only `GET` is allowed, and it lists the
      directory sorted by slot key; nothing changes. */
  lemma ServeRoot(dir: Dir, verb: Verb, isSummary: bool, payload: Json, resolved: string, c: Codecs)
    ensures var r := Serve(dir, verb, "", isSummary, payload, resolved, c);
      && r.dir == dir
      && (verb != GetVerb ==> r.reply == Reply(405, ErrorBody(MethodNotAllowedMessage)))
      && (verb == GetVerb ==> r.reply == Reply(200, JArr(SortBySlot(Listed(dir, c.parse, isSummary)))))
  {
  }

  /** `GET` of a file: 404 when it does not exist, the parsed text when it
      is a file that parses, 500 otherwise; nothing changes. */
  lemma ServeGet(dir: Dir, rest: string, isSummary: bool, payload: Json, resolved: string, c: Codecs)
    requires rest != ""
    ensures var r := Serve(dir, GetVerb, rest, isSummary, payload, resolved, c);
      var found := FindEntry(dir, NormalizeFileName(rest));
      && r.dir == dir
      && (found.None? ==> r.reply == Reply(404, ErrorBody(NotFoundMessage)))
      && (found.Some? && dir[found.value].isFile && c.parse(dir[found.value].content).Some? ==>
            r.reply == Reply(200, c.parse(dir[found.value].content).value))
      && (found.Some? && !(dir[found.value].isFile && c.parse(dir[found.value].content).Some?) ==>
            r.reply == Reply(500, ErrorBody(ReadFailedMessage)))
  {
  }

  /** `PUT` of a file with a payload that is not an object is refused and
      changes nothing. */
  lemma ServePutRefused(dir: Dir, rest: string, isSummary: bool, payload: Json, resolved: string, c: Codecs)
    requires rest != "" && !IsObject(payload)
    ensures Serve(dir, PutVerb, rest, isSummary, payload, resolved, c) == DirResponse(Reply(400, ErrorBody(InvalidPayloadMessage)), dir)
  {
  }

  /** `PUT` of an object: a name taken by a directory makes the write
      throw; otherwise the prepared record is written under the normalised
      name. */
  lemma ServePut(dir: Dir, rest: string, isSummary: bool, payload: Json, resolved: string, c: Codecs)
    requires rest != "" && IsObject(payload)
    ensures var r := Serve(dir, PutVerb, rest, isSummary, payload, resolved, c);
      var name := NormalizeFileName(rest);
      var found := FindEntry(dir, name);
      && (found.Some? && !dir[found.value].isFile ==> r == DirResponse(Crashed, dir))
      && (found.None? || dir[found.value].isFile ==>
            r == DirResponse(Reply(200, OkBody), WriteFile(dir, name, c.stringify(Prepared(payload, resolved, rest)))))
  {
  }

  /** `DELETE` of a file: a missing file is no error; a file is removed; a
      directory of that name is refused with 500. */
  lemma ServeDelete(dir: Dir, rest: string, isSummary: bool, payload: Json, resolved: string, c: Codecs)
    requires rest != ""
    ensures var r := Serve(dir, DeleteVerb, rest, isSummary, payload, resolved, c);
      var found := FindEntry(dir, NormalizeFileName(rest));
      && (found.None? ==> r == DirResponse(Reply(200, OkBody), dir))
      && (found.Some? && dir[found.value].isFile ==> r == DirResponse(Reply(200, OkBody), Unlink(dir, found.value)))
      && (found.Some? && !dir[found.value].isFile ==> r == DirResponse(Reply(500, ErrorBody(DeleteFailedMessage)), dir))
  {
  }

  /** Any other method on a file is refused with 405 and changes nothing. */
  lemma ServeOtherMethods(dir: Dir, verb: Verb, rest: string, isSummary: bool, payload: Json, resolved: string, c: Codecs)
    requires rest != "" && verb != GetVerb && verb != PutVerb && verb != DeleteVerb
    ensures Serve(dir, verb, rest, isSummary, payload, resolved, c) == DirResponse(Reply(405, ErrorBody(MethodNotAllowedMessage)), dir)
  {
  }

  /** How far a request gets before the file system is touched: passed on,
      refused, or admitted for a non-blank sanitised user id with its
      method, path below the base, summary flag and payload. */
  datatype Admission =
    | Passed
    | Refused(reply: DevReply)
    | Admitted(user: string, resolved: string, verb: Verb, rest: string, isSummary: bool, payload: Json)

  /** The first part of `localSyncMiddleware`: requests outside
      `/api/saves` pass on; a body that does not decode and a user id that
      sanitises to nothing are refused with 400, a truthy non-string
      `userId` in the body makes `trim` throw. */
  function Admit(req: DevRequest, c: Codecs): (a: Admission)
    ensures a.Passed? <==> !Routed(req)
    ensures a.Admitted? ==>
      && Routed(req) && a.verb == VerbOf(req)
      && a.rest == Remainder(req.url.value.pathname) && a.isSummary == IsSummary(req.url.value)
      && ReadPayload(a.verb, req, c) == Payload(a.payload)
      && ResolveUserId(UserIdParam(req.url.value), a.payload) == Some(a.resolved)
      && a.user == SanitizeUserId(a.resolved) && a.user != ""
    ensures Routed(req) ==>
      var payload := ReadPayload(VerbOf(req), req, c);
      && (payload.BadBody? ==> a == Refused(Reply(400, ErrorBody(payload.message))))
      && (payload.Payload? ==>
            var resolved := ResolveUserId(UserIdParam(req.url.value), payload.value);
            && (resolved.None? <==> a == Refused(Crashed))
            && (resolved.Some? && SanitizeUserId(resolved.value) == "" ==>
                  a == Refused(Reply(400, ErrorBody(UserIdRequiredMessage))))
            && (resolved.Some? && SanitizeUserId(resolved.value) != "" ==> a.Admitted?))
  {
    if !Routed(req) then Passed
    else
      var u := req.url.value;
      var verb := VerbOf(req);
      match ReadPayload(verb, req, c)
      case BadBody(m) => Refused(Reply(400, ErrorBody(m)))
      case Payload(payload) =>
        match ResolveUserId(UserIdParam(u), payload)
        case None => Refused(Crashed)
        case Some(resolved) =>
          var safe := SanitizeUserId(resolved);
          if safe == "" then Refused(Reply(400, ErrorBody(UserIdRequiredMessage)))
          else Admitted(safe, resolved, verb, Remainder(u.pathname), IsSummary(u), payload)
  }

  /** The second part: an admitted request is served inside its user's
      directory, which `mkdir` creates when needed. */
  function RespondTo(fs: Storage, a: Admission, c: Codecs): Response {
    match a
    case Passed => Response(Next, fs)
    case Refused(reply) => Response(reply, fs)
    case Admitted(user, resolved, verb, rest, isSummary, payload) =>
      var served := Serve(UserDir(fs, user), verb, rest, isSummary, payload, resolved, c);
      Response(served.reply, fs[user := served.dir])
  }

  /** `localSyncMiddleware`. */
  function Respond(fs: Storage, req: DevRequest, c: Codecs): Response {
    RespondTo(fs, Admit(req, c), c)
  }

  // ----- Properties ------------------------------------------------------------

  /** A body that does not decompress or does not parse is refused with 400
      before the file system is touched. */
  lemma UndecodableBodyRefused(fs: Storage, req: DevRequest, c: Codecs)
    requires Routed(req) && ReadPayload(VerbOf(req), req, c).BadBody?
    ensures Respond(fs, req, c) == Response(Reply(400, ErrorBody(ReadPayload(VerbOf(req), req, c).message)), fs)
  {
  }

  /** A user id that sanitises to nothing is refused with 400 before the
      file system is touched. */
  lemma BlankUserIdRefused(fs: Storage, req: DevRequest, c: Codecs, payload: Json, resolved: string)
    requires Routed(req) && ReadPayload(VerbOf(req), req, c) == Payload(payload)
    requires ResolveUserId(UserIdParam(req.url.value), payload) == Some(resolved)
    requires SanitizeUserId(resolved) == ""
    ensures Respond(fs, req, c) == Response(Reply(400, ErrorBody(UserIdRequiredMessage)), fs)
  {
    assert Admit(req, c) == Refused(Reply(400, ErrorBody(UserIdRequiredMessage)));
  }

  /** A read or delete without a usable `userId` parameter is refused the
      same way: it carries no body to take an id from. */
  lemma BlankUserIdWithoutBody(fs: Storage, req: DevRequest, c: Codecs)
    requires Routed(req) && !HasBody(VerbOf(req))
    requires Trim(UserIdParam(req.url.value)) == ""
    ensures Respond(fs, req, c) == Response(Reply(400, ErrorBody(UserIdRequiredMessage)), fs)
  {
    var param := UserIdParam(req.url.value);
    assert ReadPayload(VerbOf(req), req, c) == Payload(JNull);
    assert !TruthyField(Get(JNull, "userId"));
    assert ResolveUserId(param, JNull) == Some("");
    assert SanitizeUserId("") == "" by {
      assert Trim("") == "";
    }
    BlankUserIdRefused(fs, req, c, JNull, "");
  }

  /** A request changes at most the directory of the user it is admitted
      for; one that is not admitted changes nothing. */
  lemma OnlyOwnDirectoryChanges(fs: Storage, a: Admission, c: Codecs, other: string)
    requires a.Admitted? ==> other != a.user
    ensures other in RespondTo(fs, a, c).storage <==> other in fs
    ensures other in fs ==> RespondTo(fs, a, c).storage[other] == fs[other]
    ensures !a.Admitted? ==> RespondTo(fs, a, c).storage == fs
  {
  }

  /** Serving keeps the names of the directory distinct. */
  lemma ServeKeepsNamesDistinct(dir: Dir, verb: Verb, rest: string, isSummary: bool, payload: Json, resolved: string, c: Codecs)
    requires DistinctNames(dir)
    ensures DistinctNames(Serve(dir, verb, rest, isSummary, payload, resolved, c).dir)
  {
    var found := FindEntry(dir, NormalizeFileName(rest));
    if rest != "" && verb == PutVerb && IsObject(payload) {
      ChangesKeepNamesDistinct(dir, NormalizeFileName(rest), c.stringify(Prepared(payload, resolved, rest)), 0);
    } else if rest != "" && verb == DeleteVerb && found.Some? {
      ChangesKeepNamesDistinct(dir, NormalizeFileName(rest), "", found.value);
    }
  }

  /** Requests keep every directory free of duplicate names. */
  lemma RespondKeepsWellFormed(fs: Storage, a: Admission, c: Codecs)
    requires WellFormed(fs)
    ensures WellFormed(RespondTo(fs, a, c).storage)
  {
    if a.Admitted? {
      var dir := UserDir(fs, a.user);
      assert DistinctNames(dir);
      ServeKeepsNamesDistinct(dir, a.verb, a.rest, a.isSummary, a.payload, a.resolved, c);
    }
  }

  /** A request with a usable `userId` parameter whose body decodes is
      admitted for the trimmed parameter, whatever its body says. */
  lemma ParamDecidesUser(req: DevRequest, c: Codecs)
    requires Routed(req) && ReadPayload(VerbOf(req), req, c).Payload?
    requires SanitizeUserId(UserIdParam(req.url.value)) != ""
    ensures var u := req.url.value;
      Admit(req, c) == Admitted(SanitizeUserId(UserIdParam(u)), Trim(UserIdParam(u)), VerbOf(req),
                                Remainder(u.pathname), IsSummary(u), ReadPayload(VerbOf(req), req, c).value)
  {
    var t := Trim(UserIdParam(req.url.value));
    TrimFacts(UserIdParam(req.url.value));
    TrimUnchanged(t);
    assert SanitizeUserId(t) == SanitizeUserId(UserIdParam(req.url.value));
  }

  /** A `PUT` that succeeded wrote the prepared form of its object payload
      under the normalised name. */
  lemma PutSucceeded(fs: Storage, a: Admission, c: Codecs)
    requires a.Admitted? && a.verb == PutVerb && a.rest != ""
    requires RespondTo(fs, a, c).reply == Reply(200, OkBody)
    ensures IsObject(a.payload)
    ensures RespondTo(fs, a, c).storage ==
      fs[a.user := WriteFile(UserDir(fs, a.user), NormalizeFileName(a.rest), c.stringify(Prepared(a.payload, a.resolved, a.rest)))]
  {
    if !IsObject(a.payload) {
      ServePutRefused(UserDir(fs, a.user), a.rest, a.isSummary, a.payload, a.resolved, c);
    } else {
      ServePut(UserDir(fs, a.user), a.rest, a.isSummary, a.payload, a.resolved, c);
    }
  }

  /** What a successful `PUT` stores, a `GET` of the same file and user
      returns. */
  lemma PutThenGet(fs: Storage, put: Admission, get: Admission, c: Codecs)
    requires JsonRoundTrips(c)
    requires put.Admitted? && put.verb == PutVerb && put.rest != ""
    requires get.Admitted? && get.verb == GetVerb && get.user == put.user && get.rest == put.rest
    requires RespondTo(fs, put, c).reply == Reply(200, OkBody)
    ensures IsObject(put.payload)
    ensures var after := RespondTo(fs, put, c).storage;
      RespondTo(after, get, c) == Response(Reply(200, Prepared(put.payload, put.resolved, put.rest)), after)
  {
    PutSucceeded(fs, put, c);
    var name := NormalizeFileName(put.rest);
    var content := c.stringify(Prepared(put.payload, put.resolved, put.rest));
    var after := RespondTo(fs, put, c).storage;
    var dir := WriteFile(UserDir(fs, put.user), name, content);
    assert UserDir(after, put.user) == dir;
    ReadAfterWrite(UserDir(fs, put.user), name, content);
    ServeGet(dir, get.rest, get.isSummary, get.payload, get.resolved, c);
    assert after[put.user := dir] == after;
  }

  /** A successful `PUT` makes the stored record part of the full listing of
      its user. */
  lemma PutThenList(fs: Storage, put: Admission, c: Codecs)
    requires JsonRoundTrips(c)
    requires put.Admitted? && put.verb == PutVerb && put.rest != ""
    requires RespondTo(fs, put, c).reply == Reply(200, OkBody)
    ensures IsObject(put.payload)
    ensures Prepared(put.payload, put.resolved, put.rest) in
      SortBySlot(Listed(RespondTo(fs, put, c).storage[put.user], c.parse, false))
  {
    PutSucceeded(fs, put, c);
    var name := NormalizeFileName(put.rest);
    var stored := Prepared(put.payload, put.resolved, put.rest);
    var dir := WriteFile(UserDir(fs, put.user), name, c.stringify(stored));
    assert RespondTo(fs, put, c).storage[put.user] == dir;
    ReadAfterWrite(UserDir(fs, put.user), name, c.stringify(stored));
    var e := dir[FindEntry(dir, name).value];
    assert e in dir && Shown(e, c.parse, false) == Some(stored);
    ListingContents(dir, c.parse, false);
  }

  /** After a successful `DELETE`, a `GET` of the same file and user finds
      nothing. */
  lemma DeleteThenGet(fs: Storage, del: Admission, get: Admission, c: Codecs)
    requires WellFormed(fs)
    requires del.Admitted? && del.verb == DeleteVerb && del.rest != ""
    requires get.Admitted? && get.verb == GetVerb && get.user == del.user && get.rest == del.rest
    requires RespondTo(fs, del, c).reply == Reply(200, OkBody)
    ensures var after := RespondTo(fs, del, c).storage;
      RespondTo(after, get, c) == Response(Reply(404, ErrorBody(NotFoundMessage)), after)
  {
    var dir := UserDir(fs, del.user);
    var name := NormalizeFileName(del.rest);
    assert DistinctNames(dir);
    ServeDelete(dir, del.rest, del.isSummary, del.payload, del.resolved, c);
    var after := RespondTo(fs, del, c).storage;
    if FindEntry(dir, name).Some? {
      UnlinkRemoves(dir, name);
    }
    assert FindEntry(UserDir(after, del.user), name).None?;
    ServeGet(UserDir(after, del.user), get.rest, get.isSummary, get.payload, get.resolved, c);
  }

  /** Two requests for the same URL are admitted for the same user and
      file: a `DELETE` and a `GET` carry no body, so both take their id from
      the URL. */
  lemma SameUrlSameUser(del: DevRequest, get: DevRequest, c: Codecs)
    requires Routed(del) && del.url == get.url && !HasBody(VerbOf(del)) && !HasBody(VerbOf(get))
    requires Admit(del, c).Admitted?
    ensures Admit(get, c).Admitted?
    ensures Admit(get, c).user == Admit(del, c).user && Admit(get, c).rest == Admit(del, c).rest
  {
  }

  // ----- The handler -----------------------------------------------------------

  /** One request handled step by step: the payload record is updated field
      by field before it is written, and the listing is collected by a loop. */
  method Handle(fs: Storage, req: DevRequest, c: Codecs) returns (reply: DevReply, after: Storage)
    ensures Response(reply, after) == Respond(fs, req, c)
  {
    if req.url.None? || !StartsWith(req.url.value.pathname, ApiBase) {
      return Next, fs;
    }
    var u := req.url.value;
    var verb := VerbOf(req);
    var rest := Remainder(u.pathname);
    var param := UserIdParam(u);
    var isSummary := IsSummary(u);
    var payload := JNull;
    if HasBody(verb) {
      var text := BodyText(req, c);
      if text.None? {
        return Reply(400, ErrorBody(CompressedMessage)), fs;
      }
      if text.value != "" {
        var parsed := c.parse(text.value);
        if parsed.None? {
          return Reply(400, ErrorBody(JsonBodyMessage)), fs;
        }
        payload := parsed.value;
      }
    }
    var resolved := ResolveUserId(param, payload);
    if resolved.None? {
      return Crashed, fs;
    }
    var safe := SanitizeUserId(resolved.value);
    if safe == "" {
      return Reply(400, ErrorBody(UserIdRequiredMessage)), fs;
    }
    var dir := UserDir(fs, safe);
    var served := ServeDir(dir, verb, rest, isSummary, payload, resolved.value, c);
    reply, after := served.reply, fs[safe := served.dir];
  }

  /** The work inside the user directory. */
  method ServeDir(dir: Dir, verb: Verb, rest: string, isSummary: bool, payload: Json, resolved: string, c: Codecs)
    returns (r: DirResponse)
    ensures r == Serve(dir, verb, rest, isSummary, payload, resolved, c)
  {
    if rest == "" {
      if verb != GetVerb {
        return DirResponse(Reply(405, ErrorBody(MethodNotAllowedMessage)), dir);
      }
      var saves := ListSaves(dir, c.parse, isSummary);
      return DirResponse(Reply(200, JArr(SortBySlot(saves))), dir);
    }
    var name := NormalizeFileName(rest);
    var found := FindEntry(dir, name);
    if verb == GetVerb {
      if found.None? {
        return DirResponse(Reply(404, ErrorBody(NotFoundMessage)), dir);
      }
      var entry := dir[found.value];
      var parsed := if entry.isFile then c.parse(entry.content) else None;
      if parsed.None? {
        return DirResponse(Reply(500, ErrorBody(ReadFailedMessage)), dir);
      }
      return DirResponse(Reply(200, parsed.value), dir);
    }
    if verb == PutVerb {
      if !Truthy(payload) || !IsObject(payload) {
        return DirResponse(Reply(400, ErrorBody(InvalidPayloadMessage)), dir);
      }
      var record := payload;
      if payload.JObj? {
        var fields := payload.fields;
        fields := fields["userId" := JStr(resolved)];
        fields := fields["id" := if TruthyField(Get(payload, "id")) then payload.fields["id"] else JStr(rest)];
        if !("slotIndex" in payload.fields) || payload.fields["slotIndex"] == JNull {
          var index := PathSlotIndex(rest);
          if index.Some? {
            fields := fields["slotIndex" := JNum(index.value)];
          }
        }
        record := JObj(fields);
      }
      assert record == Prepared(payload, resolved, rest);
      if found.Some? && !dir[found.value].isFile {
        return DirResponse(Crashed, dir);
      }
      return DirResponse(Reply(200, OkBody), WriteFile(dir, name, c.stringify(record)));
    }
    if verb == DeleteVerb {
      if found.None? {
        return DirResponse(Reply(200, OkBody), dir);
      }
      if !dir[found.value].isFile {
        return DirResponse(Reply(500, ErrorBody(DeleteFailedMessage)), dir);
      }
      return DirResponse(Reply(200, OkBody), Unlink(dir, found.value));
    }
    return DirResponse(Reply(405, ErrorBody(MethodNotAllowedMessage)), dir);
  }
}
