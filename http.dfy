/** The wire as the providers see it: requests they send and the replies
    `fetch` resolves to. A reply is either a response (status, the
    `content-type` header, the body text) or a network failure, on which
    `fetch` rejects. */
module Http {

  /** A request body: none, text, or the bytes a gzip compressor produced
      from a text (the compressor itself is not modelled). */
  datatype Body = NoBody | Text(s: string) | Gzipped(bytes: seq<int>)

  datatype Request = Request(verb: string, url: string, headers: map<string, string>, body: Body)

  datatype Reply =
    | Response(status: int, contentType: string, text: string)
    | NetworkError(message: string)

  /** `response.ok`. */
  predicate Ok(status: int) {
    200 <= status <= 299
  }

  /** A remote server: the reply to the last of the requests sent so far in
      one operation. Letting the reply depend on the earlier requests models
      a server whose state they changed (a collection that `MKCOL` created). */
  type Server = seq<Request> -> Reply

  /** The replies the server gave to `sent[from..]`, each computed from the
      requests up to and including it. */
  function Replies(server: Server, sent: seq<Request>, from: nat): (r: seq<Reply>)
    requires from <= |sent|
    ensures |r| == |sent| - from
    ensures forall k :: 0 <= k < |r| ==> r[k] == server(sent[..from + k + 1])
  {
    seq(|sent| - from, k requires 0 <= k < |sent| - from => server(sent[..from + k + 1]))
  }

  /** One more request adds its reply at the end and leaves the earlier
      replies as they were. */
  lemma RepliesSnoc(server: Server, sent: seq<Request>, req: Request, from: nat)
    requires from <= |sent|
    ensures Replies(server, sent + [req], from) == Replies(server, sent, from) + [server(sent + [req])]
    ensures (sent + [req])[..from] == sent[..from]
  {
    var a := Replies(server, sent + [req], from);
    var b := Replies(server, sent, from) + [server(sent + [req])];
    forall k | 0 <= k < |a|
      ensures a[k] == b[k]
    {
      if k < |sent| - from {
        assert (sent + [req])[..from + k + 1] == sent[..from + k + 1];
      } else {
        assert (sent + [req])[..from + k + 1] == sent + [req];
      }
    }
  }
}
