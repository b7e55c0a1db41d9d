/**
 * The `upload-proxy` edge function (supabase/functions/upload-proxy/index.ts):
 * it copies a multipart form into a new one, posts it to the ingestion
 * webhook and hands the webhook's answer back with CORS headers.
 */
module UploadProxy {
  import opened Wrappers
  import opened Json
  import opened Http

  /** The `Access-Control-Allow-Headers` value this function sends. */
  const AllowHeaders := "*, Authorization, Content-Type"

  const Multipart := "multipart/form-data"
  const WrongContentType := "Content-Type deve ser multipart/form-data"
  const ProxyError := "Erro no proxy"
  const MethodNotAllowed := "Method Not Allowed"
  const TextPlain := "text/plain"
  /** The message of the `TypeError` the runtime's `Response` constructor throws for a body with a null-body status. */
  const NullBodyMessage := "Response with null body status cannot have body"

  /** What `await req.formData()` gives: the entries in order, or the message of the error it throws. */
  datatype FormBody = Entries(entries: seq<FormEntry>) | Unreadable(message: string)

  /** The request: its method, its `content-type` header if any, and its body read as a form. */
  datatype ProxyRequest = ProxyRequest(verb: string, contentType: Option<string>, form: FormBody)

  /** The statuses a `fetch` response can have. */
  type FetchStatus = s: int | 200 <= s <= 599 witness 200

  /** What the webhook does with the posted form: answers, or the `fetch` throws. */
  datatype Upstream = Answer(status: FetchStatus, contentType: Option<string>, text: string) | Unreachable(message: string)

  /** `s.includes(sub)`. */
  function Contains(s: string, sub: string): (r: bool)
    ensures sub <= s ==> r
    ensures r ==> |sub| <= |s|
    decreases |s|
  {
    if sub <= s then true else if s == [] then false else Contains(s[1..], sub)
  }

  /** `sub` occurs in `s` starting at index `i`. */
  predicate OccursAt(s: string, sub: string, i: int) {
    0 <= i && i + |sub| <= |s| && s[i..i + |sub|] == sub
  }

  /** `includes` finds `sub` exactly when it occurs at some index of `s`. */
  lemma {:induction false} ContainsSlice(s: string, sub: string)
    ensures Contains(s, sub) <==> exists i :: OccursAt(s, sub, i)
  {
    if sub <= s {
      assert OccursAt(s, sub, 0);
    } else if s != [] {
      ContainsSlice(s[1..], sub);
      if exists i :: OccursAt(s, sub, i) {
        var i :| OccursAt(s, sub, i);
        assert !OccursAt(s, sub, 0);
        OccursInTail(s, sub, i);
      }
      if exists i :: OccursAt(s[1..], sub, i) {
        var i :| OccursAt(s[1..], sub, i);
        OccursInWhole(s, sub, i);
      }
    } else {
      assert sub != [];
      assert forall i :: !OccursAt(s, sub, i);
    }
  }

  lemma OccursInTail(s: string, sub: string, i: int)
    requires OccursAt(s, sub, i) && i > 0
    ensures OccursAt(s[1..], sub, i - 1)
  {
    assert s[1..][i - 1..i - 1 + |sub|] == s[i..i + |sub|];
  }

  lemma OccursInWhole(s: string, sub: string, i: int)
    requires s != [] && OccursAt(s[1..], sub, i)
    ensures OccursAt(s, sub, i + 1)
  {
    assert s[1..][i..i + |sub|] == s[i + 1..i + 1 + |sub|];
  }

  /** Any header value holding the multipart media type, as one with a boundary parameter does, passes the check. */
  lemma {:induction false} ContainsInside(pre: string, sub: string, post: string)
    ensures Contains(pre + sub + post, sub)
  {
    if pre == [] {
      assert pre + sub + post == sub + post;
    } else {
      assert (pre + sub + post)[1..] == pre[1..] + sub + post;
      ContainsInside(pre[1..], sub, post);
    }
  }

  /** Whether the request is well formed enough for its form to be forwarded. */
  predicate Forwards(req: ProxyRequest) {
    req.verb == "POST" && Contains(req.contentType.GetOr(""), Multipart) && req.form.Entries?
  }

  /**
   * A POST whose form was readable and whose Content-Type is the one a browser
   * sends with `FormData`, the media type with its boundary, is forwarded.
   */
  lemma BrowserFormForwarded(boundary: string, entries: seq<FormEntry>)
    ensures Forwards(ProxyRequest("POST", Some(Multipart + "; boundary=" + boundary), Entries(entries)))
  {
    ContainsInside([], Multipart, "; boundary=" + boundary);
    assert [] + Multipart + ("; boundary=" + boundary) == Multipart + "; boundary=" + boundary;
  }

  /** The reply of the handler, before `cors` adds its headers. */
  function ProxyReply(req: ProxyRequest, up: Upstream): (r: Reply)
    ensures r.status == 204 <==> req.verb == "OPTIONS"
    ensures r.body.None? <==> r.status == 204
    ensures req.verb != "OPTIONS" && req.verb != "POST" ==> r == Reply(405, Some(MethodNotAllowed), None)
    ensures req.verb == "POST" && !Contains(req.contentType.GetOr(""), Multipart) ==>
      r == Reply(400, Some(ErrorBody(WrongContentType)), None)
    ensures Forwards(req) && up.Answer? && !NullBodyStatus(up.status) ==>
      r == Reply(up.status, Some(up.text), Some(Or(up.contentType.GetOr(""), TextPlain)))
    ensures Forwards(req) && up.Answer? && NullBodyStatus(up.status) ==>
      r == Reply(500, Some(ErrorBody(NullBodyMessage)), None)
    ensures req.verb == "POST" && Contains(req.contentType.GetOr(""), Multipart) && req.form.Unreadable? ==>
      r == Reply(500, Some(ErrorBody(Or(req.form.message, ProxyError))), None)
    ensures Forwards(req) && up.Unreachable? ==> r == Reply(500, Some(ErrorBody(Or(up.message, ProxyError))), None)
    ensures 200 <= r.status <= 599 && (r.body.Some? ==> !NullBodyStatus(r.status))
  {
    if req.verb == "OPTIONS" then Reply(204, None, None)
    else if req.verb != "POST" then Reply(405, Some(MethodNotAllowed), None)
    else if !Contains(req.contentType.GetOr(""), Multipart) then Reply(400, Some(ErrorBody(WrongContentType)), None)
    else match req.form
      case Unreadable(message) => Reply(500, Some(ErrorBody(Or(message, ProxyError))), None)
      case Entries(_) =>
        match up
        case Unreachable(message) => Reply(500, Some(ErrorBody(Or(message, ProxyError))), None)
        case Answer(status, contentType, text) =>
          if NullBodyStatus(status) then Reply(500, Some(ErrorBody(NullBodyMessage)), None)
          else Reply(status, Some(text), Some(Or(contentType.GetOr(""), TextPlain)))
  }

  /** The `for ... of form.entries()` loop: a new form with the same entries in the same order. */
  method CopyForm(entries: seq<FormEntry>) returns (fd: FormData)
    ensures fresh(fd) && fd.entries == entries
  {
    fd := new FormData();
    var i := 0;
    while i < |entries|
      invariant 0 <= i <= |entries|
      invariant fd.entries == entries[..i]
    {
      fd.Append(entries[i]);
      i := i + 1;
    }
  }

  /**
   * The handler. `up` is what the webhook answers to the forwarded form; the
   * method also returns the form it posts, when it posts one.
   */
  method Serve(req: ProxyRequest, up: Upstream) returns (res: Response, forwarded: Option<seq<FormEntry>>)
    ensures fresh(res) && fresh(res.headers)
    ensures res.status == ProxyReply(req, up).status && res.body == ProxyReply(req, up).body
    ensures res.headers.entries == WithCors(InitialHeaders(res.body, ProxyReply(req, up).contentType), AllowHeaders)
    ensures forwarded.Some? <==> Forwards(req)
    ensures forwarded.Some? ==> forwarded.value == req.form.entries
  {
    forwarded := None;
    var reply: Reply;
    if req.verb == "OPTIONS" {
      reply := Reply(204, None, None);
    } else if req.verb != "POST" {
      reply := Reply(405, Some(MethodNotAllowed), None);
    } else if !Contains(req.contentType.GetOr(""), Multipart) {
      reply := Reply(400, Some(ErrorBody(WrongContentType)), None);
    } else if req.form.Unreadable? {
      reply := Reply(500, Some(ErrorBody(Or(req.form.message, ProxyError))), None);
    } else {
      var fd := CopyForm(req.form.entries);
      forwarded := Some(fd.entries);
      match up {
        case Unreachable(message) =>
          reply := Reply(500, Some(ErrorBody(Or(message, ProxyError))), None);
        case Answer(status, contentType, text) =>
          if NullBodyStatus(status) {
            reply := Reply(500, Some(ErrorBody(NullBodyMessage)), None);
          } else {
            reply := Reply(status, Some(text), Some(Or(contentType.GetOr(""), TextPlain)));
          }
      }
    }
    res := Respond(reply);
    Cors(res, AllowHeaders);
  }
}
