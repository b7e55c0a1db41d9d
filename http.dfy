/**
 * The parts of the Fetch API that the client pages and the edge functions
 * use: files and form entries, the outcome of a `fetch`, header maps with
 * case-insensitive names, `FormData` and `Response`.
 */
module Http {
  import opened Wrappers
  import opened Json

  /** A file picked by the user: its name and its declared media type (`File.type`). */
  datatype File = File(name: string, mediaType: string)

  datatype FormValue = Text(text: string) | Blob(file: File)

  /** One `name=value` entry of a multipart form. */
  datatype FormEntry = FormEntry(name: string, value: FormValue)

  /**
   * What an awaited `fetch` gives the client: a response with `ok` set,
   * whose `resp.json()` yields `data` (`Null` when the body is not JSON,
   * as `.catch(() => null)` makes it); a response with `ok` unset; or a
   * thrown error with its `message`.
   */
  datatype FetchOutcome = Ok(data: Json) | NotOk | Throws(message: string)

  /** JavaScript's `a || b` on two strings: the empty string is falsy. */
  function Or(a: string, b: string): string
  {
    if a != "" then a else b
  }

  function LowerChar(c: char): char
  {
    if 'A' <= c <= 'Z' then (c as int - 'A' as int + 'a' as int) as char else c
  }

  /** Header names are compared in ASCII lower case. */
  function Lower(s: string): (r: string)
    ensures |r| == |s| && forall i :: 0 <= i < |s| ==> r[i] == LowerChar(s[i])
  {
    seq(|s|, i requires 0 <= i < |s| => LowerChar(s[i]))
  }

  /** A `Headers` object: values keyed by lower-cased name. */
  class Headers {
    var entries: map<string, string>

    constructor (init: map<string, string>)
      ensures entries == init
    {
      entries := init;
    }

    /** `headers.set(name, value)`: replaces any value under the same name. */
    method Set(name: string, value: string)
      modifies this
      ensures entries == old(entries)[Lower(name) := value]
    {
      entries := entries[Lower(name) := value];
    }
  }

  /** A `FormData` object: its entries in insertion order. */
  class FormData {
    var entries: seq<FormEntry>

    constructor ()
      ensures entries == []
    {
      entries := [];
    }

    /** `fd.append(name, value)`: adds an entry at the end, even when the name is already there. */
    method Append(e: FormEntry)
      modifies this
      ensures entries == old(entries) + [e]
    {
      entries := entries + [e];
    }
  }

  /** The statuses whose responses may not carry a body. */
  predicate NullBodyStatus(status: int) {
    status == 101 || status == 103 || status == 204 || status == 205 || status == 304
  }

  const TextPlainUtf8 := "text/plain;charset=UTF-8"

  /**
   * The headers `new Response(body, { status, headers })` starts with: an explicit
   * Content-Type when one is given, otherwise the default that a string body gets.
   */
  function InitialHeaders(body: Option<string>, contentType: Option<string>): (h: map<string, string>)
    ensures contentType.Some? ==> h == map["content-type" := contentType.value]
    ensures contentType.None? && body.Some? ==> h == map["content-type" := TextPlainUtf8]
    ensures contentType.None? && body.None? ==> h == map[]
  {
    if contentType.Some? then map["content-type" := contentType.value]
    else if body.Some? then map["content-type" := TextPlainUtf8]
    else map[]
  }

  /**
   * What a handler answers, before the CORS headers are added: the status, the
   * body text (`None` for a null body) and the explicit Content-Type, if any.
   */
  datatype Reply = Reply(status: int, body: Option<string>, contentType: Option<string>)

  /** `JSON.stringify({ error: message })`, the body of every error reply. */
  function ErrorBody(message: string): string
  {
    Stringify(Obj([("error", Str(message))]))
  }

  /** The text of an error body up to the message's opening quote. */
  const ErrorPrefix := "{\"error\":"

  lemma ErrorKeyQuoted()
    ensures Quote("error") == "\"error\""
  {
    assert forall i :: 0 <= i < |"error"| ==> PlainChar("error"[i]);
    EscapePlain("error");
  }

  lemma ErrorMemberText(message: string)
    ensures MemberText(("error", Str(message))) == "\"error\":" + Quote(message)
  {
    ErrorKeyQuoted();
  }

  lemma ErrorPrefixRegroup(x: string)
    ensures "{" + ("\"error\":" + x) + "}" == ErrorPrefix + x + "}"
  {
  }

  /** An error body is the object text with the one member `error`. */
  lemma ErrorBodyText(message: string)
    ensures ErrorBody(message) == ErrorPrefix + Quote(message) + "}"
  {
    StringifyObject1(("error", Str(message)));
    ErrorMemberText(message);
    ErrorPrefixRegroup(Quote(message));
  }

  /** The message reads back from the error body, with only the closing brace after it. */
  lemma ErrorBodyReadsBack(message: string)
    ensures Unquote(ErrorBody(message)[|ErrorPrefix| + 1..]) == Some((message, "}"))
  {
    ErrorBodyText(message);
    var tail := Escape(message) + "\"" + "}";
    assert ErrorPrefix + Quote(message) + "}" == (ErrorPrefix + "\"") + tail;
    UnquoteRoundTrip(message, "}");
  }

  /** A `Response` object. Its status and body are fixed; its headers can be changed in place. */
  class Response {
    const status: int
    const body: Option<string>
    const headers: Headers

    /** `new Response(body, init)`, which throws when the status is out of range or forbids a body. */
    constructor (body: Option<string>, status: int, contentType: Option<string>)
      requires 200 <= status <= 599
      requires body.Some? ==> !NullBodyStatus(status)
      ensures this.status == status && this.body == body
      ensures fresh(headers) && headers.entries == InitialHeaders(body, contentType)
    {
      this.status := status;
      this.body := body;
      headers := new Headers(InitialHeaders(body, contentType));
    }
  }

  const AllowOriginName := "Access-Control-Allow-Origin"
  const AllowHeadersName := "Access-Control-Allow-Headers"
  const AllowMethodsName := "Access-Control-Allow-Methods"
  const AllowedMethods := "POST,OPTIONS"

  const CorsNames: set<string> := {"access-control-allow-origin", "access-control-allow-headers", "access-control-allow-methods"}

  /** Lower-casing works piece by piece. */
  lemma LowerAppend(a: string, b: string)
    ensures Lower(a + b) == Lower(a) + Lower(b)
  {
  }

  lemma LowerWords()
    ensures Lower("Access-") == "access-" && Lower("Control-") == "control-" && Lower("Allow-") == "allow-"
  {
  }

  lemma LowerSuffixes()
    ensures Lower("Origin") == "origin" && Lower("Headers") == "headers" && Lower("Methods") == "methods"
  {
  }

  /** The prefix the three CORS header names share, lower-cased. */
  lemma LowerCorsPrefix()
    ensures Lower("Access-Control-Allow-") == "access-control-allow-"
  {
    var access, control, allow := "Access-", "Control-", "Allow-";
    LowerWords();
    LowerAppend(access, control);
    LowerAppend(access + control, allow);
    assert "Access-Control-Allow-" == access + control + allow;
    assert "access-" + "control-" + "allow-" == "access-control-allow-";
  }

  /** `Access-Control-Allow-Origin` as a `Headers` object stores it. */
  lemma OriginNameLowered()
    ensures Lower(AllowOriginName) == "access-control-allow-origin"
  {
    var prefix, origin := "Access-Control-Allow-", "Origin";
    LowerCorsPrefix();
    LowerSuffixes();
    LowerAppend(prefix, origin);
    assert AllowOriginName == prefix + origin;
    assert "access-control-allow-" + "origin" == "access-control-allow-origin";
  }

  /** `Access-Control-Allow-Headers` as a `Headers` object stores it. */
  lemma HeadersNameLowered()
    ensures Lower(AllowHeadersName) == "access-control-allow-headers"
  {
    var prefix, headers := "Access-Control-Allow-", "Headers";
    LowerCorsPrefix();
    LowerSuffixes();
    LowerAppend(prefix, headers);
    assert AllowHeadersName == prefix + headers;
    assert "access-control-allow-" + "headers" == "access-control-allow-headers";
  }

  /** `Access-Control-Allow-Methods` as a `Headers` object stores it. */
  lemma MethodsNameLowered()
    ensures Lower(AllowMethodsName) == "access-control-allow-methods"
  {
    var prefix, methods := "Access-Control-Allow-", "Methods";
    LowerCorsPrefix();
    LowerSuffixes();
    LowerAppend(prefix, methods);
    assert AllowMethodsName == prefix + methods;
    assert "access-control-allow-" + "methods" == "access-control-allow-methods";
  }

  /**
   * The headers after the `cors` helper of an edge function has set its three
   * headers: any origin, the given allowed request headers, POST and OPTIONS;
   * every other header is kept.
   */
  function WithCors(h: map<string, string>, allowHeaders: string): (r: map<string, string>)
    ensures r.Keys == h.Keys + CorsNames
    ensures r["access-control-allow-origin"] == "*"
    ensures r["access-control-allow-headers"] == allowHeaders
    ensures r["access-control-allow-methods"] == AllowedMethods
    ensures forall k :: k in h && k !in CorsNames ==> r[k] == h[k]
  {
    h["access-control-allow-origin" := "*"]["access-control-allow-headers" := allowHeaders]["access-control-allow-methods" := AllowedMethods]
  }

  /** An edge function's `cors(res)`: sets the three CORS headers on the response in place. */
  method Cors(res: Response, allowHeaders: string)
    modifies res.headers
    ensures res.headers.entries == WithCors(old(res.headers.entries), allowHeaders)
  {
    OriginNameLowered();
    HeadersNameLowered();
    MethodsNameLowered();
    res.headers.Set(AllowOriginName, "*");
    res.headers.Set(AllowHeadersName, allowHeaders);
    res.headers.Set(AllowMethodsName, AllowedMethods);
  }

  /** Builds the response for a reply whose status admits its body. */
  method Respond(r: Reply) returns (res: Response)
    requires 200 <= r.status <= 599
    requires r.body.Some? ==> !NullBodyStatus(r.status)
    ensures fresh(res) && fresh(res.headers)
    ensures res.status == r.status && res.body == r.body
    ensures res.headers.entries == InitialHeaders(r.body, r.contentType)
  {
    res := new Response(r.body, r.status, r.contentType);
  }
}
