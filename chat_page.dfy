/**
 * The chat page (src/pages/Chat.tsx): which chosen files become attachments,
 * how one turn uploads them and asks the answering webhook, which text the
 * reply shows, and how the turn changes the page's state.
 */
module ChatPage {
  import opened Wrappers
  import opened Json
  import opened Http
  import opened AuthContext
  import UploadPage

  datatype Role = User | Ai

  /** `ChatMessage`; the id is the `crypto.randomUUID()` drawn for it. */
  datatype ChatMessage = ChatMessage(id: string, role: Role, content: string)

  /** An entry of `attachmentsSummary`: `{ tipo, file }`. */
  datatype Attachment = Attachment(tipo: string, file: File)

  /** An entry of `anexos`: `{ tipo, url }`. */
  datatype Anexo = Anexo(tipo: string, url: string)

  const Apology := "Desculpe, não consegui obter uma resposta agora."
  const CommunicationError := "Erro ao se comunicar com a IA."

  // ---------------------------------------------------------------------
  // `input.trim()`

  /** The characters `String.prototype.trim` removes: white space and line terminators. */
  predicate IsSpace(c: char) {
    c == '\t' || c == '\n' || c == '\U{B}' || c == '\U{C}' || c == '\r' || c == ' '
    || c == '\U{A0}' || c == '\U{1680}' || ('\U{2000}' <= c <= '\U{200A}')
    || c == '\U{2028}' || c == '\U{2029}' || c == '\U{202F}' || c == '\U{205F}'
    || c == '\U{3000}' || c == '\U{FEFF}'
  }

  function TrimStart(s: string): (r: string)
    ensures |r| <= |s| && r == s[|s| - |r|..]
    ensures forall i :: 0 <= i < |s| - |r| ==> IsSpace(s[i])
    ensures r == [] || !IsSpace(r[0])
  {
    if s != [] && IsSpace(s[0]) then TrimStart(s[1..]) else s
  }

  function TrimEnd(s: string): (r: string)
    ensures r <= s
    ensures r == [] || !IsSpace(r[|r| - 1])
  {
    if s != [] && IsSpace(s[|s| - 1]) then TrimEnd(s[..|s| - 1]) else s
  }

  /** `s.trim()`: neither end of the result is white space. */
  function Trim(s: string): (r: string)
    ensures |r| <= |s|
    ensures r == [] || (!IsSpace(r[0]) && !IsSpace(r[|r| - 1]))
  {
    var t := TrimStart(s);
    var r := TrimEnd(t);
    assert r != [] ==> r[0] == t[0];
    r
  }

  lemma {:induction false} TrimStartBlank(s: string)
    ensures TrimStart(s) == [] <==> forall i :: 0 <= i < |s| ==> IsSpace(s[i])
  {
    if s != [] && IsSpace(s[0]) {
      TrimStartBlank(s[1..]);
      assert forall i :: 1 <= i < |s| ==> s[i] == s[1..][i - 1];
    }
  }

  lemma {:induction false} TrimEndEmpty(s: string)
    ensures TrimEnd(s) == [] <==> forall i :: 0 <= i < |s| ==> IsSpace(s[i])
  {
    if s != [] && IsSpace(s[|s| - 1]) {
      TrimEndEmpty(s[..|s| - 1]);
      assert forall i :: 0 <= i < |s| - 1 ==> s[i] == s[..|s| - 1][i];
    }
  }

  /** `input.trim()` is empty exactly when every character of `input` is white space. */
  lemma TrimEmpty(s: string)
    ensures Trim(s) == [] <==> forall i :: 0 <= i < |s| ==> IsSpace(s[i])
  {
    TrimStartBlank(s);
    var t := TrimStart(s);
    TrimEndEmpty(t);
  }

  // ---------------------------------------------------------------------
  // `attachmentsSummary`

  predicate IsImage(f: File) { "image/" <= f.mediaType }
  predicate IsAudio(f: File) { "audio/" <= f.mediaType }

  /** What the `forEach` callback pushes for one file. */
  function SummaryOf(f: File): (r: seq<Attachment>)
    ensures |r| <= 1
    ensures IsImage(f) ==> r == [Attachment("imagem", f)]
    ensures IsAudio(f) ==> r == [Attachment("audio", f)]
    ensures !IsImage(f) && !IsAudio(f) ==> r == []
  {
    assert IsImage(f) ==> f.mediaType[0] == 'i';
    assert IsAudio(f) ==> f.mediaType[0] == 'a';
    (if IsImage(f) then [Attachment("imagem", f)] else [])
    + (if IsAudio(f) then [Attachment("audio", f)] else [])
  }

  /** The `forEach` over the files, in order. */
  function Summarise(fs: seq<File>): (r: seq<Attachment>)
    ensures |r| <= |fs|
    ensures forall i :: 0 <= i < |r| ==> r[i].file in fs
    ensures forall i :: 0 <= i < |r| ==>
      (r[i].tipo == "imagem" && IsImage(r[i].file)) || (r[i].tipo == "audio" && IsAudio(r[i].file))
  {
    if fs == [] then [] else SummaryOf(fs[0]) + Summarise(fs[1..])
  }

  /** `attachmentsSummary`, empty when there are no files. */
  function AttachmentsSummary(files: Option<seq<File>>): (r: seq<Attachment>)
    ensures files.None? || |files.value| == 0 ==> r == []
    ensures files.Some? ==> r == Summarise(files.value)
  {
    if files.None? || |files.value| == 0 then [] else Summarise(files.value)
  }

  /** The summary of two runs of files is the two summaries in the same order. */
  lemma {:induction false} SummariseAppend(a: seq<File>, b: seq<File>)
    ensures Summarise(a + b) == Summarise(a) + Summarise(b)
  {
    if a != [] {
      assert (a + b)[0] == a[0] && (a + b)[1..] == a[1..] + b;
      SummariseAppend(a[1..], b);
      assert Summarise(a + b) == SummaryOf(a[0]) + (Summarise(a[1..]) + Summarise(b));
    } else {
      assert a + b == b;
    }
  }

  /** A file is listed exactly when its type is an image or audio type. */
  lemma {:induction false} SummariseEmpty(fs: seq<File>)
    ensures Summarise(fs) == [] <==> forall i :: 0 <= i < |fs| ==> !IsImage(fs[i]) && !IsAudio(fs[i])
  {
    if fs != [] {
      SummariseEmpty(fs[1..]);
      assert forall i :: 1 <= i < |fs| ==> fs[i] == fs[1..][i - 1];
    }
  }

  /** When all files are images or audio, each is listed once, in order. */
  lemma {:induction false} SummariseMedia(fs: seq<File>)
    requires forall i :: 0 <= i < |fs| ==> IsImage(fs[i]) || IsAudio(fs[i])
    ensures |Summarise(fs)| == |fs|
    ensures forall i :: 0 <= i < |fs| ==> Summarise(fs)[i].file == fs[i]
  {
    if fs != [] {
      SummariseMedia(fs[1..]);
    }
  }

  // ---------------------------------------------------------------------
  // The attachment uploads

  /** The `url` an ok upload's body gives, `""` when it has none. */
  function UrlOf(data: Json): (r: string)
    ensures r != "" ==> data.Obj? && Lookup(data.members, "url") == Some(Str(r))
  {
    TextField(data, "url")
  }

  /** How many upload outcomes come before the first thrown one. */
  function FirstThrow(outs: seq<FetchOutcome>): (k: nat)
    ensures k <= |outs|
    ensures forall i :: 0 <= i < k ==> !outs[i].Throws?
    ensures k < |outs| ==> outs[k].Throws?
  {
    if outs == [] || outs[0].Throws? then 0 else 1 + FirstThrow(outs[1..])
  }

  /** How many uploads are sent: all of them, or those up to and including the one that throws. */
  function Attempted(outs: seq<FetchOutcome>): (n: nat)
    ensures n <= |outs|
    ensures forall i :: 0 <= i < |outs| && i + 1 < n ==> !outs[i].Throws?
    ensures n < |outs| ==> 0 < n && outs[n - 1].Throws?
    ensures (forall i :: 0 <= i < |outs| ==> !outs[i].Throws?) ==> n == |outs|
  {
    var k := FirstThrow(outs);
    if k < |outs| then k + 1 else k
  }

  /** The anexo one upload contributes when nothing throws: one for an ok response with a url. */
  function AnexoOf(att: Attachment, out: FetchOutcome): seq<Anexo>
  {
    if out.Ok? && UrlOf(out.data) != "" then [Anexo(att.tipo, UrlOf(out.data))] else []
  }

  /** The loop over the attachments: a thrown upload ends it, and what it has collected stays. */
  function CollectAnexos(atts: seq<Attachment>, outs: seq<FetchOutcome>): (r: seq<Anexo>)
    requires |outs| == |atts|
    ensures |r| <= |atts|
  {
    if atts == [] || outs[0].Throws? then []
    else AnexoOf(atts[0], outs[0]) + CollectAnexos(atts[1..], outs[1..])
  }

  /** Every collected anexo has a non-empty url. */
  lemma {:induction false} CollectedUrls(atts: seq<Attachment>, outs: seq<FetchOutcome>)
    requires |outs| == |atts|
    ensures forall k :: 0 <= k < |CollectAnexos(atts, outs)| ==> CollectAnexos(atts, outs)[k].url != ""
  {
    if atts != [] && !outs[0].Throws? {
      CollectedUrls(atts[1..], outs[1..]);
    }
  }

  /** The anexos of every ok upload with a url, ignoring throws: the reference the loop is measured against. */
  function OkAnexos(atts: seq<Attachment>, outs: seq<FetchOutcome>): seq<Anexo>
    requires |outs| == |atts|
  {
    if atts == [] then [] else AnexoOf(atts[0], outs[0]) + OkAnexos(atts[1..], outs[1..])
  }

  /** The loop collects exactly the anexos of the uploads before the first thrown one. */
  lemma {:induction false} CollectStopsAtThrow(atts: seq<Attachment>, outs: seq<FetchOutcome>)
    requires |outs| == |atts|
    ensures CollectAnexos(atts, outs) == OkAnexos(atts[..FirstThrow(outs)], outs[..FirstThrow(outs)])
  {
    if atts != [] && !outs[0].Throws? {
      CollectStopsAtThrow(atts[1..], outs[1..]);
      var k := FirstThrow(outs);
      assert atts[..k][1..] == atts[1..][..k - 1];
      assert outs[..k][1..] == outs[1..][..k - 1];
    }
  }

  /** With no thrown upload, every ok upload with a url is collected. */
  lemma NoThrowCollectsAll(atts: seq<Attachment>, outs: seq<FetchOutcome>)
    requires |outs| == |atts|
    requires forall i :: 0 <= i < |outs| ==> !outs[i].Throws?
    ensures CollectAnexos(atts, outs) == OkAnexos(atts, outs)
  {
    CollectStopsAtThrow(atts, outs);
    assert atts[..|atts|] == atts && outs[..|outs|] == outs;
  }

  /** One step of the loop: what is left to collect from the `i`-th attachment on, moved onto what is kept. */
  lemma CollectStep(kept: seq<Anexo>, atts: seq<Attachment>, outs: seq<FetchOutcome>, i: nat)
    requires |outs| == |atts| && i < |atts| && !outs[i].Throws?
    ensures kept + CollectAnexos(atts[i..], outs[i..]) ==
      (kept + AnexoOf(atts[i], outs[i])) + CollectAnexos(atts[i + 1..], outs[i + 1..])
  {
    assert atts[i..][1..] == atts[i + 1..] && outs[i..][1..] == outs[i + 1..];
  }

  /** The loop meets the first thrown upload: what it kept is all there is, and it has posted one form more. */
  lemma ThrowEnds(kept: seq<Anexo>, atts: seq<Attachment>, outs: seq<FetchOutcome>, i: nat)
    requires |outs| == |atts| && i < |atts| && outs[i].Throws? && i <= FirstThrow(outs)
    requires kept + CollectAnexos(atts[i..], outs[i..]) == CollectAnexos(atts, outs)
    ensures kept == CollectAnexos(atts, outs)
    ensures Attempted(outs) == i + 1
  {
    assert outs[i..][0] == outs[i];
    assert kept + [] == kept;
  }

  /** The loop runs to the end: what it kept is all there is, and it has posted every form. */
  lemma NoneThrows(kept: seq<Anexo>, atts: seq<Attachment>, outs: seq<FetchOutcome>)
    requires |outs| == |atts| && |atts| <= FirstThrow(outs)
    requires kept + CollectAnexos(atts[|atts|..], outs[|outs|..]) == CollectAnexos(atts, outs)
    ensures kept == CollectAnexos(atts, outs)
    ensures Attempted(outs) == |atts| && atts[..|atts|] == atts
  {
    assert atts[|atts|..] == [] && outs[|outs|..] == [];
    assert kept + [] == kept;
  }

  /** The forms posted for the attachments, one per attachment, in order. */
  function Forms(u: Session, atts: seq<Attachment>): (r: seq<seq<FormEntry>>)
    ensures |r| == |atts|
    ensures forall i :: 0 <= i < |atts| ==> r[i] == UploadPage.ClientForm(u, atts[i].file)
  {
    if atts == [] then [] else Forms(u, atts[..|atts| - 1]) + [UploadPage.ClientForm(u, atts[|atts| - 1].file)]
  }

  /** Posting one more attachment adds its form at the end. */
  lemma FormsStep(u: Session, atts: seq<Attachment>, i: nat)
    requires i < |atts|
    ensures Forms(u, atts[..i + 1]) == Forms(u, atts[..i]) + [UploadPage.ClientForm(u, atts[i].file)]
  {
    assert atts[..i + 1][..i] == atts[..i];
  }

  /** The body of the loop past a throw: the anexo an ok response with a non-empty url gives. */
  method Collected(att: Attachment, out: FetchOutcome) returns (found: seq<Anexo>)
    requires !out.Throws?
    ensures found == AnexoOf(att, out)
    ensures found != [] <==> out.Ok? && UrlOf(out.data) != ""
  {
    found := [];
    if out.Ok? {
      var url := UrlOf(out.data);
      if url != "" {
        found := [Anexo(att.tipo, url)];
      }
    }
  }

  /**
   * The loop of `sendMessage` on its own: for each attachment it posts a form
   * and keeps the url an ok response gives; a throw ends the loop.
   */
  method UploadAttachments(u: Session, atts: seq<Attachment>, outs: seq<FetchOutcome>)
      returns (anexos: seq<Anexo>, sent: seq<seq<FormEntry>>)
    requires |outs| == |atts|
    ensures anexos == CollectAnexos(atts, outs)
    ensures sent == Forms(u, atts[..Attempted(outs)])
  {
    anexos, sent := [], [];
    var i := 0;
    while i < |atts|
      invariant 0 <= i <= |atts|
      invariant i <= FirstThrow(outs)
      invariant anexos + CollectAnexos(atts[i..], outs[i..]) == CollectAnexos(atts, outs)
      invariant sent == Forms(u, atts[..i])
    {
      FormsStep(u, atts, i);
      sent := sent + [UploadPage.ClientForm(u, atts[i].file)];
      var out := outs[i];
      if out.Throws? {
        ThrowEnds(anexos, atts, outs, i);
        return;
      }
      CollectStep(anexos, atts, outs, i);
      var found := Collected(atts[i], out);
      anexos := anexos + found;
      i := i + 1;
    }
    NoneThrows(anexos, atts, outs);
  }

  // ---------------------------------------------------------------------
  // The question and its answer

  function AnexoJson(a: Anexo): Json
  {
    Obj([("tipo", Str(a.tipo)), ("url", Str(a.url))])
  }

  /** The payload posted to the answering webhook. */
  function Question(content: string, u: Session, anexos: seq<Anexo>): Json
  {
    Obj([("pergunta_usuario", Str(content)), ("nome_usuario", Str(u.name)), ("id_usuario", Num(u.id)),
         ("anexos", Arr(seq(|anexos|, i requires 0 <= i < |anexos| => AnexoJson(anexos[i]))))])
  }

  /** The payload's properties: the untrimmed input, the user's name and id, and one `{ tipo, url }` per anexo. */
  lemma QuestionFields(content: string, u: Session, anexos: seq<Anexo>)
    ensures Question(content, u, anexos).Obj?
    ensures Lookup(Question(content, u, anexos).members, "pergunta_usuario") == Some(Str(content))
    ensures Lookup(Question(content, u, anexos).members, "nome_usuario") == Some(Str(u.name))
    ensures Lookup(Question(content, u, anexos).members, "id_usuario") == Some(Num(u.id))
    ensures Lookup(Question(content, u, anexos).members, "anexos") ==
      Some(Arr(seq(|anexos|, i requires 0 <= i < |anexos| => AnexoJson(anexos[i]))))
  {
    var items := Arr(seq(|anexos|, i requires 0 <= i < |anexos| => AnexoJson(anexos[i])));
    var m0, m1, m2, m3 := ("pergunta_usuario", Str(content)), ("nome_usuario", Str(u.name)), ("id_usuario", Num(u.id)), ("anexos", items);
    var ms := [m0, m1, m2, m3];
    assert Question(content, u, anexos).members == ms;
    assert ms[..3] == [m0, m1, m2] && [m0, m1, m2][..2] == [m0, m1] && [m0, m1][..1] == [m0];
    LookupLast([m0, m1, m2], "anexos", items);
    LookupEarlier([m0, m1, m2], m3, "id_usuario");
    LookupLast([m0, m1], "id_usuario", Num(u.id));
    LookupEarlier([m0, m1, m2], m3, "nome_usuario");
    LookupEarlier([m0, m1], m2, "nome_usuario");
    LookupLast([m0], "nome_usuario", Str(u.name));
    LookupEarlier([m0, m1, m2], m3, "pergunta_usuario");
    LookupEarlier([m0, m1], m2, "pergunta_usuario");
    LookupEarlier([m0], m1, "pergunta_usuario");
    LookupLast([], "pergunta_usuario", Str(content));
  }

  /**
   * The text of the reply message: on an ok response `resposta`, else
   * `message`, else the whole body as JSON, else the apology; the apology on
   * a non-ok response; the communication error when the request throws.
   */
  function AiText(ask: FetchOutcome): (t: string)
    ensures t != ""
    ensures ask.NotOk? ==> t == Apology
    ensures ask.Throws? ==> t == CommunicationError
    ensures ask.Ok? && TextField(ask.data, "resposta") != "" ==> t == TextField(ask.data, "resposta")
    ensures ask.Ok? && TextField(ask.data, "resposta") == "" && TextField(ask.data, "message") != "" ==>
      t == TextField(ask.data, "message")
    ensures ask.Ok? && TextField(ask.data, "resposta") == "" && TextField(ask.data, "message") == "" ==>
      t == Stringify(ask.data)
  {
    match ask
    case Ok(data) => Or(Or(Or(TextField(data, "resposta"), TextField(data, "message")), Stringify(data)), Apology)
    case NotOk => Apology
    case Throws(_) => CommunicationError
  }

  /** A body that is not JSON reads as `null`, so the reply shows the text `null`, not the apology. */
  lemma AiTextUnreadableBody()
    ensures AiText(Ok(Null)) == "null"
  {
  }

  // ---------------------------------------------------------------------
  // The page

  /** The page's state, and the session store it reads the user from. */
  class Chat {
    const auth: AuthStore
    var messages: seq<ChatMessage>
    var input: string
    var files: Option<seq<File>>
    var loading: bool

    constructor (auth: AuthStore)
      ensures this.auth == auth
      ensures messages == [] && input == "" && files == None && !loading
    {
      this.auth := auth;
      messages := [];
      input := "";
      files := None;
      loading := false;
    }

    /** The text field's `onChange`. */
    method Type(text: string)
      modifies this
      ensures input == text
      ensures messages == old(messages) && files == old(files) && loading == old(loading)
    {
      input := text;
    }

    /** The attach input's `onChange`. */
    method Attach(chosen: Option<seq<File>>)
      modifies this
      ensures files == chosen
      ensures messages == old(messages) && input == old(input) && loading == old(loading)
    {
      files := chosen;
    }

    /**
     * `sendMessage`. `uploads` are the outcomes of the attachment uploads in
     * order, `ask` that of the question, and the two ids the UUIDs drawn for
     * the two messages. It returns the forms and the question it posts.
     */
    method SendMessage(uploads: seq<FetchOutcome>, ask: FetchOutcome, userId: string, aiId: string)
        returns (sent: seq<seq<FormEntry>>, question: Option<Json>)
      requires |uploads| == |AttachmentsSummary(files)|
      modifies this
      ensures Trim(old(input)) == "" || auth.user.None? ==>
        && messages == old(messages) && input == old(input) && files == old(files) && loading == old(loading)
        && sent == [] && question == None
      ensures Trim(old(input)) != "" && auth.user.Some? ==>
        Exchanged(old(messages), old(input), old(files), auth.user.value, uploads, ask, userId, aiId, sent, question)
    {
      if Trim(input) == "" || auth.user.None? {
        return [], None;
      }
      sent, question := Exchange(auth.user.value, uploads, ask, userId, aiId);
    }

    /** The state and the requests after a send by `u` that passed the guard. */
    ghost predicate Exchanged(before: seq<ChatMessage>, content: string, chosen: Option<seq<File>>, u: Session,
                              uploads: seq<FetchOutcome>, ask: FetchOutcome, userId: string, aiId: string,
                              sent: seq<seq<FormEntry>>, question: Option<Json>)
      requires |uploads| == |AttachmentsSummary(chosen)|
      reads this
    {
      var atts := AttachmentsSummary(chosen);
      && messages == before + [ChatMessage(userId, User, content), ChatMessage(aiId, Ai, AiText(ask))]
      && input == "" && files == None && !loading
      && question == Some(Question(content, u, CollectAnexos(atts, uploads)))
      && sent == Forms(u, atts[..Attempted(uploads)])
    }

    /** The part of `sendMessage` after the guard, for the user `u`. */
    method Exchange(u: Session, uploads: seq<FetchOutcome>, ask: FetchOutcome, userId: string, aiId: string)
        returns (sent: seq<seq<FormEntry>>, question: Option<Json>)
      requires |uploads| == |AttachmentsSummary(files)|
      modifies this
      ensures Exchanged(old(messages), old(input), old(files), u, uploads, ask, userId, aiId, sent, question)
    {
      ghost var before := messages;
      var content := input;
      var atts := AttachmentsSummary(files);
      var mine := ChatMessage(userId, User, content);
      messages := messages + [mine];
      input := "";
      loading := true;
      var anexos;
      anexos, sent := UploadAttachments(u, atts, uploads);
      question := Some(Question(content, u, anexos));
      var reply := ChatMessage(aiId, Ai, AiText(ask));
      messages := messages + [reply];
      loading := false;
      files := None;
      assert messages == before + [mine, reply];
    }
  }
}
