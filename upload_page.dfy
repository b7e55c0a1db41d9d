/**
 * The upload page's handler (src/pages/Upload.tsx, `handleUpload`): it sends
 * the first chosen file with the user's id and name to the ingestion
 * webhook, and marks the session as uploaded only when the response is ok.
 */
module UploadPage {
  import opened Wrappers
  import opened Json
  import opened Http
  import opened AuthContext

  const NoFileMessage := "Selecione ao menos um arquivo."
  const UploadDone := "Upload concluído!"
  const UploadFailed := "Falha no upload"
  const SendFailed := "Falha ao enviar arquivos."

  /** The form both the upload page and the chat page post to the ingestion webhook for one file. */
  function ClientForm(u: Session, f: File): (r: seq<FormEntry>)
    ensures |r| == 3
    ensures r[0].name == "id_cliente" && r[0].value.Text? && ParseInt(r[0].value.text) == Some((u.id, ""))
    ensures r[1] == FormEntry("nome_cliente", Text(u.name))
    ensures r[2] == FormEntry("file", Blob(f))
  {
    IntRoundTrip(u.id, "");
    assert IntToText(u.id) + "" == IntToText(u.id);
    [FormEntry("id_cliente", Text(IntToText(u.id))), FormEntry("nome_cliente", Text(u.name)), FormEntry("file", Blob(f))]
  }

  /**
   * The message the catch block shows: a non-ok response throws
   * `Error("Falha no upload")`, and a thrown error shows its message or,
   * without one, the generic text.
   */
  function FailureMessage(outcome: FetchOutcome): (m: string)
    requires !outcome.Ok?
    ensures m != ""
    ensures outcome.NotOk? ==> m == UploadFailed
    ensures outcome.Throws? && outcome.message != "" ==> m == outcome.message
    ensures outcome.Throws? && outcome.message == "" ==> m == SendFailed
  {
    match outcome
    case NotOk => Or(UploadFailed, SendFailed)
    case Throws(message) => Or(message, SendFailed)
  }

  /** The page's state, and the session store it reads the user from and reports the upload to. */
  class Upload {
    const auth: AuthStore
    var files: Option<seq<File>>
    var loading: bool
    var error: Option<string>
    var success: Option<string>

    constructor (auth: AuthStore)
      ensures this.auth == auth
      ensures files == None && !loading && error == None && success == None
    {
      this.auth := auth;
      files := None;
      loading := false;
      error := None;
      success := None;
    }

    /** The file input's `onChange`. */
    method ChooseFiles(chosen: Option<seq<File>>)
      modifies this
      ensures files == chosen
      ensures loading == old(loading) && error == old(error) && success == old(success)
    {
      files := chosen;
    }

    /** The start of a real attempt: both messages are cleared and the page is busy. */
    method BeginAttempt()
      modifies this
      ensures error == None && success == None && loading
      ensures files == old(files)
    {
      error := None;
      success := None;
      loading := true;
    }

    /**
     * `handleUpload`, where `outcome` is what the `fetch` to the webhook
     * gives; `request` is the form it posts, `None` when it posts nothing.
     */
    method HandleUpload(outcome: FetchOutcome) returns (request: Option<seq<FormEntry>>)
      modifies this, auth
      ensures files == old(files) && auth.loading == old(auth.loading)
      ensures old(files).None? || |old(files).value| == 0 || old(auth.user).None? ==>
        && request == None
        && error == Some(NoFileMessage)
        && success == old(success) && loading == old(loading)
        && auth.user == old(auth.user) && auth.storage == old(auth.storage)
      ensures old(files).Some? && |old(files).value| > 0 && old(auth.user).Some? ==>
        && request == Some(ClientForm(old(auth.user).value, old(files).value[0]))
        && !loading
        && (outcome.Ok? ==>
              && success == Some(UploadDone) && error == None
              && auth.user == Some(old(auth.user).value.(hasUploaded := Some(true)))
              && auth.storage == Persisted(old(auth.storage), auth.user))
        && (!outcome.Ok? ==>
              && success == None && error == Some(FailureMessage(outcome))
              && auth.user == old(auth.user) && auth.storage == old(auth.storage))
    {
      if files.None? || |files.value| == 0 || auth.user.None? {
        error := Some(NoFileMessage);
        return None;
      }
      var user := auth.user.value;
      BeginAttempt();
      request := Some(ClientForm(user, files.value[0]));
      if outcome.Ok? {
        success := Some(UploadDone);
        auth.SetHasUploaded(true);
      } else {
        error := Some(FailureMessage(outcome));
      }
      loading := false;
    }
  }
}
