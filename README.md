# ferraz-ai-chat core, modelled in Dafny

The repository is a React client with three Deno edge functions, two of which are modelled. Users log in, upload one file to an ingestion webhook, and then chat with an answering webhook. This project models the parts that decide what happens:

- **The session store** (`AuthContext`). It holds at most one session and mirrors it to the browser's storage under `app.session.v1` as the session's `JSON.stringify` text. Its operations are `login`, `logout`, `setHasUploaded`, `persist`, and the effect that restores the session on mount.
- **The route gate** (`ProtectedRoute`). It redirects to `/login`, redirects to `/upload`, or renders the route.
- **The upload page's handler** (`UploadPage`, `handleUpload`). It covers the guard, the form sent, and the success and failure states.
- **The chat page** (`ChatPage`):
  - the attachment summary;
  - the attachment upload loop;
  - the question payload;
  - the fallback chain for the answer text;
  - the change `sendMessage` makes to the message list and the page state.
- **The `login` edge function** (`LoginFunction`). It covers the method checks, the credential check, the user-table query with `maybeSingle`, each reply, and the CORS headers.
- **The `upload-proxy` edge function** (`UploadProxy`). It covers the method and Content-Type checks, the form-copy loop, the pass-through of the webhook's answer, and the CORS headers.

Three supporting modules model the parts of the platform this code relies on:

- `Wrappers` holds `Option`.
- `Json` models `JSON.stringify` output, including the ECMAScript string escapes and decimal integers. It also models the inverse parsing for the session's text form.
- `Http` models:
  - files and form entries;
  - the outcome of a `fetch`;
  - `Headers` with lower-cased names;
  - `FormData`;
  - `Response`, including the constructor's status and null-body rules and its default Content-Type.

The model follows the code in three places where the code does not do what its comments and the project's description suggest:

- The client's `login` never calls the edge function. It accepts any non-empty name and password and invents the id (`AuthStore.Login`).
- The upload proxy writes no `hasUploaded` flag. It is a pure pass-through (`UploadProxy.Serve`).
- The upload page and the chat page post directly to the webhook URLs, not to the proxy (`UploadPage.Upload.HandleUpload`, `ChatPage.UploadAttachments`).

Outside inputs are parameters:

- Each network call is a `FetchOutcome`: `Ok(data)` with the body as read by `resp.json().catch(() => null)`, `NotOk`, or `Throws(message)`.
- `Math.random()` is a real number in [0, 1).
- Each `crypto.randomUUID()` is a string argument.
- `localStorage` is a map owned by the session store.
- The edge functions' request bodies, the user table and the webhook's answer are datatypes.

## Model

| member | source | states |
|---|---|---|
| AuthContext.AuthStore.Login | src/context/AuthContext.tsx:41-56 | with an empty name or password: `{ ok: false, error: "Informe usuário e senha" }`, with user and storage unchanged; otherwise `{ ok: true }`, the user becomes a session with that name, an id drawn below 1000000 and `hasUploaded` false, and storage holds exactly that session's serialisation |
| AuthContext.AuthStore.Logout | src/context/AuthContext.tsx:58-61 | from any state: no user, and the storage key removed with every other entry kept |
| AuthContext.AuthStore.SetHasUploaded | src/context/AuthContext.tsx:63-68 | with no user, nothing changes; otherwise only the flag changes (id and name kept) and storage holds the updated session |
| AuthContext.AuthStore.Persist | src/context/AuthContext.tsx:36-39 | storage becomes `Persisted(storage, u)`: the serialised session under the key, or the key removed |
| AuthContext.AuthStore.Restore | src/context/AuthContext.tsx:25-34 | the user becomes the stored session when the entry is present, non-empty and parses, and otherwise stays as it was; loading is false on every path; storage is untouched |
| AuthContext.AuthStore.constructor | src/context/AuthContext.tsx:22-23 | the provider mounts with no user and loading set |
| AuthContext.Persisted | src/context/AuthContext.tsx:36-39 | the key holds the session's serialisation (or is absent for no session), and every other key and value is unchanged |
| AuthContext.Serialize | src/context/AuthContext.tsx:37 | the stored text is an object text, between braces; its full layout is given by SerializeShape |
| AuthContext.ParseSession | src/context/AuthContext.tsx:29 | a text is read as a session only when it starts with the id member and that id has no leading zero (`JSON.parse` refuses `01` and `-01`) |
| AuthContext.Restored | src/context/AuthContext.tsx:25-31 | with no entry, an empty one or one that does not parse, the user stays as it was; with an entry that parses, the user becomes exactly the parsed session; a changed user is always the session the stored text parses to |
| AuthContext.LeadingZeroUnparsable | src/context/AuthContext.tsx:27-31 | a stored id written with a leading zero does not parse, so the restore keeps the user it had |
| AuthContext.RandomId | src/context/AuthContext.tsx:46 | `Math.floor(Math.random() * 1000000)` lies in [0, 1000000) |
| AuthContext.SerializeShape | src/context/AuthContext.tsx:37 | the stored text is `{"id_cliente":<id>,"nome_cliente":"<escaped name>"` followed by `,"hasUploaded":<bool>}` or just `}` when the flag is undefined |
| AuthContext.ParseFlagSuffix | src/context/AuthContext.tsx:29 | the parser reads back each of the three tails a session's text can end with |
| AuthContext.SessionRoundTrip | src/context/AuthContext.tsx:29-37 | parsing the serialisation of any session gives back that session |
| AuthContext.RestoreAfterPersist | src/context/AuthContext.tsx:25-38 | persisting a session and then remounting restores exactly that session, whatever the user was |
| AuthContext.RestoreAfterClear | src/context/AuthContext.tsx:25-38 | after the entry is removed, a remount keeps the user it starts with (none on a fresh mount) |
| AuthContext.RestoreUnparsable | src/context/AuthContext.tsx:27-31 | a stored text that does not parse leaves the user as it was |
| ProtectedRoute.Gate | src/components/auth/ProtectedRoute.tsx:5-10 | redirects to `/login` iff there is no user; redirects to `/upload` iff there is a user, the route asks for an upload and `hasUploaded` is not true; renders iff the user is admitted |
| ProtectedRoute.FirstRender | src/components/auth/ProtectedRoute.tsx:6-7 | on the first render after the provider mounts, before its restoring effect has run, the gate redirects to `/login` whatever the storage holds, because it does not look at `loading` |
| ProtectedRoute.GateAfterReload | src/components/auth/ProtectedRoute.tsx:6-9 | after a reload, once the mount effect has run, the gate decides for the restored session exactly as it did before |
| ProtectedRoute.Lifecycle | src/components/auth/ProtectedRoute.tsx:7-9 | after a successful login the upload-requiring route redirects to `/upload` and the upload route renders; after `setHasUploaded(true)` the first renders; after logout, `/login` and no stored entry |
| UploadPage.ClientForm | src/pages/Upload.tsx:26-30 | exactly three entries, in order: `id_cliente` with a text that reads back as the user's id, `nome_cliente` with the user's name, and `file` with the file |
| UploadPage.FailureMessage | src/pages/Upload.tsx:37-43 | a failure always shows a non-empty message: "Falha no upload" for a non-ok response, the error's own message when it has one, and "Falha ao enviar arquivos." for an error without one |
| UploadPage.Upload.constructor | src/pages/Upload.tsx:11-14 | the page starts with no files, not loading, and no error or success message |
| UploadPage.Upload.ChooseFiles | src/pages/Upload.tsx:64 | the chosen files replace the old ones, and nothing else changes |
| UploadPage.Upload.BeginAttempt | src/pages/Upload.tsx:21-23 | error and success cleared and loading set before the request |
| UploadPage.Upload.HandleUpload | src/pages/Upload.tsx:16-47 | with no files or no user: the error "Selecione ao menos um arquivo.", no request, nothing else changed; otherwise exactly the first file is sent with the user's id and name; success "Upload concluído!" and the flag set only on an ok response; on failure an error message, no success, flag and storage unchanged; loading false at the end |
| ChatPage.TrimStart | src/pages/Chat.tsx:48 | a suffix of the text: every character dropped is white space, and the result is empty or starts with a non-white-space character |
| ChatPage.TrimEnd | src/pages/Chat.tsx:48 | a prefix of the text that does not end in white space |
| ChatPage.Trim | src/pages/Chat.tsx:48 | `trim()` is never longer than the text, and neither end of its result is white space |
| ChatPage.TrimStartBlank | src/pages/Chat.tsx:48 | trimming the front empties a text iff all its characters are white space |
| ChatPage.TrimEndEmpty | src/pages/Chat.tsx:48 | trimming the end empties a text iff all its characters are white space |
| ChatPage.TrimEmpty | src/pages/Chat.tsx:48 | `input.trim()` is empty iff every character of `input` is white space |
| ChatPage.SummaryOf | src/pages/Chat.tsx:40-43 | an `image/` file gives one "imagem" entry, an `audio/` file one "audio" entry, any other file nothing, and never more than one |
| ChatPage.Summarise | src/pages/Chat.tsx:39-44 | never longer than the files; every entry's file is one of them, tagged "imagem" for an image type and "audio" for an audio type |
| ChatPage.AttachmentsSummary | src/pages/Chat.tsx:37-45 | empty for null or empty files; otherwise the filter-map over the files |
| ChatPage.SummariseAppend | src/pages/Chat.tsx:40-43 | the summary of two runs of files is the two summaries in order, so input order is kept |
| ChatPage.SummariseEmpty | src/pages/Chat.tsx:41-42 | the summary is empty iff no file has an image or audio type |
| ChatPage.SummariseMedia | src/pages/Chat.tsx:40-43 | when every file is an image or audio file, each is listed once at its own position |
| ChatPage.UrlOf | src/pages/Chat.tsx:66 | a non-empty url is the string the body's `url` property holds |
| ChatPage.Attempted | src/pages/Chat.tsx:57-62 | the uploads sent: never more than the attachments; none before the last one sent threw; when fewer than all are sent, the last one sent threw; when none throws, all are sent |
| ChatPage.FirstThrow | src/pages/Chat.tsx:56-70 | the index of the first upload that throws, or the number of uploads when none does |
| ChatPage.CollectAnexos | src/pages/Chat.tsx:55-70 | the loop's anexos: never more than the attachments |
| ChatPage.CollectedUrls | src/pages/Chat.tsx:66-67 | every collected anexo has a non-empty url |
| ChatPage.CollectStopsAtThrow | src/pages/Chat.tsx:55-70 | the loop collects, in order, the anexo of each upload before the first thrown one that was ok and gave a url, and keeps those when an upload throws |
| ChatPage.NoThrowCollectsAll | src/pages/Chat.tsx:57-69 | when no upload throws, every ok upload with a url contributes its anexo |
| ChatPage.Forms | src/pages/Chat.tsx:58-61 | one form per attachment, in order, each carrying the user's id and name and that attachment's file |
| ChatPage.Collected | src/pages/Chat.tsx:63-68 | for an upload that did not throw: it adds one anexo iff its response was ok and gave a non-empty url |
| ChatPage.UploadAttachments | src/pages/Chat.tsx:55-70 | the loop itself computes the anexos above and posts, for each upload attempted, a form with the user's id and name and that attachment's file |
| ChatPage.QuestionFields | src/pages/Chat.tsx:74-79 | the payload's `pergunta_usuario` is the untrimmed input, `nome_usuario` and `id_usuario` the user's name and id, and `anexos` one `{ tipo, url }` per collected anexo, in order |
| ChatPage.AiText | src/pages/Chat.tsx:86-96 | never empty; an ok response shows `resposta`, else `message`, else the body as JSON; a non-ok response shows "Desculpe, não consegui obter uma resposta agora."; a thrown request shows "Erro ao se comunicar com a IA." |
| ChatPage.AiTextUnreadableBody | src/pages/Chat.tsx:88-89 | an ok response whose body is not JSON shows the text `null`, because `JSON.stringify(null)` is "null" |
| ChatPage.Chat.SendMessage | src/pages/Chat.tsx:47-102 | with a blank input or no user nothing changes; otherwise exactly two messages are appended to the unchanged list (the user's with the untrimmed input, then the answer) and the input is cleared; the question carries the input, the user's name and id and the collected anexos; loading ends false and files null |
| ChatPage.Chat.Exchange | src/pages/Chat.tsx:49-100 | after the guard: the user's message and then the answer appended to the unchanged list, the input cleared, the question sent with the collected anexos, loading false and files null |
| ChatPage.Chat.Type | src/pages/Chat.tsx:143 | the input becomes the typed text, and nothing else changes |
| ChatPage.Chat.Attach | src/pages/Chat.tsx:135 | the chosen files replace the old ones, and nothing else changes |
| ChatPage.Chat.constructor | src/pages/Chat.tsx:27-30 | the page starts with no messages, empty input, no files and not loading |
| LoginFunction.Matches | supabase/functions/login/index.ts:30-31 | a row is kept iff it has both the given name and the given password |
| LoginFunction.Query | supabase/functions/login/index.ts:27-32 | one row when exactly one matches and the table is reachable; none when nothing matches; an error otherwise |
| LoginFunction.LoginReply | supabase/functions/login/index.ts:16-46 | 204 iff OPTIONS (and only it has no body); 405 iff any other non-POST method; 400 iff a POST's credential is absent or empty; 401 iff nothing matches; 200 iff one row matches, with that row's `id_cliente`, `nome_cliente` and `has_uploaded` as JSON and type `application/json`; 500 otherwise. The bodies: "Method Not Allowed" for 405, `{"error":"Credenciais inválidas"}` for 400, `{"error":"Não autorizado"}` for 401, the store's message for a failed query, and the thrown error's message or "Erro interno" for an unreadable body |
| LoginFunction.RejectedBeforeQuery | supabase/functions/login/index.ts:17-25 | a request refused before the query gets the same reply whatever the table holds |
| LoginFunction.UniqueMatch | supabase/functions/login/index.ts:30-32 | when names and passwords identify rows, a row's own credentials select exactly that row |
| LoginFunction.LoginFindsRow | supabase/functions/login/index.ts:27-42 | when the table is reachable and no two rows share a name and password pair, a POST with a row's own non-empty credentials is answered 200 with that row |
| LoginFunction.RowJsonFields | supabase/functions/login/index.ts:29-42 | the 200 body's object holds the row's `id_cliente`, `nome_cliente` and `has_uploaded` under those names |
| LoginFunction.Serve | supabase/functions/login/index.ts:5-10 | the response has the reply's status and body, and its headers are the initial ones plus the three CORS headers |
| UploadProxy.Contains | supabase/functions/upload-proxy/index.ts:19 | a text that starts with `sub` includes it, and a text that includes `sub` is at least as long |
| UploadProxy.ContainsSlice | supabase/functions/upload-proxy/index.ts:19 | `includes(sub)` holds iff `sub` occurs at some index |
| UploadProxy.ContainsInside | supabase/functions/upload-proxy/index.ts:19 | a text holding the media type anywhere passes the check |
| UploadProxy.BrowserFormForwarded | supabase/functions/upload-proxy/index.ts:18-23 | a POST with a browser's `multipart/form-data; boundary=…` Content-Type and a readable form is forwarded |
| UploadProxy.ProxyReply | supabase/functions/upload-proxy/index.ts:13-36 | 204 iff OPTIONS; 405 for other non-POST methods; 400 with the Content-Type error when the header lacks the media type (a missing header counts as ""); the webhook's status and text with its Content-Type or "text/plain"; 500 with the error's message (or "Erro no proxy") when the form or the fetch fails, or when the webhook's status forbids a body |
| UploadProxy.CopyForm | supabase/functions/upload-proxy/index.ts:23-27 | the new form holds exactly the incoming entries in the same order |
| UploadProxy.Serve | supabase/functions/upload-proxy/index.ts:13-36 | the response has the reply's status and body and the CORS headers; a form is forwarded iff the request passes the checks, and it is the incoming entries |
| Http.ErrorBodyText | supabase/functions/login/index.ts:24-44 | every error body of the two functions (login/index.ts:24, 35, 39, 44 and upload-proxy/index.ts:20, 34) is `{"error":` followed by the message's quoted text and `}` |
| Http.ErrorBodyReadsBack | supabase/functions/upload-proxy/index.ts:20-34 | the message reads back from an error body, with only the closing brace after its string |
| Http.Lower | supabase/functions/login/index.ts:6-8 | header names are stored in ASCII lower case, character by character |
| Http.OriginNameLowered | supabase/functions/login/index.ts:6 | `Access-Control-Allow-Origin` is stored as `access-control-allow-origin` |
| Http.HeadersNameLowered | supabase/functions/login/index.ts:7 | `Access-Control-Allow-Headers` is stored as `access-control-allow-headers` |
| Http.MethodsNameLowered | supabase/functions/login/index.ts:8 | `Access-Control-Allow-Methods` is stored as `access-control-allow-methods` |
| Http.WithCors | supabase/functions/upload-proxy/index.ts:6-11 | origin `*`, the given allowed headers, methods `POST,OPTIONS`, every other header kept |
| Http.Headers.Set | supabase/functions/upload-proxy/index.ts:7-9 | replaces the value under the lower-cased name |
| Http.FormData.Append | supabase/functions/upload-proxy/index.ts:26 | adds the entry at the end |
| Http.InitialHeaders | supabase/functions/upload-proxy/index.ts:31-32 | an explicit Content-Type wins; a string body without one gets `text/plain;charset=UTF-8`; a null body gets none |
| Http.Response.constructor | supabase/functions/upload-proxy/index.ts:32 | the status must lie in 200..599 and a null-body status admits no body |
| Http.Cors | supabase/functions/login/index.ts:5-10 | setting the three headers in place yields `WithCors` of the old headers |
| Json.NatToDigits | src/pages/Upload.tsx:27 | a non-empty run of decimal digits |
| Json.IntToText | src/pages/Upload.tsx:27 | non-empty and never starting with a quote |
| Json.ParseInt | src/context/AuthContext.tsx:29 | a number with a leading zero is refused, as JSON's grammar refuses it; what follows a number read does not start with a digit |
| Json.DigitsRoundTrip | src/context/AuthContext.tsx:29-37 | reading back the digits of a natural number gives that number |
| Json.IntRoundTrip | src/context/AuthContext.tsx:29-37 | parsing an integer's text followed by a non-digit gives the integer and the rest |
| Json.DigitSpan | src/context/AuthContext.tsx:29 | the digits at the front of a text, up to the first non-digit |
| Json.Hex4Value | src/context/AuthContext.tsx:29 | four hex digits denote a code unit below 0x10000 |
| Json.HexRoundTrip | src/context/AuthContext.tsx:29-37 | a control character's `\u00xx` escape decodes to that character |
| Json.UnquoteEscapeChar | src/context/AuthContext.tsx:29-37 | decoding one escaped character then the rest is that character before the rest's decoding |
| Json.UnquoteRoundTrip | src/context/AuthContext.tsx:29-37 | decoding the escaped form of a string followed by its closing quote gives back the string and the rest |
| Json.EscapePlain | src/context/AuthContext.tsx:37 | a string with no quote, backslash or control character is written unchanged |
| Json.Stringify | src/context/AuthContext.tsx:37 | the text of every value is non-empty |
| Json.StringifyObject1 | supabase/functions/login/index.ts:24 | a one-member object's text is that member's text between braces |
| Json.StringifyObject2 | src/context/AuthContext.tsx:37 | a two-member object's text is its two member texts between braces, separated by a comma |
| Json.StringifyObject3 | supabase/functions/login/index.ts:42 | a three-member object's text is its three member texts between braces, separated by commas |
| Json.TextField | src/pages/Chat.tsx:89 | a non-empty result is the string the object holds under the key; when the object holds a string there, the result is that string |
| Json.Lookup | src/pages/Chat.tsx:66 | a key's value is found iff some member has that key, and then it is the value of the last member with that key |

## Left out

- The views: all JSX rendering, `TypingDots`, `scrollToBottom`/`requestAnimationFrame`, the 600 ms `setTimeout` navigation after an upload, src/pages/Login.tsx, src/pages/Index.tsx and src/components/SEO.tsx. They only present state or navigate.
- supabase/functions/ask-ia/index.ts is not part of this model. It forwards JSON to a foreign endpoint, and its method and CORS handling repeat the two functions modelled.
- Async interleaving and React re-render timing: each handler is one sequential step over the state it ends with. Two rapid `sendMessage` calls, and a state read before React applies an update, are not modelled.
- The network, the Supabase client, `localStorage`, `Math.random()` and `crypto.randomUUID()` are parameters: a `FetchOutcome` per request, a `Users` table with its failure messages, a storage map, a real draw, and the message ids.
- `localStorage.setItem` throwing on a full quota is not modelled; `login`'s catch branch with "Falha ao autenticar." is therefore unreachable in the model.
- Floating point: `Math.random() * 1000000` is computed on reals, so the rounding of binary doubles is not modelled.
- Json.IntToText, Json.ParseInt and Json.Stringify: JSON numbers are modelled as unbounded integers. A JavaScript number is a binary double, so an id of 1e21 or more is written in exponent form, and an id above 2^53 is rounded when read back; neither is modelled. The ids this code invents are below 1000000.
- ProtectedRoute.GateAfterReload: the gate ignores the store's `loading` flag, so on the first render after a reload it redirects to `/login` before the stored session is restored (ProtectedRoute.FirstRender). Where the app goes next depends on src/App.tsx and src/pages/Login.tsx, which are not part of this model; GateAfterReload states only the gate's answer once the mount effect has run.
- AuthContext.ParseSession, AuthContext.AuthStore.Restore and AuthContext.Restored: `JSON.parse` is modelled only for the layout `JSON.stringify` writes for a session; a stored text in any other layout, or with other key order, extra whitespace or a non-integer id, is treated as unparsable, whereas the source would accept some of those texts (and would accept any JSON value, with no shape check). An id with a leading zero is refused, as `JSON.parse` refuses it.
- ChatPage.AiText and ChatPage.UrlOf: only string values of `resposta`, `message` and `url` are read; a truthy non-string value (a number, an object) is treated as absent.
- LoginFunction.LoginReply: only string credentials are modelled; a truthy non-string `nome_cliente` or `senha_cliente` is not. The table's failure and the multiple-rows message of `maybeSingle` are parameters of `Users`, since their wording comes from the client library.
- UploadProxy.ProxyReply: the text of the runtime's `TypeError` for a body with a null-body status is fixed to Deno's wording. Header values are not case-folded before the `includes` check, as in the source.
- The edge-function responses carry only the headers this code sets; headers the runtime adds are not modelled.
- The fetch of the question's body sends `JSON.stringify(payload)`; the model returns the payload as a JSON value, not its text.
- Passwords are compared as plain text and no `hasUploaded` flag is written on the server, as in the source; hashing and a server-side update are not part of the code.
