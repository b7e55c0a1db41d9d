/**
 * The route gate (src/components/auth/ProtectedRoute.tsx): what a protected
 * route shows for the current session, and how the gate's answers follow the
 * session store's lifecycle of anonymous, logged in, and uploaded.
 */
module ProtectedRoute {
  import opened Wrappers
  import opened AuthContext

  /** Redirect to `/login`, redirect to `/upload`, or render the route's children. */
  datatype Decision = ToLogin | ToUpload | Render

  /** `user.hasUploaded` is truthy: present and true. */
  predicate Uploaded(s: Session) {
    s.hasUploaded == Some(true)
  }

  /** Who may see a route, stated on its own: someone logged in who, where the route asks for it, has uploaded. */
  predicate Admitted(user: Option<Session>, requireUpload: bool) {
    user.Some? && (requireUpload ==> Uploaded(user.value))
  }

  /** The gate. The `requireUpload` prop, when absent, is `false`. */
  function Gate(user: Option<Session>, requireUpload: bool): (d: Decision)
    ensures d == ToLogin <==> user.None?
    ensures d == ToUpload <==> user.Some? && requireUpload && !Uploaded(user.value)
    ensures d == Render <==> Admitted(user, requireUpload)
  {
    if user.None? then ToLogin
    else if requireUpload && !Uploaded(user.value) then ToUpload
    else Render
  }

  /**
   * A walk through the lifecycle on one store: after a successful login the
   * chat route (which asks for an upload) sends the user to `/upload` while
   * the upload route renders; after `setHasUploaded(true)` the chat route
   * renders; after logout every protected route sends the user to `/login`.
   */
  method Lifecycle(store: AuthStore, nome: string, senha: string, random: real)
      returns (afterLogin: Decision, uploadPage: Decision, afterUpload: Decision, afterLogout: Decision)
    requires nome != "" && senha != ""
    requires 0.0 <= random < 1.0
    modifies store
    ensures afterLogin == ToUpload && uploadPage == Render
    ensures afterUpload == Render
    ensures afterLogout == ToLogin
    ensures store.user == None && StorageKey !in store.storage
  {
    var r := store.Login(nome, senha, random);
    afterLogin := Gate(store.user, true);
    uploadPage := Gate(store.user, false);
    store.SetHasUploaded(true);
    afterUpload := Gate(store.user, true);
    store.Logout();
    afterLogout := Gate(store.user, true);
  }

  /**
   * The first render after a reload, before the provider's mount effect has
   * run: the store's user is still `null`, and the gate does not look at
   * `loading`, so it redirects to `/login` whatever the storage holds.
   */
  method FirstRender(storage: map<string, string>, requireUpload: bool) returns (d: Decision)
    ensures d == ToLogin
  {
    var store := new AuthStore(storage);
    d := Gate(store.user, requireUpload);
  }

  /** After a reload and once the mount effect has run, the gate answers for the restored session as it did before it. */
  lemma GateAfterReload(storage: map<string, string>, s: Session, requireUpload: bool)
    ensures Gate(Restored(Persisted(storage, Some(s)), None), requireUpload) == Gate(Some(s), requireUpload)
  {
    RestoreAfterPersist(storage, s, None);
  }
}
