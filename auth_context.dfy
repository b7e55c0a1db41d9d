/**
 * The client's session store (src/context/AuthContext.tsx): at most one
 * session, mirrored to the browser's key-value storage under one key, with
 * `login`, `logout`, `setHasUploaded` and the effect that restores the
 * session when the provider mounts.
 */
module AuthContext {
  import opened Wrappers
  import opened Json

  /** `UserSession`. `hasUploaded` is optional in the source's type, so it is here. */
  datatype Session = Session(id: int, name: string, hasUploaded: Option<bool>)

  /** The result `login` resolves to: `{ ok }` or `{ ok: false, error }`. */
  datatype LoginResult = LoginResult(ok: bool, error: Option<string>)

  const StorageKey := "app.session.v1"
  const MissingCredentials := "Informe usuário e senha"
  /** The ids `login` invents are below this bound. */
  const IdBound := 1000000

  // ---------------------------------------------------------------------
  // Serialisation of a session

  /** The object `JSON.stringify` sees: `hasUploaded` is left out when undefined. */
  function SessionJson(s: Session): Json
  {
    Obj([(IdKey, Num(s.id)), (NameKey, Str(s.name))]
        + (if s.hasUploaded.Some? then [(FlagKey, Bool(s.hasUploaded.value))] else []))
  }

  /** `JSON.stringify(session)`: an object text. */
  function Serialize(s: Session): (t: string)
    ensures |t| > 1 && t[0] == '{' && t[|t| - 1] == '}'
  {
    Stringify(SessionJson(s))
  }

  /** The property names of a stored session. */
  const IdKey := "id_cliente"
  const NameKey := "nome_cliente"
  const FlagKey := "hasUploaded"

  /** The text before the id, and the text between the id and the name's characters. */
  const IdPrefix := "{\"id_cliente\":"
  const NamePrefix := ",\"nome_cliente\":\""

  /** The text after the name's closing quote. */
  function FlagSuffix(f: Option<bool>): string
  {
    match f
    case None => "}"
    case Some(true) => ",\"hasUploaded\":true}"
    case Some(false) => ",\"hasUploaded\":false}"
  }

  lemma IdKeyQuoted()
    ensures Quote(IdKey) == "\"" + IdKey + "\""
  {
    assert forall i :: 0 <= i < |IdKey| ==> PlainChar(IdKey[i]);
    EscapePlain(IdKey);
  }

  lemma NameKeyQuoted()
    ensures Quote(NameKey) == "\"" + NameKey + "\""
  {
    assert forall i :: 0 <= i < |NameKey| ==> PlainChar(NameKey[i]);
    EscapePlain(NameKey);
  }

  lemma FlagKeyQuoted()
    ensures Quote(FlagKey) == "\"" + FlagKey + "\""
  {
    assert forall i :: 0 <= i < |FlagKey| ==> PlainChar(FlagKey[i]);
    EscapePlain(FlagKey);
  }

  /** A member whose key needs no escape is the quoted key, a colon and the value's text. */
  lemma MemberTextPlain(k: string, v: Json)
    requires Quote(k) == "\"" + k + "\""
    ensures MemberText((k, v)) == "\"" + k + "\"" + ":" + Stringify(v)
  {
  }

  lemma IdPrefixSpelled()
    ensures IdPrefix == "{" + ("\"" + IdKey + "\"") + ":"
  {
  }

  lemma NamePrefixSpelled()
    ensures NamePrefix == "," + ("\"" + NameKey + "\"") + ":" + "\""
  {
  }

  lemma FlagTrueSpelled()
    ensures FlagSuffix(Some(true)) == "," + ("\"" + FlagKey + "\"" + ":" + "true") + "}"
  {
  }

  lemma FlagFalseSpelled()
    ensures FlagSuffix(Some(false)) == "," + ("\"" + FlagKey + "\"" + ":" + "false") + "}"
  {
  }

  /** The flag's tail is the flag member's text followed by the closing brace. */
  lemma FlagSuffixMember(b: bool)
    ensures FlagSuffix(Some(b)) == "," + MemberText((FlagKey, Bool(b))) + "}"
  {
    FlagKeyQuoted();
    MemberTextPlain(FlagKey, Bool(b));
    if b {
      FlagTrueSpelled();
    } else {
      FlagFalseSpelled();
    }
  }

  /** `rest` when `t` is `p + rest`. */
  function StripPrefix(p: string, t: string): Option<string>
  {
    if p <= t then Some(t[|p|..]) else None
  }

  /**
   * `JSON.parse(raw)` for the texts that name a session in the layout
   * `JSON.stringify` gives it. Any other text is treated as one that does
   * not parse; as in JSON's grammar, an id with a leading zero does not.
   */
  function ParseSession(t: string): (r: Option<Session>)
    ensures r.Some? ==> IdPrefix <= t && !LeadingZero(t[|IdPrefix|..])
    ensures r.Some? ==> |t| > |IdPrefix| + 1 && t[|IdPrefix|] == '-' ==> !LeadingZero(t[|IdPrefix| + 1..])
  {
    match StripPrefix(IdPrefix, t)
    case None => None
    case Some(t0) =>
      match ParseInt(t0)
      case None => None
      case Some((id, t1)) => ParseNameAndFlag(id, t1)
  }

  /** The session with id `id` that the text after the id describes, if it does. */
  function ParseNameAndFlag(id: int, t1: string): Option<Session>
  {
    match StripPrefix(NamePrefix, t1)
    case None => None
    case Some(t2) =>
      match Unquote(t2)
      case None => None
      case Some((name, t3)) =>
        match ParseFlag(t3)
        case None => None
        case Some(f) => Some(Session(id, name, f))
  }

  /** The `hasUploaded` value that the text after the name gives, if it is one of the three forms. */
  function ParseFlag(t3: string): Option<Option<bool>>
  {
    if t3 == FlagSuffix(None) then Some(None)
    else if t3 == FlagSuffix(Some(true)) then Some(Some(true))
    else if t3 == FlagSuffix(Some(false)) then Some(Some(false))
    else None
  }

  lemma ParseFlagSuffix(f: Option<bool>)
    ensures ParseFlag(FlagSuffix(f)) == Some(f)
  {
  }

  /** Regrouping the pieces of a session's text. */
  lemma Regroup(idKey: string, nameKey: string, idText: string, name: string, tail: string)
    ensures "{" + (idKey + ":" + idText) + "," + (nameKey + ":" + ("\"" + name + "\"")) + tail
         == ("{" + idKey + ":") + idText + ("," + nameKey + ":" + "\"") + name + "\"" + tail
  {
  }

  /** The text `JSON.stringify` writes for a session, spelled out. */
  lemma SerializeShape(s: Session)
    ensures Serialize(s) == IdPrefix + IntToText(s.id) + NamePrefix + Escape(s.name) + "\"" + FlagSuffix(s.hasUploaded)
  {
    var idMember, nameMember := (IdKey, Num(s.id)), (NameKey, Str(s.name));
    var idKey, nameKey := Quote(IdKey), Quote(NameKey);
    var idText, name := IntToText(s.id), Escape(s.name);
    var tail := FlagSuffix(s.hasUploaded);
    var whole := Serialize(s);
    SerializeMembers(s, idMember, nameMember);
    assert MemberText(idMember) == idKey + ":" + idText;
    assert MemberText(nameMember) == nameKey + ":" + ("\"" + name + "\"");
    Regroup(idKey, nameKey, idText, name, tail);
    IdKeyQuoted();
    NameKeyQuoted();
    IdPrefixSpelled();
    NamePrefixSpelled();
    assert whole == IdPrefix + idText + NamePrefix + name + "\"" + tail;
  }

  /** The session's text as its members' texts. */
  lemma SerializeMembers(s: Session, idMember: (string, Json), nameMember: (string, Json))
    requires idMember == (IdKey, Num(s.id)) && nameMember == (NameKey, Str(s.name))
    ensures Serialize(s) == "{" + MemberText(idMember) + "," + MemberText(nameMember) + FlagSuffix(s.hasUploaded)
  {
    if s.hasUploaded.Some? {
      SerializeFlagged(s, idMember, nameMember);
    } else {
      assert SessionJson(s) == Obj([idMember, nameMember]);
      StringifyObject2(idMember, nameMember);
    }
  }

  lemma SerializeFlagged(s: Session, idMember: (string, Json), nameMember: (string, Json))
    requires s.hasUploaded.Some?
    requires idMember == (IdKey, Num(s.id)) && nameMember == (NameKey, Str(s.name))
    ensures Serialize(s) == "{" + MemberText(idMember) + "," + MemberText(nameMember) + FlagSuffix(s.hasUploaded)
  {
    var flagMember := (FlagKey, Bool(s.hasUploaded.value));
    SessionJsonFlagged(s, idMember, nameMember);
    ObjectText3(idMember, nameMember, flagMember, Serialize(s));
    FlagSuffixMember(s.hasUploaded.value);
  }

  lemma SessionJsonFlagged(s: Session, idMember: (string, Json), nameMember: (string, Json))
    requires s.hasUploaded.Some?
    requires idMember == (IdKey, Num(s.id)) && nameMember == (NameKey, Str(s.name))
    ensures Serialize(s) == Stringify(Obj([idMember, nameMember, (FlagKey, Bool(s.hasUploaded.value))]))
  {
    assert SessionJson(s) == Obj([idMember, nameMember, (FlagKey, Bool(s.hasUploaded.value))]);
  }

  lemma ObjectText3(a: (string, Json), b: (string, Json), c: (string, Json), t: string)
    requires t == Stringify(Obj([a, b, c]))
    ensures t == "{" + MemberText(a) + "," + MemberText(b) + ("," + MemberText(c) + "}")
  {
    StringifyObject3(a, b, c);
    Regroup5("{", MemberText(a), "," + MemberText(b), ",", MemberText(c) + "}");
  }

  lemma Regroup5(a: string, b: string, c: string, d: string, e: string)
    ensures a + b + c + (d + e) == a + b + c + d + e
  {
  }

  lemma StripPrefixOf(p: string, rest: string)
    ensures StripPrefix(p, p + rest) == Some(rest)
  {
    assert (p + rest)[..|p|] == p;
  }

  lemma Regroup6(a: string, b: string, c: string, d: string, e: string, f: string)
    ensures a + b + c + d + e + f == a + (b + (c + (d + e + f)))
  {
  }

  /** Restoring what was persisted gives back the same session. */
  lemma SessionRoundTrip(s: Session)
    ensures ParseSession(Serialize(s)) == Some(s)
  {
    SerializeShape(s);
    var idText, flag := IntToText(s.id), FlagSuffix(s.hasUploaded);
    var afterName := Escape(s.name) + "\"" + flag;
    var afterId := NamePrefix + afterName;
    Regroup6(IdPrefix, idText, NamePrefix, Escape(s.name), "\"", flag);
    StripPrefixOf(IdPrefix, idText + afterId);
    assert afterId[0] == ',';
    IntRoundTrip(s.id, afterId);
    StripPrefixOf(NamePrefix, afterName);
    UnquoteRoundTrip(s.name, flag);
    ParseFlagSuffix(s.hasUploaded);
  }

  // ---------------------------------------------------------------------
  // Storage

  /** The storage after `persist(u)`: the serialised session under the key, or no entry. */
  function Persisted(storage: map<string, string>, u: Option<Session>): (m: map<string, string>)
    ensures u.Some? ==> StorageKey in m && m[StorageKey] == Serialize(u.value)
    ensures u.None? ==> StorageKey !in m
    ensures forall k :: k != StorageKey ==> (k in m <==> k in storage)
    ensures forall k :: k in m && k != StorageKey ==> m[k] == storage[k]
  {
    if u.Some? then storage[StorageKey := Serialize(u.value)] else storage - {StorageKey}
  }

  /**
   * The user the mount effect leaves: the stored session when the entry is
   * present, non-empty and parses, and otherwise the user there was.
   */
  function Restored(storage: map<string, string>, current: Option<Session>): (r: Option<Session>)
    ensures StorageKey !in storage || storage[StorageKey] == "" ==> r == current
    ensures r != current ==> StorageKey in storage && ParseSession(storage[StorageKey]) == r
    ensures StorageKey in storage && storage[StorageKey] != "" && ParseSession(storage[StorageKey]).Some?
      ==> r == ParseSession(storage[StorageKey])
    ensures StorageKey in storage && ParseSession(storage[StorageKey]).None? ==> r == current
  {
    if StorageKey in storage && storage[StorageKey] != "" then
      match ParseSession(storage[StorageKey])
      case Some(s) => Some(s)
      case None => current
    else current
  }

  /** A stored id written with a leading zero is refused, as `JSON.parse` refuses it. */
  lemma LeadingZeroUnparsable(d: char, rest: string)
    requires IsDigit(d)
    ensures ParseSession(IdPrefix + (['0', d] + rest)) == None
  {
    var t := IdPrefix + (['0', d] + rest);
    StripPrefixOf(IdPrefix, ['0', d] + rest);
    assert LeadingZero(['0', d] + rest);
  }

  /** A session persisted before a reload is the session restored after it. */
  lemma RestoreAfterPersist(storage: map<string, string>, s: Session, current: Option<Session>)
    ensures Restored(Persisted(storage, Some(s)), current) == Some(s)
  {
    SessionRoundTrip(s);
  }

  /** After the entry is removed, a reload comes up with the user it starts with. */
  lemma RestoreAfterClear(storage: map<string, string>, current: Option<Session>)
    ensures Restored(Persisted(storage, None), current) == current
  {
  }

  /** A stored text that does not parse leaves the user as it was. */
  lemma RestoreUnparsable(storage: map<string, string>, current: Option<Session>)
    requires StorageKey in storage && ParseSession(storage[StorageKey]).None?
    ensures Restored(storage, current) == current
  {
  }

  /** `Math.floor(Math.random() * 1000000)` for a draw `random` of `Math.random()`. */
  function RandomId(random: real): (id: int)
    requires 0.0 <= random < 1.0
    ensures 0 <= id < IdBound
  {
    var x := random * IdBound as real;
    assert 0.0 <= x < IdBound as real;
    x.Floor
  }

  // ---------------------------------------------------------------------
  // The provider's state

  /** The state `AuthProvider` holds, and the storage it writes to. */
  class AuthStore {
    var user: Option<Session>
    var loading: bool
    var storage: map<string, string>

    /** The provider as it mounts: no user, loading, over the storage the page finds. */
    constructor (storage: map<string, string>)
      ensures user == None && loading && this.storage == storage
    {
      user := None;
      loading := true;
      this.storage := storage;
    }

    /** The mount effect: reads the stored session, keeps it when it parses, and stops loading. */
    method Restore()
      modifies this
      ensures user == Restored(old(storage), old(user))
      ensures !loading && storage == old(storage)
    {
      if StorageKey in storage && storage[StorageKey] != "" {
        var raw := storage[StorageKey];
        match ParseSession(raw) {
          case Some(parsed) => user := Some(parsed);
          case None =>
        }
      }
      loading := false;
    }

    /** `persist(u)`: writes the serialised session, or removes the entry. */
    method Persist(u: Option<Session>)
      modifies this
      ensures storage == Persisted(old(storage), u)
      ensures user == old(user) && loading == old(loading)
    {
      if u.Some? {
        storage := storage[StorageKey := Serialize(u.value)];
      } else {
        storage := storage - {StorageKey};
      }
    }

    /**
     * `login(nome, senha)`, where `random` is the draw of `Math.random()`.
     * It checks only that both are non-empty and invents the id.
     */
    method Login(nome: string, senha: string, random: real) returns (r: LoginResult)
      requires 0.0 <= random < 1.0
      modifies this
      ensures nome == "" || senha == "" ==>
        r == LoginResult(false, Some(MissingCredentials)) && user == old(user) && storage == old(storage)
      ensures nome != "" && senha != "" ==>
        && r == LoginResult(true, None)
        && user == Some(Session(RandomId(random), nome, Some(false)))
        && storage == Persisted(old(storage), user)
      ensures loading == old(loading)
    {
      if nome == "" || senha == "" {
        return LoginResult(false, Some(MissingCredentials));
      }
      var session := Session(RandomId(random), nome, Some(false));
      user := Some(session);
      Persist(Some(session));
      r := LoginResult(true, None);
    }

    /** `logout()`: no user, and no stored entry, from any state. */
    method Logout()
      modifies this
      ensures user == None && storage == Persisted(old(storage), None)
      ensures loading == old(loading)
    {
      user := None;
      Persist(None);
    }

    /** `setHasUploaded(value)`: nothing without a user; otherwise only the flag changes, and is persisted. */
    method SetHasUploaded(value: bool)
      modifies this
      ensures old(user).None? ==> user == old(user) && storage == old(storage)
      ensures old(user).Some? ==>
        && user == Some(old(user).value.(hasUploaded := Some(value)))
        && storage == Persisted(old(storage), user)
      ensures loading == old(loading)
    {
      if user.None? {
        return;
      }
      var updated := user.value.(hasUploaded := Some(value));
      user := Some(updated);
      Persist(Some(updated));
    }
  }
}
