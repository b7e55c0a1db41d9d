/**
 * The `login` edge function (supabase/functions/login/index.ts): it answers a
 * preflight, refuses other methods, reads the credentials from the JSON body
 * and looks for the single user row holding both of them.
 */
module LoginFunction {
  import opened Wrappers
  import opened Json
  import opened Http

  /** The `Access-Control-Allow-Headers` value this function sends. */
  const AllowHeaders := "* , Authorization, Content-Type"

  const InvalidCredentials := "Credenciais inválidas"
  const Unauthorized := "Não autorizado"
  const InternalError := "Erro interno"
  const MethodNotAllowed := "Method Not Allowed"
  const ApplicationJson := "application/json"

  /**
   * What `await req.json()` and the destructuring give: the two string fields
   * (`None` when absent), or the message of the error thrown when the body is
   * not a JSON object (`""` when the error has none).
   */
  datatype LoginBody = Credentials(nome: Option<string>, senha: Option<string>) | Unreadable(message: string)

  datatype LoginRequest = LoginRequest(verb: string, body: LoginBody)

  /** A row of the `users` table. */
  datatype UserRow = UserRow(id: int, nome: string, senha: string, hasUploaded: bool)

  /**
   * The `users` table as the query sees it: its rows, the message of the error
   * the query fails with when the database cannot be reached, and the message
   * `maybeSingle` reports when more than one row matches.
   */
  datatype Users = Users(rows: seq<UserRow>, fault: Option<string>, manyRows: string)

  /** What `maybeSingle()` resolves to: an error, no row, or the one row. */
  datatype QueryResult = Failed(message: string) | NoRow | Found(row: UserRow)

  /** The rows both `eq` filters keep, in table order. */
  function Matches(rows: seq<UserRow>, nome: string, senha: string): (r: seq<UserRow>)
    ensures |r| <= |rows|
    ensures forall x :: x in r <==> x in rows && x.nome == nome && x.senha == senha
    ensures r == [] <==> forall x :: x in rows ==> x.nome != nome || x.senha != senha
  {
    if rows == [] then []
    else if rows[0].nome == nome && rows[0].senha == senha then [rows[0]] + Matches(rows[1..], nome, senha)
    else Matches(rows[1..], nome, senha)
  }

  /** The filtered `select ... maybeSingle()`. */
  function Query(users: Users, nome: string, senha: string): (q: QueryResult)
    ensures q.Found? <==> users.fault.None? && |Matches(users.rows, nome, senha)| == 1
    ensures q.NoRow? <==> users.fault.None? && Matches(users.rows, nome, senha) == []
    ensures q.Found? ==> q.row in users.rows && q.row.nome == nome && q.row.senha == senha
  {
    if users.fault.Some? then Failed(users.fault.value)
    else
      var ms := Matches(users.rows, nome, senha);
      if |ms| == 0 then NoRow
      else if |ms| == 1 then (assert ms[0] in ms; Found(ms[0]))
      else Failed(users.manyRows)
  }

  /** The selected columns of a row, as `JSON.stringify(data)` writes them. */
  function RowJson(row: UserRow): Json
  {
    Obj([("id_cliente", Num(row.id)), ("nome_cliente", Str(row.nome)), ("has_uploaded", Bool(row.hasUploaded))])
  }

  /** The reply's three properties read back as the row's columns. */
  lemma RowJsonFields(row: UserRow)
    ensures Lookup(RowJson(row).members, "id_cliente") == Some(Num(row.id))
    ensures Lookup(RowJson(row).members, "nome_cliente") == Some(Str(row.nome))
    ensures Lookup(RowJson(row).members, "has_uploaded") == Some(Bool(row.hasUploaded))
  {
    var a, b, c := ("id_cliente", Num(row.id)), ("nome_cliente", Str(row.nome)), ("has_uploaded", Bool(row.hasUploaded));
    assert RowJson(row).members == [a, b] + [c];
    assert [a, b] == [a] + [b];
    LookupLast([a, b], c.0, c.1);
    LookupEarlier([a, b], c, b.0);
    LookupLast([a], b.0, b.1);
    LookupEarlier([a, b], c, a.0);
    LookupEarlier([a], b, a.0);
    LookupLast([], a.0, a.1);
    assert [] + [a] == [a];
  }

  /** `!value` on an optional string field: absent or empty. */
  predicate Missing(v: Option<string>) {
    v.None? || v.value == ""
  }

  /** Whether the request gets as far as the database query. */
  predicate Queries(req: LoginRequest) {
    req.verb == "POST" && req.body.Credentials? && !Missing(req.body.nome) && !Missing(req.body.senha)
  }

  /** The reply of the handler, before `cors` adds its headers. */
  function LoginReply(req: LoginRequest, users: Users): (r: Reply)
    ensures r.status in {200, 204, 400, 401, 405, 500}
    ensures r.status == 204 <==> req.verb == "OPTIONS"
    ensures r.body.None? <==> r.status == 204
    ensures r.status == 405 <==> req.verb != "OPTIONS" && req.verb != "POST"
    ensures r.status == 400 <==> req.verb == "POST" && req.body.Credentials? && !Queries(req)
    ensures r.status == 401 <==> Queries(req) && Query(users, req.body.nome.value, req.body.senha.value).NoRow?
    ensures r.status == 200 <==> Queries(req) && Query(users, req.body.nome.value, req.body.senha.value).Found?
    ensures r.status == 200 ==>
      && r.contentType == Some(ApplicationJson)
      && r.body == Some(Stringify(RowJson(Query(users, req.body.nome.value, req.body.senha.value).row)))
    ensures r.status != 200 ==> r.contentType == None
    ensures r.status == 405 ==> r.body == Some(MethodNotAllowed)
    ensures r.status == 400 ==> r.body == Some(ErrorBody(InvalidCredentials))
    ensures r.status == 401 ==> r.body == Some(ErrorBody(Unauthorized))
    ensures req.verb == "POST" && req.body.Unreadable? ==>
      r == Reply(500, Some(ErrorBody(Or(req.body.message, InternalError))), None)
    ensures Queries(req) && Query(users, req.body.nome.value, req.body.senha.value).Failed? ==>
      r == Reply(500, Some(ErrorBody(Query(users, req.body.nome.value, req.body.senha.value).message)), None)
  {
    if req.verb == "OPTIONS" then Reply(204, None, None)
    else if req.verb != "POST" then Reply(405, Some(MethodNotAllowed), None)
    else match req.body
      case Unreadable(message) => Reply(500, Some(ErrorBody(Or(message, InternalError))), None)
      case Credentials(nome, senha) =>
        if Missing(nome) || Missing(senha) then Reply(400, Some(ErrorBody(InvalidCredentials)), None)
        else match Query(users, nome.value, senha.value)
          case Failed(message) => Reply(500, Some(ErrorBody(message)), None)
          case NoRow => Reply(401, Some(ErrorBody(Unauthorized)), None)
          case Found(row) => Reply(200, Some(Stringify(RowJson(row))), Some(ApplicationJson))
  }

  /** A request turned away before the query gets the same reply whatever the table holds. */
  lemma RejectedBeforeQuery(req: LoginRequest, a: Users, b: Users)
    requires !Queries(req)
    ensures LoginReply(req, a) == LoginReply(req, b)
  {
  }

  /** No two rows share both a name and a password. */
  predicate UniqueCredentials(rows: seq<UserRow>) {
    forall i, j :: 0 <= i < j < |rows| ==> rows[i].nome != rows[j].nome || rows[i].senha != rows[j].senha
  }

  lemma {:induction false} UniqueMatch(rows: seq<UserRow>, row: UserRow)
    requires UniqueCredentials(rows) && row in rows
    ensures Matches(rows, row.nome, row.senha) == [row]
  {
    if rows[0] == row {
      assert forall x :: x in rows[1..] ==> x.nome != row.nome || x.senha != row.senha by {
        forall x | x in rows[1..] ensures x.nome != row.nome || x.senha != row.senha {
          var j :| 0 <= j < |rows[1..]| && rows[1..][j] == x;
          assert rows[j + 1] == x;
        }
      }

    } else {
      assert row in rows[1..];
      assert UniqueCredentials(rows[1..]) by {
        forall i, j | 0 <= i < j < |rows[1..]|
          ensures rows[1..][i].nome != rows[1..][j].nome || rows[1..][i].senha != rows[1..][j].senha
        {
          assert rows[1..][i] == rows[i + 1] && rows[1..][j] == rows[j + 1];
        }
      }
      UniqueMatch(rows[1..], row);
      var j :| 0 <= j < |rows| && rows[j] == row;
      assert rows[0].nome != rows[j].nome || rows[0].senha != rows[j].senha;
    }
  }

  /**
   * When names and passwords identify rows, a POST with a row's own non-empty
   * credentials and a reachable table is answered 200 with that row.
   */
  lemma LoginFindsRow(users: Users, row: UserRow)
    requires users.fault.None? && UniqueCredentials(users.rows) && row in users.rows
    requires row.nome != "" && row.senha != ""
    ensures LoginReply(LoginRequest("POST", Credentials(Some(row.nome), Some(row.senha))), users)
      == Reply(200, Some(Stringify(RowJson(row))), Some(ApplicationJson))
  {
    UniqueMatch(users.rows, row);
  }

  /** The handler: the reply as a `Response`, with the CORS headers set on it. */
  method Serve(req: LoginRequest, users: Users) returns (res: Response)
    ensures fresh(res) && fresh(res.headers)
    ensures res.status == LoginReply(req, users).status && res.body == LoginReply(req, users).body
    ensures res.headers.entries == WithCors(InitialHeaders(res.body, LoginReply(req, users).contentType), AllowHeaders)
  {
    res := Respond(LoginReply(req, users));
    Cors(res, AllowHeaders);
  }
}
