/**
 * The account routes (backend/routes/user_routes.py) over an abstract users table:
 * `/register` inserts a row unless the email is taken, `/login` checks the password and
 * issues a token for the first row with that email, `/me` echoes the token's identity.
 * bcrypt's hash and check, the salt, the clock and JWT signing are parameters.
 */
module Accounts {
  import opened Wrappers
  import opened UploadRules

  const TokenLifetimeSeconds := 24 * 60 * 60
  const EmailTaken := "Email already registered."
  const BadCredentials := "Invalid email or password."
  const Registered := "User registered successfully."

  /** A row of the `users` table. */
  datatype UserRow = UserRow(id: int, username: string, email: string, passwordHash: string)

  /** The claims `/login` signs; `exp` is in seconds. */
  datatype TokenPayload = TokenPayload(userId: int, username: string, email: string, exp: int)

  /** The body of `/me`. */
  datatype Me = Me(userId: int, username: string, email: string)

  /** `select("*").eq("email", email)`: the rows with that email, in table order. */
  function MatchingRows(rows: seq<UserRow>, email: string): (m: seq<UserRow>)
    ensures |m| <= |rows|
    ensures forall r :: r in m <==> r in rows && r.email == email
  {
    if rows == [] then []
    else if rows[0].email == email then [rows[0]] + MatchingRows(rows[1..], email)
    else MatchingRows(rows[1..], email)
  }

  /** The claims issued for a row at time `now`. */
  function Payload(row: UserRow, now: int): (p: TokenPayload)
    ensures p.userId == row.id && p.username == row.username && p.email == row.email
    ensures p.exp == now + TokenLifetimeSeconds
  {
    TokenPayload(row.id, row.username, row.email, now + 24 * 60 * 60)
  }

  /**
   * `login_user`: the first row with the email, if its hash accepts the password, gives the
   * signed payload; an unknown email and a wrong password fail identically.
   */
  function LoginUser(rows: seq<UserRow>, email: string, password: string,
                     checkpw: (string, string) -> bool, now: int,
                     encode: TokenPayload -> string): (r: Result<string, ApiError>)
    ensures r.Ok? <==> MatchingRows(rows, email) != [] && checkpw(password, MatchingRows(rows, email)[0].passwordHash)
    ensures r.Ok? ==> r.value == encode(Payload(MatchingRows(rows, email)[0], now))
    ensures r.Err? ==> r.error == HttpError(400, BadCredentials)
  {
    var found := MatchingRows(rows, email);
    if found == [] then Err(HttpError(400, BadCredentials))
    else if !checkpw(password, found[0].passwordHash) then Err(HttpError(400, BadCredentials))
    else Ok(encode(Payload(found[0], now)))
  }

  /** `get_me`: a projection of the decoded claims. */
  function GetMe(p: TokenPayload): (m: Me)
    ensures m.userId == p.userId && m.username == p.username && m.email == p.email
  {
    Me(p.userId, p.username, p.email)
  }

  /** The new table after `register_user`, and its reply. */
  datatype Registration = Registration(rows: seq<UserRow>, nextId: int, reply: Result<string, ApiError>)

  function Register(rows: seq<UserRow>, nextId: int, username: string, email: string, password: string,
                    salt: string, hashpw: (string, string) -> string): (g: Registration)
    ensures MatchingRows(rows, email) != [] ==> g == Registration(rows, nextId, Err(HttpError(400, EmailTaken)))
    ensures MatchingRows(rows, email) == [] ==>
      && g.rows == rows + [UserRow(nextId, username, email, hashpw(password, salt))]
      && g.nextId == nextId + 1 && g.reply == Ok(Registered)
  {
    if MatchingRows(rows, email) != [] then Registration(rows, nextId, Err(HttpError(400, EmailTaken)))
    else Registration(rows + [UserRow(nextId, username, email, hashpw(password, salt))], nextId + 1, Ok(Registered))
  }

  /** No two rows share an email. */
  predicate UniqueEmails(rows: seq<UserRow>) {
    forall i, j :: 0 <= i < j < |rows| ==> rows[i].email != rows[j].email
  }

  /** The rows matching an email in a concatenation are those of each part. */
  lemma {:induction false} MatchingAppend(a: seq<UserRow>, b: seq<UserRow>, email: string)
    ensures MatchingRows(a + b, email) == MatchingRows(a, email) + MatchingRows(b, email)
  {
    if a == [] {
      assert a + b == b;
    } else {
      assert (a + b)[0] == a[0];
      assert (a + b)[1..] == a[1..] + b;
      MatchingAppend(a[1..], b, email);
    }
  }

  /** Registration keeps emails unique, since a taken email changes nothing. */
  lemma RegisterKeepsEmailsUnique(rows: seq<UserRow>, nextId: int, username: string, email: string,
                                  password: string, salt: string, hashpw: (string, string) -> string)
    requires UniqueEmails(rows)
    ensures UniqueEmails(Register(rows, nextId, username, email, password, salt, hashpw).rows)
  {
    if MatchingRows(rows, email) == [] {
      var g := Register(rows, nextId, username, email, password, salt, hashpw).rows;
      forall i, j | 0 <= i < j < |g|
        ensures g[i].email != g[j].email
      {
        if j == |rows| {
          assert rows[i] in rows;
          assert rows[i] !in MatchingRows(rows, email);
        }
      }
    }
  }

  /** A successful registration adds exactly one row, the last, holding the hash and not the password. */
  lemma RegisterAddsOneRow(rows: seq<UserRow>, nextId: int, username: string, email: string,
                           password: string, salt: string, hashpw: (string, string) -> string)
    requires Register(rows, nextId, username, email, password, salt, hashpw).reply.Ok?
    ensures var g := Register(rows, nextId, username, email, password, salt, hashpw).rows;
      && |g| == |rows| + 1 && g[..|rows|] == rows
      && MatchingRows(g, email) == [g[|rows|]]
      && g[|rows|].passwordHash == hashpw(password, salt)
  {
    var g := Register(rows, nextId, username, email, password, salt, hashpw).rows;
    assert g[..|rows|] == rows;
    MatchingAppend(rows, [g[|rows|]], email);
    assert [g[|rows|]][1..] == [];
  }

  /**
   * Registering and then logging in with the same password succeeds, with the new row's
   * identity, whenever bcrypt's check accepts a password against its own hash.
   */
  lemma RegisterThenLogin(rows: seq<UserRow>, nextId: int, username: string, email: string,
                          password: string, salt: string, hashpw: (string, string) -> string,
                          checkpw: (string, string) -> bool, now: int, encode: TokenPayload -> string)
    requires MatchingRows(rows, email) == []
    requires checkpw(password, hashpw(password, salt))
    ensures var g := Register(rows, nextId, username, email, password, salt, hashpw);
      LoginUser(g.rows, email, password, checkpw, now, encode)
        == Ok(encode(TokenPayload(nextId, username, email, now + TokenLifetimeSeconds)))
  {
    var g := Register(rows, nextId, username, email, password, salt, hashpw);
    RegisterAddsOneRow(rows, nextId, username, email, password, salt, hashpw);
  }

  /** The two failures of `/login` carry the same status and message. */
  lemma LoginFailuresIdentical(rows: seq<UserRow>, email: string, p1: string, p2: string, email2: string,
                               checkpw: (string, string) -> bool, now: int, encode: TokenPayload -> string)
    requires MatchingRows(rows, email) == []
    requires MatchingRows(rows, email2) != [] && !checkpw(p2, MatchingRows(rows, email2)[0].passwordHash)
    ensures LoginUser(rows, email, p1, checkpw, now, encode) == LoginUser(rows, email2, p2, checkpw, now, encode)
  {
  }

  /** `/me` with the claims of a login gives back that row's identity. */
  lemma LoginThenMe(row: UserRow, now: int)
    ensures GetMe(Payload(row, now)) == Me(row.id, row.username, row.email)
  {
  }

  /** The `users` table; `nextId` is the id the database assigns to the next insert. */
  class UsersTable {
    var rows: seq<UserRow>
    var nextId: int

    constructor (rows: seq<UserRow>, nextId: int)
      ensures this.rows == rows && this.nextId == nextId
    {
      this.rows := rows;
      this.nextId := nextId;
    }

    /** `register_user`: look the email up, then either refuse or insert one row. */
    method RegisterUser(username: string, email: string, password: string,
                        salt: string, hashpw: (string, string) -> string) returns (reply: Result<string, ApiError>)
      modifies this
      ensures Registration(rows, nextId, reply)
        == Register(old(rows), old(nextId), username, email, password, salt, hashpw)
    {
      var existing := MatchingRows(rows, email);
      if existing != [] {
        return Err(HttpError(400, EmailTaken));
      }
      var hashed := hashpw(password, salt);
      rows := rows + [UserRow(nextId, username, email, hashed)];
      nextId := nextId + 1;
      reply := Ok(Registered);
    }
  }
}
