/**
 * Accounts: registration, password login, the identity-provider login with
 * its name split, and the token payload. Hashing, comparison, signing and
 * the identity token check are opaque functions passed in.
 */
module Auth {
  import opened Wrappers
  import opened Text
  import opened Seqs
  import opened Records
  import opened Db

  /** `generateToken`: the payload signed is exactly id, email and role. */
  function Payload(u: UserRow): (c: Claims)
    ensures c.id == u.id && c.email == u.email && c.role == u.role
  {
    Claims(u.id, u.email, u.role)
  }

  /** Two users with the same id, email and role get the same token, whatever else differs. */
  lemma PayloadIgnoresProfile(u: UserRow, v: UserRow, sign: Claims -> string)
    requires u.id == v.id && u.email == v.email && u.role == v.role
    ensures sign(Payload(u)) == sign(Payload(v))
  {
  }

  datatype AuthReply =
    | Authed(token: string, user: Claims)
    | AuthFail(status: nat, error: string)

  /** The reply, the users table and the id counter after a handler. */
  datatype AuthOutcome = AuthOutcome(reply: AuthReply, users: seq<UserRow>, nextId: nat)

  /** The row `register` creates: role USER, no personal fields. */
  function NewAccount(id: nat, email: string, passwordHash: string, now: int): UserRow {
    UserRow(id, email, passwordHash, User, None, None, None, None, None, None, None, now)
  }

  /**
   * `register`; `bodyRole` is whatever role the body sends, and plays no part.
   */
  function RegisterSpec(users: seq<UserRow>, nextId: nat, email: Option<string>, password: Option<string>,
                        bodyRole: Option<Role>, hash: string -> string, sign: Claims -> string, now: int)
    : AuthOutcome
  {
    if !TruthyStr(email) || !TruthyStr(password) then
      AuthOutcome(AuthFail(400, "Email and password are required"), users, nextId)
    else if UserIndexByEmail(users, email.value).Some? then
      AuthOutcome(AuthFail(400, "User already exists"), users, nextId)
    else
      var u := NewAccount(nextId, email.value, hash(password.value), now);
      AuthOutcome(Authed(sign(Payload(u)), Payload(u)), users + [u], nextId + 1)
  }

  /**
   * Registration fails with 400 and no new row for a missing email or
   * password or a taken email; otherwise it appends one USER row whatever
   * role the body asked for.
   */
  lemma RegisterRules(users: seq<UserRow>, nextId: nat, email: Option<string>, password: Option<string>,
                      bodyRole: Option<Role>, hash: string -> string, sign: Claims -> string, now: int)
    ensures var out := RegisterSpec(users, nextId, email, password, bodyRole, hash, sign, now);
            && (out.reply.AuthFail? <==>
                  !TruthyStr(email) || !TruthyStr(password) || UserIndexByEmail(users, email.value).Some?)
            && (out.reply.AuthFail? ==> out.reply.status == 400 && out.users == users && out.nextId == nextId)
            && (out.reply.Authed? ==>
                  |out.users| == |users| + 1 && out.users[..|users|] == users
                  && out.users[|users|].role == User && out.users[|users|].email == email.value
                  && out.reply.user == Claims(nextId, email.value, User))
    ensures forall r :: RegisterSpec(users, nextId, email, password, r, hash, sign, now)
                        == RegisterSpec(users, nextId, email, password, bodyRole, hash, sign, now)
  {
    var out := RegisterSpec(users, nextId, email, password, bodyRole, hash, sign, now);
    if out.reply.Authed? {
      assert out.users[..|users|] == users;
    }
  }

  /** A registration keeps emails unique and ids below the counter. */
  lemma RegisterKeepsUnique(users: seq<UserRow>, nextId: nat, email: Option<string>, password: Option<string>,
                            bodyRole: Option<Role>, hash: string -> string, sign: Claims -> string, now: int)
    requires UniqueBy(users, UserIdOf) && UniqueBy(users, UserEmailOf)
    requires forall j :: 0 <= j < |users| ==> users[j].id < nextId
    ensures var out := RegisterSpec(users, nextId, email, password, bodyRole, hash, sign, now);
            && UniqueBy(out.users, UserIdOf) && UniqueBy(out.users, UserEmailOf)
            && forall j :: 0 <= j < |out.users| ==> out.users[j].id < out.nextId
  {
    var out := RegisterSpec(users, nextId, email, password, bodyRole, hash, sign, now);
    if out.reply.Authed? {
      var u := NewAccount(nextId, email.value, hash(password.value), now);
      AppendKeepsUnique(users, u, UserIdOf);
      AppendKeepsUnique(users, u, UserEmailOf);
    }
  }

  method Register(db: Store, email: Option<string>, password: Option<string>, bodyRole: Option<Role>,
                  hash: string -> string, sign: Claims -> string, now: int) returns (reply: AuthReply)
    requires db.Valid()
    modifies db`users, db`nextId
    ensures db.Valid()
    ensures AuthOutcome(reply, db.users, db.nextId)
            == RegisterSpec(old(db.users), old(db.nextId), email, password, bodyRole, hash, sign, now)
  {
    if !TruthyStr(email) || !TruthyStr(password) {
      return AuthFail(400, "Email and password are required");
    }
    if UserIndexByEmail(db.users, email.value).Some? {
      return AuthFail(400, "User already exists");
    }
    var newUser := InsertUser(db, email.value, hash(password.value), None, None, now);
    reply := Authed(sign(Payload(newUser)), Payload(newUser));
  }

  datatype LoginReply = LoggedIn(token: string, user: Claims) | LoginFail(status: nat, error: string)

  const InvalidCredentials := LoginFail(400, "Invalid credentials")

  /**
   * `login`; `compare(password, hash)` is the hash comparison. A missing
   * email makes the lookup throw, and a missing password makes the
   * comparison throw once the account is found (both 500).
   */
  function Login(users: seq<UserRow>, email: Option<string>, password: Option<string>,
                 compare: (string, string) -> bool, sign: Claims -> string): (r: LoginReply)
    ensures email.None? ==> r == LoginFail(500, "Internal server error")
    ensures email.Some? && password.None? && UserIndexByEmail(users, email.value).Some? ==>
              r == LoginFail(500, "Internal server error")
    ensures email.Some? ==>
              var k := UserIndexByEmail(users, email.value);
              && (r.LoggedIn? <==> k.Some? && password.Some? && compare(password.value, users[k.value].passwordHash))
              && (r.LoggedIn? ==> r == LoggedIn(sign(Payload(users[k.value])), Payload(users[k.value])))
              && (k.None? || password.Some? ==> (r.LoginFail? ==> r == InvalidCredentials))
  {
    if email.None? then LoginFail(500, "Internal server error")
    else match UserIndexByEmail(users, email.value)
      case None => InvalidCredentials
      case Some(i) =>
        if password.None? then LoginFail(500, "Internal server error")
        else if !compare(password.value, users[i].passwordHash) then InvalidCredentials
        else LoggedIn(sign(Payload(users[i])), Payload(users[i]))
  }

  /** An unknown email and a wrong password get the same reply: the response does not tell which. */
  lemma LoginDoesNotRevealAccounts(users: seq<UserRow>, email: string, password: string,
                                   compare: (string, string) -> bool, sign: Claims -> string)
    requires UserIndexByEmail(users, email).None?
             || !compare(password, users[UserIndexByEmail(users, email).value].passwordHash)
    ensures Login(users, Some(email), Some(password), compare, sign) == LoginFail(400, "Invalid credentials")
  {
  }

  /** A registered account logs in with its own password. */
  lemma RegisterThenLogin(users: seq<UserRow>, nextId: nat, email: string, password: string,
                          hash: string -> string, compare: (string, string) -> bool, sign: Claims -> string,
                          now: int)
    requires email != "" && password != "" && UserIndexByEmail(users, email).None?
    requires compare(password, hash(password))
    ensures var out := RegisterSpec(users, nextId, Some(email), Some(password), None, hash, sign, now);
            Login(out.users, Some(email), Some(password), compare, sign).LoggedIn?
            && Login(out.users, Some(email), Some(password), compare, sign).user == Claims(nextId, email, User)
  {
    var out := RegisterSpec(users, nextId, Some(email), Some(password), None, hash, sign, now);
    assert UserIndexByEmail(out.users, email) == Some(|users|) by {
      assert out.users[|users|].email == email;
      assert forall j :: 0 <= j < |users| ==> out.users[j] == users[j];
    }
  }

  /** `name.split(' ')`: the first word, and the rest joined back with single spaces. */
  function SplitName(name: Option<string>): (r: (string, string)) {
    var parts := if TruthyStr(name) then Split(name.value, ' ') else [""];
    (parts[0], Join(parts[1..], ' '))
  }

  /**
   * The first name is the text before the first space, and the last name the
   * text after it (spaces kept); a name without a space is all first name,
   * and a missing name gives two empty strings.
   */
  lemma SplitNameCorrect(name: Option<string>)
    ensures !TruthyStr(name) ==> SplitName(name) == ("", "")
    ensures TruthyStr(name) && ' ' !in name.value ==> SplitName(name) == (name.value, "")
    ensures TruthyStr(name) && ' ' in name.value ==>
              var i := IndexOf(name.value, ' ');
              SplitName(name) == (name.value[..i], name.value[i + 1..])
  {
    if TruthyStr(name) {
      var n := name.value;
      SplitHead(n, ' ');
      if ' ' in n {
        JoinSplit(n[IndexOf(n, ' ') + 1..], ' ');
      }
    }
  }

  /** The first and last name joined by a space give back the whole name. */
  lemma SplitNameJoins(name: string)
    requires ' ' in name
    ensures SplitName(Some(name)).0 + " " + SplitName(Some(name)).1 == name
  {
    SplitNameCorrect(Some(name));
    var i := IndexOf(name, ' ');
    assert name == name[..i] + [' '] + name[i + 1..];
  }

  /** The identity token's payload; `None` when `verifyIdToken` throws. */
  datatype IdentityPayload = IdentityPayload(email: string, name: Option<string>)

  datatype GoogleReply =
    | GoogleAuthed(token: string, user: Claims, firstName: Option<string>, lastName: Option<string>)
    | GoogleFail(status: nat, error: string)

  datatype GoogleOutcome = GoogleOutcome(reply: GoogleReply, users: seq<UserRow>, nextId: nat)

  function GoogleReplyFor(u: UserRow, sign: Claims -> string): GoogleReply {
    GoogleAuthed(sign(Payload(u)), Payload(u), u.firstName, u.lastName)
  }

  /** A known user's names after the login: an empty name is filled from the split, a set one is kept. */
  function FillNames(u: UserRow, first: string, last: string): (v: UserRow)
    ensures v.firstName == Some(OrStr(u.firstName, first)) && v.lastName == Some(OrStr(u.lastName, last))
    ensures v.(firstName := u.firstName, lastName := u.lastName) == u
  {
    u.(firstName := Some(OrStr(u.firstName, first)), lastName := Some(OrStr(u.lastName, last)))
  }

  /** `googleLogin`; `randomHash` is the hash of the random password a new account gets. */
  function GoogleLoginSpec(users: seq<UserRow>, nextId: nat, payload: Option<IdentityPayload>,
                           randomHash: string, sign: Claims -> string, now: int): GoogleOutcome
  {
    match payload
    case None => GoogleOutcome(GoogleFail(400, "Google login failed"), users, nextId)
    case Some(p) =>
      var (first, last) := SplitName(p.name);
      match UserIndexByEmail(users, p.email)
      case None =>
        var u := UserRow(nextId, p.email, randomHash, User, Some(first), Some(last),
                         None, None, None, None, None, now);
        GoogleOutcome(GoogleReplyFor(u, sign), users + [u], nextId + 1)
      case Some(i) =>
        if !TruthyStr(users[i].firstName) || !TruthyStr(users[i].lastName) then
          var u := FillNames(users[i], first, last);
          GoogleOutcome(GoogleReplyFor(u, sign), users[i := u], nextId)
        else GoogleOutcome(GoogleReplyFor(users[i], sign), users, nextId)
  }

  /**
   * An unknown email gets a new USER with the split names; a known user
   * keeps every name already set and has only empty ones filled; no other
   * row changes.
   */
  lemma GoogleLoginRules(users: seq<UserRow>, nextId: nat, p: IdentityPayload, randomHash: string,
                         sign: Claims -> string, now: int)
    ensures var out := GoogleLoginSpec(users, nextId, Some(p), randomHash, sign, now);
            var (first, last) := SplitName(p.name);
            && out.reply.GoogleAuthed?
            && (UserIndexByEmail(users, p.email).None? ==>
                  out.users == users + [out.users[|users|]]
                  && out.users[|users|].role == User && out.users[|users|].email == p.email
                  && out.users[|users|].firstName == Some(first) && out.users[|users|].lastName == Some(last))
            && (UserIndexByEmail(users, p.email).Some? ==>
                  var i := UserIndexByEmail(users, p.email).value;
                  && |out.users| == |users| && out.nextId == nextId
                  && (forall j :: 0 <= j < |users| && j != i ==> out.users[j] == users[j])
                  && out.users[i].role == users[i].role
                  && (TruthyStr(users[i].firstName) ==> out.users[i].firstName == users[i].firstName)
                  && (TruthyStr(users[i].lastName) ==> out.users[i].lastName == users[i].lastName)
                  && (!TruthyStr(users[i].firstName) ==> out.users[i].firstName == Some(first))
                  && (!TruthyStr(users[i].lastName) ==> out.users[i].lastName == Some(last)))
  {
  }

  /** The handler. */
  method GoogleLogin(db: Store, payload: Option<IdentityPayload>, randomHash: string, sign: Claims -> string,
                     now: int) returns (reply: GoogleReply)
    requires db.Valid()
    modifies db`users, db`nextId
    ensures db.Valid()
    ensures GoogleOutcome(reply, db.users, db.nextId)
            == GoogleLoginSpec(old(db.users), old(db.nextId), payload, randomHash, sign, now)
  {
    if payload.None? {
      return GoogleFail(400, "Google login failed");
    }
    var p := payload.value;
    var existing := UserIndexByEmail(db.users, p.email);
    var (firstName, lastName) := SplitName(p.name);
    var user: UserRow;
    if existing.None? {
      user := InsertUser(db, p.email, randomHash, Some(firstName), Some(lastName), now);
    } else {
      user := db.users[existing.value];
      if !TruthyStr(user.firstName) || !TruthyStr(user.lastName) {
        user := FillNames(user, firstName, lastName);
        SaveUser(db, existing.value, user);
      }
    }
    reply := GoogleReplyFor(user, sign);
  }

  /** `user.create` of a USER row with a fresh id and no personal details beyond the names. */
  method InsertUser(db: Store, email: string, passwordHash: string, firstName: Option<string>,
                    lastName: Option<string>, now: int) returns (u: UserRow)
    requires db.Valid() && UserIndexByEmail(db.users, email).None?
    modifies db`users, db`nextId
    ensures db.Valid()
    ensures u == UserRow(old(db.nextId), email, passwordHash, User, firstName, lastName,
                         None, None, None, None, None, now)
    ensures db.users == old(db.users) + [u] && db.nextId == old(db.nextId) + 1
  {
    var id := db.FreshId();
    u := UserRow(id, email, passwordHash, User, firstName, lastName, None, None, None, None, None, now);
    AppendKeepsUnique(db.users, u, UserIdOf);
    AppendKeepsUnique(db.users, u, UserEmailOf);
    db.users := db.users + [u];
  }

  /** `user.update` of a row that keeps its id and email. */
  method SaveUser(db: Store, i: nat, u: UserRow)
    requires db.Valid() && i < |db.users| && u.id == db.users[i].id && u.email == db.users[i].email
    modifies db`users
    ensures db.Valid()
    ensures db.users == old(db.users)[i := u]
  {
    UpdateKeepsUnique(db.users, i, u, UserIdOf);
    UpdateKeepsUnique(db.users, i, u, UserEmailOf);
    db.users := db.users[i := u];
  }
}
