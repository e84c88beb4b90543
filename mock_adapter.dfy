/**
 * `mock-adapter.ts`: the auth library's storage adapter over the same local JSON store.
 * Lookups are functions of the store's content; each writing operation is one update of
 * the `LocalDb` object.
 */
module MockAdapter {
  import opened Wrappers
  import opened Seqs
  import opened Records
  import opened LocalStore

  // ------------------------------------------------------------------------------------------
  // Verification tokens

  /** The position of the first token with that identifier and value, or -1. */
  function TokenIndex(tokens: seq<VerificationToken>, identifier: string, token: string): (i: int)
    ensures -1 <= i < |tokens|
    ensures 0 <= i ==> tokens[i].identifier == identifier && tokens[i].token == token
    ensures 0 <= i ==> forall j :: 0 <= j < i ==> tokens[j].identifier != identifier || tokens[j].token != token
    ensures i == -1 ==> forall t :: t in tokens ==> t.identifier != identifier || t.token != token
  {
    FindIndex(tokens, (t: VerificationToken) => t.identifier == identifier && t.token == token)
  }

  /** No two stored tokens share both identifier and value. */
  ghost predicate UniqueTokens(tokens: seq<VerificationToken>) {
    forall i, j :: 0 <= i < j < |tokens| ==>
      tokens[i].identifier != tokens[j].identifier || tokens[i].token != tokens[j].token
  }

  /** `createVerificationToken`: stores the token and returns it. */
  method CreateVerificationToken(db: LocalDb, token: VerificationToken) returns (r: VerificationToken)
    modifies db
    ensures r == token
    ensures db.Read() == old(db.Read()).(verificationTokens := old(db.verificationTokens) + [token])
  {
    db.verificationTokens := db.verificationTokens + [token];
    r := token;
  }

  /** `useVerificationToken`: removes and returns the first matching token, or returns null. */
  method UseVerificationToken(db: LocalDb, identifier: string, token: string) returns (r: Option<VerificationToken>)
    modifies db
    ensures TokenIndex(old(db.verificationTokens), identifier, token) == -1 ==>
      r.None? && db.Read() == old(db.Read())
    ensures var i := TokenIndex(old(db.verificationTokens), identifier, token);
      0 <= i ==> (r == Some(old(db.verificationTokens)[i])
                  && db.Read() == old(db.Read()).(verificationTokens := RemoveAt(old(db.verificationTokens), i)))
  {
    var i := FindIndex(db.verificationTokens, (t: VerificationToken) => t.identifier == identifier && t.token == token);
    if i == -1 {
      return None;
    }
    r := Some(db.verificationTokens[i]);
    db.verificationTokens := RemoveAt(db.verificationTokens, i);
  }

  /** With unique tokens, a token that has been used cannot be used again. */
  lemma UsedTokenIsGone(tokens: seq<VerificationToken>, identifier: string, token: string)
    requires UniqueTokens(tokens)
    requires 0 <= TokenIndex(tokens, identifier, token)
    ensures TokenIndex(RemoveAt(tokens, TokenIndex(tokens, identifier, token)), identifier, token) == -1
    ensures UniqueTokens(RemoveAt(tokens, TokenIndex(tokens, identifier, token)))
  {
    var i := TokenIndex(tokens, identifier, token);
    var r := RemoveAt(tokens, i);
    forall t | t in r ensures t.identifier != identifier || t.token != token {
      var k :| 0 <= k < |r| && r[k] == t;
      if k >= i {
        assert r[k] == tokens[k + 1];
      }
    }
    forall a, b | 0 <= a < b < |r| ensures r[a].identifier != r[b].identifier || r[a].token != r[b].token {
      var a' := if a < i then a else a + 1;
      var b' := if b < i then b else b + 1;
      assert r[a] == tokens[a'] && r[b] == tokens[b'];
    }
  }

  /** A token that does not clash with a stored one is found, and is itself, after it is stored. */
  lemma CreatedTokenCanBeUsed(tokens: seq<VerificationToken>, t: VerificationToken)
    requires TokenIndex(tokens, t.identifier, t.token) == -1
    ensures TokenIndex(tokens + [t], t.identifier, t.token) == |tokens|
  {
    var all := tokens + [t];
    assert all[|tokens|] == t;
    assert forall j :: 0 <= j < |tokens| ==> all[j] == tokens[j] && all[j] in tokens;
  }

  // ------------------------------------------------------------------------------------------
  // Users

  /**
   * The keys of a user object handed to `createUser` or `updateUser`; absent keys keep their
   * value, and `createUser` starts from a user that has only the generated id.
   */
  datatype UserPatch = UserPatch(id: Field<string>, name: Field<Option<string>>, email: Field<Option<string>>,
                                 emailVerified: Field<Option<Time>>, image: Field<Option<string>>)

  /** `{...u, ...p}`. */
  function MergeUser(u: User, p: UserPatch): (r: User)
    ensures r.id == (if p.id.Set? then p.id.value else u.id)
    ensures r.name == (if p.name.Set? then p.name.value else u.name)
    ensures r.email == (if p.email.Set? then p.email.value else u.email)
    ensures r.emailVerified == (if p.emailVerified.Set? then p.emailVerified.value else u.emailVerified)
    ensures r.image == (if p.image.Set? then p.image.value else u.image)
  {
    User(p.id.Over(u.id), p.name.Over(u.name), p.email.Over(u.email),
         p.emailVerified.Over(u.emailVerified), p.image.Over(u.image))
  }

  /** `{ id: crypto.randomUUID(), ...user }`: an id the caller supplies wins over the generated one. */
  function NewUser(p: UserPatch, freshId: string): (u: User)
    ensures u.id == (if p.id.Set? then p.id.value else freshId)
    ensures u.name == (if p.name.Set? then p.name.value else None)
    ensures u.email == (if p.email.Set? then p.email.value else None)
    ensures u.emailVerified == (if p.emailVerified.Set? then p.emailVerified.value else None)
    ensures u.image == (if p.image.Set? then p.image.value else None)
  {
    MergeUser(User(freshId, None, None, None, None), p)
  }

  /** `createUser`. */
  method CreateUser(db: LocalDb, p: UserPatch, freshId: string) returns (u: User)
    modifies db
    ensures u == NewUser(p, freshId)
    ensures db.Read() == old(db.Read()).(users := old(db.users) + [u])
  {
    u := NewUser(p, freshId);
    db.users := db.users + [u];
  }

  /** `getUser`: the first user with the id, or null. */
  function GetUser(s: Snapshot, id: string): (r: Option<User>)
    ensures r.None? <==> forall u :: u in s.users ==> u.id != id
    ensures r.Some? ==> r.value in s.users && r.value.id == id
    ensures r.Some? ==> 0 <= UserIndex(s.users, id) && r.value == s.users[UserIndex(s.users, id)]
  {
    Find(s.users, (u: User) => u.id == id)
  }

  /** A user created with an id no other user has is the one `getUser` returns for it. */
  lemma CreatedUserIsFound(s: Snapshot, p: UserPatch, freshId: string)
    requires GetUser(s, NewUser(p, freshId).id).None?
    ensures GetUser(s.(users := s.users + [NewUser(p, freshId)]), NewUser(p, freshId).id) == Some(NewUser(p, freshId))
  {
    var u := NewUser(p, freshId);
    var users := s.users + [u];
    assert users[|s.users|] == u;
    assert forall x :: x in users ==> x in s.users || x == u;
  }

  /** A user together with the accounts linked to it, as `getUserByEmail` returns it. */
  datatype UserWithAccounts = UserWithAccounts(user: User, accounts: seq<Account>)

  /** `getUserByEmail`: the first user with that email, with every account linked to that user's id. */
  function GetUserByEmail(s: Snapshot, email: string): (r: Option<UserWithAccounts>)
    ensures r.None? <==> forall u :: u in s.users ==> u.email != Some(email)
    ensures r.Some? ==> r.value.user in s.users && r.value.user.email == Some(email)
    ensures r.Some? ==> exists i :: (0 <= i < |s.users| && s.users[i] == r.value.user
      && forall j :: 0 <= j < i ==> s.users[j].email != Some(email))
    ensures r.Some? ==> forall a :: a in r.value.accounts <==> a in s.accounts && a.userId == r.value.user.id
  {
    match Find(s.users, (u: User) => u.email == Some(email))
    case None => None
    case Some(u) => Some(UserWithAccounts(u, Filter(s.accounts, (a: Account) => a.userId == u.id)))
  }

  /** The position of the first account with the provider account id and the provider, or -1. */
  function AccountIndex(accounts: seq<Account>, providerAccountId: string, provider: string): (i: int)
    ensures -1 <= i < |accounts|
    ensures 0 <= i ==> accounts[i].providerAccountId == providerAccountId && accounts[i].provider == provider
    ensures 0 <= i ==> forall j :: 0 <= j < i ==>
      accounts[j].providerAccountId != providerAccountId || accounts[j].provider != provider
    ensures i == -1 ==> forall a :: a in accounts ==> a.providerAccountId != providerAccountId || a.provider != provider
  {
    FindIndex(accounts, (a: Account) => a.providerAccountId == providerAccountId && a.provider == provider)
  }

  /** `getUserByAccount`: only the first account with the provider and provider account id is consulted. */
  function GetUserByAccount(s: Snapshot, providerAccountId: string, provider: string): (r: Option<User>)
    ensures (forall a :: a in s.accounts ==> a.providerAccountId != providerAccountId || a.provider != provider)
      ==> r.None?
    ensures var i := AccountIndex(s.accounts, providerAccountId, provider);
      0 <= i ==> r == GetUser(s, s.accounts[i].userId)
    ensures r.Some? ==> r.value in s.users
    ensures r.Some? ==> exists a :: a in s.accounts && a.providerAccountId == providerAccountId
                                              && a.provider == provider && a.userId == r.value.id
  {
    match Find(s.accounts, (a: Account) => a.providerAccountId == providerAccountId && a.provider == provider)
    case None => None
    case Some(a) => GetUser(s, a.userId)
  }

  /** Linking a new account makes the adapter find its user through it. */
  lemma LinkedAccountFindsUser(s: Snapshot, a: Account)
    requires forall x :: x in s.accounts ==> x.providerAccountId != a.providerAccountId || x.provider != a.provider
    ensures GetUserByAccount(s.(accounts := s.accounts + [a]), a.providerAccountId, a.provider) == GetUser(s, a.userId)
  {
    var accounts := s.accounts + [a];
    assert FindIndex(accounts, (x: Account) => x.providerAccountId == a.providerAccountId && x.provider == a.provider)
        == |s.accounts| by {
      assert accounts[|s.accounts|] == a;
      assert forall j :: 0 <= j < |s.accounts| ==> accounts[j] == s.accounts[j] && accounts[j] in s.accounts;
    }
  }

  /** The position of the first user with the id, or -1. */
  function UserIndex(users: seq<User>, id: string): (i: int)
    ensures -1 <= i < |users|
    ensures 0 <= i ==> users[i].id == id && forall j :: 0 <= j < i ==> users[j].id != id
    ensures i == -1 ==> forall u :: u in users ==> u.id != id
  {
    FindIndex(users, (u: User) => u.id == id)
  }

  /** Where `updateUser` writes: the object's id must be present and must name a stored user. */
  function UpdateTarget(users: seq<User>, p: UserPatch): (i: int)
    ensures -1 <= i < |users|
    ensures p.id.Keep? ==> i == -1
    ensures p.id.Set? ==> i == UserIndex(users, p.id.value)
  {
    if p.id.Keep? then -1 else UserIndex(users, p.id.value)
  }

  /** `updateUser`: merges the object into the first user with its id, or throws `User not found`. */
  method UpdateUser(db: LocalDb, p: UserPatch) returns (r: Result<User>)
    modifies db
    ensures UpdateTarget(old(db.users), p) == -1 ==> r == Err("User not found") && db.Read() == old(db.Read())
    ensures var i := UpdateTarget(old(db.users), p);
      0 <= i ==> (r == Ok(MergeUser(old(db.users)[i], p))
                  && db.Read() == old(db.Read()).(users := old(db.users)[i := MergeUser(old(db.users)[i], p)]))
    ensures r.Ok? ==> r.value.id == p.id.value
  {
    if p.id.Keep? {
      return Err("User not found");
    }
    var i := FindIndex(db.users, (u: User) => u.id == p.id.value);
    if i == -1 {
      return Err("User not found");
    }
    var merged := MergeUser(db.users[i], p);
    db.users := db.users[i := merged];
    r := Ok(merged);
  }

  // ------------------------------------------------------------------------------------------
  // Accounts and sessions

  /** `linkAccount`. */
  method LinkAccount(db: LocalDb, a: Account) returns (r: Account)
    modifies db
    ensures r == a
    ensures db.Read() == old(db.Read()).(accounts := old(db.accounts) + [a])
  {
    db.accounts := db.accounts + [a];
    r := a;
  }

  /** `createSession`. */
  method CreateSession(db: LocalDb, session: Session) returns (r: Session)
    modifies db
    ensures r == session
    ensures db.Read() == old(db.Read()).(sessions := old(db.sessions) + [session])
  {
    db.sessions := db.sessions + [session];
    r := session;
  }

  datatype SessionAndUser = SessionAndUser(session: Session, user: User)

  /** `getSessionAndUser`: a falsy token, an unknown token and a session without its user all give null. */
  function GetSessionAndUser(s: Snapshot, sessionToken: Option<string>): (r: Option<SessionAndUser>)
    ensures !Truthy(sessionToken) ==> r.None?
    ensures r.Some? ==> r.value.session in s.sessions && Some(r.value.session.sessionToken) == sessionToken
    ensures r.Some? ==> r.value.user in s.users && r.value.user.id == r.value.session.userId
    ensures Truthy(sessionToken) && (forall x :: x in s.sessions ==> x.sessionToken != sessionToken.value) ==> r.None?
    ensures Truthy(sessionToken) && 0 <= SessionIndex(s.sessions, sessionToken.value) ==>
      var x := s.sessions[SessionIndex(s.sessions, sessionToken.value)];
      r == (if GetUser(s, x.userId).Some? then Some(SessionAndUser(x, GetUser(s, x.userId).value)) else None)
  {
    if !Truthy(sessionToken) then None
    else
      match Find(s.sessions, (x: Session) => x.sessionToken == sessionToken.value)
      case None => None
      case Some(session) =>
        match GetUser(s, session.userId)
        case None => None
        case Some(u) => Some(SessionAndUser(session, u))
  }

  /** The keys of a session update: the token that selects the session, and what it may change. */
  datatype SessionPatch = SessionPatch(sessionToken: string, userId: Field<string>, expires: Field<Time>)

  function MergeSession(x: Session, p: SessionPatch): (r: Session)
    ensures r.sessionToken == p.sessionToken
    ensures r.userId == (if p.userId.Set? then p.userId.value else x.userId)
    ensures r.expires == (if p.expires.Set? then p.expires.value else x.expires)
  {
    Session(p.sessionToken, p.userId.Over(x.userId), p.expires.Over(x.expires))
  }

  function SessionIndex(sessions: seq<Session>, sessionToken: string): (i: int)
    ensures -1 <= i < |sessions|
    ensures 0 <= i ==> sessions[i].sessionToken == sessionToken
    ensures 0 <= i ==> forall j :: 0 <= j < i ==> sessions[j].sessionToken != sessionToken
    ensures i == -1 ==> forall x :: x in sessions ==> x.sessionToken != sessionToken
  {
    FindIndex(sessions, (x: Session) => x.sessionToken == sessionToken)
  }

  /** `updateSession`: merges into the first session with the token, or returns null. */
  method UpdateSession(db: LocalDb, p: SessionPatch) returns (r: Option<Session>)
    modifies db
    ensures SessionIndex(old(db.sessions), p.sessionToken) == -1 ==> r.None? && db.Read() == old(db.Read())
    ensures var i := SessionIndex(old(db.sessions), p.sessionToken);
      0 <= i ==> (r == Some(MergeSession(old(db.sessions)[i], p))
                  && db.Read() == old(db.Read()).(sessions := old(db.sessions)[i := MergeSession(old(db.sessions)[i], p)]))
  {
    var i := FindIndex(db.sessions, (x: Session) => x.sessionToken == p.sessionToken);
    if i == -1 {
      return None;
    }
    var merged := MergeSession(db.sessions[i], p);
    db.sessions := db.sessions[i := merged];
    r := Some(merged);
  }

  function WithoutSession(sessions: seq<Session>, sessionToken: string): (r: seq<Session>)
    ensures forall x :: x in r <==> x in sessions && x.sessionToken != sessionToken
    ensures IsSubseq(r, sessions)
  {
    FilterIsSubseq(sessions, (x: Session) => x.sessionToken != sessionToken);
    Filter(sessions, (x: Session) => x.sessionToken != sessionToken)
  }

  /** `deleteSession`. */
  method DeleteSession(db: LocalDb, sessionToken: string)
    modifies db
    ensures db.Read() == old(db.Read()).(sessions := WithoutSession(old(db.sessions), sessionToken))
  {
    db.sessions := WithoutSession(db.sessions, sessionToken);
  }

  /** After a session is deleted its token no longer signs anybody in. */
  lemma DeletedSessionIsGone(s: Snapshot, sessionToken: string)
    ensures GetSessionAndUser(s.(sessions := WithoutSession(s.sessions, sessionToken)), Some(sessionToken)).None?
  {
  }

  function WithoutAccount(accounts: seq<Account>, provider: string, providerAccountId: string): (r: seq<Account>)
    ensures forall a :: a in r <==> a in accounts && !(a.provider == provider && a.providerAccountId == providerAccountId)
    ensures IsSubseq(r, accounts)
  {
    FilterIsSubseq(accounts, (a: Account) => !(a.provider == provider && a.providerAccountId == providerAccountId));
    Filter(accounts, (a: Account) => !(a.provider == provider && a.providerAccountId == providerAccountId))
  }

  /** `unlinkAccount`. */
  method UnlinkAccount(db: LocalDb, provider: string, providerAccountId: string)
    modifies db
    ensures db.Read() == old(db.Read()).(accounts := WithoutAccount(old(db.accounts), provider, providerAccountId))
  {
    db.accounts := WithoutAccount(db.accounts, provider, providerAccountId);
  }

  /** After an account is unlinked nobody is found through it. */
  lemma UnlinkedAccountFindsNobody(s: Snapshot, provider: string, providerAccountId: string)
    ensures GetUserByAccount(s.(accounts := WithoutAccount(s.accounts, provider, providerAccountId)),
                             providerAccountId, provider).None?
  {
  }

  /** The collections after `deleteUser`: the user, its sessions and its accounts are gone. */
  function WithoutUser(s: Snapshot, userId: string): (r: Snapshot)
    ensures forall u :: u in r.users <==> u in s.users && u.id != userId
    ensures forall x :: x in r.sessions <==> x in s.sessions && x.userId != userId
    ensures forall a :: a in r.accounts <==> a in s.accounts && a.userId != userId
    ensures r.groups == s.groups && r.group_members == s.group_members && r.todos == s.todos
    ensures r.notes == s.notes && r.messages == s.messages && r.verificationTokens == s.verificationTokens
    ensures IsSubseq(r.users, s.users) && IsSubseq(r.sessions, s.sessions) && IsSubseq(r.accounts, s.accounts)
  {
    FilterIsSubseq(s.users, (u: User) => u.id != userId);
    FilterIsSubseq(s.sessions, (x: Session) => x.userId != userId);
    FilterIsSubseq(s.accounts, (a: Account) => a.userId != userId);
    s.(users := Filter(s.users, (u: User) => u.id != userId),
       sessions := Filter(s.sessions, (x: Session) => x.userId != userId),
       accounts := Filter(s.accounts, (a: Account) => a.userId != userId))
  }

  /** `deleteUser`. */
  method DeleteUser(db: LocalDb, userId: string)
    modifies db
    ensures db.Read() == WithoutUser(old(db.Read()), userId)
  {
    var r := WithoutUser(db.Read(), userId);
    db.users := r.users;
    db.sessions := r.sessions;
    db.accounts := r.accounts;
  }

  /** Every session and every account belongs to a stored user. */
  ghost predicate OwnersExist(s: Snapshot) {
    (forall x :: x in s.sessions ==> exists u :: u in s.users && u.id == x.userId)
    && (forall a :: a in s.accounts ==> exists u :: u in s.users && u.id == a.userId)
  }

  /** Deleting a user leaves no session or account without its user. */
  lemma DeleteUserKeepsOwners(s: Snapshot, userId: string)
    requires OwnersExist(s)
    ensures OwnersExist(WithoutUser(s, userId))
  {
    var r := WithoutUser(s, userId);
    forall x | x in r.sessions ensures exists u :: u in r.users && u.id == x.userId {
      var u :| u in s.users && u.id == x.userId;
      assert u in r.users;
    }
    forall a | a in r.accounts ensures exists u :: u in r.users && u.id == a.userId {
      var u :| u in s.users && u.id == a.userId;
      assert u in r.users;
    }
  }

  /** A deleted user's sessions no longer sign anybody in. */
  lemma DeletedUserIsSignedOut(s: Snapshot, userId: string, sessionToken: Option<string>)
    ensures var r := GetSessionAndUser(WithoutUser(s, userId), sessionToken);
      r.Some? ==> r.value.user.id != userId
  {
  }
}
