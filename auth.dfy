/** The authentication service of client/src/lib/auth.ts: the session user
    kept under one local key, sign-in against the user list (remote, with a
    local fallback seeded with demonstration accounts), registration and the
    seeding of the user list. The remote store's failures are inputs
    (`readFails`, `writeFails`); ids and timestamps are parameters. */
module Auth {
  import opened Wrappers
  import opened Schema
  import opened Storage
  import Seqs

  const AuthError: string := "Erro ao verificar credenciais. Verifique sua conexão."
  const CreateError: string := "Erro ao criar usuário"

  /** The demonstration accounts: an administrator, a store and a restaurant. */
  function DefaultUsers(now: string): seq<User> {
    [ User("admin-1", "admin@furniture.com", "admin123", "Administrador", Admin, now),
      User("loja-1", "loja@furniture.com", "loja123", "Loja Demo", Loja, now),
      User("rest-1", "restaurante@furniture.com", "rest123", "Restaurante Demo", Restaurante, now) ]
  }

  /** A user list read from a document (`|| []`). */
  function UsersOf(d: Option<Doc>): seq<User> {
    if d.Some? && d.value.UsersDoc? then d.value.users else []
  }

  // ----- The session -----

  /** `getCurrentUser`: the stored session user; none when the key is absent
      or its text does not parse. */
  function CurrentUser(local: map<string, Blob>): Option<User> {
    if SessionKey in local && local[SessionKey].Parsed? && local[SessionKey].doc.UserDoc?
    then Some(local[SessionKey].doc.user) else None
  }

  /** `setCurrentUser` */
  method SetCurrentUser(stores: Stores, user: User)
    modifies stores
    ensures stores.local == old(stores.local)[SessionKey := Parsed(UserDoc(user))]
    ensures stores.remote == old(stores.remote)
  {
    stores.local := stores.local[SessionKey := Parsed(UserDoc(user))];
  }

  /** `clearCurrentUser` */
  method ClearCurrentUser(stores: Stores)
    modifies stores
    ensures stores.local == old(stores.local) - {SessionKey}
    ensures stores.remote == old(stores.remote)
  {
    stores.local := stores.local - {SessionKey};
  }

  /** The session round trip: a stored user is read back, a cleared session
      reads as none, and no other key affects the session. */
  lemma SessionRoundTrip(local: map<string, Blob>, user: User, key: string, b: Blob)
    requires key != SessionKey
    ensures CurrentUser(local[SessionKey := Parsed(UserDoc(user))]) == Some(user)
    ensures CurrentUser(local - {SessionKey}) == None
    ensures CurrentUser(local[key := b]) == CurrentUser(local)
  {
  }

  // ----- Sign-in -----

  function Matches(email: string, password: string): User -> bool {
    (u: User) => u.email == email && u.password == password
  }

  /** The user list sign-in consults and the local store after reading it:
      the remote list when the remote read succeeds; otherwise the local list,
      seeded with the demonstration accounts when the key is absent; a failure
      when the local text does not parse. */
  function SignInUsers(t: StoreState, readFails: bool, now: string): Result<(seq<User>, map<string, Blob>)> {
    if !readFails then Success((UsersOf(ReadRemote(t.remote, UsersPath)), t.local))
    else if UsersKey !in t.local then Success((DefaultUsers(now), t.local[UsersKey := Parsed(UsersDoc(DefaultUsers(now)))]))
    else if t.local[UsersKey].Unparsable? then Failure(AuthError)
    else Success((UsersOf(Some(t.local[UsersKey].doc)), t.local))
  }

  /** `authenticateUser`: the first user whose email and password both match,
      who then becomes the session user; none when no one matches. */
  function Authenticate(t: StoreState, email: string, password: string, readFails: bool, now: string)
    : (Result<Option<User>>, StoreState)
  {
    match SignInUsers(t, readFails, now)
    case Failure(e) => (Failure(e), t)
    case Success((users, local)) =>
      var found := Seqs.FindWhere(users, Matches(email, password));
      if found.Some? then (Success(found), t.(local := local[SessionKey := Parsed(UserDoc(found.value))]))
      else (Success(None), t.(local := local))
  }

  /** `authenticateUser` on the stores. */
  method AuthenticateUser(stores: Stores, email: string, password: string, readFails: bool, now: string)
    returns (r: Result<Option<User>>)
    modifies stores
    ensures (r, stores.State()) == Authenticate(old(stores.State()), email, password, readFails, now)
  {
    var users: seq<User>;
    if !readFails {
      users := UsersOf(ReadRemote(stores.remote, UsersPath));
    } else if UsersKey in stores.local {
      if stores.local[UsersKey].Unparsable? {
        return Failure(AuthError);
      }
      users := UsersOf(Some(stores.local[UsersKey].doc));
    } else {
      users := DefaultUsers(now);
      stores.local := stores.local[UsersKey := Parsed(UsersDoc(users))];
    }
    var user := Seqs.FindWhere(users, Matches(email, password));
    if user.Some? {
      SetCurrentUser(stores, user.value);
    }
    r := Success(user);
  }

  /** Sign-in succeeds exactly for credentials some listed user has; the user
      returned has those credentials, is the first such user and becomes the
      session user; a refused sign-in leaves the session as it was; the remote
      store is never written. */
  lemma AuthenticateMeaning(t: StoreState, email: string, password: string, readFails: bool, now: string)
    requires SignInUsers(t, readFails, now).Success?
    ensures var (users, local) := SignInUsers(t, readFails, now).value;
            var (r, u) := Authenticate(t, email, password, readFails, now);
            && r.Success? && u.remote == t.remote
            && (r.value.Some? <==> exists i :: 0 <= i < |users| && users[i].email == email && users[i].password == password)
            && (r.value.Some? ==> r.value.value.email == email && r.value.value.password == password
                                  && r.value.value in users && CurrentUser(u.local) == r.value)
            && (r.value.None? ==> CurrentUser(u.local) == CurrentUser(t.local))
            && (r.value.Some? ==> exists i :: 0 <= i < |users| && users[i] == r.value.value
                                    && forall j :: 0 <= j < i ==> !(users[j].email == email && users[j].password == password))
  {
    var (users, local) := SignInUsers(t, readFails, now).value;
    var found := Seqs.FindWhere(users, Matches(email, password));
    assert forall i :: 0 <= i < |users| ==> (Matches(email, password)(users[i]) <==> users[i].email == email && users[i].password == password);
    if found.Some? {
      SessionRoundTrip(local, found.value, UsersKey, Unparsable);
    } else if local != t.local {
      assert local == t.local[UsersKey := Parsed(UsersDoc(DefaultUsers(now)))];
      SessionRoundTrip(t.local, User("", "", "", "", Admin, now), UsersKey, Parsed(UsersDoc(DefaultUsers(now))));
    }
  }

  /** Offline with no stored list, the demonstration administrator can sign
      in, and the list is stored locally for later sign-ins. */
  lemma OfflineAdminSignsIn(t: StoreState, now: string)
    requires UsersKey !in t.local
    ensures var (r, u) := Authenticate(t, "admin@furniture.com", "admin123", true, now);
            && r == Success(Some(DefaultUsers(now)[0]))
            && u.local[UsersKey] == Parsed(UsersDoc(DefaultUsers(now)))
            && CurrentUser(u.local) == Some(DefaultUsers(now)[0])
  {
    var users := DefaultUsers(now);
    assert Matches("admin@furniture.com", "admin123")(users[0]);
  }

  // ----- Registration -----

  /** `createUser`'s effect: the remote list with the new user appended, or a
      failure when the remote read throws, the email is taken or the remote
      write throws. There is no local fallback. */
  function Created(t: StoreState, data: NewUser, readFails: bool, writeFails: bool, freshId: string, now: string)
    : (Result<User>, StoreState)
  {
    if readFails then (Failure(CreateError), t)
    else
      var users := UsersOf(ReadRemote(t.remote, UsersPath));
      if exists i :: 0 <= i < |users| && users[i].email == data.email then (Failure(CreateError), t)
      else if writeFails then (Failure(CreateError), t)
      else
        var user := User(freshId, data.email, data.password, data.name, data.userType, now);
        (Success(user), t.(remote := t.remote[UsersPath := Parsed(UsersDoc(users + [user]))]))
  }

  /** `createUser` on the stores. */
  method CreateUser(stores: Stores, data: NewUser, readFails: bool, writeFails: bool, freshId: string, now: string)
    returns (r: Result<User>)
    modifies stores
    ensures (r, stores.State()) == Created(old(stores.State()), data, readFails, writeFails, freshId, now)
  {
    if readFails {
      return Failure(CreateError);
    }
    var users := UsersOf(ReadRemote(stores.remote, UsersPath));
    var existing := Seqs.FindWhere(users, (u: User) => u.email == data.email);
    if existing.Some? {
      return Failure(CreateError);
    }
    var user := User(freshId, data.email, data.password, data.name, data.userType, now);
    users := users + [user];
    if writeFails {
      return Failure(CreateError);
    }
    stores.remote := stores.remote[UsersPath := Parsed(UsersDoc(users))];
    r := Success(user);
  }

  /** A registered user can sign in: after a successful registration, signing
      in online with the same email and password returns the new user. */
  lemma {:induction false} CreatedUserSignsIn(t: StoreState, data: NewUser, writeFails: bool, freshId: string, now: string, later: string)
    requires Created(t, data, false, writeFails, freshId, now).0.Success?
    ensures var (r, u) := Created(t, data, false, writeFails, freshId, now);
            Authenticate(u, data.email, data.password, false, later).0 == Success(Some(r.value))
  {
    var users := UsersOf(ReadRemote(t.remote, UsersPath));
    var user := User(freshId, data.email, data.password, data.name, data.userType, now);
    var u := Created(t, data, false, writeFails, freshId, now).1;
    assert UsersOf(ReadRemote(u.remote, UsersPath)) == users + [user];
    var all := users + [user];
    var p := Matches(data.email, data.password);
    assert p(all[|users|]);
    forall j | 0 <= j < |users| ensures !p(all[j]) {
      assert all[j] == users[j];
    }
  }

  /** Registration never touches the local store, and a refused registration
      changes nothing. */
  lemma CreatedTouchesOnlyRemote(t: StoreState, data: NewUser, readFails: bool, writeFails: bool, freshId: string, now: string)
    ensures var (r, u) := Created(t, data, readFails, writeFails, freshId, now);
            && u.local == t.local
            && (r.Failure? ==> u == t && r.error == CreateError)
            && (r.Success? ==> !readFails && !writeFails && r.value.email == data.email && r.value.id == freshId)
  {
  }

  // ----- Seeding the user list -----

  /** `initializeDefaultUsers`' effect: nothing when the remote list is
      non-empty; otherwise the demonstration accounts are written remotely or,
      when the read or the write throws, locally if no local list exists. */
  function UsersInitialized(t: StoreState, readFails: bool, writeFails: bool, now: string): StoreState {
    if !readFails && |UsersOf(ReadRemote(t.remote, UsersPath))| > 0 then t
    else if !readFails && !writeFails then t.(remote := t.remote[UsersPath := Parsed(UsersDoc(DefaultUsers(now)))])
    else if UsersKey !in t.local then t.(local := t.local[UsersKey := Parsed(UsersDoc(DefaultUsers(now)))])
    else t
  }

  /** `initializeDefaultUsers` on the stores. */
  method InitializeDefaultUsers(stores: Stores, readFails: bool, writeFails: bool, now: string)
    modifies stores
    ensures stores.State() == UsersInitialized(old(stores.State()), readFails, writeFails, now)
  {
    if !readFails {
      var existing := ReadRemote(stores.remote, UsersPath);
      if |UsersOf(existing)| > 0 {
        return;
      }
      if !writeFails {
        stores.remote := stores.remote[UsersPath := Parsed(UsersDoc(DefaultUsers(now)))];
        return;
      }
    }
    if UsersKey !in stores.local {
      stores.local := stores.local[UsersKey := Parsed(UsersDoc(DefaultUsers(now)))];
    }
  }

  /** Seeding the user list twice, under the same failures, is seeding it once,
      and it never changes the session. */
  lemma UsersInitializedIdempotent(t: StoreState, readFails: bool, writeFails: bool, now: string, later: string)
    ensures var u := UsersInitialized(t, readFails, writeFails, now);
            && UsersInitialized(u, readFails, writeFails, later) == u
            && CurrentUser(u.local) == CurrentUser(t.local)
  {
  }

  /** On an empty store the administrator can sign in after seeding, except
      when the remote read works but the remote write throws: the accounts then
      go to the local list, which an online sign-in never reads. */
  lemma SeededAdminSignsIn(t: StoreState, readFails: bool, writeFails: bool, now: string, later: string)
    requires UsersPath !in t.remote && UsersKey !in t.local
    ensures var u := UsersInitialized(t, readFails, writeFails, now);
            var r := Authenticate(u, "admin@furniture.com", "admin123", readFails, later).0;
            && (readFails || !writeFails ==> r == Success(Some(DefaultUsers(now)[0])))
            && (!readFails && writeFails ==> r == Success(None))
  {
    var users := DefaultUsers(now);
    assert Matches("admin@furniture.com", "admin123")(users[0]);
  }
}
