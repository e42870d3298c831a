/** The authentication context of client/src/contexts/AuthContext.tsx: the
    signed-in user and a loading flag over the authentication service. */
module AuthContext {
  import opened Wrappers
  import opened Schema
  import opened Storage
  import Auth

  class AuthProvider {
    var user: Option<User>
    var isLoading: bool
    const stores: Stores

    /** The in-memory user is the stored session user. */
    ghost predicate Synced()
      reads this, stores
    {
      user == Auth.CurrentUser(stores.local)
    }

    constructor (stores: Stores)
      ensures this.stores == stores && user == None && isLoading
    {
      this.stores := stores;
      user := None;
      isLoading := true;
    }

    /** The mount effect: restore the session user, stop loading, then seed
        the user list. */
    method Mount(readFails: bool, writeFails: bool, now: string)
      modifies this, stores
      ensures user == Auth.CurrentUser(old(stores.local)) && !isLoading
      ensures stores.State() == Auth.UsersInitialized(old(stores.State()), readFails, writeFails, now)
      ensures Synced()
    {
      user := Auth.CurrentUser(stores.local);
      isLoading := false;
      Auth.InitializeDefaultUsers(stores, readFails, writeFails, now);
      Auth.UsersInitializedIdempotent(old(stores.State()), readFails, writeFails, now, now);
    }

    /** `login`: true exactly when sign-in finds the user, who becomes the
        context's user; a refused or failed sign-in keeps the user. */
    method Login(email: string, password: string, readFails: bool, now: string) returns (ok: bool)
      modifies this, stores
      ensures var (r, t) := Auth.Authenticate(old(stores.State()), email, password, readFails, now);
              && stores.State() == t
              && (ok <==> r.Success? && r.value.Some?)
              && (ok ==> user == r.value && user.value.email == email && user.value.password == password)
              && (!ok ==> user == old(user))
      ensures !isLoading
      ensures old(Synced()) ==> Synced()
    {
      isLoading := true;
      ghost var t0 := stores.State();
      var r := Auth.AuthenticateUser(stores, email, password, readFails, now);
      if r.Success? && r.value.Some? {
        Auth.AuthenticateMeaning(t0, email, password, readFails, now);
        user := r.value;
        ok := true;
      } else {
        if r.Success? {
          Auth.AuthenticateMeaning(t0, email, password, readFails, now);
        }
        ok := false;
      }
      isLoading := false;
    }

    /** `logout`: no user, in memory or stored. */
    method Logout()
      modifies this, stores
      ensures user == None && Auth.CurrentUser(stores.local) == None
      ensures stores.local == old(stores.local) - {SessionKey} && stores.remote == old(stores.remote)
      ensures isLoading == old(isLoading)
      ensures Synced()
    {
      Auth.ClearCurrentUser(stores);
      user := None;
    }
  }
}
