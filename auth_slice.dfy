/**
 * The auth state, and its mirror in the HTTP client: every reducer that sets or clears the token
 * also sets or clears the client's bearer token.
 */
module AuthSlice {
  import opened Wrappers
  import opened Api

  datatype User = User(id: string, email: string, name: string, isVerified: bool)

  /** A `Partial<User>`: the fields present in the payload. */
  datatype UserPatch = UserPatch(id: Option<string>, email: Option<string>, name: Option<string>, isVerified: Option<bool>)

  /** `{...user, ...patch}`: each present field of the patch wins. */
  function Patched(u: User, p: UserPatch): (r: User)
    ensures r.id == p.id.GetOr(u.id) && r.email == p.email.GetOr(u.email)
    ensures r.name == p.name.GetOr(u.name) && r.isVerified == p.isVerified.GetOr(u.isVerified)
  {
    User(p.id.GetOr(u.id), p.email.GetOr(u.email), p.name.GetOr(u.name), p.isVerified.GetOr(u.isVerified))
  }

  /** An empty patch changes nothing, and patching twice with the same fields is patching once. */
  lemma PatchLaws(u: User, p: UserPatch)
    ensures Patched(u, UserPatch(None, None, None, None)) == u
    ensures Patched(Patched(u, p), p) == Patched(u, p)
  {
  }

  class AuthStore {
    const api: ApiClient
    var user: Option<User>
    var token: Option<string>
    var isLoading: bool
    var isAuthenticated: bool
    var error: Option<string>

    constructor (api: ApiClient)
      requires api.token == None
      ensures this.api == api
      ensures user == None && token == None && !isLoading && !isAuthenticated && error == None
      ensures TokenMirrored()
    {
      this.api := api;
      user := None;
      token := None;
      isLoading := false;
      isAuthenticated := false;
      error := None;
    }

    /** The state's token is the one the client sends. */
    predicate TokenMirrored()
      reads this, api
    {
      token == api.token
    }

    /** logout: no user, no token, here and in the client. */
    method Logout()
      modifies this`user, this`token, this`isAuthenticated, this`error, api`token
      ensures user == None && token == None && !isAuthenticated && error == None && api.token == None
      ensures TokenMirrored()
    {
      user := None;
      token := None;
      isAuthenticated := false;
      error := None;
      api.SetToken(None);
    }

    method ClearError()
      modifies this`error
      ensures error == None
    {
      error := None;
    }

    /** updateUser: merges into the user when there is one, and otherwise does nothing. */
    method UpdateUser(p: UserPatch)
      modifies this`user
      ensures old(user).Some? ==> user == Some(Patched(old(user).value, p))
      ensures old(user).None? ==> user == None
    {
      if user.Some? {
        user := Some(Patched(user.value, p));
      }
    }

    method SetToken(t: string)
      modifies this`token, api`token
      ensures token == Some(t) && TokenMirrored()
    {
      token := Some(t);
      api.SetToken(Some(t));
    }

    /** The pending case of login and signup. */
    method AuthPending()
      modifies this`isLoading, this`error
      ensures isLoading && error == None
    {
      isLoading := true;
      error := None;
    }

    /** The fulfilled case of login and signup. */
    method AuthFulfilled(u: User, t: string)
      modifies this`isLoading, this`user, this`token, this`isAuthenticated, this`error, api`token
      ensures !isLoading && user == Some(u) && token == Some(t) && isAuthenticated && error == None
      ensures TokenMirrored()
    {
      isLoading := false;
      user := Some(u);
      token := Some(t);
      isAuthenticated := true;
      error := None;
      api.SetToken(Some(t));
    }

    /**
     * The rejected case of login and signup: the client token is cleared but the state's user and
     * token are left as they were, so a token held before no longer matches the client's.
     */
    method AuthRejected(message: Option<string>)
      modifies this`isLoading, this`error, this`isAuthenticated, api`token
      ensures !isLoading && error == message && !isAuthenticated && api.token == None
      ensures user == old(user) && token == old(token)
      ensures old(token).Some? ==> !TokenMirrored()
    {
      isLoading := false;
      error := message;
      isAuthenticated := false;
      api.SetToken(None);
    }
  }
}
