/** The authentication context of src/contexts/AuthContext.tsx: the `user`
    and `isLoading` cells of `AuthProvider`, the transitions that load, log
    in, log out and refresh the user, and the `useAuth` guard. Each network
    result is a parameter. */
module AuthContext {
  import opened Wrappers
  import opened ApiTypes
  import opened Api
  import Auth

  const MissingProvider: string := "useAuth must be used within an AuthProvider"

  class AuthProvider {
    /** The client whose token store the provider reads and the auth service writes. */
    const api: ApiModule
    var user: Option<User>
    var isLoading: bool

    /** The provider's first render: no user, loading. */
    constructor (api: ApiModule)
      ensures this.api == api && user.None? && isLoading
    {
      this.api := api;
      user := None;
      isLoading := true;
    }

    /** `isAuthenticated = !!user`. */
    predicate IsAuthenticated()
      reads this
    {
      user.Some?
    }

    /** `loadUser`, run once on mount. The profile is requested only when a
        non-empty access token is stored; then a fetched profile becomes the
        user and a failure leaves no user. Loading ends either way. */
    method LoadUser(profile: Result<User, RequestError>) returns (requested: bool)
      modifies this
      ensures requested <==> Truthy(api.GetAccessToken())
      ensures !requested ==> user == old(user)
      ensures requested && profile.Success? ==> user == Some(profile.value) && IsAuthenticated()
      ensures requested && profile.Failure? ==> user.None? && !IsAuthenticated()
      ensures !requested ==> IsAuthenticated() == old(IsAuthenticated())
      ensures !isLoading
    {
      var token := api.GetAccessToken();
      requested := Truthy(token);
      if requested {
        var r := Auth.GetCurrentUser(api, profile);
        match r {
          case Success(userData) => user := Some(userData);
          case Failure(_) => user := None;
        }
      }
      isLoading := false;
    }

    /** `login(email, password)`: the user is set to the fetched profile only
        when both the login and the profile request succeed; otherwise the
        error propagates and the user stays. The token pair is stored as soon
        as the login request succeeds, even if the profile request then fails. */
    method Login(response: Result<TokenResponse, RequestError>, profile: Result<User, RequestError>)
      returns (r: Result<(), RequestError>)
      modifies this, api
      ensures isLoading == old(isLoading)
      ensures response.Failure? ==>
        r == Failure(response.error) && user == old(user) && api.State() == old(api.State())
      ensures r.Failure? ==> IsAuthenticated() == old(IsAuthenticated())
      ensures r.Success? <==> response.Success? && profile.Success?
      ensures r.Success? ==> IsAuthenticated()
      ensures response.Success? ==>
        api.State() == old(api.State()).(storage := WithTokens(old(api.storage), response.value.accessToken, response.value.refreshToken))
      ensures response.Success? && profile.Failure? ==> r == Failure(profile.error) && user == old(user)
      ensures response.Success? && profile.Success? ==> r == Success(()) && user == Some(profile.value)
    {
      var tokens := Auth.Login(api, response);
      if tokens.Failure? {
        return Failure(tokens.error);
      }
      var userData := Auth.GetCurrentUser(api, profile);
      if userData.Failure? {
        return Failure(userData.error);
      }
      user := Some(userData.value);
      r := Success(());
    }

    /** `logout()`: the service clears both tokens whatever the server says,
        and the user ends null. */
    method Logout(serverResponse: Result<(), RequestError>)
      modifies this, api
      ensures user.None? && !IsAuthenticated() && isLoading == old(isLoading)
      ensures api.State() == old(api.State()).(storage := WithoutTokens(old(api.storage)))
    {
      Auth.Logout(api, serverResponse);
      user := None;
    }

    /** `refreshUser()`: the fetched profile, or no user on failure; the
        error never propagates. */
    method RefreshUser(profile: Result<User, RequestError>)
      modifies this
      ensures profile.Success? ==> user == Some(profile.value) && IsAuthenticated()
      ensures profile.Failure? ==> user.None? && !IsAuthenticated()
      ensures isLoading == old(isLoading)
    {
      var r := Auth.GetCurrentUser(api, profile);
      match r {
        case Success(userData) => user := Some(userData);
        case Failure(_) => user := None;
      }
    }
  }

  /** `useAuth()`: the provider's value, or the error thrown when there is
      no provider above the caller. */
  function UseAuth<T>(context: Option<T>): (r: Result<T, string>)
    ensures context.None? <==> r.Failure?
    ensures r.Failure? ==> r.error == MissingProvider
    ensures context.Some? ==> r == Success(context.value)
  {
    match context
    case None => Failure(MissingProvider)
    case Some(value) => Success(value)
  }
}
