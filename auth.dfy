/** The authentication service of src/services/auth.ts: what its calls do to
    the token store. The network result of each call (after the client's
    interceptors have run) is a parameter, so each contract covers what the
    call's own code does; what a 401 does to the store on the way is the
    response-error handler's (`Api.OnResponseError`). */
module Auth {
  import opened Wrappers
  import opened ApiTypes
  import opened Api

  /** `login(credentials)`: on success store the response's token pair and
      return the response body unchanged; on failure propagate the error and
      leave storage alone. */
  method Login(api: ApiModule, response: Result<TokenResponse, RequestError>) returns (r: Result<TokenResponse, RequestError>)
    modifies api
    ensures r == response
    ensures response.Success? ==>
      api.State() == old(api.State()).(storage := WithTokens(old(api.storage), response.value.accessToken, response.value.refreshToken))
    ensures response.Success? ==>
      api.GetAccessToken() == Some(response.value.accessToken) && api.GetRefreshToken() == Some(response.value.refreshToken)
    ensures response.Failure? ==> api.State() == old(api.State())
  {
    match response
    case Failure(err) =>
      return Failure(err);
    case Success(body) =>
      api.SetTokens(body.accessToken, body.refreshToken);
      return Success(body);
  }

  /** `getCurrentUser()`: the profile or the error. The method has no
      `modifies` clause: its own code cannot change the client's token storage. */
  method GetCurrentUser(api: ApiModule, response: Result<User, RequestError>) returns (r: Result<User, RequestError>)
    ensures r == response
  {
    r := response;
  }

  /** `logout()`: the server's answer is ignored; both tokens are cleared and
      the call resolves normally either way. */
  method Logout(api: ApiModule, serverResponse: Result<(), RequestError>)
    modifies api
    ensures api.State() == old(api.State()).(storage := WithoutTokens(old(api.storage)))
    ensures api.GetAccessToken().None? && api.GetRefreshToken().None?
  {
    api.ClearTokens();
  }

  /** `register(data)`: the created user or the error. The method has no
      `modifies` clause: its own code cannot change the client's token storage. */
  method Register(api: ApiModule, response: Result<User, RequestError>) returns (r: Result<User, RequestError>)
    ensures r == response
  {
    r := response;
  }
}
