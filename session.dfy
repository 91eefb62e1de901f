/**
 * The store and the API client together. Both hold the page's one local storage, but
 * only the client reads or writes the token key, so signing out through the store does
 * not end the API session.
 */
module Session {
  import opened Wrappers
  import Store
  import Api

  /** The keys the store removes on sign-out are not the token key. */
  lemma KeysDiffer()
    ensures Api.TokenKey != Store.AuthKey && Api.TokenKey != Store.UserKey
  {
  }

  /**
   * After `logout`, the client's token is still in memory and in storage, an endpoint call
   * still carries it as a bearer credential, and a client loaded afresh reads it back.
   */
  method LogoutKeepsToken(store: Store.AppStore, client: Api.ApiClient, e: Api.Endpoint, env: Option<string>)
    returns (request: Api.Request, reloaded: Api.ApiClient)
    requires client.storage == store.storage
    modifies store`isAuthenticated, store`user, store.storage
    ensures !store.isAuthenticated && client.authToken == old(client.authToken)
    ensures store.storage.GetItem(Api.TokenKey) == old(store.storage.GetItem(Api.TokenKey))
    ensures request == Api.BuildRequest(client.apiUrl, client.authToken, Api.Path(e), Api.Init(e))
    ensures Api.TokenHeld(client.authToken) ==>
              request.headers[Api.Authorization] == "Bearer " + client.authToken.value
    ensures reloaded.authToken == old(store.storage.GetItem(Api.TokenKey))
  {
    store.Logout();
    KeysDiffer();
    request := Api.BuildRequest(client.apiUrl, client.authToken, Api.Path(e), Api.Init(e));
    reloaded := new Api.ApiClient(store.storage, env);
  }
}
