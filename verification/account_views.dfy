/**
 * The Spotify connection views of accounts/views.py: `connect_spotify`
 * issues an anti-forgery state, `spotify_callback` checks it and exchanges
 * the authorization code (section 4.1 of RFC 6749), `disconnect_spotify`
 * forgets the credential.
 *
 * The random state, the client id, the redirect URI and the clock are
 * parameters; the token endpoint's answer to a code is the input `exchange`.
 */
module AccountViews {
  import opened Wrappers
  import opened Users
  import opened SpotifyTokens
  import opened Sessions

  const Scopes := "playlist-read-private playlist-read-collaborative"

  /** The query parameters of the authorize URL. */
  datatype AuthorizeParams = AuthorizeParams(
    clientId: string, responseType: string, redirectUri: string, scope: string, state: string, showDialog: string)

  /** Where a view redirects. */
  datatype Redirect = Home | Login | AccountPage | AuthorizeUrl(params: AuthorizeParams)

  /** `connect_spotify`: the state is both remembered in the session and sent to Spotify. */
  method ConnectSpotify(session: Session, state: string, clientId: string, redirectUri: string) returns (r: Redirect)
    modifies session
    ensures session.authState == Some(state)
    ensures r == AuthorizeUrl(AuthorizeParams(clientId, "code", redirectUri, Scopes, state, "true"))
    ensures r.params.state == session.authState.value
    ensures session.oauth == old(session.oauth) && session.modifiedPlaylist == old(session.modifiedPlaylist)
  {
    session.authState := Some(state);
    r := AuthorizeUrl(AuthorizeParams(clientId, "code", redirectUri, Scopes, state, "true"));
  }

  /** The query of the callback: `error`, `code` and `state`, each possibly missing. */
  datatype CallbackQuery = CallbackQuery(error: Option<string>, code: Option<string>, state: Option<string>)

  /** The guards of `spotify_callback`: no error, a code, and the expected state returned unchanged. */
  predicate Accepted(q: CallbackQuery, expected: Option<string>)
  {
    !Present(q.error) && Present(q.code) && Present(expected) && q.state == expected
  }

  /** The row `update_or_create` writes: every field from the answer, the refresh token even when absent. */
  function Issued(body: TokenResponse, now: Timestamp): (c: Credential)
    ensures c.accessToken == body.accessToken && c.refreshToken == body.refreshToken
    ensures c.scope == body.scope.GetOr("")
    ensures body.scope.None? ==> c.scope == ""
    ensures c.expiresAt == ExpiryAfter(now, body.expiresIn)
  {
    Credential(body.accessToken, body.refreshToken, body.scope.GetOr(""), ExpiryAfter(now, body.expiresIn))
  }

  /**
   * `spotify_callback`. `user` is the logged-in user, if any; `exchanged`
   * is the code sent to the token endpoint, None when no exchange is made.
   */
  method SpotifyCallback(session: Session, store: TokenStore, user: Option<User>, q: CallbackQuery,
                         now: Timestamp, exchange: string -> Exchange)
    returns (r: Redirect, exchanged: Option<string>)
    modifies session, store
    ensures session.authState == None
    ensures session.modifiedPlaylist == old(session.modifiedPlaylist)
    ensures !Accepted(q, old(session.authState)) ==>
      r == Home && exchanged == None && store.tokens == old(store.tokens) && session.oauth == old(session.oauth)
    ensures Accepted(q, old(session.authState)) ==>
      && exchanged == q.code
      && match exchange(q.code.value)
         case ExchangeFailed =>
           r == Home && store.tokens == old(store.tokens) && session.oauth == old(session.oauth)
         case Exchanged(body) =>
           if user.Some? then
             r == Home && store.tokens == old(store.tokens)[user.value := Issued(body, now)]
             && session.oauth == old(session.oauth)
           else
             r == Login && store.tokens == old(store.tokens) && session.oauth == Some(body)
  {
    var expected := session.authState;
    session.authState := None;
    if Present(q.error) {
      return Home, None;
    }
    if !Present(q.code) {
      return Home, None;
    }
    if !Present(expected) || q.state != expected {
      return Home, None;
    }
    exchanged := q.code;
    match exchange(q.code.value)
    case ExchangeFailed =>
      r := Home;
    case Exchanged(body) =>
      if user.Some? {
        store.tokens := store.tokens[user.value := Issued(body, now)];
        r := Home;
      } else {
        session.oauth := Some(body);
        r := Login;
      }
  }

  /**
   * A state is good for one callback: replaying an accepted callback makes
   * no second exchange and changes nothing more.
   */
  method CallbackReplayed(session: Session, store: TokenStore, user: Option<User>, q: CallbackQuery,
                          now: Timestamp, exchange: string -> Exchange)
    returns (first: Option<string>, second: Option<string>)
    modifies session, store
    ensures second == None
    ensures first.Some? ==> Accepted(q, old(session.authState))
  {
    var _, e1 := SpotifyCallback(session, store, user, q, now, exchange);
    ghost var tokens := store.tokens;
    var r2, e2 := SpotifyCallback(session, store, user, q, now, exchange);
    assert r2 == Home && store.tokens == tokens;
    first, second := e1, e2;
  }

  /** `disconnect_spotify`: the user's credential, if any, is deleted; no one else's changes. */
  method DisconnectSpotify(store: TokenStore, user: User) returns (r: Redirect)
    modifies store
    ensures store.tokens == old(store.tokens) - {user}
    ensures user !in store.tokens
    ensures forall u :: u != user && u in old(store.tokens) ==> u in store.tokens && store.tokens[u] == old(store.tokens)[u]
    ensures r == AccountPage
  {
    if user in store.tokens {
      store.tokens := store.tokens - {user};
    }
    r := AccountPage;
  }
}
