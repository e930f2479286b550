/**
 * The per-user Spotify credential and its renewal (accounts/spotify.py,
 * `refresh_spotify_token_for_user`, and the "look up the token, refresh it if
 * expired" prologue every API helper of that file starts with). This is the
 * refresh-token grant of section 6 of RFC 6749.
 *
 * The token endpoint is not called: its answer is an input (`Exchange`). The
 * clock is the parameter `now`, in seconds. Expiry (`SpotifyToken.is_expired`,
 * defined in accounts/models.py, which is not part of this model) is the
 * function parameter `isExpired`.
 */
module SpotifyTokens {
  import opened Wrappers
  import opened Users

  type Timestamp = int

  /** A `SpotifyToken` row. */
  datatype Credential = Credential(
    accessToken: Option<string>,
    refreshToken: Option<string>,
    scope: string,
    expiresAt: Option<Timestamp>)

  /** The JSON body of a token-endpoint answer; every key may be missing. */
  datatype TokenResponse = TokenResponse(
    accessToken: Option<string>,
    refreshToken: Option<string>,
    expiresIn: Option<int>,
    scope: Option<string>)

  /** The token-endpoint call: a 2xx answer, or a failure (`raise_for_status` or transport). */
  datatype Exchange = Exchanged(body: TokenResponse) | ExchangeFailed

  /** `now + timedelta(seconds=expires_in) if expires_in else None` */
  function ExpiryAfter(now: Timestamp, expiresIn: Option<int>): (r: Option<Timestamp>)
    ensures r.None? <==> expiresIn.None? || expiresIn.value == 0
    ensures r.Some? ==> r.value - now == expiresIn.value
  {
    if expiresIn.Some? && expiresIn.value != 0 then Some(now + expiresIn.value) else None
  }

  /** `if not st.refresh_token: raise` lets a refresh through only with a non-empty token. */
  predicate Refreshable(c: Credential)
  {
    Present(c.refreshToken)
  }

  /** The credential after a successful refresh-token grant. */
  function Renewed(c: Credential, body: TokenResponse, now: Timestamp): (r: Credential)
    ensures r.accessToken == body.accessToken
    ensures r.expiresAt == ExpiryAfter(now, body.expiresIn)
    ensures Present(body.refreshToken) ==> r.refreshToken == body.refreshToken
    ensures !Present(body.refreshToken) ==> r.refreshToken == c.refreshToken
    ensures r.scope == c.scope
    ensures Refreshable(c) ==> Refreshable(r)
  {
    c.(accessToken := body.accessToken,
       expiresAt := ExpiryAfter(now, body.expiresIn),
       refreshToken := if Present(body.refreshToken) then body.refreshToken else c.refreshToken)
  }

  datatype RefreshError = NoToken | NoRefreshToken | ExchangeError

  datatype RefreshOutcome = Refreshed(credential: Credential) | RefreshFailed(error: RefreshError)

  datatype AuthOutcome = Authorized(accessToken: Option<string>) | AuthFailed(error: RefreshError)

  /** The `SpotifyToken` table: at most one credential per user. */
  class TokenStore {
    var tokens: map<User, Credential>

    constructor()
      ensures tokens == map[]
    {
      tokens := map[];
    }

    /**
     * `refresh_spotify_token_for_user`. `sent` is the refresh token the grant
     * carries, None when no exchange is attempted.
     */
    method Refresh(user: User, now: Timestamp, exchange: Exchange) returns (r: RefreshOutcome, sent: Option<string>)
      modifies this
      ensures user !in old(tokens) ==> r == RefreshFailed(NoToken) && sent == None
      ensures user in old(tokens) && !Refreshable(old(tokens)[user]) ==> r == RefreshFailed(NoRefreshToken) && sent == None
      ensures sent.Some? <==> user in old(tokens) && Refreshable(old(tokens)[user])
      ensures sent.Some? ==> sent == old(tokens)[user].refreshToken
      ensures sent.Some? && exchange.ExchangeFailed? ==> r == RefreshFailed(ExchangeError)
      ensures sent.Some? && exchange.Exchanged?
        ==> r == Refreshed(Renewed(old(tokens)[user], exchange.body, now))
            && tokens == old(tokens)[user := r.credential]
      ensures !r.Refreshed? ==> tokens == old(tokens)
    {
      if user !in tokens {
        return RefreshFailed(NoToken), None;
      }
      var st := tokens[user];
      if !Present(st.refreshToken) {
        return RefreshFailed(NoRefreshToken), None;
      }
      sent := st.refreshToken;
      match exchange {
        case ExchangeFailed =>
          r := RefreshFailed(ExchangeError);
        case Exchanged(body) =>
          st := Renewed(st, body, now);
          tokens := tokens[user := st];
          r := Refreshed(st);
      }
    }

    /**
     * The prologue of every API helper: `SpotifyToken.objects.get(user=user)`,
     * then a refresh when the token is expired. `refreshed` says whether the
     * refresh ran.
     */
    method Authorize(user: User, now: Timestamp, isExpired: (Credential, Timestamp) -> bool, exchange: Exchange)
      returns (r: AuthOutcome, refreshed: bool)
      modifies this
      ensures user !in old(tokens) ==> r == AuthFailed(NoToken) && !refreshed && tokens == old(tokens)
      ensures refreshed <==> user in old(tokens) && isExpired(old(tokens)[user], now)
      ensures user in old(tokens) && !refreshed ==> r == Authorized(old(tokens)[user].accessToken) && tokens == old(tokens)
      ensures refreshed && r.Authorized?
        ==> exchange.Exchanged? && Refreshable(old(tokens)[user])
            && tokens == old(tokens)[user := Renewed(old(tokens)[user], exchange.body, now)]
            && r.accessToken == exchange.body.accessToken
      ensures refreshed && Refreshable(old(tokens)[user]) && exchange.Exchanged?
        ==> r == Authorized(exchange.body.accessToken)
      ensures refreshed && !Refreshable(old(tokens)[user]) ==> r == AuthFailed(NoRefreshToken)
      ensures refreshed && Refreshable(old(tokens)[user]) && exchange.ExchangeFailed? ==> r == AuthFailed(ExchangeError)
      ensures r.AuthFailed? ==> tokens == old(tokens)
    {
      if user !in tokens {
        return AuthFailed(NoToken), false;
      }
      var st := tokens[user];
      refreshed := isExpired(st, now);
      if refreshed {
        var outcome, _ := Refresh(user, now, exchange);
        match outcome {
          case Refreshed(c) => r := Authorized(c.accessToken);
          case RefreshFailed(e) => r := AuthFailed(e);
        }
      } else {
        r := Authorized(st.accessToken);
      }
    }
  }
}
