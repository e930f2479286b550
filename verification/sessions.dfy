/** The keys of the Django session that the core reads and writes. */
module Sessions {
  import opened Wrappers
  import opened SpotifyTokens

  class Session {
    /** 'spotify_auth_state': the anti-forgery state issued by `connect_spotify`. */
    var authState: Option<string>
    /** 'spotify_oauth': token data kept for a visitor who is not logged in. */
    var oauth: Option<TokenResponse>
    /** 'modified_playlist_id': the playlist whose track count is stale after applying removals. */
    var modifiedPlaylist: Option<string>

    constructor()
      ensures authState == None && oauth == None && modifiedPlaylist == None
    {
      authState, oauth, modifiedPlaylist := None, None, None;
    }
  }
}
