/**
  The token manager: a cached access token, shared by all callers, refreshed by
  one of them at a time.  This module holds its state and the four regions of
  code that run under its lock; module TokenProtocol interleaves them.

  Times are in nanoseconds; the zero time is 0 and lies before every clock reading.
 */
module Token {
  import opened Resources

  const TOKEN_REFRESH_BUFFER: int := 300_000_000_000
  const ZERO_TIME: int := 0

  datatype Credentials = Credentials(clientID: string, privateKeyPEM: string)

  // A non-empty token, and the credentials that signed the assertion it was exchanged for.
  datatype AccessToken = AccessToken(value: nat, mintedFrom: Credentials)

  // `None` is the empty token.  Channels are numbered as they are made; `closed` lists
  // those closed, in order.
  datatype Shared = Shared(
    credentials: Credentials, accessToken: Option<AccessToken>, expiresAt: int,
    refreshing: bool, refreshCh: Option<nat>, made: nat, closed: seq<nat>)

  function New(credentials: Credentials): Shared {
    Shared(credentials, None, ZERO_TIME, false, None, 0, [])
  }

  predicate Fresh(s: Shared, now: int) {
    s.accessToken.Some? && now + TOKEN_REFRESH_BUFFER < s.expiresAt
  }

  function Updated(s: Shared, credentials: Credentials): Shared {
    if s.credentials == credentials then s
    else s.(credentials := credentials, accessToken := None, expiresAt := ZERO_TIME)
  }

  // What a caller that wants to refresh finds.
  datatype Entry = Hit(token: AccessToken) | WaitFor(ch: nat) | Mint(credentials: Credentials)

  function Entered(s: Shared, now: int): (Shared, Entry)
    requires s.refreshing ==> s.refreshCh.Some?
  {
    if Fresh(s, now) then (s, Hit(s.accessToken.value))
    else if s.refreshing then (s, WaitFor(s.refreshCh.value))
    else (s.(refreshing := true, refreshCh := Some(s.made), made := s.made + 1), Mint(s.credentials))
  }

  function Finished(s: Shared, token: Option<AccessToken>, expiresAt: int): Shared {
    s.(accessToken := token, expiresAt := expiresAt, refreshing := false, refreshCh := None,
       closed := s.closed + if s.refreshCh.Some? then [s.refreshCh.value] else [])
  }

  class TokenManager {
    var credentials: Credentials
    var accessToken: Option<AccessToken>
    var expiresAt: int
    var refreshing: bool
    var refreshCh: Option<nat>
    var made: nat
    var closed: seq<nat>

    ghost function View(): Shared
      reads this
    {
      Shared(credentials, accessToken, expiresAt, refreshing, refreshCh, made, closed)
    }

    constructor (credentials: Credentials)
      ensures View() == New(credentials)
    {
      this.credentials := credentials;
      accessToken, expiresAt, refreshing, refreshCh, made, closed := None, ZERO_TIME, false, None, 0, [];
    }

    method UpdateCredentials(credentials: Credentials)
      modifies this
      ensures View() == Updated(old(View()), credentials)
      ensures this.credentials == credentials
      ensures if old(this.credentials) == credentials
              then accessToken == old(accessToken) && expiresAt == old(expiresAt)
              else accessToken.None? && expiresAt == 0
      ensures refreshing == old(refreshing) && refreshCh == old(refreshCh)
      ensures made == old(made) && closed == old(closed)
    {
      if this.credentials.clientID == credentials.clientID
         && this.credentials.privateKeyPEM == credentials.privateKeyPEM {
        return;
      }
      this.credentials := credentials;
      accessToken := None;
      expiresAt := ZERO_TIME;
    }

    // The fast path of GetAccessToken.
    method CheckCached(now: int) returns (token: Option<AccessToken>)
      ensures token == if Fresh(View(), now) then accessToken else None
      ensures token.Some? <==> accessToken.Some? && expiresAt - now > 300_000_000_000
    {
      token := None;
      if accessToken.Some? && now + TOKEN_REFRESH_BUFFER < expiresAt {
        token := accessToken;
      }
    }

    // The locked region at the head of refreshToken.
    method EnterRefresh(now: int) returns (entry: Entry)
      requires refreshing ==> refreshCh.Some?
      modifies this
      ensures (View(), entry) == Entered(old(View()), now)
      ensures entry.Hit? <==> accessToken.Some? && expiresAt - now > 300_000_000_000
      ensures entry.Hit? ==> entry.token == accessToken.value
      ensures entry.WaitFor? ==> old(refreshing) && old(refreshCh) == Some(entry.ch)
      ensures entry.Mint? ==> !old(refreshing) && refreshing && entry.credentials == credentials
                              && refreshCh == Some(old(made)) && made == old(made) + 1
      ensures !entry.Mint? ==> refreshing == old(refreshing) && refreshCh == old(refreshCh) && made == old(made)
      ensures accessToken == old(accessToken) && expiresAt == old(expiresAt) && closed == old(closed)
      ensures credentials == old(credentials)
    {
      if accessToken.Some? && now + TOKEN_REFRESH_BUFFER < expiresAt {
        return Hit(accessToken.value);
      }
      if refreshing {
        return WaitFor(refreshCh.value);
      }
      refreshing := true;
      refreshCh := Some(made);
      made := made + 1;
      entry := Mint(credentials);
    }

    // Closing a closed channel would panic, so the caller must know that it is open.
    method FinishRefresh(token: Option<AccessToken>, expiresAt: int)
      requires refreshCh.Some? ==> refreshCh.value !in closed
      modifies this
      ensures View() == Finished(old(View()), token, expiresAt)
      ensures accessToken == token && this.expiresAt == expiresAt && !refreshing && refreshCh.None?
      ensures closed == if old(refreshCh).Some? then old(closed) + [old(refreshCh).value] else old(closed)
      ensures credentials == old(credentials) && made == old(made)
    {
      accessToken := token;
      this.expiresAt := expiresAt;
      refreshing := false;
      if refreshCh.Some? {
        closed := closed + [refreshCh.value];
        refreshCh := None;
      }
    }
  }
}
