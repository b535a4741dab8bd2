/** The credential manager (auth.go): an access token with its expiry,
    refreshed through the OAuth token endpoint when it is within five minutes
    of expiring. Time is whole Unix seconds; the refresh POST is an oracle. */
module Auth {
  import opened Wrappers
  import opened Errors
  import Text

  /** The safety margin before expiry, in seconds. */
  const RefreshMarginSeconds := 5 * 60
  const TokenUrl := "https://api.amazon.com/auth/o2/token"
  const StatusOk := 200

  /** The decoded body of a successful refresh: `{access_token, expires_in}`. */
  datatype RefreshResp = RefreshResp(accessToken: string, expiresIn: int)

  /** What the refresh POST yields: a transport failure, a failure reading
      the body, or a response with its status code, status line and the
      result of decoding its body. */
  datatype RefreshReply =
    | PostFailed(err: Error)
    | ReadFailed(err: Error)
    | Replied(statusCode: int, status: string, decoded: Result<RefreshResp, Error>)

  /** The part of the credentials that a refresh rewrites. */
  datatype TokenState = TokenState(accessToken: string, expiresAt: int)

  /** The part of the credentials that nothing rewrites. */
  datatype Credentials = Credentials(clientId: string, clientSecret: string, redirectUri: string, refreshToken: string)

  /** The result of one `ValidToken` call (a token or an error) and the token state after it. */
  datatype TokenOutcome = TokenOutcome(result: Result<string, Error>, state: TokenState)

  /** A refresh is due when `now` is past the expiry minus the margin. */
  predicate NeedsRefresh(now: int, expiresAt: int)
  {
    now > expiresAt - RefreshMarginSeconds
  }

  /** The form the refresh POST carries. */
  function RefreshForm(c: Credentials): (form: map<string, string>)
    ensures form.Keys == {"grant_type", "client_id", "client_secret", "redirect_uri", "refresh_token"}
    ensures form["grant_type"] == "refresh_token"
    ensures form["client_id"] == c.clientId && form["client_secret"] == c.clientSecret
    ensures form["redirect_uri"] == c.redirectUri && form["refresh_token"] == c.refreshToken
  {
    map["grant_type" := "refresh_token",
        "client_id" := c.clientId,
        "client_secret" := c.clientSecret,
        "redirect_uri" := c.redirectUri,
        "refresh_token" := c.refreshToken]
  }

  /** The error for a refresh answered with a status other than 200. */
  function RefreshFailure(statusCode: int, status: string): Error
  {
    OtherError("Token refresh failed " + Text.IntToDecimal(statusCode) + ": " + status)
  }

  /** A reply with which a due refresh succeeds. */
  predicate RefreshSucceeds(reply: RefreshReply)
  {
    reply.Replied? && reply.statusCode == StatusOk && reply.decoded.Ok?
  }

  /** One `ValidToken` call on state `s` at time `now`, with the refresh
      answered by `reply` and the clock reading `refreshedAt` taken after it.
      The token returned is always the stored one; the state changes only
      through a due refresh that succeeds; a failure returns an error and
      leaves the state as it was. */
  function TokenStep(s: TokenState, now: int, reply: RefreshReply, refreshedAt: int): (o: TokenOutcome)
    ensures o.result.Ok? ==> o.result.value == o.state.accessToken
    ensures o.result.Err? ==> o.state == s
    ensures !NeedsRefresh(now, s.expiresAt) ==> o == TokenOutcome(Ok(s.accessToken), s)
    ensures NeedsRefresh(now, s.expiresAt) ==>
              (o.result.Ok? <==> RefreshSucceeds(reply))
              && (RefreshSucceeds(reply) ==>
                    o.state == TokenState(reply.decoded.value.accessToken, refreshedAt + reply.decoded.value.expiresIn))
  {
    if !NeedsRefresh(now, s.expiresAt) then TokenOutcome(Ok(s.accessToken), s)
    else
      match reply
      case PostFailed(e) => TokenOutcome(Err(e), s)
      case ReadFailed(e) => TokenOutcome(Err(e), s)
      case Replied(statusCode, status, decoded) =>
        if statusCode != StatusOk then TokenOutcome(Err(RefreshFailure(statusCode, status)), s)
        else
          match decoded
          case Err(e) => TokenOutcome(Err(e), s)
          case Ok(resp) => TokenOutcome(Ok(resp.accessToken), TokenState(resp.accessToken, refreshedAt + resp.expiresIn))
  }

  /** Exactly at the margin no refresh happens; one second later it does. */
  lemma RefreshBoundary(s: TokenState, reply: RefreshReply, refreshedAt: int)
    ensures TokenStep(s, s.expiresAt - RefreshMarginSeconds, reply, refreshedAt) == TokenOutcome(Ok(s.accessToken), s)
    ensures NeedsRefresh(s.expiresAt - RefreshMarginSeconds + 1, s.expiresAt)
  {
  }

  /** A refresh answered with a status other than 200 reports that status
      and keeps the old token. */
  lemma RefreshStatusReported(s: TokenState, now: int, statusCode: int, status: string, decoded: Result<RefreshResp, Error>, refreshedAt: int)
    requires NeedsRefresh(now, s.expiresAt) && statusCode != StatusOk
    ensures TokenStep(s, now, Replied(statusCode, status, decoded), refreshedAt)
            == TokenOutcome(Err(RefreshFailure(statusCode, status)), s)
  {
  }

  /** After a successful refresh granting at least the margin, a second call
      at any time up to the new expiry minus the margin (in particular at
      the refresh time itself) refreshes nothing and returns the new token. */
  lemma FreshTokenNotRefreshedAgain(s: TokenState, now: int, resp: RefreshResp, status: string, refreshedAt: int,
                                    later: int, reply: RefreshReply, laterRefreshedAt: int)
    requires NeedsRefresh(now, s.expiresAt)
    requires later <= refreshedAt + resp.expiresIn - RefreshMarginSeconds
    ensures var first := TokenStep(s, now, Replied(StatusOk, status, Ok(resp)), refreshedAt);
            TokenStep(first.state, later, reply, laterRefreshedAt) == TokenOutcome(Ok(resp.accessToken), first.state)
  {
  }

  /** In particular, when the refresh granted at least the margin, a second
      call at the same `now` (which precedes the clock reading taken after
      the refresh) does not refresh again. */
  lemma SameTimeNotRefreshedAgain(s: TokenState, now: int, resp: RefreshResp, status: string, refreshedAt: int,
                                  reply: RefreshReply, laterRefreshedAt: int)
    requires NeedsRefresh(now, s.expiresAt)
    requires resp.expiresIn >= RefreshMarginSeconds
    requires now <= refreshedAt
    ensures var first := TokenStep(s, now, Replied(StatusOk, status, Ok(resp)), refreshedAt);
            && first.result == Ok(resp.accessToken)
            && TokenStep(first.state, now, reply, laterRefreshedAt) == TokenOutcome(Ok(resp.accessToken), first.state)
  {
    FreshTokenNotRefreshedAgain(s, now, resp, status, refreshedAt, now, reply, laterRefreshedAt);
  }

  /** A client's credentials and token (auth.go:12-19). Only `ValidToken`
      writes to it, and only to the token and its expiry. */
  class CloudDriveAuth {
    var clientId: string
    var clientSecret: string
    var redirectUri: string
    var accessToken: string
    var refreshToken: string
    /** Expiry of `accessToken`, in Unix seconds. */
    var expiresAt: int

    constructor (clientId: string, clientSecret: string, redirectUri: string,
                 accessToken: string, refreshToken: string, expiresAt: int)
      ensures Creds() == Credentials(clientId, clientSecret, redirectUri, refreshToken)
      ensures State() == TokenState(accessToken, expiresAt)
    {
      this.clientId := clientId;
      this.clientSecret := clientSecret;
      this.redirectUri := redirectUri;
      this.accessToken := accessToken;
      this.refreshToken := refreshToken;
      this.expiresAt := expiresAt;
    }

    function State(): TokenState
      reads this
    {
      TokenState(accessToken, expiresAt)
    }

    function Creds(): Credentials
      reads this
    {
      Credentials(clientId, clientSecret, redirectUri, refreshToken)
    }

    /** `ValidToken` at time `now`. When a refresh is due it posts the
        refresh form (returned in `posted`), whose answer is `reply`, and
        reads the clock again (`refreshedAt`) to set the new expiry. `posted`
        is the target and form of the refresh POST, if one was made. On
        failure the token is "" and `err` holds the error. */
    method ValidToken(now: int, reply: RefreshReply, refreshedAt: int)
      returns (token: string, err: Option<Error>, posted: Option<(string, map<string, string>)>)
      modifies this
      ensures posted == (if NeedsRefresh(now, old(expiresAt)) then Some((TokenUrl, RefreshForm(old(Creds())))) else None)
      ensures TokenOutcome(if err.None? then Ok(token) else Err(err.value), State())
              == TokenStep(old(State()), now, reply, refreshedAt)
      ensures err.Some? ==> token == "" && State() == old(State())
      ensures err.None? ==> token == accessToken
      ensures Creds() == old(Creds())
    {
      token, err, posted := "", None, None;
      if now > expiresAt - RefreshMarginSeconds {
        var data := RefreshForm(Creds());
        posted := Some((TokenUrl, data));
        match reply {
          case PostFailed(e) =>
            err := Some(e);
            return;
          case ReadFailed(e) =>
            err := Some(e);
            return;
          case Replied(statusCode, status, decoded) =>
            if statusCode != StatusOk {
              err := Some(RefreshFailure(statusCode, status));
              return;
            }
            match decoded {
              case Err(e) =>
                err := Some(e);
                return;
              case Ok(resp) =>
                accessToken := resp.accessToken;
                expiresAt := refreshedAt + resp.expiresIn;
            }
        }
      }
      token := accessToken;
    }
  }
}
