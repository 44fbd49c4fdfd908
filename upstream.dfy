/**
 * The two calls to the streaming service: exchanging the refresh token for an
 * access token, and reading the currently playing track with it. Each call's
 * reply is an input; the logic here is how a reply is classified.
 */
module Upstream {
  import opened Wrappers
  import opened Shapes

  /** `Response.ok` of the fetch API: a status in the 2xx range. */
  predicate IsOk(status: int) {
    200 <= status <= 299
  }

  /** The status the service sends when nothing is playing. */
  const NoContent: int := 204

  /**
   * The token endpoint's reply. `TokenUnreachable`: the fetch itself rejected.
   * `accessToken` is the `access_token` field of the body, or None when
   * reading it throws: the body is not JSON, the stream failed while it was
   * read, or the body is JSON `null`, whose field access throws.
   */
  datatype TokenReply = TokenUnreachable | TokenReply(status: int, accessToken: Option<string>)

  /** What `JSON.parse` made of the now-playing body; `Parsed(None)` is JSON `null`. */
  datatype ParseOutcome = SyntaxError | Parsed(value: Option<Playback>)

  /**
   * The now-playing endpoint's reply. `PlayerUnreachable`: the fetch, or
   * reading the body text of an ok, non-204 reply, rejected. `body` is the
   * response text and `parsed` its parse.
   */
  datatype PlayerReply = PlayerUnreachable | PlayerReply(status: int, body: string, parsed: ParseOutcome)

  /** The errors thrown on the way to a playback record. */
  datatype FetchError =
    | TokenNetworkError
    | TokenRejected(status: int)
    | TokenMalformed
    | PlayerNetworkError
    | PlayerRejected(status: int)
    | EmptyBody
    | MalformedBody

  /**
   * The token exchange. A non-ok status throws with that status without
   * parsing the body as JSON; the text read for the error message is not
   * modelled.
   */
  function GetAccessToken(reply: TokenReply): (r: Result<string, FetchError>)
    ensures r.Success? <==> reply.TokenReply? && IsOk(reply.status) && reply.accessToken.Some?
    ensures r.Success? ==> r.value == reply.accessToken.value
    ensures reply.TokenReply? && !IsOk(reply.status) ==> r == Failure(TokenRejected(reply.status))
  {
    match reply
    case TokenUnreachable => Failure(TokenNetworkError)
    case TokenReply(status, accessToken) =>
      if !IsOk(status) then Failure(TokenRejected(status))
      else if accessToken.None? then Failure(TokenMalformed)
      else Success(accessToken.value)
  }

  /**
   * The body of `getNowPlaying`'s try block: a result, or the error it throws.
   * `player` gives the now-playing endpoint's reply to a bearer token.
   */
  function FetchPlayback(token: TokenReply, player: string -> PlayerReply): (r: Result<Option<Playback>, FetchError>)
    ensures r.Failure? <==>
              || GetAccessToken(token).Failure?
              || var reply := player(GetAccessToken(token).value);
                 || reply.PlayerUnreachable?
                 || (reply.status != NoContent && (!IsOk(reply.status) || reply.body == "" || reply.parsed.SyntaxError?))
  {
    match GetAccessToken(token)
    case Failure(e) => Failure(e)
    case Success(accessToken) =>
      match player(accessToken)
      case PlayerUnreachable => Failure(PlayerNetworkError)
      case PlayerReply(status, body, parsed) =>
        if status == NoContent then Success(None)
        else if !IsOk(status) then Failure(PlayerRejected(status))
        else if body == "" then Failure(EmptyBody)
        else
          match parsed
          case SyntaxError => Failure(MalformedBody)
          case Parsed(v) => Success(v)
  }

  /**
   * `getNowPlaying`: every error thrown in the try block is caught and becomes
   * null. So the result is null exactly for a failed token exchange, a
   * rejected fetch or body read, a 204, any other non-ok status, an empty
   * body, a body that is not JSON, or a body that is JSON `null`; the caller
   * sees the same null in every case. A record comes only from an ok,
   * non-204 reply with a non-empty body that parses to it.
   */
  function GetNowPlaying(token: TokenReply, player: string -> PlayerReply): (song: Option<Playback>)
    ensures song.None? <==>
              || GetAccessToken(token).Failure?
              || var reply := player(GetAccessToken(token).value);
                 || reply.PlayerUnreachable?
                 || reply.status == NoContent
                 || !IsOk(reply.status)
                 || reply.body == ""
                 || reply.parsed == SyntaxError
                 || reply.parsed == Parsed(None)
    ensures song.Some? ==>
              && GetAccessToken(token).Success?
              && var reply := player(GetAccessToken(token).value);
                 && reply.PlayerReply?
                 && IsOk(reply.status)
                 && reply.status != NoContent
                 && reply.body != ""
                 && reply.parsed == Parsed(song)
  {
    match FetchPlayback(token, player)
    case Failure(_) => None
    case Success(v) => v
  }

  /** 204 is an ok status, yet it is tested first and gives null without reading the body. */
  lemma NoContentIsAbsent(token: TokenReply, player: string -> PlayerReply)
    requires GetAccessToken(token).Success?
    requires player(GetAccessToken(token).value).PlayerReply?
    requires player(GetAccessToken(token).value).status == NoContent
    ensures IsOk(NoContent)
    ensures FetchPlayback(token, player) == Success(None)
    ensures GetNowPlaying(token, player) == None
  {
  }

  /**
   * A failed token exchange is rethrown and caught one level up: the result is
   * null whatever the now-playing endpoint would have said.
   */
  lemma TokenFailureIsAbsent(token: TokenReply, player: string -> PlayerReply, other: string -> PlayerReply)
    requires token.TokenUnreachable? || !IsOk(token.status) || token.accessToken.None?
    ensures GetNowPlaying(token, player) == None
    ensures GetNowPlaying(token, player) == GetNowPlaying(token, other)
  {
  }
}
