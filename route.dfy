/**
 * The `GET /api/nowPlaying` handler: the normalised item serialised with
 * status 200, or a fixed error body with status 500 when that faults.
 */
module Route {
  import opened Wrappers
  import opened Shapes
  import opened Upstream
  import opened Normaliser

  /** The status and body of the handler's response (the JSON content type is fixed). */
  datatype HttpResponse = HttpResponse(status: int, body: string)

  /** `JSON.stringify({ error: "Internal Server Error" })`. */
  const ErrorBody: string := "{\"error\":\"Internal Server Error\"}"

  /**
   * The handler. `stringify` is the serialiser, None where it throws. The
   * normaliser never throws, so the only way to 500 is a serialisation fault.
   */
  function Get(token: TokenReply, player: string -> PlayerReply, stringify: NowPlayingItem -> Option<string>): (r: HttpResponse)
    ensures r.status == 200 || r.status == 500
    ensures r.status == 500 <==> stringify(GetNowPlayingItem(token, player)).None?
    ensures r.status == 200 ==> r.body == stringify(GetNowPlayingItem(token, player)).value
    ensures r.status == 500 ==> r.body == ErrorBody
  {
    match stringify(GetNowPlayingItem(token, player))
    case Some(json) => HttpResponse(200, json)
    case None => HttpResponse(500, ErrorBody)
  }

  /**
   * With a serialiser that does not fault, a null upstream result (every
   * upstream failure, a 204, a JSON `null`) answers 200 with the serialised
   * default item.
   */
  lemma UpstreamFailureAnswersDefault(token: TokenReply, player: string -> PlayerReply, stringify: NowPlayingItem -> Option<string>)
    requires stringify(DefaultItem).Some?
    requires GetNowPlaying(token, player).None?
    ensures Get(token, player, stringify) == HttpResponse(200, stringify(DefaultItem).value)
  {
  }

  /** A 204 from the now-playing endpoint also answers 200 with the serialised default item. */
  lemma NoContentAnswersDefault(token: TokenReply, player: string -> PlayerReply, stringify: NowPlayingItem -> Option<string>)
    requires stringify(DefaultItem).Some?
    requires GetAccessToken(token).Success?
    requires player(GetAccessToken(token).value).PlayerReply?
    requires player(GetAccessToken(token).value).status == NoContent
    ensures Get(token, player, stringify) == HttpResponse(200, stringify(DefaultItem).value)
  {
  }
}
