/** The extract task: one GET against the forecast endpoint, and the branch
    on the response status.  The HTTP exchange itself is foreign code, so it
    arrives here as a value: either the hook raised (`Unreachable`) or it
    returned a response whose body `response.json()` did or did not decode. */
module ExtractTask {
  import opened Wrappers
  import opened JsonValue
  import opened Weather

  datatype Response = Response(statusCode: int, text: string, decoded: Option<Json>)

  datatype Exchange =
    | Delivered(response: Response)
    | Unreachable(cause: string)

  /** The decoded body is returned only for status 200; any other status
      raises an error carrying that status and the response text.  Whatever
      the hook or the decoder raised is re-raised as it was. */
  function ExtractWeatherData(x: Exchange): (r: Result<Json, EtlError>)
    ensures r.Success? <==> x.Delivered? && x.response.statusCode == 200 && x.response.decoded.Some?
    ensures r.Success? ==> r.value == x.response.decoded.value
    ensures x.Delivered? && x.response.statusCode != 200 ==>
              r == Failure(FetchFailed(x.response.statusCode, x.response.text))
    ensures x.Delivered? && x.response.statusCode == 200 && x.response.decoded.None? ==>
              r == Failure(BodyNotJson)
    ensures x.Unreachable? ==> r == Failure(TransportFailed(x.cause))
  {
    match x
    case Unreachable(cause) => Failure(TransportFailed(cause))
    case Delivered(resp) =>
      if resp.statusCode == 200 then
        match resp.decoded
        case Some(body) => Success(body)
        case None => Failure(BodyNotJson)
      else
        Failure(FetchFailed(resp.statusCode, resp.text))
  }
}
