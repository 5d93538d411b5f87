/**
  The two Pocket OAuth calls: their request and response records, and the
  service itself seen as a function from request to answer.
*/
module Pocket {
  import opened Wrappers

  /** The only status the authorize answer is accepted with. */
  const StatusOk: int := 200

  /** Body of the request-token call. */
  datatype InitialRequest = InitialRequest(consumerKey: string, redirectUri: string)

  /** Answer of the request-token call. */
  datatype InitialResponse = InitialResponse(code: string)

  /** Body of the authorize call: the request code being confirmed. */
  datatype AuthorizationRequest = AuthorizationRequest(consumerKey: string, code: string)

  /** Answer of the authorize call. */
  datatype AccessToken = AccessToken(accessToken: string, username: string)

  /** A call the bot sends to Pocket. */
  datatype Call = RequestToken(initial: InitialRequest) | Authorize(authorization: AuthorizationRequest)

  /**
    A response that arrived: its HTTP status and its JSON body decoded as `T`
    (`None` when the body does not decode).
  */
  datatype Response<T> = Response(status: int, body: Option<T>)

  /**
    Pocket as it behaves while one update is handled: the answer it gives to
    each request, `None` being a send error.
  */
  datatype Service = Service(
    request: InitialRequest -> Option<Response<InitialResponse>>,
    authorize: AuthorizationRequest -> Option<Response<AccessToken>>)
}
