/** The errors the client hands back to its caller. Every Go `error`
    value the core produces is one of these kinds. */
module Errors {
  import opened Common

  /** A response the endpoint's status rule rejected: its status code and
      its whole body. */
  datatype RestApiError = RestApiError(statusCode: int, body: Bytes) {

    /** The error's text: the body, unchanged. */
    function Error(): Bytes
    {
      body
    }
  }

  datatype Error =
    | Transport(cause: string)        // no response: the request could not be sent or answered
    | Api(apiError: RestApiError)     // a response whose status the endpoint rejects
    | Decode(message: string)         // a body or frame that does not have the expected shape
    | UnknownStreamType               // fmt.Errorf("unknown stream type") of the combined-stream dispatcher
}
