/** How a call to one of the feature services ends, as a page handler sees it.
    Those services are one request each, whose answer the handlers only inspect
    for success and for the server's error message. */
module ServiceCalls {
  import opened Js

  /** The call resolved, or it was rejected with the `message` of the response
      body, when there is one. */
  datatype Reply = Accepted | Refused(message: Option<string>)

  /** `error.response?.data?.message || fallback`. */
  function ServerMessageOr(message: Option<string>, fallback: string): string {
    if message.Some? && message.value != [] then message.value else fallback
  }
}
