/** The parts of an HTTP request the authorization code reads. */
module Requests {
  import opened Wrappers

  /**
   * The URL path and the four headers the middleware and the consent
   * handler look up (None when the header is absent).
   */
  datatype Request = Request(
    path: string,
    authorization: Option<string>,   // "Authorization"
    clientIdHeader: Option<string>,  // "X-Client-ID"
    processName: Option<string>,     // "X-Process-Name"
    processPid: Option<string>)      // "X-Process-PID"
}
