/** Result wrappers shared by the pump detector model. */
module Outcomes {

  /** A value that may be absent: a parse that failed, a key that was missing. */
  datatype Option<+T> = None | Some(value: T)

  /** The outcome of one HTTP request to the exchange: either the request (or its
      status check, or its JSON decoding) failed, or a decoded payload came back. */
  datatype Fetch<+T> = Failed | Fetched(payload: T)
}
