/** Values the storefront views exchange with their environment: the outcome
    of an awaited HTTP call and the notifications ("snackbars") a view shows.
    Neither view talks to the network here; a reply is an input of the model. */
module Effects {

  datatype Option<+T> = None | Some(value: T)

  /** The part of a non-2xx response the views read: the HTTP status and the
      JSON body's `success` flag and `message`. */
  datatype ErrorResponse = ErrorResponse(status: int, success: bool, message: string)

  /** How an awaited axios call ends: resolved with the response data, or
      rejected. A rejection carries the server's response when there was one
      and None when there was none (the server could not be reached). */
  datatype Reply<+T> = Ok(data: T) | Failed(response: Option<ErrorResponse>)

  /** The `variant` option of a snackbar. */
  datatype Variant = Success | Error | Warning

  /** One snackbar shown to the user. */
  datatype Notice = Notice(message: string, variant: Variant)
}
