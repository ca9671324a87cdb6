/** Values exchanged with the hosted services the site calls: the document store,
    the file storage and the sign-in popup. The services themselves are not modelled;
    each call is represented by the outcome it reports back to the component. */
module Backend {

  datatype Option<T> = None | Some(value: T)

  /** An error as the services raise it: a machine-readable `code` and a human-readable
      `message`. A field the thrown object does not carry is the empty string, which the
      source's truthiness tests treat exactly like `undefined`. */
  datatype ServiceError = ServiceError(code: string, message: string)

  /** The settled result of one awaited call. */
  datatype Outcome = Ok | Err(error: ServiceError)
}
