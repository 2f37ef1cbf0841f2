/** Shared vocabulary: optional values and the ways a request can fail
    outside the protocol's own response codes (the places where the Python
    programs raise an exception instead of answering). */
module Common {

  datatype Option<T> = None | Some(value: T)

  datatype Result<T> = Success(value: T) | Failure(fault: Fault)

  /** Why processing stopped with an exception rather than a response. */
  datatype Fault =
    | MalformedFrame               // the frame text does not decode (json.loads raises)
    | MissingKey(key: string)      // a dictionary lookup on an absent key (KeyError)
    | UnknownCommand(command: string) // run_command falls through and returns None
    | MalformedStore               // json.loads of an empty store file
    | UndefinedResponse            // response_obj read on the version-mismatch path (NameError)
}
