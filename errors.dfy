/** The error kinds the client surfaces, and the Result/Option wrappers used for every
    operation that can fail or can come back empty. */
module Errors {

  /** The error variants the network layer actually produces. The serde payloads of
      Deserialization and Serialization are not modelled. */
  datatype Error =
    | Server
    | ResourceMissing
    | Client
    | Network
    | Generic
    | MissingAuthentication
    | Authentication
    | Deserialization
    | Serialization

  datatype Option<+T> = None | Some(value: T)

  datatype Result<+T> = Ok(value: T) | Err(error: Error) {

    /** Applies `f` to a success value and passes an error through unchanged. */
    function MapValue<U>(f: T -> U): (r: Result<U>)
      ensures r.Ok? <==> Ok?
      ensures Err? ==> r.error == error
    {
      match this
      case Ok(v) => Ok(f(v))
      case Err(e) => Err(e)
    }
  }
}
