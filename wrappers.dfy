/** Failure-carrying results shared by the modules of this project. */
module Wrappers {

  datatype Option<+T> = None | Some(value: T)

  /** The ways a Python call in the modelled scripts can fail. */
  datatype Error =
    | AttributeError   // attribute looked up that the object does not have
    | TypeError        // operation applied to a value of the wrong type (also `raise` of a str)
    | ValueError       // unpacking the wrong number of values, `list.remove` of a missing item
    | KeyError         // dictionary lookup of a key that is not set
    | RaisedException  // an explicit `raise Exception(...)`

  datatype Result<+T> = Success(value: T) | Failure(error: Error)

  datatype Outcome = Pass | Fail(error: Error)
}
