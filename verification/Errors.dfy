/** The ways an operation of the driver can end without a value.
    Python raises exceptions; here every operation returns its error. */
module Errors {

  datatype Error =
    | ValueError        // an argument outside the range the driver accepts
    | DeviceNotFound    // DeviceNotFoundException: the board did not answer on the bus
    | BusNotConfigured  // SMBBusNotConfiguredProperly: the SMBus subsystem could not be opened
    | AttributeError    // a method the communicator object does not have
    | NameError         // an unqualified name that Python cannot resolve
    | TypeError         // an operator applied to a value of the wrong type
    | IndexError        // a list index out of range

  datatype Option<T> = None | Some(value: T)

  /** The value of an operation that returns something, or the error it raised. */
  datatype Result<T> = Success(value: T) | Failure(error: Error)

  /** The end of an operation that returns nothing: normal completion or an error. */
  datatype Outcome = Pass | Fail(error: Error)
}
