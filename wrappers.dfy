/** Option and Result, standing in for java.util.Optional / null and for thrown exceptions. */
module Wrappers {

  datatype Option<+T> = None | Some(value: T)

  /** The exceptions the modelled code can throw. */
  datatype Fault =
    | NoSuchElement      // Optional.get() on an empty Optional
    | JsonSyntax         // gson/JsonUtils rejected the shape of an element
    | IllegalArgument    // Random.nextInt(0)
    | NullPointer        // a method called on a null reference

  datatype Result<+T> = Ok(value: T) | Err(fault: Fault)
}
