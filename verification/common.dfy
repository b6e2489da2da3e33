/** Small shared datatypes: Kotlin's nullable references and the exceptions
    the robot code can raise on a null or uninitialised value. */
module Common {

  /** A Kotlin `T?`: either absent (`null`) or present. */
  datatype Option<+T> = None | Some(value: T)

  /** The ways a modelled operation can end in an exception instead of a value. */
  datatype Fault =
    | NullDereference(what: string)        // a `!!` applied to null
    | UninitializedProperty(what: string)  // a `lateinit var` read before assignment

  datatype Result<+T> = Ok(value: T) | Failure(fault: Fault)
}
