/**
 * The exceptions the query engine raises. Errors carry the names that the
 * Python messages interpolate rather than the message text, except where the
 * text is fixed.
 */
module QueryErrors {
  import opened Wrappers
  import opened Values

  /** Why a filter function rejected the keyword arguments it was given. */
  datatype Reason =
    | IncorrectType(param: string, expected: TypeTag, found: TypeTag)
    | NotGiven(param: string)
    | UnexpectedArguments(names: set<string>)
  {
    /** The reason string; a set of names has no fixed display order in Python. */
    function Message(): Option<string> {
      match this
      case IncorrectType(p, e, f) =>
        Some(p + " given has incorrect type, expected " + ClassRepr(e) + ", found " + ClassRepr(f))
      case NotGiven(p) => Some(p + " expected but not given")
      case UnexpectedArguments(_) => None
    }
  }

  /** The distinct situations in which a QueryPresetMappingError is raised. */
  datatype PresetMappingCause =
    | NoFilterFunction(preset: string, prop: string)
    | InvalidArguments(preset: string, prop: string, reason: Reason)
    | NoHandlerKnowsPreset(preset: string, prop: string)
    | NoHandlerSupportsPair(preset: string)

  /** The distinct situations in which a QueryPropertyMappingError is raised. */
  datatype PropertyMappingCause =
      /** The prop handler has no accessor for the named property. */
    | NoPropFunc(prop: string)
      /** The prop handler does not support the property (fixed message, no name). */
    | NotSupportedByPropHandler

  datatype QueryError =
    | ParseQueryError(message: string)
    | QueryPresetMappingError(cause: PresetMappingCause)
    | QueryPropertyMappingError(propCause: PropertyMappingCause)
      /** Python's AttributeError: a method was looked up on None. */
    | AttributeError(attribute: string)

  const AlreadySetMessage: string := "Error: Already set a query preset"
}
