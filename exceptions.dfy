/**
 * The application's error taxonomy: the kinds of `PersonalResearchAgentError`,
 * the subclass relation with library exception classes that the retry
 * decorator tests with `isinstance`, and the `__str__` of each kind.
 */
module Exceptions {
  import opened Wrappers

  /** The application's exception classes. */
  datatype Kind =
    | AgentError          // PersonalResearchAgentError
    | ConfigError
    | DataAcquisitionError
    | ApiLimitError
    | ApiAuthError
    | DataProcessingError
    | OutputGenerationError

  /** The direct base class of each kind; the root has none. */
  function Parent(k: Kind): Option<Kind>
  {
    match k
    case AgentError => None
    case ApiLimitError => Some(DataAcquisitionError)
    case ApiAuthError => Some(DataAcquisitionError)
    case _ => Some(AgentError)
  }

  function Depth(k: Kind): nat
  {
    match k
    case AgentError => 0
    case ApiLimitError => 2
    case ApiAuthError => 2
    case _ => 1
  }

  /** `issubclass(k, a)` between application classes. */
  predicate IsA(k: Kind, a: Kind)
    decreases Depth(k)
  {
    k == a || (Parent(k).Some? && (assert Depth(Parent(k).value) < Depth(k); IsA(Parent(k).value, a)))
  }

  /** Every kind is a `PersonalResearchAgentError`, and the two API errors are data-acquisition errors. */
  lemma Hierarchy(k: Kind)
    ensures IsA(k, AgentError)
    ensures IsA(ApiLimitError, DataAcquisitionError) && IsA(ApiAuthError, DataAcquisitionError)
    ensures IsA(k, DataAcquisitionError) <==> k in {DataAcquisitionError, ApiLimitError, ApiAuthError}
  {
  }

  /** An exception class: one of the application's, or a library class named with its base classes. */
  datatype ErrClass =
    | App(kind: Kind)
    | Library(name: string, bases: seq<string>)

  /** `issubclass(c, t)`. Application classes derive from `Exception`. */
  predicate IsSubclass(c: ErrClass, t: ErrClass)
  {
    match (c, t)
    case (App(k), App(a)) => IsA(k, a)
    case (App(_), Library(n, _)) => n == "Exception" || n == "BaseException"
    case (Library(n, bs), Library(m, _)) => n == m || m in bs
    case (Library(_, _), App(_)) => false
  }

  /** `isinstance(e, classes)` for an exception of class `c` and a tuple of classes. */
  predicate CaughtBy(c: ErrClass, classes: seq<ErrClass>)
  {
    exists i :: 0 <= i < |classes| && IsSubclass(c, classes[i])
  }

  /** `type(e).__name__`. */
  function TypeName(c: ErrClass): string
  {
    match c
    case Library(n, _) => n
    case App(k) =>
      match k
      case AgentError => "PersonalResearchAgentError"
      case ConfigError => "ConfigError"
      case DataAcquisitionError => "DataAcquisitionError"
      case ApiLimitError => "ApiLimitError"
      case ApiAuthError => "ApiAuthError"
      case DataProcessingError => "DataProcessingError"
      case OutputGenerationError => "OutputGenerationError"
  }

  /** The constructor's default message. */
  function DefaultMessage(k: Kind): string
  {
    match k
    case AgentError => "An application error occurred"
    case ConfigError => "Configuration error"
    case DataAcquisitionError => "Data acquisition failed"
    case ApiLimitError => "API rate limit exceeded"
    case ApiAuthError => "API authentication failed"
    case DataProcessingError => "An application error occurred"
    case OutputGenerationError => "Output generation failed"
  }

  /**
   * An application exception: its kind, message, the exception it wraps
   * (when one was given) and the kind's extra attribute (`config_path`,
   * `source` or `output_path`; ignored by the kinds that have none).
   */
  datatype AgentException = AgentException(kind: Kind, message: string, original: Option<Cause>, detail: Option<string>)

  /** A wrapped exception: an application one, or a library one given by class and `str()`. */
  datatype Cause =
    | AppCause(error: AgentException)
    | LibraryCause(name: string, text: string)

  /** The constructor called with defaults only. */
  function Raise(k: Kind): (e: AgentException)
    ensures e.kind == k && e.original.None? && e.detail.None?
  {
    AgentException(k, DefaultMessage(k), None, None)
  }

  /** The label of the kind's extra attribute in `__str__`, for the kinds that have one. */
  function DetailLabel(k: Kind): Option<string>
  {
    match k
    case ConfigError => Some("Config Path")
    case DataAcquisitionError => Some("Source")
    case ApiLimitError => Some("Source")
    case ApiAuthError => Some("Source")
    case OutputGenerationError => Some("Output Path")
    case _ => None
  }

  /** The extra attribute is truthy: set and not empty. */
  predicate HasDetail(e: AgentException)
  {
    DetailLabel(e.kind).Some? && e.detail.Some? && e.detail.value != []
  }

  function CauseName(c: Cause): string
  {
    match c
    case AppCause(e) => TypeName(App(e.kind))
    case LibraryCause(n, _) => n
  }

  /** `PersonalResearchAgentError.__str__`. */
  function BaseStr(e: AgentException): string
    decreases e, 0
  {
    if e.original.None? then e.message
    else e.message + ": " + CauseName(e.original.value) + " - " + CauseStr(e.original.value)
  }

  /** `str(original_exception)`. */
  function CauseStr(c: Cause): string
    decreases c
  {
    match c
    case AppCause(e) => Str(e)
    case LibraryCause(_, t) => t
  }

  /** `str(e)`: the base text, then ` (Label: value)` when the kind's attribute is set. */
  function Str(e: AgentException): (r: string)
    ensures |r| >= |e.message| && r[..|e.message|] == e.message
    decreases e, 1
  {
    var base := BaseStr(e);
    if HasDetail(e) then base + " (" + DetailLabel(e.kind).value + ": " + e.detail.value + ")" else base
  }

  /** With nothing wrapped and no attribute set, the text is the message alone. */
  lemma StrPlain(e: AgentException)
    requires e.original.None? && !HasDetail(e)
    ensures Str(e) == e.message
  {
  }

  /** A wrapped exception is reported as `message: TypeName - str(original)`. */
  lemma StrWrapped(e: AgentException, c: Cause)
    requires e.original == Some(c) && !HasDetail(e)
    ensures Str(e) == e.message + ": " + CauseName(c) + " - " + CauseStr(c)
  {
  }

  /** A `ConfigError` with a config path ends with ` (Config Path: <path>)`, after the message and any wrapped exception. */
  lemma StrConfigPath(message: string, original: Option<Cause>, path: string)
    requires path != []
    ensures Str(AgentException(ConfigError, message, None, Some(path))) == message + " (Config Path: " + path + ")"
    ensures original.Some? ==>
      Str(AgentException(ConfigError, message, original, Some(path))) ==
        message + ": " + CauseName(original.value) + " - " + CauseStr(original.value) + " (Config Path: " + path + ")"
  {
  }

  /** A data-acquisition error (limit and auth included) with a source ends with ` (Source: <source>)`. */
  lemma StrSource(k: Kind, message: string, original: Option<Cause>, source: string)
    requires IsA(k, DataAcquisitionError) && source != []
    ensures Str(AgentException(k, message, None, Some(source))) == message + " (Source: " + source + ")"
    ensures original.Some? ==>
      Str(AgentException(k, message, original, Some(source))) ==
        message + ": " + CauseName(original.value) + " - " + CauseStr(original.value) + " (Source: " + source + ")"
  {
    SourceLabel(k);
  }

  /** An `OutputGenerationError` with an output path ends with ` (Output Path: <path>)`. */
  lemma StrOutputPath(message: string, original: Option<Cause>, path: string)
    requires path != []
    ensures Str(AgentException(OutputGenerationError, message, None, Some(path))) == message + " (Output Path: " + path + ")"
    ensures original.Some? ==>
      Str(AgentException(OutputGenerationError, message, original, Some(path))) ==
        message + ": " + CauseName(original.value) + " - " + CauseStr(original.value) + " (Output Path: " + path + ")"
  {
  }

  /**
   * An unset or empty attribute adds nothing, and neither the base class
   * nor `DataProcessingError`, which have no attribute, ever print one.
   */
  lemma StrWithoutAttribute(e: AgentException)
    requires e.detail.None? || e.detail == Some([]) || e.kind in {AgentError, DataProcessingError}
    ensures Str(e) == Str(e.(detail := None))
    ensures e.original.None? ==> Str(e) == e.message
  {
  }

  /** `DataAcquisitionError` and its subclasses label the attribute `Source`. */
  lemma SourceLabel(k: Kind)
    requires IsA(k, DataAcquisitionError)
    ensures DetailLabel(k) == Some("Source")
  {
    Hierarchy(k);
  }
}
