/** How an Ansible module invocation ends.  A module function either returns
    the triple `(changed, info, warning)` (where an `info` that is a string
    means failure), raises, or ends the process itself through `fail_json`
    or `exit_json`; `run_module` turns what comes back into the result the
    caller sees. */
module Outcomes {
  import opened Python
  import opened Console

  /** The exceptions that travel through the modules. */
  datatype Error =
    | ParameterError(msg: string)
    | HmcError(text: string)
    | KeyError(key: Value)
    | IndexError
    | TypeError(detail: string)
    | UnboundLocalError(name: string)

  /** The text of a failure: a literal message, `repr(error)`, the message
      the REST client's `parse_error_response` extracts from an error, or the
      report of an installed partition that did not boot, which names the
      minutes waited and the partition's reference code. */
  datatype Reason =
    | Message(msg: string)
    | ReprOf(error: Error)
    | ParsedFrom(error: Error)
    | BootFailure(waited: Value, refCode: string)

  /** The `info` element of the returned triple. */
  datatype Info = NoInfo | Data(fields: Fields) | ErrorText(reason: Reason)

  datatype Outcome =
    | Returned(changed: bool, info: Info, warning: Option<string>)
    | Raised(error: Error)
    | FailJson(reason: Reason)
    | ExitJson(changed: bool, msg: string)
    | ReturnedNone

  /** An outcome together with the console calls made on the way, in order. */
  datatype Run = Run(outcome: Outcome, calls: seq<Call>)

  /** `return False, repr(error), None`: the shape every caught error takes. */
  function Caught(e: Error): Outcome
  {
    Returned(false, ErrorText(ReprOf(e)), None)
  }

  /** `perform_task`'s `except Exception`: an escaping exception becomes a
      returned error, anything else passes through. */
  function PerformTaskCatch(o: Outcome): (r: Outcome)
    ensures !r.Raised?
    ensures o.Raised? ==> r == Caught(o.error)
    ensures !o.Raised? ==> r == o
  {
    if o.Raised? then Caught(o.error) else o
  }

  /** What the caller of the module sees: whether something changed, the
      details reported (None when there are none), the warning and, for a
      module that ends itself with `exit_json`, its message. */
  datatype ModuleResult =
    | Exit(changed: bool, info: Option<Fields>, warning: Option<string>, msg: Option<string>)
    | Fail(reason: Reason)
    | Crash(error: Error)

  /** `run_module` after `perform_task`: an `info` that is a string fails the
      module; unpacking a `None` result raises `TypeError`, which nothing
      catches.  With `omitEmpty` (`if info:`) an empty dictionary is left
      out of the result; without it (`result['info'] = info`) it is kept. */
  function RunModule(o: Outcome, omitEmpty: bool): (r: ModuleResult)
    ensures r.Exit? <==> (o.Returned? && !o.info.ErrorText?) || o.ExitJson?
    ensures r.Exit? ==> r.changed == o.changed
    ensures o.ReturnedNone? ==> r.Crash?
    ensures o.Returned? && o.info.Data? ==>
      r.info == if omitEmpty && o.info.fields == map[] then None else Some(o.info.fields)
  {
    match o
    case Returned(changed, info, warning) =>
      (match info
       case ErrorText(reason) => Fail(reason)
       case Data(fields) => Exit(changed, if omitEmpty && fields == map[] then None else Some(fields), warning, None)
       case NoInfo => Exit(changed, None, warning, None))
    case Raised(error) => Crash(error)
    case FailJson(reason) => Fail(reason)
    case ExitJson(changed, msg) => Exit(changed, None, None, Some(msg))
    case ReturnedNone => Crash(TypeError("cannot unpack non-iterable NoneType object"))
  }
}
