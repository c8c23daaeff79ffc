/** Errors raised by the evaluation core, and the wrappers that carry them.

    Every `SchemeError` the interpreter raises is one `Error` kind; a Python
    exception other than `SchemeError` (an AttributeError, TypeError or
    IndexError raised by the host on a badly shaped list) is a `HostFault`.
 */
module Outcomes {

  datatype Error =
    | UnboundIdentifier(name: string)   // "unknown identifier"
    | ArityMismatch                      // "length of formals and values not equal"
    | NotAVariable                       // "... is not a variable" / "... not a variable"
    | BadlyFormedExpression              // check_form: not a proper list
    | TooFewOperands                     // check_form: length < min
    | TooManyOperands                    // check_form: length > max
    | DuplicateFormal                    // "formals need to be unique"
    | FormalsNotFormed                   // "%s not formed properly"
    | BadDefine                          // "bad argument to define"
    | BadBindings                        // "bad bindings list in let form"
    | BadBinding                         // "too many operands in binding"
    | ElseNotLast                        // "else must be last"
    | BadElse                            // "badly formed else clause"
    | InvalidExpression                  // "Cannot evaluate an undefined expression."
    | NotEvaluable                       // "cannot eval vector"
    | MalformedList                      // "malformed list"
    | NotApplicable                      // "Cannot call ..."
    | HostFault(what: string)            // a Python exception that is not a SchemeError
    | OutOfFuel                          // the model's evaluation budget ran out

  datatype Option<+T> = None | Some(value: T)

  datatype Result<+T> = Ok(value: T) | Err(error: Error)

  datatype Outcome = Pass | Fail(error: Error)
}
