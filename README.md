# The evaluation core of a small Scheme interpreter, in Dafny

This project models the evaluator of `scheme.py`, a Scheme interpreter that works by an eval/apply trampoline. It covers:

- **Environment frames.** A `Frame` is a class. It has a fixed parent link and a `bindings` map that is updated in place. Its operations are `lookup`, `set`, `define`, `global_frame` and `make_call_frame`.
- **Structural checks.** `check_form` and `check_formals`.
- **Special forms.** `lambda`, `mu`, `define`, `quote`, `set!`, `let`, named `let`, `letrec`, `if`, `and`, `or`, `cond` and `begin`. This includes `eval_bindings` and the helpers `quote()` and `begin()`.
- **Application and evaluation.** The trampoline `scheme_eval` and `scheme_apply`.

Files and modules:

- `outcomes.dfy` (`Outcomes`): the errors the core raises, and the `Result` and `Outcome` wrappers that carry them.
- `env.dfy` (`Env`): the frame class, generic in the bound values. A `depth` count makes the parent chain provably acyclic.
- `data.dfy` (`Data`): the closed `Value` datatype for expressions and values. It has `Lambda` (which holds its frame) and `Mu` procedures. It also has the list predicates the evaluator takes from the reader (`scheme_listp`, `scheme_dottedp`, length, indexing) and the truth predicate `scheme_true`.
- `forms.dfy` (`Forms`): `check_form`, `check_formals`, `quote()`, `begin()`, the quote form, a procedure body and the result of a cond clause.
- `calls.dfy` (`Calls`): `make_call_frame`, as the binding it computes (`Bind`) and as a method that fills a fresh frame the way the source does.
- `store.dfy` (`Store`): a ghost set `S` of the frames an evaluation may change. The set is *closed*: every parent, and every frame a bound closure holds, is in it. Defining, setting and making call frames keep it closed. The evaluator's `modifies S` clauses rest on this.
- `eval.dfy` (`Eval`): the special-form handlers, `scheme_apply` and the `scheme_eval` trampoline.

Every evaluation takes a fuel bound. Each trip round the trampoline costs one unit. A nested evaluation gets the fuel that is left at that point.

Primitives are a parameter `natives`: a function from a primitive's name and its argument list to its result.

`Settles(e, fuel, v)` is the part of `Eval`'s contract that holds whatever the frames bind. With no fuel, `v` is the out-of-fuel error. A self-evaluating atom is its own value. A quote form gives its operand.

The logic forms return a ghost trace of the values their tests evaluated to. Their contracts tie each entry of the trace to its operand by `Settles`. They also say how many operands were evaluated and what the form hands back for each outcome. The outcome of each special form is a predicate (`IfOutcome`, `AndOutcome`, `DefineShape`, `SetEffect` and so on). The handler and the dispatchers `EvalLogic`, `EvalDirect`, `EvalTail`, `Combination` and `Round` all state the same predicate. A call is pinned the same way by `CallOutcome`. `TailOutcome` collects the outcomes of the forms that continue round the loop. `RoundOutcome` puts these together for one round of the trampoline.

`Eval` returns a ghost record of the rounds it ran, one `Turn` per round (`Runs`):

- the first round starts from the expression and the environment;
- each later round starts from the expression and frame the round before it handed back;
- round `i` had `fuel - 1 - i` units of fuel left and did what `RoundOutcome` says;
- the result is the last round's result, or `OutOfFuel` when every unit was spent on rounds that went round again.

`RoundOutcome` holds whatever the frames bind. About the frames, `Eval` states two facts for the last round. A symbol it settles is looked up in its frame as the run left it. When the round before it was a call to a Lambda or Mu and the last round changed nothing, the call frame binds exactly the formals to the arguments. `LambdaIdentity` uses both: `((lambda (x) x) 5)` evaluates to 5.

A named let applies its procedure with `scheme_apply`, which evaluates the body in a nested run (scheme.py:14-18). `Apply` returns that run's rounds with `Runs`, starting from the body in the call frame, and the named let's trace keeps them. So `RoundOutcome` for a named-let round states the rounds of its body too; the predicates are mutually recursive, and each recursion goes into a record held inside the one before. `NamedLetBodyFrame` uses this: in `(let f ((x 5)) (begin x))` the body looks `x` up in the call frame.

Where the code and its description differ, the model follows the code:

- The body of a `letrec` runs in a frame whose parent is the outer environment. Its initialisers run in a separate frame below that one (scheme.py:245-246, 270).
- `(define (f . formals) body)` returns the target pair `(f . formals)`, not the symbol `f` (scheme.py:234).

## Model

| member | source | states |
|---|---|---|
| Env.Frame.constructor | scheme.py:61-64 | a new frame has the given parent and no bindings |
| Env.Frame.LookupIsInnermost | scheme.py:73-80 | `Frame.Lookup` fails exactly when no frame on the chain binds the symbol; otherwise it yields the binding of the first frame that does, and no earlier frame binds it |
| Env.Frame.LookupIsBinder | scheme.py:73-80 | `Frame.Lookup` succeeds exactly when some frame on the chain binds the symbol, yields that frame's binding, and fails with "unknown identifier" naming the symbol |
| Env.Frame.Set | scheme.py:82-88 | set succeeds exactly when some frame on the chain binds the symbol; only that nearest binder changes, and only at that symbol; no frame gains a key; on failure the error is "unknown identifier" and no frame changes; afterwards lookup yields the new value, or still fails |
| Store.SetIn | scheme.py:82-88 | set on a frame of a closed set: succeeds exactly when a frame on the chain binds the symbol; only that frame changes, at that symbol, and every other frame of the set is untouched; the binder is the same afterwards; lookup then yields the value, or still fails with "unknown identifier"; the set stays closed |
| Env.Frame.GlobalFrame | scheme.py:90-95 | the result is the last frame of the parent chain, the one with no parent |
| Env.Frame.Define | scheme.py:132-134 | only this frame's map changes, at the one symbol; lookup of that symbol then yields the value, and every other lookup is unchanged |
| Calls.BindPositional | scheme.py:121-130 | `Bind`, for a proper list of distinct symbols and a proper list of values: binding fails with an arity error exactly when the lengths differ; otherwise the i-th formal is bound to the i-th value and nothing else is bound |
| Calls.BindVariadic | scheme.py:111-120 | `Bind`, for dotted formals: binding succeeds exactly when there are at least as many values as leading formals; the leading formals are bound positionally, the symbol after the dot to the remaining values, and nothing else |
| Calls.ProperExample | scheme.py:103-106 | `(a b c)` with `(1 2 3)` binds a, b and c to 1, 2 and 3 |
| Calls.DottedExample | scheme.py:107-109 | `(a b . c)` with `(1 2 3 4 5)` binds a to 1, b to 2 and c to `(3 4 5)` |
| Calls.MakeCallFrame | scheme.py:97-130 | succeeds exactly when the binding does, with its error otherwise; the result is a fresh frame whose parent is the caller's frame and whose bindings are the binding of formals to values |
| Forms.CheckForm | scheme.py:420-430 | passes exactly for a proper list with min <= length <= max (max optional); a non-list gives "badly formed", a short list "too few", a long one "too many" |
| Forms.CheckUnique | scheme.py:445-450 | accepts an entry exactly when it is a symbol not seen before, and then remembers it; a repeat gives "formals need to be unique", a non-symbol "not formed properly" |
| Forms.CheckFormals | scheme.py:432-467 | passes exactly for proper or dotted lists of pairwise distinct symbols (nil and a lone symbol included); a "unique" failure means a symbol repeats, a "not formed" failure means some entry is not a symbol |
| Forms.CheckFormalsAccepted | scheme.py:437-442 | `(a b c)`, `(a b c . d)`, nil and a lone symbol are valid formals |
| Forms.CheckFormalsRejected | scheme.py:437-442 | `5`, a list holding a number, and a repeated symbol (also after the dot) are not valid formals |
| Forms.DoQuoteForm | scheme.py:236-239 | succeeds exactly when there is one operand, and yields it unevaluated; otherwise the check_form error |
| Forms.QuoteRoundTrip | scheme.py:348-357 | the quote form applied to `Quote(v)` (the helper `quote()`) yields v: the value `or` and `cond` quote is handed back without a second evaluation |
| Forms.Begin | scheme.py:398-400 | succeeds exactly for a non-empty proper list, giving the list with `begin` in front; otherwise the check_form error |
| Forms.BodyOf | scheme.py:194-197 | a body of one expression is that expression; a body of several is their begin form |
| Forms.ClauseResult | scheme.py:385-394 | a true clause with no consequent yields its test value quoted, one with a single consequent that expression, one with several their begin form |
| Eval.DoLambdaForm | scheme.py:188-197 | succeeds exactly when the form has formals and a body and the formals are valid; the result is a Lambda over the formals and body that closes over the current frame |
| Eval.DoMuForm | scheme.py:200-209 | succeeds exactly when the form has formals and a body and the formals are valid; the result is a Mu over the formals and body |
| Eval.CallPrimitive | scheme.py:511-512 | a primitive's error is passed on; its value is passed on when it holds no procedure beyond its arguments' procedures, and such a value captures no frame the arguments do not |
| Eval.ProcedureFrame | scheme.py:513-518 | the call frame binds the formals to the arguments; its parent is the Lambda's captured frame, or the caller's frame for a Mu |
| Eval.Apply | scheme.py:9-20 | a primitive gives the primitive's result, changing nothing; a Lambda or Mu whose formals do not bind gives the binding error, changing nothing; otherwise the body is evaluated in a fresh call frame whose parent is the Lambda's captured frame, or the caller's frame for a Mu: the rounds of that evaluation start from the body in that frame and the result is theirs, as `Runs` states for Eval; the result settles as the body does; a body that is a symbol bound by the call yields the argument bound to it; anything else is not applicable |
| Eval.EvalOperands | scheme.py:509 | operands are evaluated left to right; each value obtained settles as its operand; on success the result is the list of exactly those values, one per operand; on failure the operand after them settled to the error (OperandsOutcome) |
| Eval.DoIfForm | scheme.py:325-335 | a failed form check is its error with nothing evaluated; otherwise the trace holds the test's value, and a symbol test is its lookup in the frames as the form found them; an error in it is passed on; a true test yields the consequent unevaluated; a false test yields the alternative unevaluated, or okay when there is none |
| Eval.DoAndForm | scheme.py:337-346 | no operands give true; operands are evaluated left to right while true, never the last, each trace entry settling as its operand, and a first operand that is a symbol is its lookup in the frames as the form found them; a false one gives false; an error is passed on; otherwise the last operand is handed back unevaluated |
| Eval.DoOrForm | scheme.py:359-369 | no operands give false; operands are evaluated left to right while false, never the last, each trace entry settling as its operand, and a first operand that is a symbol is its lookup in the frames as the form found them; the first true value is handed back quoted; an error is passed on; otherwise the last operand is handed back unevaluated |
| Eval.DoBeginForm | scheme.py:402-408 | a failed form check is its error with nothing evaluated; otherwise every expression but the last is evaluated in order, each trace entry settling as its expression, and a first expression that is a symbol is its lookup in the frames as the form found them, and the last is handed back unevaluated; an error stops the run |
| Eval.ClauseTest | scheme.py:375-384 | a clause that is not a non-empty list is the form check's error, with nothing changed; an else clause not in last place is an error; a last else clause with no body is an error, otherwise it tests true with nothing evaluated; any other clause's test settles as its first element, and a symbol test is its lookup in the frames as the clause found them |
| Eval.DoCondForm | scheme.py:371-396 | clauses are examined in order; every examined clause is sound and its test settles as its first element unless it is an else clause; the first clause's symbol test is its lookup in the frames as the form found them; every test before the last was false, and an else clause can only be last; the first true clause decides the result (ClauseResult); a test error is passed on; after false tests, a clause that is not a non-empty list, an else clause not in last place, or one with no body ends the form with that error; only when every clause tested false is the result okay (CondOutcome) |
| Eval.CondElseChosen | scheme.py:371-396 | `(cond (#f 1) (else 2))` hands back 2, whatever the trace: the false first test leaves the last clause, an else clause, to decide |
| Eval.DoDefineForm | scheme.py:211-234 | a symbol target with one expression ends up bound in the current frame to the expression's value, which settles as the expression, and looks up to it; `(f . formals)` binds f to a Lambda over the formals and body closing over the current frame, changing only that key; the result is the target; other shapes fail with nothing changed; when nothing runs before the update (the procedure form, or a symbol form whose expression is not a list) no frame but the current one changes, and its bindings are the earlier ones with the target added or replaced (DefineInPlace) |
| Eval.DoSetForm | scheme.py:315-319 | the expression's value settles as the expression; for a symbol target the set succeeds exactly when a frame on the chain bound the target just before, and that frame then binds it to the value; the result is None; an unbound target gives "unknown identifier" and still looks up to nothing; a pair or vector target is a host failure (an unhashable dictionary key), any other non-symbol target gives "unknown identifier"; when the expression is not a list, the binder is the frame that bound the target on entry, it is the only frame that changes, and with no binder nothing changes (SetInPlace) |
| Eval.SetTarget | scheme.py:82-88 | for a symbol target, the binder is the frame on the chain that bound it before the update, and stays so; the set succeeds exactly when there is one; that frame's bindings are its earlier ones with the target rebound, no other frame changes, and the target then looks up to the value; with no binder the error is "unknown identifier" and the target still looks up to nothing; a pair or vector target is a host failure (an unhashable key), any other non-symbol target "unknown identifier", and neither changes anything |
| Eval.BindingNames | scheme.py:248-249 | succeeds exactly when every binding can be indexed, giving each one's first element in order: a pair's first element, or for a symbol the symbol of its first character |
| Eval.EvalSecond | scheme.py:251-259 | a binding without a length is a host failure and one of another length than two an error, both with nothing changed; a binding of length two settles as its second element (for a symbol, the symbol of its second character); for letrec a symbol name is then bound in the frame to the value, and a pair or vector name is a host failure once the value is obtained (an unhashable key) |
| Eval.BindingValues | scheme.py:251-261 | the bindings are evaluated in order; each value obtained belongs to a binding of length two and settles as its second element; on success the values are exactly those, one per binding; on failure the binding after them has no length (a host failure), another length (an error), an expression that settled to the error, or, for letrec, a pair or vector name that cannot be defined (ValuesOutcome); for letrec the last binding's name is bound in the frame to its value |
| Eval.EvalBindings | scheme.py:241-263 | a bindings operand that is not a list is an error with nothing changed; a binding that cannot be indexed is a host failure with nothing evaluated; otherwise the values and the error are as BindingValues gives them (BindingsOutcome); for letrec the values are evaluated in a fresh frame below the current one, where the last binding is then defined; on success the names are the bindings' first elements |
| Eval.DoNormalLet | scheme.py:265-276 | a bindings error is passed on, and so is an error binding the names to the values; otherwise the body expressions but the last are evaluated in order, an error stopping the run, and the last is handed back, as a begin form over the body would (NormalLetOutcome); on success the frame is fresh, its parent is the current frame, and with a single body expression it holds exactly the bound names |
| Eval.LetBody | scheme.py:269-276 | an error binding the names to the values is passed on; otherwise the body runs as a begin form over it would (BeginOutcome); on success the frame is fresh, its parent is the current frame, the last body expression is handed back, and with a single body expression the frame holds exactly the bound names |
| Eval.NamedLetProcedure | scheme.py:300-302 | succeeds exactly when the binding names are valid formals; the Lambda closes over a fresh frame below the current one, and that frame binds the name to the Lambda alone |
| Eval.DoNamedLet | scheme.py:278-304 | fewer than three operands is the check_form error with nothing changed; a bindings error is passed on; otherwise the outcome is as CallNamedLet states for the binding names and values and the procedure body (NamedLetOutcome); on success the procedure's result is handed back quoted, with a fresh frame below the current one |
| Eval.CallNamedLet | scheme.py:298-304 | binding names that are not valid formals give the lambda form's error; otherwise the procedure's frame is fresh with the current frame as parent; an error binding the values is passed on; when they bind, the body is evaluated in a fresh call frame below the procedure's frame, its rounds starting there and its result theirs (Runs, recorded in the trace), a symbol body bound by the call yields its value, an error is passed on, and a value is handed back quoted with the procedure's frame (NamedCallOutcome) |
| Eval.LetrecUnhashableName | scheme.py:251-259 | `(letrec (((a) 1) (b (set! g 2))) b)` fails with the host's unhashable-key error at its first binding, and no binding value is kept |
| Eval.NamedLetBodyFrame | scheme.py:298-304 | in `(let f ((x 5)) (begin x))` with two or more units of fuel, the body runs two rounds in the call frame, whose parent is the frame holding `f`: the begin form, then the lookup of `x` in that frame, which is what the call returns |
| Eval.BeginSymbolRounds | scheme.py:402-408 | `(begin x)` with two or more units of fuel runs two rounds in one frame: the begin form hands back `x`, and the second round looks it up there and ends the run |
| Eval.NamedLetIdentity | scheme.py:278-304 | `(let f ((x 5)) x)` hands back `(quote 5)`, whatever the trace: its binding cannot fail and the call binds x to 5 |
| Eval.DoLetForm | scheme.py:306-313 | after the form check, a symbol first operand makes a named let (NamedLetOutcome, its result quoted), anything else a let over bindings (NormalLetOutcome, the last body expression); either way the new frame's parent is the current frame |
| Eval.EvalDirect | scheme.py:497-506 | quote yields the quote form's result, lambda a Lambda closing over the current frame, mu a Mu (LambdaOutcome, MuOutcome), all three changing nothing; define yields the target and binds it in the current frame (DefineShape, DefineEffect, DefineInPlace); set! yields None and updates the nearest binder, failing exactly when there is none (SetShape, SetEffect, SetInPlace) |
| Eval.EvalConstruct | scheme.py:497-506 | quote yields the quote form's result, lambda a Lambda closing over the current frame, mu a Mu (LambdaOutcome, MuOutcome); the result captures no frame but the current one and those of the form |
| Eval.EvalAssign | scheme.py:499-502 | define yields the target and binds it in the current frame (DefineShape, DefineEffect, DefineInPlace); set! yields None and updates the nearest binder, failing exactly when there is none (SetShape, SetEffect, SetInPlace) |
| Eval.EvalLogic | scheme.py:490-496 | and, or, if, cond and begin each give exactly their own handler's outcome: the trace and the expression handed back |
| Eval.EvalTail | scheme.py:490-496 | and, or, if, cond and begin hand back, in the same frame, the expression their own handler's outcome gives (AndOutcome, OrOutcome, IfOutcome, CondOutcome, BeginOutcome); let and letrec give the form check's error with nothing changed, otherwise the named let's or the bindings let's outcome (NamedLetOutcome, NormalLetOutcome) with a fresh frame below the current one |
| Eval.EvalOperator | scheme.py:508 | the operator settles as `Eval` settles it; a lambda form evaluates to a Lambda over its formals and body; a symbol is its lookup in the frames as the call found them |
| Eval.EvalCall | scheme.py:507-520 | the operator settles to its procedure, and a symbol operator is its lookup in the frames as the call found them; a lambda-form operator is a Lambda over that form's formals and body; an operator error is passed on; the operands' values and error are as EvalOperands gives them (OperandsOutcome); a primitive finishes with its result; a Lambda continues with its body in a fresh frame whose parent is the captured frame, a Mu in one whose parent is the caller's frame; the frame binds exactly the formals to the arguments (CallFrame); anything else is not applicable |
| Eval.Combination | scheme.py:490-520 | a combination is dispatched on its head: quote, lambda, mu, define and set! finish with their own handler's outcome (DoQuoteForm, LambdaOutcome, MuOutcome, DefineShape/DefineEffect/DefineInPlace, SetShape/SetEffect/SetInPlace); and, or, if, cond, begin, let and letrec continue with what their own handler hands back, or finish with its error (Resume, TailOutcome); every other head is a call (CallOutcome), whose symbol operator is its lookup on entry |
| Eval.Round | scheme.py:473-520 | one round of the trampoline, recorded with the fuel it had (RoundOutcome): None and vectors are errors, a symbol looks up, a self-evaluating atom is itself, a non-list is an error, and no atom changes a frame; a list is dispatched on its head exactly as Combination states; only a list whose head does not return at once continues; a call's frame binds exactly the formals to the arguments |
| Eval.EachRoundStep | scheme.py:470-520 | a round run with the fuel left after the earlier ones, and doing what RoundOutcome says, extends the record of rounds |
| Eval.ChainedStep | scheme.py:470-520 | a round that starts from where the last one went round again extends the chain of rounds |
| Eval.RunsStep | scheme.py:470-520 | from the loop's current expression and frame, a round that finishes ends the run with its result (Runs); one that goes round again keeps the loop going from what it handed back |
| Eval.RunsOut | scheme.py:470-520 | when every unit of fuel went to a round that went round again, the run ends with OutOfFuel |
| Eval.RunsAgain | scheme.py:470-520 | every round of a run but the last went round again |
| Eval.Advance | scheme.py:473-520 | one round from the loop's current expression and frame, added to the record: it ends the run with its result or keeps the loop going; an atom changes nothing; a symbol settles to its lookup in that frame; a call's frame binds exactly the formals to the arguments |
| Eval.RunRounds | scheme.py:472-520 | the loop runs rounds until one finishes or the fuel is spent, and its result is the run's (Runs); a symbol the last round settles is its lookup in that round's frame; when the round before the last was a call and the last changed nothing, the call frame binds exactly the formals to the arguments; no fuel, or an atom, changes nothing |
| Eval.RunsSettle | scheme.py:470-482 | what a run gives depends on the frames only through its rounds: no fuel is OutOfFuel, a self-evaluating atom is itself, a quote form its operand (Settles) |
| Eval.RunsFirst | scheme.py:470-506 | a run's first round fixes its result for None, vectors, non-lists, lambda, mu, define and set!, an if or begin form failing its check, and `(and)` and `(or)` with fuel for a second round |
| Eval.Eval | scheme.py:470-520 | the rounds run are recorded (Runs): the first from the expression and environment, each later one from what the one before it handed back, each as RoundOutcome states with the fuel left for it, and the result is the last one's, or OutOfFuel; a symbol the last round settles is its lookup in that round's frame, and when the last round is an atom and the round before it was a call, that call's frame binds exactly the formals to the arguments; out of fuel is an error; None is not evaluable; a symbol evaluates to its lookup in the frames as they were on entry; self-evaluating atoms to themselves; a vector or a non-list is an error; none of these changes a frame; quote gives the quote form's result; lambda, mu, define and set! give their handler's outcome; an if or begin form that fails its check gives that error; `(and)` gives true and `(or)` false, given a second unit of fuel |
| Eval.IdentityCall | scheme.py:507-518 | the first round of `((lambda (x) x) 5)` calls a Lambda over `(x)` on `(5)`, binding x to 5, and goes round again with the body `x` |
| Eval.LambdaIdentity | scheme.py:470-520 | given what Eval promises of its run, `((lambda (x) x) 5)` with two or more units of fuel evaluates to 5 |

## Left out

- The read-eval-print loop, `scheme_load`, `scheme_open` and `run` (scheme.py:527-619). They do console and file input and output.
- `apply_primitive`, `pairs_to_list` and `create_global_frame` call the primitives library, which is not part of this model. The primitives are the parameter `natives`. Primitives that take the environment (`eval`, `apply`, `load`) are not modelled.
- Eval.CallPrimitive: a primitive result holding a procedure that was not among its arguments is refused. The library's primitives build their results from their arguments and plain data, so this never applies to them.
- `__repr__` and `__str__`: display only. Error messages become error kinds; their text is not modelled.
- The host's recursion limit and its `RuntimeError` handling (scheme.py:541-544). Instead, evaluation stops with `OutOfFuel` when its fuel runs out.
- Eval.Eval: a program that needs more fuel than it was given ends in `OutOfFuel`, where the source would keep going.
- Floating-point numbers, the reader and the numeric primitives. Numbers are unbounded integers.
- Python exceptions other than `SchemeError` become one `HostFault` kind. Examples: indexing a binding that is neither a pair nor a symbol, or taking the length of one that is neither a proper list nor a symbol. A symbol is a host string, so a symbol used as a binding is indexed by character (scheme.py:248-254): `(let (xy) x)` binds x to the value of y.
- Eval.BindingNames: a Scheme string, vector or nil used as a binding is not indexed here; it fails as a host failure. How the host holds strings and vectors belongs to the reader and the primitives, which are not part of this model.
- Bindings are keyed by symbol name. A pair or a vector cannot be a host dictionary key: using one raises a host `TypeError`, which is the host failure `UnhashableKey` here. The vector's host type belongs to the reader, which is not part of this model; it is taken to be unhashable like a pair. Python would also use other non-symbols as keys in three places:
  - Calls.MakeCallFrame: a non-symbol in dotted formals is an error here. Every procedure's formals pass `check_formals` first, so this cannot happen.
  - Eval.BindingValues: a letrec binding whose name is a number, string, boolean or nil defines nothing here, where the host would bind it under that key. No symbol lookup can reach such a key, and `make_call_frame` then rejects the same name.
  - Eval.DoSetForm: setting such a target fails with "unknown identifier" here. The host finds it in no frame either, unless an earlier letrec bound it under that key.
- Eval.EvalOperands: an operand's value is tied to it only by `Settles`, which fixes out-of-fuel, self-evaluating atoms and quote forms. A symbol operand is looked up after earlier operands may have changed the frames, and the contracts keep no record of those intermediate frames. The same holds for the binding expressions of Eval.BindingValues and Eval.EvalBindings, and for the traces of the logic forms after their first entry. Where nothing has run yet the lookup is stated: Eval gives a symbol its lookup on entry, and Eval.EvalCall the operator's.
- Eval.BindingValues: for letrec only the last binding is stated to be defined in the frame. A later initialiser may itself define an earlier name in that frame.
- Eval.DoNormalLet: the new frame's bindings are stated only for a single body expression. Earlier body expressions may define further names in it.
- Eval.Eval: every round is stated through `RoundOutcome`, which holds whatever the frames bind. The frames themselves are stated only for the last round: a symbol it settles, and the call frame it ran in. The frames an intermediate round started from are not recorded.
- Eval.CallNamedLet: the rounds of the procedure's body are stated as for Eval.Eval, through `RoundOutcome`; what the call frame binds is stated only for a body that is a symbol bound by the call.
- Eval.DoSetForm: when the expression is a list, running it may change frames first. The binder is then stated only as the frame that binds the target after the update (SetEffect), and the other frames are not stated to be unchanged. The frames between the expression and the update are not recorded.
- Eval.DoDefineForm: when the expression of a symbol target is a list, only the target's new binding is stated (DefineEffect). The rest of the current frame, and the other frames, may have been changed by the expression.
- Eval.Apply: the body of a Lambda or Mu is evaluated as Eval.Eval states, from the call frame; what that frame binds is stated only for a body that is a symbol bound by the call.
