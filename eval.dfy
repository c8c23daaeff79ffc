/** The evaluator (scheme.py:9-20, 188-408, 470-520): the special-form
    handlers, procedure application and the `scheme_eval` trampoline.

    Every method that evaluates takes a fuel bound, the primitives as a
    function `natives` from a primitive's name and its argument list to its
    result, and a closed ghost set `S` of the frames it may change; it hands
    back the set grown by the frames it made.  A special form in tail position
    and a call to a user procedure replace the expression and environment of
    the trampoline; every evaluation the source makes by a nested call to
    `scheme_eval` is a call to `Eval` here.

    The logic forms return a ghost trace of the values their tests evaluated
    to, so that their contracts can say how many operands were evaluated and
    what the form hands back for each outcome.  Each entry of a trace is tied
    to its operand by `Settles`, the part of `Eval`'s contract that holds
    whatever the frames bind.
 */
module Eval {
  import opened Outcomes
  import opened Env
  import opened Data
  import opened Forms
  import opened Calls
  import opened Store

  /** The heads of the forms scheme_eval returns from directly
      (scheme.py:497-506); every other list goes round the trampoline. */
  predicate ReturnsDirectly(head: Value) {
    IsSymbol(head, "lambda") || IsSymbol(head, "define") || IsSymbol(head, "set!")
    || IsSymbol(head, "quote") || IsSymbol(head, "mu")
  }

  /** The expressions scheme_eval settles without looking at a list
      (scheme.py:473-482). */
  predicate Atomic(expr: Value) {
    expr.Undefined? || expr.Sym? || SelfEvaluating(expr) || expr.Vector?
  }

  /** What evaluating `expr` with `fuel` yields whatever the frames bind: no
      fuel is an error, a self-evaluating atom is its own value, and a quote
      form gives its operand. */
  predicate Settles(expr: Value, fuel: nat, v: Result<Value>) {
    && (fuel == 0 ==> v == Err(OutOfFuel))
    && (fuel > 0 && SelfEvaluating(expr) ==> v == Ok(expr))
    && (fuel > 0 && IsList(expr) && expr.Pair? && IsSymbol(expr.first, "quote") ==> v == DoQuoteForm(expr.second))
  }

  /** Entry i of `tests` is what `exprs[i]` evaluated to. */
  predicate Traced(exprs: seq<Value>, fuel: nat, tests: seq<Result<Value>>) {
    |tests| <= |exprs| && forall i :: 0 <= i < |tests| ==> Settles(exprs[i], fuel, tests[i])
  }

  /** The result of a lambda form over the operands `vals` (scheme.py:188-197)
      whatever frame it closes over: a Lambda over the checked formals and
      the body. */
  predicate LambdaShape(vals: Value, r: Result<Value>) {
    && (r.Ok? <==> CheckForm(vals, 2, None).Pass? && ValidFormals(Spine(vals)[0]))
    && (CheckForm(vals, 2, None).Fail? ==> r == Err(CheckForm(vals, 2, None).error))
    && (r.Err? && CheckForm(vals, 2, None).Pass? ==> r.error in {DuplicateFormal, FormalsNotFormed})
    && (r.Ok? ==>
          && IsList(vals.second) && |Spine(vals.second)| >= 1 && r.value.Lambda?
          && r.value.formals == Spine(vals)[0] && r.value.body == BodyOf(vals.second))
  }

  /** The result of a lambda form over the operands `vals` (scheme.py:188-197):
      a Lambda over the checked formals and the body, closing over `env`. */
  predicate LambdaOutcome(vals: Value, env: Frame<Value>, r: Result<Value>) {
    LambdaShape(vals, r) && (r.Ok? ==> r.value.env == env)
  }

  /** The result of a mu form over the operands `vals` (scheme.py:200-209): a
      Mu over the checked formals and the body. */
  predicate MuOutcome(vals: Value, r: Result<Value>) {
    && (r.Ok? <==> CheckForm(vals, 2, None).Pass? && ValidFormals(Spine(vals)[0]))
    && (CheckForm(vals, 2, None).Fail? ==> r == Err(CheckForm(vals, 2, None).error))
    && (r.Err? && CheckForm(vals, 2, None).Pass? ==> r.error in {DuplicateFormal, FormalsNotFormed})
    && (r.Ok? ==>
          IsList(vals.second) && |Spine(vals.second)| >= 1 && r.value == Mu(Spine(vals)[0], BodyOf(vals.second)))
  }

  /** What an if form over `vals` hands back (scheme.py:325-335), given the
      trace `tests` of its one test. */
  predicate IfOutcome(vals: Value, fuel: nat, tests: seq<Result<Value>>, r: Result<Value>) {
    && (CheckForm(vals, 2, Some(3)).Fail? ==> r == Err(CheckForm(vals, 2, Some(3)).error) && tests == [])
    && (CheckForm(vals, 2, Some(3)).Pass? ==>
          && |tests| == 1 && Traced(Spine(vals), fuel, tests)
          && (tests[0].Err? ==> r == Err(tests[0].error))
          && (tests[0].Ok? && SchemeTrue(tests[0].value) ==> r == Ok(Spine(vals)[1]))
          && (tests[0].Ok? && !SchemeTrue(tests[0].value) && |Spine(vals)| == 2 ==> r == Ok(Okay))
          && (tests[0].Ok? && !SchemeTrue(tests[0].value) && |Spine(vals)| == 3 ==> r == Ok(Spine(vals)[2])))
  }

  /** What an and form over `vals` hands back (scheme.py:337-346), given the
      trace `tests` of the operands it evaluated. */
  predicate AndOutcome(vals: Value, fuel: nat, tests: seq<Result<Value>>, r: Result<Value>) {
    && Traced(Spine(vals), fuel, tests)
    && (Spine(vals) == [] ==> r == Ok(Bool(true)) && tests == [])
    && (Spine(vals) != [] ==> |tests| < |Spine(vals)|)
    && (forall i :: 0 <= i < |tests| - 1 ==> tests[i].Ok? && SchemeTrue(tests[i].value))
    && (Spine(vals) != [] && (tests == [] || (tests[|tests| - 1].Ok? && SchemeTrue(tests[|tests| - 1].value))) ==>
          |tests| == |Spine(vals)| - 1 && r == Ok(Spine(vals)[|Spine(vals)| - 1]))
    && (tests != [] && tests[|tests| - 1].Err? ==> r == Err(tests[|tests| - 1].error))
    && (tests != [] && tests[|tests| - 1] == Ok(Bool(false)) ==> r == Ok(Bool(false)))
  }

  /** What an or form over `vals` hands back (scheme.py:359-369), given the
      trace `tests` of the operands it evaluated. */
  predicate OrOutcome(vals: Value, fuel: nat, tests: seq<Result<Value>>, r: Result<Value>) {
    && Traced(Spine(vals), fuel, tests)
    && (Spine(vals) == [] ==> r == Ok(Bool(false)) && tests == [])
    && (Spine(vals) != [] ==> |tests| < |Spine(vals)|)
    && (forall i :: 0 <= i < |tests| - 1 ==> tests[i] == Ok(Bool(false)))
    && (Spine(vals) != [] && (tests == [] || tests[|tests| - 1] == Ok(Bool(false))) ==>
          |tests| == |Spine(vals)| - 1 && r == Ok(Spine(vals)[|Spine(vals)| - 1]))
    && (tests != [] && tests[|tests| - 1].Err? ==> r == Err(tests[|tests| - 1].error))
    && (tests != [] && tests[|tests| - 1].Ok? && SchemeTrue(tests[|tests| - 1].value) ==>
          r == Ok(Quote(tests[|tests| - 1].value)))
  }

  /** What a begin form over `vals` hands back (scheme.py:402-408), given the
      trace `tests` of the expressions it evaluated. */
  predicate BeginOutcome(vals: Value, fuel: nat, tests: seq<Result<Value>>, r: Result<Value>) {
    && (CheckForm(vals, 1, None).Fail? ==> r == Err(CheckForm(vals, 1, None).error) && tests == [])
    && (CheckForm(vals, 1, None).Pass? ==>
          && Traced(Spine(vals), fuel, tests) && |tests| < |Spine(vals)|
          && (forall i :: 0 <= i < |tests| - 1 ==> tests[i].Ok?)
          && ((tests == [] || tests[|tests| - 1].Ok?) ==>
                |tests| == |Spine(vals)| - 1 && r == Ok(Spine(vals)[|Spine(vals)| - 1]))
          && (tests != [] && tests[|tests| - 1].Err? ==> r == Err(tests[|tests| - 1].error)))
  }

  /** One more expression evaluated extends the trace. */
  lemma TracedStep(exprs: seq<Value>, fuel: nat, tests: seq<Result<Value>>, t: Result<Value>)
    requires Traced(exprs, fuel, tests) && |tests| < |exprs| && Settles(exprs[|tests|], fuel, t)
    ensures Traced(exprs, fuel, tests + [t])
  {
  }

  /** Entry i of `tests` is the test value of the clause `clauses[i]`, a
      pair whose first element, unless it is an else clause, evaluated to
      that value. */
  predicate CondTraced(clauses: seq<Value>, fuel: nat, tests: seq<Result<Value>>) {
    |tests| <= |clauses|
    && forall i :: 0 <= i < |tests| ==>
         clauses[i].Pair? && (!IsElse(clauses[i]) ==> Settles(clauses[i].first, fuel, tests[i]))
  }

  /** One more clause examined extends the trace. */
  lemma CondTracedStep(clauses: seq<Value>, fuel: nat, tests: seq<Result<Value>>, t: Result<Value>)
    requires CondTraced(clauses, fuel, tests) && |tests| < |clauses|
    requires clauses[|tests|].Pair? && (!IsElse(clauses[|tests|]) ==> Settles(clauses[|tests|].first, fuel, t))
    ensures CondTraced(clauses, fuel, tests + [t])
  {
  }

  /** What is wrong with the shape of a cond clause, if anything
      (scheme.py:375-381): it is not a non-empty list, or it is an else
      clause that is not the last one or that has no body. */
  function ClauseFault(clause: Value, last: bool): Option<Error> {
    if CheckForm(clause, 1, None).Fail? then Some(CheckForm(clause, 1, None).error)
    else if IsElse(clause) && !last then Some(ElseNotLast)
    else if IsElse(clause) && |Spine(clause)| < 2 then Some(BadElse)
    else None
  }

  /** The facts a clause test leaves behind about `t` (see ClauseTest): a
      malformed clause gives its fault, a sound else clause is true, and
      any other sound clause gives the value of its first element. */
  predicate ClauseTested(clause: Value, last: bool, fuel: nat, t: Result<Value>) {
    && (ClauseFault(clause, last).Some? ==> t == Err(ClauseFault(clause, last).value))
    && (ClauseFault(clause, last).None? ==> IsList(clause) && |Spine(clause)| >= 1)
    && (ClauseFault(clause, last).None? && IsElse(clause) ==> t == Ok(Bool(true)))
    && (ClauseFault(clause, last).None? && !IsElse(clause) ==> Settles(clause.first, fuel, t))
  }

  /** A sound clause that is not an else clause and whose test is a symbol:
      its test is that symbol's value in the frame the cond form runs in. */
  predicate TestsSymbol(clause: Value, fuel: nat) {
    CheckForm(clause, 1, None).Pass? && !IsElse(clause) && fuel > 0 && clause.Pair? && clause.first.Sym?
  }

  /** The clauses before `tests` were all sound, tested false, and none was
      an else clause. */
  predicate CondSoFar(clauses: seq<Value>, fuel: nat, tests: seq<Result<Value>>) {
    && CondTraced(clauses, fuel, tests)
    && forall j :: 0 <= j < |tests| ==>
         tests[j] == Ok(Bool(false)) && !IsElse(clauses[j]) && ClauseFault(clauses[j], j == |clauses| - 1).None?
  }

  /** A clause whose test fails ends the cond form with that error; the
      test is recorded when the clause was a well-formed non-else clause. */
  lemma CondFailed(clauses: seq<Value>, fuel: nat, tests: seq<Result<Value>>, t: Result<Value>)
    returns (tests': seq<Result<Value>>)
    requires CondSoFar(clauses, fuel, tests) && |tests| < |clauses| && t.Err?
    requires ClauseTested(clauses[|tests|], |tests| == |clauses| - 1, fuel, t)
    ensures CondOutcome(clauses, fuel, tests', Err(t.error))
    ensures tests' != [] ==> tests'[0] == if tests == [] then t else tests[0]
  {
    var clause := clauses[|tests|];
    if ClauseFault(clause, |tests| == |clauses| - 1).None? {
      CondTracedStep(clauses, fuel, tests, t);
      tests' := tests + [t];
    } else {
      tests' := tests;
    }
  }

  /** A clause whose test is true ends the cond form with its result. */
  lemma CondChosen(clauses: seq<Value>, fuel: nat, tests: seq<Result<Value>>, t: Result<Value>)
    returns (tests': seq<Result<Value>>)
    requires CondSoFar(clauses, fuel, tests) && |tests| < |clauses|
    requires clauses[|tests|].Pair? && t.Ok? && SchemeTrue(t.value)
    requires ClauseTested(clauses[|tests|], |tests| == |clauses| - 1, fuel, t)
    ensures IsList(clauses[|tests|]) && |Spine(clauses[|tests|])| >= 1
    ensures CondOutcome(clauses, fuel, tests', Ok(ClauseResult(clauses[|tests|], t.value)))
    ensures tests'[0] == if tests == [] then t else tests[0]
  {
    CondTracedStep(clauses, fuel, tests, t);
    tests' := tests + [t];
  }

  /** When every clause tested false the cond form hands back okay. */
  lemma CondExhausted(clauses: seq<Value>, fuel: nat, tests: seq<Result<Value>>)
    requires CondSoFar(clauses, fuel, tests) && |tests| == |clauses|
    ensures CondOutcome(clauses, fuel, tests, Ok(Okay))
  {
  }

  /** What a cond form over `vals` hands back (scheme.py:371-396), given the
      test values `tests` of the clauses it examined.  Every examined clause
      is a pair, and the test of a clause that is not an else clause is the
      value of its first element. */
  predicate CondOutcome(clauses: seq<Value>, fuel: nat, tests: seq<Result<Value>>, r: Result<Value>) {
    && CondTraced(clauses, fuel, tests)
    && (forall i :: 0 <= i < |tests| ==> ClauseFault(clauses[i], i == |clauses| - 1).None?)
    && (forall i :: 0 <= i < |tests| - 1 ==> tests[i] == Ok(Bool(false)) && !IsElse(clauses[i]))
    && (tests != [] ==>
          var k := |tests| - 1;
          && (IsElse(clauses[k]) ==> k == |clauses| - 1 && tests[k] == Ok(Bool(true)) && clauses[k].second != Nil)
          && (tests[k].Ok? && SchemeTrue(tests[k].value) ==>
                IsList(clauses[k]) && |Spine(clauses[k])| >= 1 && r == Ok(ClauseResult(clauses[k], tests[k].value)))
          && (tests[k].Err? ==> r == Err(tests[k].error)))
    && (tests == [] || tests[|tests| - 1] == Ok(Bool(false)) ==>
          if |tests| == |clauses| then r == Ok(Okay)
          else ClauseFault(clauses[|tests|], |tests| == |clauses| - 1).Some?
               && r == Err(ClauseFault(clauses[|tests|], |tests| == |clauses| - 1).value))
  }

  /** `(cond (#f 1) (else 2))` hands back 2 whatever trace it leaves: the
      first test is false, so the else clause, the last, decides. */
  lemma CondElseChosen(fuel: nat, tests: seq<Result<Value>>, r: Result<Value>)
    requires fuel > 0
    requires CondOutcome([List([Bool(false), Num(1)]), List([Sym("else"), Num(2)])], fuel, tests, r)
    ensures r == Ok(Num(2))
  {
    var c0, c1 := List([Bool(false), Num(1)]), List([Sym("else"), Num(2)]);
    assert !IsElse(c0) && IsElse(c1);
    assert ClauseFault(c0, false).None? && ClauseFault(c1, true).None?;
    assert tests != [] && tests[0] == Ok(Bool(false));
    assert |tests| == 2 && tests[1] == Ok(Bool(true));
  }

  /** scheme.py:188-197 — a LambdaProcedure over the checked formals and the
      body, closing over the environment the form is evaluated in. */
  method DoLambdaForm(vals: Value, env: Frame<Value>) returns (r: Result<Value>)
    ensures LambdaOutcome(vals, env, r)
  {
    var c := CheckForm(vals, 2, None);
    if c.Fail? {
      return Err(c.error);
    }
    assert Spine(vals) == [vals.first] + Spine(vals.second);
    var formals := vals.first;
    var ok := CheckFormals(formals);
    if ok.Fail? {
      return Err(ok.error);
    }
    r := Ok(Lambda(formals, BodyOf(vals.second), env));
  }

  /** scheme.py:200-209 — a MuProcedure over the checked formals and the
      body; it captures no environment. */
  method DoMuForm(vals: Value) returns (r: Result<Value>)
    ensures MuOutcome(vals, r)
  {
    var c := CheckForm(vals, 2, None);
    if c.Fail? {
      return Err(c.error);
    }
    assert Spine(vals) == [vals.first] + Spine(vals.second);
    ListIsSpine(vals);
    var formals := Nth(vals, 0);
    var ok := CheckFormals(formals);
    if ok.Fail? {
      return Err(ok.error);
    }
    r := Ok(Mu(formals, BodyOf(vals.second)));
  }

  /** The parts of a proper list capture no more than the list. */
  lemma PartsWithin(vals: Value, S: set<Frame<Value>>)
    requires IsList(vals) && Captured(vals) <= S
    ensures forall i :: 0 <= i < |Spine(vals)| ==> Captured(Spine(vals)[i]) <= S
    ensures vals.Pair? ==> Captured(vals.second) <= S
    ensures Length(vals) == |Spine(vals)|
    ensures forall k :: 0 <= k < Length(vals) ==> Nth(vals, k) == Spine(vals)[k]
  {
    SpineWithin(vals);
    ListIsSpine(vals);
  }

  /** apply_primitive (scheme.py:11-12, 511-512), with the primitives given
      as `natives`: their result, except that a result holding a procedure
      that was not among the arguments is refused.  The library's primitives
      build their results from their arguments and plain data, so the refusal
      never happens with them. */
  function CallPrimitive(natives: (string, Value) -> Result<Value>, name: string, args: Value): (r: Result<Value>)
    ensures r.Ok? ==> Captured(r.value) <= Captured(args)
    ensures natives(name, args).Err? ==> r == natives(name, args)
    ensures natives(name, args).Ok? ==>
      r == if Closures(natives(name, args).value) <= Closures(args) then natives(name, args)
           else Err(HostFault("primitive returned a procedure it was not given"))
  {
    var out := natives(name, args);
    if out.Err? then out
    else if Closures(out.value) <= Closures(args) then
      ClosuresWithin(out.value, args);
      out
    else Err(HostFault("primitive returned a procedure it was not given"))
  }

  /** The frame a call to a user procedure runs in (scheme.py:13-18 and
      513-518): the formals bound to the arguments, in a new frame whose
      parent is the environment a Lambda captured, or, for a Mu, the
      environment of the caller. */
  method ProcedureFrame(proc: Value, args: Value, env: Frame<Value>, ghost S: set<Frame<Value>>)
    returns (r: Result<Frame<Value>>, ghost S': set<Frame<Value>>)
    requires proc.Lambda? || proc.Mu?
    requires Closed(S) && env in S && Captured(proc) <= S && Captured(args) <= S
    ensures r.Ok? <==> Bind(proc.formals, args).Ok?
    ensures r.Err? ==> r.error == Bind(proc.formals, args).error && S' == S
    ensures r.Ok? ==>
      fresh(r.value) && r.value.bindings == Bind(proc.formals, args).value
      && r.value.parent == (if proc.Lambda? then proc.env else env)
      && S' == S + {r.value}
    ensures Closed(S')
  {
    if proc.Lambda? {
      r, S' := CallFrameIn(proc.env, proc.formals, args, S);
    } else {
      r, S' := CallFrameIn(env, proc.formals, args, S);
    }
  }

  /** scheme.py:9-20 — apply a procedure to a list of argument values: a
      primitive through `natives`, a Lambda or Mu by evaluating its body in
      its call frame; anything else cannot be called.  `frame` is the call
      frame, made fresh, whose parent is the captured environment of a Lambda
      and the caller's environment for a Mu; it starts out holding the bound
      formals (see `ProcedureFrame`).  `rounds` are the rounds of the body's
      evaluation, which start from the body in `frame`. */
  method Apply(proc: Value, args: Value, env: Frame<Value>, fuel: nat,
               natives: (string, Value) -> Result<Value>, ghost S: set<Frame<Value>>)
    returns (r: Result<Value>, ghost frame: Frame?<Value>, ghost rounds: seq<Turn>, ghost S': set<Frame<Value>>)
    requires Closed(S) && env in S && Captured(proc) <= S && Captured(args) <= S
    modifies S
    decreases fuel, 3
    ensures Closed(S') && S <= S' && fresh(S' - S)
    ensures r.Ok? ==> Captured(r.value) <= S'
    ensures frame != null ==> fresh(frame) && frame in S'
    ensures proc.Primitive? ==> r == CallPrimitive(natives, proc.pname, args) && S' == S && unchanged(S)
    ensures !proc.Primitive? && !proc.Lambda? && !proc.Mu? ==> r == Err(NotApplicable) && S' == S && unchanged(S)
    ensures (proc.Lambda? || proc.Mu?) && Bind(proc.formals, args).Err? ==>
      r == Err(Bind(proc.formals, args).error) && S' == S && unchanged(S)
    ensures (proc.Lambda? || proc.Mu?) && Bind(proc.formals, args).Ok? ==>
      && frame != null && fresh(frame) && frame in S'
      && frame.parent == (if proc.Lambda? then proc.env else env)
      && Runs(proc.body, frame, fuel, natives, rounds, r)
      && Settles(proc.body, fuel, r)
    ensures (proc.Lambda? || proc.Mu?) && Bind(proc.formals, args).Ok? && fuel > 0
            && proc.body.Sym? && proc.body.name in Bind(proc.formals, args).value ==>
      r == Ok(Bind(proc.formals, args).value[proc.body.name])
  {
    frame, rounds := null, [];
    if proc.Primitive? {
      return CallPrimitive(natives, proc.pname, args), frame, rounds, S;
    } else if proc.Lambda? || proc.Mu? {
      var made;
      made, S' := ProcedureFrame(proc, args, env, S);
      if made.Err? {
        return Err(made.error), frame, rounds, S';
      }
      frame := made.value;
      assert Captured(proc.body) <= Captured(proc) <= S';
      r, rounds, S' := Eval(proc.body, made.value, fuel, natives, S');
    } else {
      return Err(NotApplicable), frame, rounds, S;
    }
  }

  /** An evaluation as the handlers that evaluate their operands one after
      another see it: the store facts and `Settles`, and nothing of Eval's
      dispatch. */
  method EvalSettled(expr: Value, env: Frame<Value>, fuel: nat,
                     natives: (string, Value) -> Result<Value>, ghost S: set<Frame<Value>>)
    returns (r: Result<Value>, ghost S': set<Frame<Value>>)
    requires Closed(S) && env in S && Captured(expr) <= S
    modifies S
    decreases fuel, 2
    ensures Closed(S') && S <= S' && fresh(S' - S)
    ensures r.Ok? ==> Captured(r.value) <= S'
    ensures Settles(expr, fuel, r)
    ensures !IsList(expr) ==> S' == S && unchanged(S)
    ensures fuel > 0 && expr.Sym? ==> r == old(env.Lookup(expr.name))
  {
    ghost var rounds;
    r, rounds, S' := Eval(expr, env, fuel, natives, S);
  }

  /** What evaluating `operands` left to right hands back (scheme.py:509),
      given the values `evaluated` of the operands evaluated without error:
      each of those settled to its value; on success the result lists them
      all, and on failure the operand after them settled to the error. */
  predicate OperandsOutcome(operands: seq<Value>, fuel: nat, evaluated: seq<Value>, r: Result<Value>) {
    && |evaluated| <= |operands|
    && (forall i :: 0 <= i < |evaluated| ==> Settles(operands[i], fuel, Ok(evaluated[i])))
    && (r.Ok? ==> |evaluated| == |operands| && IsList(r.value) && Spine(r.value) == evaluated)
    && (r.Err? ==> |evaluated| < |operands| && Settles(operands[|evaluated|], fuel, Err(r.error)))
  }

  /** `rest.map(lambda arg: scheme_eval(arg, env))` (scheme.py:509): the
      operands evaluated left to right into a list of the same length, each
      element the value of the operand in its place. */
  method EvalOperands(rest: Value, env: Frame<Value>, fuel: nat,
                      natives: (string, Value) -> Result<Value>, ghost S: set<Frame<Value>>)
    returns (r: Result<Value>, ghost evaluated: seq<Value>, ghost S': set<Frame<Value>>)
    requires IsList(rest)
    requires Closed(S) && env in S && Captured(rest) <= S
    modifies S
    decreases fuel, 3
    ensures Closed(S') && S <= S' && fresh(S' - S)
    ensures r.Ok? ==> IsList(r.value) && |Spine(r.value)| == |Spine(rest)| && Captured(r.value) <= S'
    ensures OperandsOutcome(Spine(rest), fuel, evaluated, r)
  {
    PartsWithin(rest, S);
    ListIsSpine(rest);
    ghost var operands := Spine(rest);
    var n := Length(rest);
    var values: seq<Value> := [];
    S' := S;
    while |values| < n
      invariant |values| <= n
      invariant Closed(S') && S <= S' && fresh(S' - S)
      invariant forall i :: 0 <= i < |values| ==> Captured(values[i]) <= S'
      invariant forall i :: 0 <= i < |values| ==> Settles(operands[i], fuel, Ok(values[i]))
      decreases n - |values|
    {
      var operand := Nth(rest, |values|);
      assert operand == operands[|values|];
      var v;
      v, S' := EvalSettled(operand, env, fuel, natives, S');
      if v.Err? {
        return Err(v.error), values, S';
      }
      values := values + [v.value];
    }
    FromSeqWithin(values, Nil, S');
    evaluated := values;
    r := Ok(List(values));
  }

  /** scheme.py:325-335 — evaluate the test and hand back, unevaluated, the
      consequent when it is true and otherwise the alternative, or okay when
      there is none.  `tests` holds what the test evaluated to. */
  method DoIfForm(vals: Value, env: Frame<Value>, fuel: nat,
                  natives: (string, Value) -> Result<Value>, ghost S: set<Frame<Value>>)
    returns (r: Result<Value>, ghost tests: seq<Result<Value>>, ghost S': set<Frame<Value>>)
    requires Closed(S) && env in S && Captured(vals) <= S
    modifies S
    decreases fuel, 3
    ensures Closed(S') && S <= S' && fresh(S' - S)
    ensures r.Ok? ==> Captured(r.value) <= S'
    ensures CheckForm(vals, 2, Some(3)).Fail? ==> S' == S && unchanged(S)
    ensures IfOutcome(vals, fuel, tests, r)
    ensures CheckForm(vals, 2, Some(3)).Pass? && fuel > 0 && Spine(vals)[0].Sym? ==>
      tests[0] == old(env.Lookup(Spine(vals)[0].name))
  {
    var c := CheckForm(vals, 2, Some(3));
    if c.Fail? {
      return Err(c.error), [], S;
    }
    PartsWithin(vals, S);
    var t;
    t, S' := EvalSettled(Nth(vals, 0), env, fuel, natives, S);
    tests := [t];
    if t.Err? {
      return Err(t.error), tests, S';
    }
    assert Spine(vals) == [vals.first] + Spine(vals.second);
    assert Spine(vals.second) == [vals.second.first] + Spine(vals.second.second);
    if SchemeTrue(t.value) {
      r := Ok(Nth(vals, 1));
    } else if vals.second.second == Nil {
      r := Ok(Okay);
    } else {
      ListOrDotted(vals);
      assert IsList(vals) && IsList(vals.second) && IsList(vals.second.second);
      assert vals.second.second.Pair?;
      assert Spine(vals.second.second) == [vals.second.second.first] + Spine(vals.second.second.second);
      r := Ok(Nth(vals, 2));
    }
  }

  /** scheme.py:337-346 — evaluate the operands but the last, left to right,
      stopping at the first false one; hand back the last operand
      unevaluated.  No operands give true.  `tests` are the values the
      operands evaluated to, in order. */
  method DoAndForm(vals: Value, env: Frame<Value>, fuel: nat,
                   natives: (string, Value) -> Result<Value>, ghost S: set<Frame<Value>>)
    returns (r: Result<Value>, ghost tests: seq<Result<Value>>, ghost S': set<Frame<Value>>)
    requires IsList(vals)
    requires Closed(S) && env in S && Captured(vals) <= S
    modifies S
    decreases fuel, 3
    ensures Closed(S') && S <= S' && fresh(S' - S)
    ensures r.Ok? ==> Captured(r.value) <= S'
    ensures AndOutcome(vals, fuel, tests, r)
    ensures tests != [] && fuel > 0 && Spine(vals)[0].Sym? ==> tests[0] == old(env.Lookup(Spine(vals)[0].name))
  {
    PartsWithin(vals, S);
    var n := Length(vals);
    tests := [];
    S' := S;
    if n == 0 {
      return Ok(Bool(true)), tests, S';
    }
    var i := 0;
    while true
      invariant 0 <= i < n && |tests| == i
      invariant forall j :: 0 <= j < i ==> tests[j].Ok? && SchemeTrue(tests[j].value)
      invariant Traced(Spine(vals), fuel, tests)
      invariant Closed(S') && S <= S' && fresh(S' - S)
      invariant i == 0 ==> S' == S && unchanged(S)
      invariant i > 0 && fuel > 0 && Spine(vals)[0].Sym? ==> tests[0] == old(env.Lookup(Spine(vals)[0].name))
      decreases n - i
    {
      var val := Nth(vals, i);
      if i == n - 1 {
        return Ok(val), tests, S';
      }
      if i == 0 {
        // The first test is evaluated in the entry state.
        AncestorsWithin(S, env);
        assert Spine(vals) == [vals.first] + Spine(vals.second);
      }
      var t;
      t, S' := EvalSettled(val, env, fuel, natives, S');
      TracedStep(Spine(vals), fuel, tests, t);
      tests := tests + [t];
      if t.Err? {
        return Err(t.error), tests, S';
      }
      if SchemeFalse(t.value) {
        return Ok(Bool(false)), tests, S';
      }
      i := i + 1;
    }
  }

  /** scheme.py:359-369 — evaluate the operands but the last, left to right,
      stopping at the first true one, which is handed back quoted so that
      the trampoline does not evaluate it again; otherwise hand back the last
      operand unevaluated.  No operands give false. */
  method DoOrForm(vals: Value, env: Frame<Value>, fuel: nat,
                  natives: (string, Value) -> Result<Value>, ghost S: set<Frame<Value>>)
    returns (r: Result<Value>, ghost tests: seq<Result<Value>>, ghost S': set<Frame<Value>>)
    requires IsList(vals)
    requires Closed(S) && env in S && Captured(vals) <= S
    modifies S
    decreases fuel, 3
    ensures Closed(S') && S <= S' && fresh(S' - S)
    ensures r.Ok? ==> Captured(r.value) <= S'
    ensures OrOutcome(vals, fuel, tests, r)
    ensures tests != [] && fuel > 0 && Spine(vals)[0].Sym? ==> tests[0] == old(env.Lookup(Spine(vals)[0].name))
  {
    PartsWithin(vals, S);
    var n := Length(vals);
    tests := [];
    S' := S;
    if n == 0 {
      return Ok(Bool(false)), tests, S';
    }
    var i := 0;
    while true
      invariant 0 <= i < n && |tests| == i
      invariant forall j :: 0 <= j < i ==> tests[j] == Ok(Bool(false))
      invariant Traced(Spine(vals), fuel, tests)
      invariant Closed(S') && S <= S' && fresh(S' - S)
      invariant i == 0 ==> S' == S && unchanged(S)
      invariant i > 0 && fuel > 0 && Spine(vals)[0].Sym? ==> tests[0] == old(env.Lookup(Spine(vals)[0].name))
      decreases n - i
    {
      var val := Nth(vals, i);
      if i == n - 1 {
        return Ok(val), tests, S';
      }
      if i == 0 {
        // The first test is evaluated in the entry state.
        AncestorsWithin(S, env);
        assert Spine(vals) == [vals.first] + Spine(vals.second);
      }
      var t;
      t, S' := EvalSettled(val, env, fuel, natives, S');
      TracedStep(Spine(vals), fuel, tests, t);
      tests := tests + [t];
      if t.Err? {
        return Err(t.error), tests, S';
      }
      if SchemeTrue(t.value) {
        QuoteWithin(t.value);
        return Ok(Quote(t.value)), tests, S';
      }
      i := i + 1;
    }
  }

  /** scheme.py:402-408 — evaluate every expression but the last, in order,
      and hand back the last unevaluated. */
  method DoBeginForm(vals: Value, env: Frame<Value>, fuel: nat,
                     natives: (string, Value) -> Result<Value>, ghost S: set<Frame<Value>>)
    returns (r: Result<Value>, ghost tests: seq<Result<Value>>, ghost S': set<Frame<Value>>)
    requires Closed(S) && env in S && Captured(vals) <= S
    modifies S
    decreases fuel, 3
    ensures Closed(S') && S <= S' && fresh(S' - S)
    ensures r.Ok? ==> Captured(r.value) <= S'
    ensures CheckForm(vals, 1, None).Fail? || (IsList(vals) && |Spine(vals)| == 1) ==> S' == S && unchanged(S)
    ensures BeginOutcome(vals, fuel, tests, r)
    ensures tests != [] && fuel > 0 && Spine(vals)[0].Sym? ==> tests[0] == old(env.Lookup(Spine(vals)[0].name))
  {
    tests := [];
    var c := CheckForm(vals, 1, None);
    if c.Fail? {
      return Err(c.error), tests, S;
    }
    PartsWithin(vals, S);
    var n := Length(vals);
    S' := S;
    if n == 1 {
      return Ok(Nth(vals, 0)), tests, S';
    }
    var i := 0;
    while i < n - 1
      invariant 0 <= i <= n - 1 && |tests| == i
      invariant forall j :: 0 <= j < i ==> tests[j].Ok?
      invariant Traced(Spine(vals), fuel, tests)
      invariant Closed(S') && S <= S' && fresh(S' - S)
      invariant i == 0 ==> S' == S && unchanged(S)
      invariant i > 0 && fuel > 0 && Spine(vals)[0].Sym? ==> tests[0] == old(env.Lookup(Spine(vals)[0].name))
      decreases n - i
    {
      if i == 0 {
        // The first test is evaluated in the entry state.
        AncestorsWithin(S, env);
        assert Spine(vals) == [vals.first] + Spine(vals.second);
      }
      var t;
      t, S' := EvalSettled(Nth(vals, i), env, fuel, natives, S');
      TracedStep(Spine(vals), fuel, tests, t);
      tests := tests + [t];
      if t.Err? {
        return Err(t.error), tests, S';
      }
      i := i + 1;
    }
    r := Ok(Nth(vals, n - 1));
  }

  /** The test of one cond clause (scheme.py:375-384).  The clause must be a
      non-empty list.  An `else` clause must be the last one and have a
      body, and then counts as true without anything being evaluated; any
      other clause has its first element evaluated. */
  method ClauseTest(clause: Value, last: bool, env: Frame<Value>, fuel: nat,
                    natives: (string, Value) -> Result<Value>, ghost S: set<Frame<Value>>)
    returns (r: Result<Value>, ghost S': set<Frame<Value>>)
    requires Closed(S) && env in S && Captured(clause) <= S
    modifies S
    decreases fuel, 3
    ensures Closed(S') && S <= S' && fresh(S' - S)
    ensures r.Ok? ==> Captured(r.value) <= S'
    ensures CheckForm(clause, 1, None).Fail? || IsElse(clause) ==> S' == S && unchanged(S)
    ensures ClauseTested(clause, last, fuel, r)
    ensures TestsSymbol(clause, fuel) ==> r == old(env.Lookup(clause.first.name))
  {
    S' := S;
    var c := CheckForm(clause, 1, None);
    if c.Fail? {
      return Err(c.error), S';
    }
    ListOrDotted(clause);
    if IsSymbol(clause.first, "else") {
      if !last {
        return Err(ElseNotLast), S';
      }
      if clause.second == Nil {
        return Err(BadElse), S';
      }
      assert Spine(clause) == [clause.first] + Spine(clause.second);
      return Ok(Bool(true)), S';
    }
    SpineWithin(clause);
    r, S' := EvalSettled(clause.first, env, fuel, natives, S);
  }

  /** Quoting a value adds no closure to it. */
  lemma QuoteWithin(v: Value)
    ensures Captured(Quote(v)) == Captured(v)
  {
    assert Captured(Sym("quote")) == {} && Captured(Nil) == {};
    assert Captured(Pair(v, Nil)) == Captured(v) + {};
  }

  /** What a clause hands back captures no more than the clause and its test. */
  lemma ClauseResultWithin(clause: Value, test: Value)
    requires IsList(clause) && |Spine(clause)| >= 1
    ensures Captured(ClauseResult(clause, test)) <= Captured(clause) + Captured(test)
  {
    ListIsSpine(clause);
    assert Spine(clause) == [clause.first] + Spine(clause.second);
    var n := Length(clause);
    if n > 2 {
      assert ClauseResult(clause, test) == Pair(Sym("begin"), clause.second);
    } else if n == 2 {
      SpineWithin(clause);
    } else {
      QuoteWithin(test);
    }
  }

  /** scheme.py:371-396 — try the clauses in order.  Each must be a non-empty
      list; an `else` clause must be the last one and have a body, and counts
      as a true test without being evaluated.  The first clause whose test is
      true decides the result (`ClauseResult`); when none is, the result is
      okay.  `tests` holds the test value of every clause examined. */
  method DoCondForm(vals: Value, env: Frame<Value>, fuel: nat,
                    natives: (string, Value) -> Result<Value>, ghost S: set<Frame<Value>>)
    returns (r: Result<Value>, ghost tests: seq<Result<Value>>, ghost S': set<Frame<Value>>)
    requires IsList(vals)
    requires Closed(S) && env in S && Captured(vals) <= S
    modifies S
    decreases fuel, 4
    ensures Closed(S') && S <= S' && fresh(S' - S)
    ensures r.Ok? ==> Captured(r.value) <= S'
    ensures CondOutcome(Spine(vals), fuel, tests, r)
    ensures tests != [] && TestsSymbol(Spine(vals)[0], fuel) ==> tests[0] == old(env.Lookup(Spine(vals)[0].first.name))
  {
    PartsWithin(vals, S);
    ghost var clauses := Spine(vals);
    var n := Length(vals);
    tests := [];
    S' := S;
    var i := 0;
    while i < n
      invariant 0 <= i <= n && |tests| == i
      invariant CondSoFar(clauses, fuel, tests)
      invariant Closed(S') && S <= S' && fresh(S' - S)
      invariant i == 0 ==> S' == S && unchanged(S)
      invariant i > 0 && TestsSymbol(clauses[0], fuel) ==> tests[0] == old(env.Lookup(clauses[0].first.name))
      decreases n - i
    {
      var clause := Nth(vals, i);
      assert clause == clauses[i];
      if i == 0 {
        // The first clause is tested in the entry state.
        AncestorsWithin(S, env);
      }
      var t;
      t, S' := ClauseTest(clause, i == n - 1, env, fuel, natives, S');
      if t.Err? {
        // A malformed clause, or a misplaced or empty else clause, fails
        // before any test is made.
        tests := CondFailed(clauses, fuel, tests, t);
        return Err(t.error), tests, S';
      }
      if SchemeTrue(t.value) {
        ClauseResultWithin(clause, t.value);
        tests := CondChosen(clauses, fuel, tests, t);
        return Ok(ClauseResult(clause, t.value)), tests, S';
      }
      CondTracedStep(clauses, fuel, tests, t);
      tests := tests + [t];
      i := i + 1;
    }
    CondExhausted(clauses, fuel, tests);
    r := Ok(Okay);
  }

  /** What a define form over `vals` hands back whatever its expression
      evaluates to (scheme.py:211-234): the target itself on success, and an
      error for each malformed target. */
  predicate DefineShape(vals: Value, r: Result<Value>) {
    && (CheckForm(vals, 2, None).Fail? ==> r == Err(CheckForm(vals, 2, None).error))
    && (CheckForm(vals, 2, None).Pass? ==>
          var target := Spine(vals)[0];
          && (r.Ok? ==> r.value == target)
          && (target.Sym? && |Spine(vals)| > 2 ==> r == Err(TooManyOperands))
          && (target.Pair? && !target.first.Sym? ==> r == Err(NotAVariable))
          && (target.Pair? && target.first.Sym? ==> (r.Ok? <==> ValidFormals(target.second)))
          && (!target.Sym? && !target.Pair? ==> r == Err(BadDefine)))
  }

  /** What a define form over `vals` does to `env`, given what its expression
      evaluated to (`val`): a symbol target ends up bound in `env` to that
      value, a procedure target to a Lambda closing over `env`. */
  twostate predicate DefineEffect(vals: Value, env: Frame<Value>, fuel: nat, new val: Result<Value>, new r: Result<Value>)
    reads env
  {
    CheckForm(vals, 2, None).Pass? ==>
      var target := Spine(vals)[0];
      && (target.Sym? && |Spine(vals)| == 2 ==>
            && Settles(Spine(vals)[1], fuel, val)
            && (val.Err? ==> r == Err(val.error))
            && (val.Ok? ==> r.Ok? && target.name in env.bindings && env.bindings[target.name] == val.value))
      && (target.Pair? && target.first.Sym? && r.Ok? ==>
            env.bindings == old(env.bindings)[target.first.name := Lambda(target.second, BodyOf(vals.second), env)])
  }

  /** What a define form over `vals` does when nothing runs before its
      update: the procedure form, and a symbol form whose expression is not a
      list.  Then `env` is the only frame that may change, and a symbol
      target is added to or replaces the bindings `env` had before the
      form. */
  twostate predicate DefineInPlace(vals: Value, env: Frame<Value>, new val: Result<Value>,
                                   S: set<Frame<Value>>, new S': set<Frame<Value>>)
    reads S, env
  {
    CheckForm(vals, 2, None).Pass? ==>
      && (Spine(vals)[0].Pair? ==> S' == S && unchanged(S - {env}))
      && (Spine(vals)[0].Sym? && |Spine(vals)| == 2 && !IsList(Spine(vals)[1]) ==>
            && S' == S && unchanged(S - {env})
            && (val.Ok? ==> env.bindings == old(env.bindings)[Spine(vals)[0].name := val.value])
            && (val.Err? ==> unchanged(env)))
  }

  /** scheme.py:211-234 — bind a symbol to the value of the expression, or,
      for `(define (f . formals) body...)`, bind f to a Lambda over the
      formals and the body closing over `env`.  Either way the result is the
      target itself.  `val` is what the expression evaluated to. */
  method DoDefineForm(vals: Value, env: Frame<Value>, fuel: nat,
                      natives: (string, Value) -> Result<Value>, ghost S: set<Frame<Value>>)
    returns (r: Result<Value>, ghost val: Result<Value>, ghost S': set<Frame<Value>>)
    requires Closed(S) && env in S && Captured(vals) <= S
    modifies S
    decreases fuel, 3
    ensures Closed(S') && S <= S' && fresh(S' - S)
    ensures r.Ok? ==> Captured(r.value) <= S'
    ensures DefineShape(vals, r) && DefineEffect(vals, env, fuel, val, r)
    ensures CheckForm(vals, 2, None).Fail? ==> S' == S && unchanged(S)
    ensures CheckForm(vals, 2, None).Pass? && !(Spine(vals)[0].Sym? && |Spine(vals)| == 2) && r.Err? ==>
      S' == S && unchanged(S)
    ensures CheckForm(vals, 2, None).Pass? && Spine(vals)[0].Sym? && |Spine(vals)| == 2 && val.Ok? ==>
      env.Lookup(Spine(vals)[0].name) == Ok(val.value)
    ensures DefineInPlace(vals, env, val, S, S')
  {
    val := Err(BadDefine);
    var c := CheckForm(vals, 2, None);
    if c.Fail? {
      return Err(c.error), val, S;
    }
    PartsWithin(vals, S);
    assert Spine(vals) == [vals.first] + Spine(vals.second);
    var target := Nth(vals, 0);
    S' := S;
    if target.Sym? {
      var c2 := CheckForm(vals, 2, Some(2));
      if c2.Fail? {
        return Err(c2.error), val, S;
      }
      var v;
      v, S' := EvalSettled(Nth(vals, 1), env, fuel, natives, S);
      val := v;
      if v.Err? {
        return Err(v.error), val, S';
      }
      DefineIn(env, target.name, v.value, S');
    } else if target.Pair? {
      var binding := target.first;
      if !binding.Sym? {
        return Err(NotAVariable), val, S;
      }
      var formals := target.second;
      var ok := CheckFormals(formals);
      if ok.Fail? {
        return Err(ok.error), val, S;
      }
      var body := BodyOf(vals.second);
      BodyWithin(vals.second);
      DefineIn(env, binding.name, Lambda(formals, body, env), S);
    } else {
      return Err(BadDefine), val, S;
    }
    r := Ok(target);
  }

  /** What a set! form over `vals` hands back whatever its expression
      evaluates to (scheme.py:315-319). */
  predicate SetShape(vals: Value, r: Result<Value>) {
    && (CheckForm(vals, 2, Some(2)).Fail? ==> r == Err(CheckForm(vals, 2, Some(2)).error))
    && (r.Ok? ==> r.value == Undefined)
  }

  /** What a set! form over `vals` does, given what its expression evaluated
      to (`val`) and the frame `binder` that bound the target just before the
      update: the set succeeds exactly when there was such a frame, which
      then binds the target to the value; otherwise the target is unbound
      and stays so.  A pair or vector target cannot be a dictionary key in
      the host, and any other non-symbol is bound nowhere. */
  ghost predicate SetEffect(vals: Value, env: Frame<Value>, fuel: nat, val: Result<Value>, binder: Frame?<Value>,
                            r: Result<Value>)
    requires env.Chain()
    reads env.Ancestors()
  {
    CheckForm(vals, 2, Some(2)).Pass? ==>
      var target := Spine(vals)[0];
      && Settles(Spine(vals)[1], fuel, val)
      && (val.Err? ==> r == Err(val.error))
      && (val.Ok? && target.Sym? ==>
            && binder == env.Binder(target.name)
            && (r.Ok? <==> binder != null)
            && (r.Ok? ==> binder.bindings[target.name] == val.value && env.Lookup(target.name) == Ok(val.value))
            && (r.Err? ==> r == Err(UnboundIdentifier(target.name)) && env.Lookup(target.name) == r))
      && (val.Ok? && Unhashable(target) ==> r == Err(HostFault(UnhashableKey)))
      && (val.Ok? && !target.Sym? && !Unhashable(target) ==> r == Err(UnboundIdentifier("")))
  }

  /** What a set! form over `vals` does when its expression is not a list,
      so that nothing runs before its update: `binder` is the frame that
      bound the target before the form, the only frame that may change, and
      it rebinds the target to the value; with no such frame, or an error,
      nothing changes. */
  twostate predicate SetInPlace(vals: Value, env: Frame<Value>, new val: Result<Value>, new binder: Frame?<Value>,
                                S: set<Frame<Value>>, new S': set<Frame<Value>>)
    requires env.Chain()
    reads S, binder
  {
    CheckForm(vals, 2, Some(2)).Pass? && Spine(vals)[0].Sym? && !IsList(Spine(vals)[1]) ==>
      var name := Spine(vals)[0].name;
      && S' == S
      && (val.Ok? ==> binder == old(env.Binder(name)))
      && (val.Err? || binder == null ==> unchanged(S))
      && (val.Ok? && binder != null ==>
            unchanged(S - {binder}) && binder.bindings == old(binder.bindings)[name := val.value])
  }

  /** scheme.py:315-319 — evaluate the expression, then overwrite the binding
      of the target in the nearest frame that binds it.  The result is
      Python's None.  A failed set creates nothing: the target still looks up
      to nothing.  `val` is what the expression evaluated to and `binder` the
      frame that bound the target when it was set. */
  method DoSetForm(vals: Value, env: Frame<Value>, fuel: nat,
                   natives: (string, Value) -> Result<Value>, ghost S: set<Frame<Value>>)
    returns (r: Result<Value>, ghost val: Result<Value>, ghost binder: Frame?<Value>, ghost S': set<Frame<Value>>)
    requires Closed(S) && env in S && Captured(vals) <= S
    modifies S
    decreases fuel, 3
    ensures Closed(S') && S <= S' && fresh(S' - S)
    ensures CheckForm(vals, 2, Some(2)).Fail? ==> S' == S && unchanged(S)
    ensures SetShape(vals, r) && SetEffect(vals, env, fuel, val, binder, r)
    ensures SetInPlace(vals, env, val, binder, S, S')
  {
    val := Err(BadDefine);
    binder := null;
    var c := CheckForm(vals, 2, Some(2));
    if c.Fail? {
      return Err(c.error), val, binder, S;
    }
    PartsWithin(vals, S);
    assert Spine(vals) == [vals.first] + Spine(vals.second);
    var binding := Nth(vals, 0);
    AncestorsWithin(S, env);
    ghost var before := if binding.Sym? then env.Binder(binding.name) else null;
    var v;
    v, S' := EvalSettled(Nth(vals, 1), env, fuel, natives, S);
    val := v;
    if v.Err? {
      return Err(v.error), val, binder, S';
    }
    assert binding.Sym? && !IsList(Spine(vals)[1]) ==> env.Binder(binding.name) == before;
    r, binder := SetTarget(binding, v.value, env, S');
  }

  /** scheme.py:319 — the update a set! form makes once its value `v` is
      known: the nearest frame binding the target (`binder`) rebinds it and
      no other frame changes; with no such frame nothing changes and the
      target is reported unbound.  A pair or vector target fails in the host
      at the first membership test (scheme.py:82). */
  method SetTarget(target: Value, v: Value, env: Frame<Value>, ghost S: set<Frame<Value>>)
    returns (r: Result<Value>, ghost binder: Frame?<Value>)
    requires Closed(S) && env in S && Captured(v) <= S
    modifies S
    ensures Closed(S)
    ensures Unhashable(target) ==> r == Err(HostFault(UnhashableKey)) && binder == null && unchanged(S)
    ensures !target.Sym? && !Unhashable(target) ==> r == Err(UnboundIdentifier("")) && binder == null && unchanged(S)
    ensures target.Sym? ==>
      && binder == old(env.Binder(target.name)) && binder == env.Binder(target.name)
      && (r.Ok? <==> binder != null)
      && unchanged(S - {binder})
      && (r.Ok? ==> r.value == Undefined && env.Lookup(target.name) == Ok(v)
                    && binder.bindings == old(binder.bindings)[target.name := v])
      && (r.Err? ==> r == Err(UnboundIdentifier(target.name)) && env.Lookup(target.name) == r)
  {
    binder := null;
    if Unhashable(target) {
      // The first membership test raises.
      return Err(HostFault(UnhashableKey)), binder;
    }
    if !target.Sym? {
      // Only symbols are ever bound, so the walk up the chain finds nothing.
      return Err(UnboundIdentifier("")), binder;
    }
    AncestorsWithin(S, env);
    binder := env.Binder(target.name);
    var ok := SetIn(env, target.name, v, S);
    env.LookupIsBinder(target.name);
    if ok.Fail? {
      return Err(ok.error), binder;
    }
    r := Ok(Undefined);
  }

  /** The body of a procedure captures no more than its expressions. */
  lemma BodyWithin(exprs: Value)
    requires IsList(exprs) && |Spine(exprs)| >= 1
    ensures Captured(BodyOf(exprs)) <= Captured(exprs)
  {
    SpineWithin(exprs);
    ListIsSpine(exprs);
  }

  /** A value that cannot key a frame's bindings: a pair or a vector is
      unhashable in the host, so looking one up in, or storing one into, a
      dictionary raises a TypeError (scheme.py:74, 82, 134). */
  predicate Unhashable(v: Value) {
    v.Pair? || v.Vector?
  }

  /** The message of that TypeError. */
  const UnhashableKey := "TypeError: unhashable type"

  /** `x[0]` on a binding (scheme.py:248, 253): the first element of a
      pair; a symbol is a host string, so indexing it gives the symbol made
      of its first character.  Anything else cannot be indexed. */
  function BindingName(b: Value): Option<Value> {
    if b.Pair? then Some(b.first)
    else if b.Sym? && b.name != "" then Some(Sym(b.name[..1]))
    else None
  }

  /** `len(binding)` (scheme.py:252): the length of a proper list, or the
      number of characters of a symbol; anything else has no length. */
  function BindingLength(b: Value): Option<nat> {
    if IsList(b) then Some(|Spine(b)|)
    else if b.Sym? then Some(|b.name|)
    else None
  }

  /** `binding[1]` of a binding of length two (scheme.py:254): its second
      element, or for a symbol the symbol made of its second character. */
  function BindingExpr(b: Value): Value
    requires BindingLength(b) == Some(2)
  {
    if b.Sym? then Sym(b.name[1..]) else Spine(b)[1]
  }

  /** `bindings.map(first)` (scheme.py:248-249): the first element of each
      binding, in order; the first binding that cannot be indexed fails in
      the host. */
  method BindingNames(bindings: Value) returns (r: Result<seq<Value>>)
    requires IsList(bindings)
    ensures r.Ok? <==> forall j :: 0 <= j < |Spine(bindings)| ==> BindingName(Spine(bindings)[j]).Some?
    ensures r.Err? ==> r.error == HostFault("binding is not subscriptable")
    ensures r.Ok? ==>
      |r.value| == |Spine(bindings)|
      && forall j :: 0 <= j < |r.value| ==> Some(r.value[j]) == BindingName(Spine(bindings)[j])
  {
    ListIsSpine(bindings);
    var n := Length(bindings);
    var names: seq<Value> := [];
    while |names| < n
      invariant |names| <= n
      invariant forall j :: 0 <= j < |names| ==> Some(names[j]) == BindingName(Spine(bindings)[j])
      decreases n - |names|
    {
      var b := BindingName(Nth(bindings, |names|));
      if b.None? {
        return Err(HostFault("binding is not subscriptable"));
      }
      names := names + [b.value];
    }
    r := Ok(names);
  }

  /** `frame` binds the name of the binding `b`, when that name is a
      symbol, to `v` (what letrec's define leaves, scheme.py:255-256). */
  predicate Defines(b: Value, frame: Frame<Value>, v: Value)
    reads frame
  {
    var name := BindingName(b);
    name.Some? && name.value.Sym? ==> name.value.name in frame.bindings && frame.bindings[name.value.name] == v
  }

  /** After letrec has defined the first `|values|` bindings in `frame`, the
      last of them is bound there to its value. */
  predicate DefinesLast(bindings: Value, values: seq<Value>, frame: Frame<Value>)
    requires |values| <= |Spine(bindings)|
    reads frame
  {
    values != [] ==> Defines(Spine(bindings)[|values| - 1], frame, values[|values| - 1])
  }

  /** A binding whose name cannot key a frame's bindings. */
  predicate UnhashableName(b: Value) {
    BindingName(b).Some? && Unhashable(BindingName(b).value)
  }

  /** `eval_second` (scheme.py:251-259): a binding of length two has its
      second element evaluated in `frame` (to `val`), and for letrec the
      value is then defined there under its first element, which fails in
      the host when that is a pair or a vector; a binding without a length
      fails in the host, one of another length with an error. */
  method EvalSecond(b: Value, frame: Frame<Value>, recursive: bool, fuel: nat,
                    natives: (string, Value) -> Result<Value>, ghost S: set<Frame<Value>>)
    returns (r: Result<Value>, ghost val: Result<Value>, ghost S': set<Frame<Value>>)
    requires Closed(S) && frame in S && Captured(b) <= S
    modifies S
    decreases fuel, 3
    ensures Closed(S') && S <= S' && fresh(S' - S)
    ensures r.Ok? ==> BindingLength(b) == Some(2) && Captured(r.value) <= S'
    ensures BindingLength(b).None? ==> r == Err(HostFault("binding has no length")) && S' == S && unchanged(S)
    ensures BindingLength(b).Some? && BindingLength(b) != Some(2) ==> r == Err(BadBinding) && S' == S && unchanged(S)
    ensures BindingLength(b) == Some(2) ==> Settles(BindingExpr(b), fuel, val)
    ensures BindingLength(b) == Some(2) && !(recursive && UnhashableName(b)) ==> r == val
    ensures BindingLength(b) == Some(2) && recursive && UnhashableName(b) ==>
      r == if val.Ok? then Err(HostFault(UnhashableKey)) else val
    ensures r.Ok? && recursive ==> Defines(b, frame, r.value)
  {
    S' := S;
    val := Err(BadBinding);
    var len := BindingLength(b);
    if len.None? {
      return Err(HostFault("binding has no length")), val, S';
    }
    if len.value != 2 {
      return Err(BadBinding), val, S';
    }
    if IsList(b) {
      PartsWithin(b, S);
      ListIsSpine(b);
    }
    var name := BindingName(b).value;
    r, S' := EvalSettled(BindingExpr(b), frame, fuel, natives, S);
    val := r;
    if r.Ok? && recursive {
      if Unhashable(name) {
        // env.define stores under an unhashable key.
        r := Err(HostFault(UnhashableKey));
      } else if name.Sym? {
        DefineIn(frame, name.name, r.value, S');
      }
    }
  }

  /** How `eval_second` fails on the binding `b` with `e` (scheme.py:251-259):
      a binding without a length fails in the host, one of another length
      than two with an error, and one of length two when its expression's
      evaluation fails, or, for letrec, when its name cannot be defined. */
  predicate SecondFails(b: Value, recursive: bool, fuel: nat, e: Error) {
    if BindingLength(b).None? then e == HostFault("binding has no length")
    else if BindingLength(b) != Some(2) then e == BadBinding
    else if recursive && UnhashableName(b) then
      e == HostFault(UnhashableKey) || Settles(BindingExpr(b), fuel, Err(e))
    else Settles(BindingExpr(b), fuel, Err(e))
  }

  /** What `bindings.map(eval_second)` hands back for the bindings `bs`
      (scheme.py:251-261), given the values `evaluated` of the bindings
      evaluated without error, in order: each of those has length two and
      its expression settled to its value; on success these are all the
      values, and on failure the binding after them fails as `SecondFails`
      says. */
  predicate ValuesOutcome(bs: seq<Value>, recursive: bool, fuel: nat, evaluated: seq<Value>, r: Result<seq<Value>>) {
    && |evaluated| <= |bs|
    && (forall j :: 0 <= j < |evaluated| ==>
          && BindingLength(bs[j]) == Some(2) && Settles(BindingExpr(bs[j]), fuel, Ok(evaluated[j]))
          && !(recursive && UnhashableName(bs[j])))
    && (r.Ok? ==> r.value == evaluated && |evaluated| == |bs|)
    && (r.Err? ==> |evaluated| < |bs| && SecondFails(bs[|evaluated|], recursive, fuel, r.error))
  }

  /** One more binding evaluated keeps what is known of the values so far:
      each belongs to a binding of length two, settles as its expression,
      and captures only frames of the store. */
  lemma ValuesStep(bs: seq<Value>, recursive: bool, fuel: nat, values: seq<Value>, v: Value,
                   S: set<Frame<Value>>, S': set<Frame<Value>>)
    requires |values| < |bs| && S <= S' && Captured(v) <= S'
    requires forall j :: 0 <= j < |values| ==> Captured(values[j]) <= S
    requires forall j :: 0 <= j < |values| ==>
      && BindingLength(bs[j]) == Some(2) && Settles(BindingExpr(bs[j]), fuel, Ok(values[j]))
      && !(recursive && UnhashableName(bs[j]))
    requires BindingLength(bs[|values|]) == Some(2) && Settles(BindingExpr(bs[|values|]), fuel, Ok(v))
    requires !(recursive && UnhashableName(bs[|values|]))
    ensures forall j :: 0 <= j < |values| + 1 ==> Captured((values + [v])[j]) <= S'
    ensures forall j :: 0 <= j < |values| + 1 ==>
      && BindingLength(bs[j]) == Some(2) && Settles(BindingExpr(bs[j]), fuel, Ok((values + [v])[j]))
      && !(recursive && UnhashableName(bs[j]))
  {
  }

  /** `bindings.map(eval_second)` (scheme.py:251-261): each binding in turn
      through `EvalSecond`.  `evaluated` holds the values of the bindings
      evaluated without error. */
  method BindingValues(bindings: Value, frame: Frame<Value>, recursive: bool, fuel: nat,
                       natives: (string, Value) -> Result<Value>, ghost S: set<Frame<Value>>)
    returns (r: Result<seq<Value>>, ghost evaluated: seq<Value>, ghost S': set<Frame<Value>>)
    requires IsList(bindings)
    requires Closed(S) && frame in S && Captured(bindings) <= S
    modifies S
    decreases fuel, 4
    ensures Closed(S') && S <= S' && fresh(S' - S)
    ensures r.Ok? ==>
      |r.value| == |Spine(bindings)| && forall j :: 0 <= j < |r.value| ==> Captured(r.value[j]) <= S'
    ensures ValuesOutcome(Spine(bindings), recursive, fuel, evaluated, r)
    ensures r.Ok? && recursive ==> DefinesLast(bindings, r.value, frame)
  {
    PartsWithin(bindings, S);
    ListIsSpine(bindings);
    ghost var bs := Spine(bindings);
    var n := Length(bindings);
    var values: seq<Value> := [];
    S' := S;
    while |values| < n
      invariant |values| <= n
      invariant Closed(S') && S <= S' && fresh(S' - S)
      invariant forall j :: 0 <= j < |values| ==> Captured(values[j]) <= S'
      invariant forall j :: 0 <= j < |values| ==>
        && BindingLength(bs[j]) == Some(2) && Settles(BindingExpr(bs[j]), fuel, Ok(values[j]))
        && !(recursive && UnhashableName(bs[j]))
      invariant recursive ==> DefinesLast(bindings, values, frame)
      decreases n - |values|
    {
      var b := Nth(bindings, |values|);
      assert b == bs[|values|];
      var v;
      ghost var before := S';
      ghost var val;
      v, val, S' := EvalSecond(b, frame, recursive, fuel, natives, S');
      if v.Err? {
        return Err(v.error), values, S';
      }
      ValuesStep(bs, recursive, fuel, values, v.value, before, S');
      values := values + [v.value];
    }
    evaluated := values;
    r := Ok(values);
  }

  /** Every binding in `bs` can be indexed for its name. */
  predicate Indexable(bs: seq<Value>) {
    forall j :: 0 <= j < |bs| ==> BindingName(bs[j]).Some?
  }

  /** What `eval_bindings` hands back for `bindings` (scheme.py:241-263),
      given the values `evaluated` of the bindings evaluated without error:
      a bindings list that is not a list is an error; every binding is
      indexed for its name before any is evaluated; then the values are as
      `ValuesOutcome` says, and a success pairs the list of the names with
      the list of the values. */
  predicate BindingsOutcome(bindings: Value, recursive: bool, fuel: nat, evaluated: seq<Value>, r: Result<(Value, Value)>) {
    && (!IsList(bindings) ==> r == Err(BadBindings) && evaluated == [])
    && (IsList(bindings) && !Indexable(Spine(bindings)) ==>
          r == Err(HostFault("binding is not subscriptable")) && evaluated == [])
    && (IsList(bindings) && Indexable(Spine(bindings)) ==>
          ValuesOutcome(Spine(bindings), recursive, fuel, evaluated, if r.Ok? then Ok(Spine(r.value.1)) else Err(r.error)))
    && (r.Ok? ==>
          && IsList(bindings) && IsList(r.value.0) && IsList(r.value.1)
          && |Spine(r.value.0)| == |Spine(bindings)|
          && forall i :: 0 <= i < |Spine(bindings)| ==> Some(Spine(r.value.0)[i]) == BindingName(Spine(bindings)[i]))
  }

  /** scheme.py:241-263 — the names and the values of a let's bindings.  The
      bindings must form a list; the names are taken first, from every
      binding, then each binding, which must have length two, has its
      expression evaluated in order.  For letrec the expressions are
      evaluated in `scope`, a new empty frame below `env` into which each
      value is defined as soon as it is computed; otherwise `scope` is `env`. */
  method EvalBindings(bindings: Value, env: Frame<Value>, recursive: bool, fuel: nat,
                      natives: (string, Value) -> Result<Value>, ghost S: set<Frame<Value>>)
    returns (r: Result<(Value, Value)>, ghost scope: Frame<Value>, ghost evaluated: seq<Value>,
             ghost S': set<Frame<Value>>)
    requires Closed(S) && env in S && Captured(bindings) <= S
    modifies S
    decreases fuel, 5
    ensures Closed(S') && S <= S' && fresh(S' - S) && scope in S'
    ensures !IsList(bindings) ==> S' == S && unchanged(S)
    ensures !recursive ==> scope == env
    ensures recursive && IsList(bindings) ==> fresh(scope) && scope.parent == env
    ensures BindingsOutcome(bindings, recursive, fuel, evaluated, r)
    ensures r.Ok? ==> Captured(r.value.0) <= S' && Captured(r.value.1) <= S'
    ensures r.Ok? && recursive ==> DefinesLast(bindings, Spine(r.value.1), scope)
  {
    scope, evaluated := env, [];
    S' := S;
    if !IsList(bindings) {
      return Err(BadBindings), scope, evaluated, S';
    }
    var frame := env;
    if recursive {
      // make_call_frame(nil, nil): an empty frame below env.
      frame, S' := EmptyFrameIn(env, S);
    }
    scope := frame;
    PartsWithin(bindings, S);
    var n := Length(bindings);
    var names := BindingNames(bindings);
    if names.Err? {
      return Err(names.error), scope, evaluated, S';
    }
    var values;
    values, evaluated, S' := BindingValues(bindings, frame, recursive, fuel, natives, S');
    if values.Err? {
      return Err(values.error), scope, evaluated, S';
    }
    forall j | 0 <= j < n ensures Captured(names.value[j]) <= S' {
      assert Captured(Spine(bindings)[j]) <= S;
    }
    FromSeqWithin(names.value, Nil, S');
    FromSeqWithin(values.value, Nil, S');
    r := Ok((List(names.value), List(values.value)));
  }

  /** The ghost record of a let form: the names and values of its bindings
      (`nv`) and the values of the binding expressions evaluated without
      error; for a let over a bindings list, the trace of the body
      expressions evaluated before the last; for a named let, the frame that
      holds the procedure (`scope`), the procedure's call frame, what the
      call returned (`applied`) and the rounds of its body (`body`). */
  datatype LetTrace = LetTrace(nv: Result<(Value, Value)>, evaluated: seq<Value>, tests: seq<Result<Value>>,
                               scope: Frame?<Value>, frame: Frame?<Value>, applied: Result<Value>,
                               body: seq<Turn>)

  /** What a let or letrec over a bindings list hands back
      (scheme.py:265-276): the bindings as `BindingsOutcome` says, with
      their error passed on; an error binding the names to the values passed
      on; otherwise the body expressions but the last evaluated in order,
      an error stopping the run, and the last handed back, just as a begin
      form over the body would. */
  predicate NormalLetOutcome(vals: Value, recursive: bool, fuel: nat, t: LetTrace, r: Result<(Value, Frame<Value>)>)
    requires IsList(vals) && |Spine(vals)| >= 2
  {
    && BindingsOutcome(Spine(vals)[0], recursive, fuel, t.evaluated, t.nv)
    && (t.nv.Err? ==> r == Err(t.nv.error))
    && (t.nv.Ok? && Bind(t.nv.value.0, t.nv.value.1).Err? ==> r == Err(Bind(t.nv.value.0, t.nv.value.1).error))
    && (t.nv.Ok? && Bind(t.nv.value.0, t.nv.value.1).Ok? ==> BeginOutcome(vals.second, fuel, t.tests, Handed(r)))
  }

  /** scheme.py:265-276 — a let or letrec with a bindings list: the values
      bound in a new frame whose parent is `env` (for letrec too: the frame
      the initializers were evaluated in is not the body's parent), the body
      expressions but the last evaluated there, and the last handed back
      with that frame.  With a single body expression nothing runs in the
      new frame, so it holds exactly the names bound to the values. */
  method DoNormalLet(vals: Value, env: Frame<Value>, recursive: bool, fuel: nat,
                     natives: (string, Value) -> Result<Value>, ghost S: set<Frame<Value>>)
    returns (r: Result<(Value, Frame<Value>)>, ghost trace: LetTrace, ghost S': set<Frame<Value>>)
    requires IsList(vals) && |Spine(vals)| >= 2
    requires Closed(S) && env in S && Captured(vals) <= S
    modifies S
    decreases fuel, 6
    ensures Closed(S') && S <= S' && fresh(S' - S)
    ensures !IsList(Spine(vals)[0]) ==> r == Err(BadBindings)
    ensures NormalLetOutcome(vals, recursive, fuel, trace, r)
    ensures r.Ok? ==>
      && fresh(r.value.1) && r.value.1.parent == env && r.value.1 in S'
      && r.value.0 == Spine(vals)[|Spine(vals)| - 1] && Captured(r.value.0) <= S'
      && trace.nv.Ok? && Bind(trace.nv.value.0, trace.nv.value.1).Ok?
      && (|Spine(vals)| == 2 ==> r.value.1.bindings == Bind(trace.nv.value.0, trace.nv.value.1).value)
  {
    PartsWithin(vals, S);
    assert Spine(vals) == [vals.first] + Spine(vals.second);
    var bindings, exprs := Nth(vals, 0), vals.second;
    PartsWithin(exprs, S);
    trace := LetTrace(Err(OutOfFuel), [], [], null, null, Err(OutOfFuel), []);
    var bound;
    ghost var unused, evaluated;
    bound, unused, evaluated, S' := EvalBindings(bindings, env, recursive, fuel, natives, S);
    trace := trace.(nv := bound, evaluated := evaluated);
    if bound.Err? {
      return Err(bound.error), trace, S';
    }
    ghost var tests;
    r, tests, S' := LetBody(exprs, env, bound.value.0, bound.value.1, fuel, natives, S');
    trace := trace.(tests := tests);
  }

  /** The second half of a let over a bindings list (scheme.py:269-276):
      `names` bound to `values` in a new frame whose parent is `env`, and
      the body `exprs` run there as a begin form would run it. */
  method LetBody(exprs: Value, env: Frame<Value>, names: Value, values: Value, fuel: nat,
                 natives: (string, Value) -> Result<Value>, ghost S: set<Frame<Value>>)
    returns (r: Result<(Value, Frame<Value>)>, ghost tests: seq<Result<Value>>, ghost S': set<Frame<Value>>)
    requires IsList(exprs) && |Spine(exprs)| >= 1
    requires Closed(S) && env in S && Captured(values) <= S && Captured(exprs) <= S
    modifies S
    decreases fuel, 4
    ensures Closed(S') && S <= S' && fresh(S' - S)
    ensures Bind(names, values).Err? ==> r == Err(Bind(names, values).error)
    ensures Bind(names, values).Ok? ==> BeginOutcome(exprs, fuel, tests, Handed(r))
    ensures r.Ok? ==>
      && fresh(r.value.1) && r.value.1.parent == env && r.value.1 in S'
      && r.value.0 == Spine(exprs)[|Spine(exprs)| - 1] && Captured(r.value.0) <= S'
      && Bind(names, values).Ok?
      && (|Spine(exprs)| == 1 ==> r.value.1.bindings == Bind(names, values).value)
  {
    tests := [];
    var frame;
    frame, S' := CallFrameIn(env, names, values, S);
    if frame.Err? {
      return Err(frame.error), tests, S';
    }
    // The body expressions but the last are evaluated in order and the
    // last handed back: what a begin form over the body does.
    var last;
    last, tests, S' := DoBeginForm(exprs, frame.value, fuel, natives, S');
    if last.Err? {
      return Err(last.error), tests, S';
    }
    r := Ok((last.value, frame.value));
    assert Handed(r) == last;
  }

  /** The leading operands and the rest of a form with at least two
      operands, each capturing no more than the form. */
  lemma LetPartsWithin(vals: Value, S: set<Frame<Value>>)
    requires IsList(vals) && |Spine(vals)| >= 2 && Captured(vals) <= S
    ensures vals.Pair? && vals.second.Pair?
    ensures Length(vals) == |Spine(vals)| && Nth(vals, 0) == vals.first && Nth(vals, 1) == vals.second.first
    ensures IsList(vals.second) && |Spine(vals.second)| == |Spine(vals)| - 1
    ensures IsList(vals.second.second) && |Spine(vals.second.second)| == |Spine(vals)| - 2
    ensures Captured(vals.first) <= S && Captured(vals.second) <= S
    ensures Captured(vals.second.first) <= S && Captured(vals.second.second) <= S
  {
    ListIsSpine(vals);
  }

  /** The procedure of a named let (scheme.py:300-302): a Lambda over the
      binding names and the body, closing over a new empty frame below `env`
      in which it is then bound to its name. */
  method NamedLetProcedure(name: string, names: Value, exprs: Value, env: Frame<Value>, ghost S: set<Frame<Value>>)
    returns (r: Result<(Value, Frame<Value>)>, ghost S': set<Frame<Value>>)
    requires IsList(exprs) && |Spine(exprs)| >= 1
    requires Closed(S) && env in S && Captured(names) <= S && Captured(exprs) <= S
    ensures r.Ok? <==> ValidFormals(names)
    ensures r.Err? ==> r.error in {DuplicateFormal, FormalsNotFormed} && S' == S
    ensures r.Ok? ==>
      && fresh(r.value.1) && r.value.1.parent == env && S' == S + {r.value.1}
      && r.value.0 == Lambda(names, BodyOf(exprs), r.value.1)
      && r.value.1.bindings == map[name := r.value.0]
      && Captured(r.value.0) <= S'
    ensures Closed(S')
  {
    var newEnv;
    newEnv, S' := EmptyFrameIn(env, S);
    assert Spine(Pair(names, exprs)) == [names] + Spine(exprs);
    var inner := DoLambdaForm(Pair(names, exprs), newEnv);
    if inner.Err? {
      return Err(inner.error), S;
    }
    BodyWithin(exprs);
    assert Captured(inner.value) <= S';
    DefineIn(newEnv, name, inner.value, S');
    r := Ok((inner.value, newEnv));
  }

  /** What the second half of a named let hands back (scheme.py:298-304),
      given the binding names and values: formals that a lambda form
      refuses give its error; otherwise `scope` is the new frame below `env`
      that holds the procedure, an error binding the values is passed on,
      and when they bind, `frame`, the call frame below `scope`, is where the
      body's `rounds` started, and they ended with `applied` (`Runs`) — a
      symbol body bound by the call to its value — whose error is passed on
      and whose value is handed back quoted with `scope`. */
  ghost predicate NamedCallOutcome(names: Value, args: Value, body: Value, env: Frame<Value>, fuel: nat,
                                   natives: (string, Value) -> Result<Value>,
                                   scope: Frame?<Value>, frame: Frame?<Value>, applied: Result<Value>,
                                   rounds: seq<Turn>, r: Result<(Value, Frame<Value>)>)
    decreases rounds, 2
  {
    && (!ValidFormals(names) ==> r.Err? && r.error in {DuplicateFormal, FormalsNotFormed})
    && (ValidFormals(names) ==> scope != null && scope.parent == env)
    && (ValidFormals(names) && Bind(names, args).Err? ==> r == Err(Bind(names, args).error))
    && (ValidFormals(names) && Bind(names, args).Ok? ==>
          && frame != null && frame.parent == scope
          && Runs(body, frame, fuel, natives, rounds, applied) && Settles(body, fuel, applied)
          && (fuel > 0 && body.Sym? && body.name in Bind(names, args).value ==>
                applied == Ok(Bind(names, args).value[body.name]))
          && (applied.Err? ==> r == Err(applied.error))
          && (applied.Ok? ==> r == Ok((Quote(applied.value), scope))))
  }

  /** What a named let hands back (scheme.py:278-304): a form with fewer
      than three operands is refused; otherwise the bindings are evaluated
      as for letrec, with their error passed on, and the procedure made and
      applied to the values as `NamedCallOutcome` says. */
  ghost predicate NamedLetOutcome(vals: Value, env: Frame<Value>, fuel: nat, natives: (string, Value) -> Result<Value>,
                                  t: LetTrace, r: Result<(Value, Frame<Value>)>)
    decreases t, 3
  {
    && (CheckForm(vals, 3, None).Fail? ==> r == Err(CheckForm(vals, 3, None).error))
    && (CheckForm(vals, 3, None).Pass? ==>
          && IsList(vals) && |Spine(vals)| >= 3 && vals.Pair? && vals.second.Pair?
          && IsList(vals.second.second) && |Spine(vals.second.second)| >= 1
          && BindingsOutcome(Spine(vals)[1], true, fuel, t.evaluated, t.nv)
          && (t.nv.Err? ==> r == Err(t.nv.error))
          && (t.nv.Ok? ==>
                NamedCallOutcome(t.nv.value.0, t.nv.value.1, BodyOf(vals.second.second), env, fuel, natives,
                                 t.scope, t.frame, t.applied, t.body, r)))
  }

  /** `(letrec (((a) 1) (b (set! g 2))) b)` fails in the host once `1` is
      evaluated, since the name `(a)` cannot be defined, and the second
      binding's expression is never evaluated. */
  lemma LetrecUnhashableName(fuel: nat, t: LetTrace, r: Result<(Value, Frame<Value>)>)
    requires fuel > 0
    requires NormalLetOutcome(List([List([List([List([Sym("a")]), Num(1)]),
                                          List([Sym("b"), List([Sym("set!"), Sym("g"), Num(2)])])]),
                                    Sym("b")]), true, fuel, t, r)
    ensures r == Err(HostFault(UnhashableKey)) && t.evaluated == []
  {
    var first := List([List([Sym("a")]), Num(1)]);
    var second := List([Sym("b"), List([Sym("set!"), Sym("g"), Num(2)])]);
    var bindings := List([first, second]);
    var vals := List([bindings, Sym("b")]);
    assert Spine(vals)[0] == bindings;
    assert Spine(bindings) == [first, second];
    assert BindingLength(first) == Some(2) && BindingExpr(first) == Num(1);
    assert BindingName(first) == Some(List([Sym("a")])) && UnhashableName(first);
    assert BindingName(second) == Some(Sym("b"));
    assert Indexable(Spine(bindings));
    assert t.evaluated == [];
  }

  /** `(let f ((x 5)) x)` hands back `(quote 5)` whatever its trace: the
      binding cannot fail, and the call binds `x` to 5. */
  lemma NamedLetIdentity(env: Frame<Value>, fuel: nat, natives: (string, Value) -> Result<Value>, t: LetTrace, r: Result<(Value, Frame<Value>)>)
    requires fuel > 0
    requires NamedLetOutcome(List([Sym("f"), List([List([Sym("x"), Num(5)])]), Sym("x")]), env, fuel, natives, t, r)
    ensures r.Ok? && r.value.0 == Quote(Num(5))
  {
    var binding := List([Sym("x"), Num(5)]);
    var vals := List([Sym("f"), List([binding]), Sym("x")]);
    assert CheckForm(vals, 3, None).Pass?;
    assert Spine(vals)[1] == List([binding]);
    assert BindingLength(binding) == Some(2) && BindingExpr(binding) == Num(5);
    assert BindingName(binding) == Some(Sym("x"));
    assert Indexable(Spine(List([binding])));
    assert t.nv.Ok?;
    var names, args := t.nv.value.0, t.nv.value.1;
    assert Spine(names) == [Sym("x")] && Spine(args) == [Num(5)];
    ListOrDotted(names);
    assert ValidFormals(names);
    BindPositional(names, args);
    assert Bind(names, args).value["x"] == Num(5);
    assert BodyOf(vals.second.second) == Sym("x");
  }

  /** The body of `(let f ((x 5)) (begin x))` runs in the call frame below
      the frame that holds `f`: its first round is the begin form there, and
      its second and last looks `x` up in that same frame, giving what the
      call returned. */
  lemma NamedLetBodyFrame(env: Frame<Value>, fuel: nat, natives: (string, Value) -> Result<Value>, t: LetTrace, r: Result<(Value, Frame<Value>)>)
    requires fuel >= 2
    requires NamedLetOutcome(List([Sym("f"), List([List([Sym("x"), Num(5)])]), List([Sym("begin"), Sym("x")])]),
                             env, fuel, natives, t, r)
    ensures t.frame != null && t.scope != null && t.frame.parent == t.scope && t.scope.parent == env
    ensures |t.body| == 2
    ensures t.body[0].x == List([Sym("begin"), Sym("x")]) && t.body[0].scope == t.frame
    ensures t.body[1].x == Sym("x") && t.body[1].scope == t.frame
    ensures t.body[1].s == Done(t.applied)
  {
    var binding := List([Sym("x"), Num(5)]);
    var body := List([Sym("begin"), Sym("x")]);
    var vals := List([Sym("f"), List([binding]), body]);
    assert CheckForm(vals, 3, None).Pass?;
    assert Spine(vals)[1] == List([binding]);
    assert BindingLength(binding) == Some(2) && BindingExpr(binding) == Num(5);
    assert BindingName(binding) == Some(Sym("x"));
    assert Indexable(Spine(List([binding])));
    assert t.nv.Ok?;
    var names, args := t.nv.value.0, t.nv.value.1;
    assert Spine(names) == [Sym("x")] && Spine(args) == [Num(5)];
    ListOrDotted(names);
    assert ValidFormals(names);
    BindPositional(names, args);
    assert BodyOf(vals.second.second) == body;
    BeginSymbolRounds(t.frame, fuel, natives, t.body, t.applied);
  }

  /** `(begin x)` with two or more units of fuel runs two rounds in `scope`:
      the begin form hands back `x`, and the second round looks it up. */
  lemma BeginSymbolRounds(scope: Frame<Value>, fuel: nat, natives: (string, Value) -> Result<Value>,
                          rounds: seq<Turn>, r: Result<Value>)
    requires fuel >= 2 && Runs(List([Sym("begin"), Sym("x")]), scope, fuel, natives, rounds, r)
    ensures |rounds| == 2
    ensures rounds[0].x == List([Sym("begin"), Sym("x")]) && rounds[0].scope == scope
    ensures rounds[1].x == Sym("x") && rounds[1].scope == scope && rounds[1].s == Done(r)
  {
    var body := List([Sym("begin"), Sym("x")]);
    var first := rounds[0];
    assert RoundOutcome(rounds[0], natives);
    assert Spine(body.second) == [Sym("x")] && CheckForm(body.second, 1, None).Pass?;
    assert TailOutcome(body.first, body.second, first.scope, first.fuel, natives, first.tests, first.trace, first.tail);
    assert first.s == Again(Sym("x"), scope);
    assert Linked(rounds[0], rounds[1]);
    assert RoundOutcome(rounds[1], natives);
    if |rounds| > 2 {
      RunsAgain(body, scope, fuel, natives, rounds, r, 1);
    }
  }

  /** scheme.py:278-304 — `(let name bindings body...)`: the values are
      evaluated as for letrec; a new frame below `env` binds `name` to a
      Lambda over the binding names and the body, closing over that frame;
      the Lambda is applied to the values, and its result handed back quoted
      with the new frame. */
  method DoNamedLet(vals: Value, env: Frame<Value>, fuel: nat,
                    natives: (string, Value) -> Result<Value>, ghost S: set<Frame<Value>>)
    returns (r: Result<(Value, Frame<Value>)>, ghost trace: LetTrace, ghost S': set<Frame<Value>>)
    requires IsList(vals) && |Spine(vals)| >= 2 && Spine(vals)[0].Sym?
    requires Closed(S) && env in S && Captured(vals) <= S
    modifies S
    decreases fuel, 6
    ensures Closed(S') && S <= S' && fresh(S' - S)
    ensures CheckForm(vals, 3, None).Fail? ==> r == Err(CheckForm(vals, 3, None).error) && S' == S && unchanged(S)
    ensures NamedLetOutcome(vals, env, fuel, natives, trace, r)
    ensures trace.scope != null ==> fresh(trace.scope) && trace.scope in S'
    ensures trace.frame != null ==> fresh(trace.frame) && trace.frame in S'
    ensures r.Ok? ==>
      && fresh(r.value.1) && r.value.1.parent == env && r.value.1 in S'
      && trace.applied.Ok? && r.value.0 == Quote(trace.applied.value) && Captured(r.value.0) <= S'
  {
    trace := LetTrace(Err(OutOfFuel), [], [], null, null, Err(OutOfFuel), []);
    var c := CheckForm(vals, 3, None);
    if c.Fail? {
      return Err(c.error), trace, S;
    }
    LetPartsWithin(vals, S);
    var procId, bindings, exprs := Nth(vals, 0), Nth(vals, 1), vals.second.second;
    var nv;
    ghost var unused, evaluated;
    nv, unused, evaluated, S' := EvalBindings(bindings, env, true, fuel, natives, S);
    trace := trace.(nv := nv, evaluated := evaluated);
    if nv.Err? {
      return Err(nv.error), trace, S';
    }
    ghost var scope, frame, applied, rounds;
    r, scope, frame, applied, rounds, S' := CallNamedLet(procId.name, nv.value.0, nv.value.1, exprs, env, fuel, natives, S');
    trace := trace.(scope := scope, frame := frame, applied := applied, body := rounds);
  }

  /** The second half of a named let: the procedure named `name` over
      `names` and `exprs` is made in a new frame `scope` below `env` and
      applied to `args` in a call frame `frame`; what the call returned,
      `applied`, is handed back quoted with `scope`. */
  method CallNamedLet(name: string, names: Value, args: Value, exprs: Value, env: Frame<Value>, fuel: nat,
                      natives: (string, Value) -> Result<Value>, ghost S: set<Frame<Value>>)
    returns (r: Result<(Value, Frame<Value>)>, ghost scope: Frame?<Value>, ghost frame: Frame?<Value>,
             ghost applied: Result<Value>, ghost rounds: seq<Turn>, ghost S': set<Frame<Value>>)
    requires IsList(exprs) && |Spine(exprs)| >= 1
    requires Closed(S) && env in S && Captured(names) <= S && Captured(args) <= S && Captured(exprs) <= S
    modifies S
    decreases fuel, 4
    ensures Closed(S') && S <= S' && fresh(S' - S)
    ensures NamedCallOutcome(names, args, BodyOf(exprs), env, fuel, natives, scope, frame, applied, rounds, r)
    ensures scope != null ==> fresh(scope) && scope in S'
    ensures frame != null ==> fresh(frame) && frame in S'
    ensures r.Ok? ==>
      && fresh(r.value.1) && r.value.1.parent == env && r.value.1 in S'
      && applied.Ok? && r.value.0 == Quote(applied.value) && Captured(r.value.0) <= S'
  {
    scope, frame, applied, rounds := null, null, Err(OutOfFuel), [];
    var proc;
    proc, S' := NamedLetProcedure(name, names, exprs, env, S);
    if proc.Err? {
      return Err(proc.error), scope, frame, applied, rounds, S';
    }
    var inner, newEnv := proc.value.0, proc.value.1;
    scope := newEnv;
    var a;
    a, frame, rounds, S' := Apply(inner, args, newEnv, fuel, natives, S');
    applied := a;
    if a.Err? {
      return Err(a.error), scope, frame, applied, rounds, S';
    }
    QuoteWithin(a.value);
    r := Ok((Quote(a.value), newEnv));
  }

  /** scheme.py:306-313 — a let (or letrec) form: a named let when the first
      operand is a symbol, otherwise a let over a bindings list.  Either way
      the trampoline continues in a new frame below `env`; `trace` is the
      ghost record of the handler that ran. */
  method DoLetForm(vals: Value, env: Frame<Value>, recursive: bool, fuel: nat,
                   natives: (string, Value) -> Result<Value>, ghost S: set<Frame<Value>>)
    returns (r: Result<(Value, Frame<Value>)>, ghost trace: LetTrace, ghost S': set<Frame<Value>>)
    requires Closed(S) && env in S && Captured(vals) <= S
    modifies S
    decreases fuel, 7
    ensures Closed(S') && S <= S' && fresh(S' - S)
    ensures CheckForm(vals, 2, None).Fail? ==> r == Err(CheckForm(vals, 2, None).error) && S' == S && unchanged(S)
    ensures CheckForm(vals, 2, None).Pass? && Spine(vals)[0].Sym? ==> NamedLetOutcome(vals, env, fuel, natives, trace, r)
    ensures CheckForm(vals, 2, None).Pass? && !Spine(vals)[0].Sym? ==> NormalLetOutcome(vals, recursive, fuel, trace, r)
    ensures r.Ok? ==>
      && fresh(r.value.1) && r.value.1.parent == env && r.value.1 in S' && Captured(r.value.0) <= S'
    ensures r.Ok? && !Spine(vals)[0].Sym? ==> r.value.0 == Spine(vals)[|Spine(vals)| - 1]
    ensures r.Ok? && Spine(vals)[0].Sym? ==> trace.applied.Ok? && r.value.0 == Quote(trace.applied.value)
  {
    trace := LetTrace(Err(OutOfFuel), [], [], null, null, Err(OutOfFuel), []);
    var c := CheckForm(vals, 2, None);
    if c.Fail? {
      return Err(c.error), trace, S;
    }
    ListIsSpine(vals);
    if Nth(vals, 0).Sym? {
      r, trace, S' := DoNamedLet(vals, env, fuel, natives, S);
    } else {
      r, trace, S' := DoNormalLet(vals, env, recursive, fuel, natives, S);
    }
  }

  /** The heads of the forms whose handler hands the trampoline a new
      expression (scheme.py:490-496): the logic forms, let and letrec. */
  predicate TailForm(head: Value) {
    IsSymbol(head, "and") || IsSymbol(head, "or") || IsSymbol(head, "if")
    || IsSymbol(head, "cond") || IsSymbol(head, "begin")
    || IsSymbol(head, "let") || IsSymbol(head, "letrec")
  }

  /** Where a call leaves the trampoline: finished with the result of a
      primitive or an error, or to go round again with a procedure body and
      its call frame. */
  datatype Step = Done(result: Result<Value>) | Again(expr: Value, env: Frame<Value>)

  /** The formals and the body of a lambda or mu form capture no more than
      the form. */
  lemma ProcedureWithin(vals: Value)
    requires vals.Pair? && IsList(vals.second) && |Spine(vals.second)| >= 1
    ensures Spine(vals)[0] == vals.first
    ensures Captured(vals.first) <= Captured(vals) && Captured(BodyOf(vals.second)) <= Captured(vals)
  {
    BodyWithin(vals.second);
  }

  /** scheme.py:497-506 — a quote, lambda or mu form, whose handler builds
      its result from the form and the current frame alone. */
  method EvalConstruct(head: Value, rest: Value, env: Frame<Value>) returns (r: Result<Value>)
    requires IsSymbol(head, "quote") || IsSymbol(head, "lambda") || IsSymbol(head, "mu")
    ensures r.Ok? ==> Captured(r.value) <= Captured(rest) + {env}
    ensures IsSymbol(head, "quote") ==> r == DoQuoteForm(rest)
    ensures IsSymbol(head, "lambda") ==> LambdaOutcome(rest, env, r)
    ensures IsSymbol(head, "mu") ==> MuOutcome(rest, r)
  {
    if IsSymbol(head, "lambda") {
      r := DoLambdaForm(rest, env);
      if r.Ok? {
        ProcedureWithin(rest);
      }
    } else if IsSymbol(head, "quote") {
      r := DoQuoteForm(rest);
      if r.Ok? {
        assert Spine(rest)[0] == rest.first;
      }
    } else {
      r := DoMuForm(rest);
      if r.Ok? {
        ProcedureWithin(rest);
      }
    }
  }

  /** scheme.py:499-502 — a define or set! form, whose handler's result is
      the result of the evaluation.  `val` is what its expression evaluated
      to, and `binder` the frame a set! updated. */
  method EvalAssign(head: Value, rest: Value, env: Frame<Value>, fuel: nat,
                    natives: (string, Value) -> Result<Value>, ghost S: set<Frame<Value>>)
    returns (r: Result<Value>, ghost val: Result<Value>, ghost binder: Frame?<Value>, ghost S': set<Frame<Value>>)
    requires IsSymbol(head, "define") || IsSymbol(head, "set!")
    requires Closed(S) && env in S && Captured(rest) <= S
    modifies S
    decreases fuel, 4
    ensures Closed(S') && S <= S' && fresh(S' - S)
    ensures r.Ok? ==> Captured(r.value) <= S'
    ensures IsSymbol(head, "define") ==>
      DefineShape(rest, r) && DefineEffect(rest, env, fuel, val, r) && DefineInPlace(rest, env, val, S, S')
    ensures IsSymbol(head, "set!") ==>
      SetShape(rest, r) && SetEffect(rest, env, fuel, val, binder, r) && SetInPlace(rest, env, val, binder, S, S')
  {
    binder := null;
    if IsSymbol(head, "define") {
      r, val, S' := DoDefineForm(rest, env, fuel, natives, S);
    } else {
      r, val, binder, S' := DoSetForm(rest, env, fuel, natives, S);
    }
  }

  /** scheme.py:497-506 — a lambda, define, set!, quote or mu form, whose
      handler's result is the result of the evaluation.  `val` is what the
      expression of a define or set! evaluated to, and `binder` the frame a
      set! updated. */
  method EvalDirect(head: Value, rest: Value, env: Frame<Value>, fuel: nat,
                    natives: (string, Value) -> Result<Value>, ghost S: set<Frame<Value>>)
    returns (r: Result<Value>, ghost val: Result<Value>, ghost binder: Frame?<Value>, ghost S': set<Frame<Value>>)
    requires ReturnsDirectly(head)
    requires Closed(S) && env in S && Captured(rest) <= S
    modifies S
    decreases fuel, 5
    ensures Closed(S') && S <= S' && fresh(S' - S)
    ensures r.Ok? ==> Captured(r.value) <= S'
    ensures IsSymbol(head, "quote") || IsSymbol(head, "lambda") || IsSymbol(head, "mu") ==> S' == S && unchanged(S)
    ensures IsSymbol(head, "quote") ==> r == DoQuoteForm(rest)
    ensures IsSymbol(head, "lambda") ==> LambdaOutcome(rest, env, r)
    ensures IsSymbol(head, "mu") ==> MuOutcome(rest, r)
    ensures IsSymbol(head, "define") ==>
      DefineShape(rest, r) && DefineEffect(rest, env, fuel, val, r) && DefineInPlace(rest, env, val, S, S')
    ensures IsSymbol(head, "set!") ==>
      SetShape(rest, r) && SetEffect(rest, env, fuel, val, binder, r) && SetInPlace(rest, env, val, binder, S, S')
  {
    S' := S;
    val, binder := Err(OutOfFuel), null;
    if IsSymbol(head, "define") || IsSymbol(head, "set!") {
      r, val, binder, S' := EvalAssign(head, rest, env, fuel, natives, S);
    } else {
      r := EvalConstruct(head, rest, env);
    }
  }

  /** The logic forms (scheme.py:490-496, 325-408): the expression the
      handler hands back, to be evaluated in the same environment.  `tests`
      is the handler's trace. */
  method EvalLogic(head: Value, rest: Value, env: Frame<Value>, fuel: nat,
                   natives: (string, Value) -> Result<Value>, ghost S: set<Frame<Value>>)
    returns (r: Result<Value>, ghost tests: seq<Result<Value>>, ghost S': set<Frame<Value>>)
    requires TailForm(head) && !IsSymbol(head, "let") && !IsSymbol(head, "letrec") && IsList(rest)
    requires Closed(S) && env in S && Captured(rest) <= S
    modifies S
    decreases fuel, 5
    ensures Closed(S') && S <= S' && fresh(S' - S)
    ensures r.Ok? ==> Captured(r.value) <= S'
    ensures IsSymbol(head, "and") ==> AndOutcome(rest, fuel, tests, r)
    ensures IsSymbol(head, "or") ==> OrOutcome(rest, fuel, tests, r)
    ensures IsSymbol(head, "if") ==> IfOutcome(rest, fuel, tests, r)
    ensures IsSymbol(head, "cond") ==> CondOutcome(Spine(rest), fuel, tests, r)
    ensures IsSymbol(head, "begin") ==> BeginOutcome(rest, fuel, tests, r)
  {
    if IsSymbol(head, "and") {
      r, tests, S' := DoAndForm(rest, env, fuel, natives, S);
    } else if IsSymbol(head, "or") {
      r, tests, S' := DoOrForm(rest, env, fuel, natives, S);
    } else if IsSymbol(head, "if") {
      r, tests, S' := DoIfForm(rest, env, fuel, natives, S);
    } else if IsSymbol(head, "cond") {
      r, tests, S' := DoCondForm(rest, env, fuel, natives, S);
    } else {
      r, tests, S' := DoBeginForm(rest, env, fuel, natives, S);
    }
  }

  /** The expression a tail form's handler hands back, without its frame. */
  function Handed(r: Result<(Value, Frame<Value>)>): Result<Value> {
    if r.Ok? then Ok(r.value.0) else Err(r.error)
  }

  /** What the handler of a logic form, let or letrec over `rest` in `env`
      hands back (scheme.py:490-496), given its traces: for a logic form the
      expression its outcome predicate fixes, to be evaluated in `env`; for
      let and letrec the outcome of a named or a normal let, to be evaluated
      in a frame below `env`. */
  ghost predicate TailOutcome(head: Value, rest: Value, env: Frame<Value>, fuel: nat,
                              natives: (string, Value) -> Result<Value>,
                              tests: seq<Result<Value>>, trace: LetTrace, r: Result<(Value, Frame<Value>)>)
    decreases trace, 4
  {
    && (r.Ok? && !IsSymbol(head, "let") && !IsSymbol(head, "letrec") ==> r.value.1 == env)
    && (IsSymbol(head, "and") ==> AndOutcome(rest, fuel, tests, Handed(r)))
    && (IsSymbol(head, "or") ==> OrOutcome(rest, fuel, tests, Handed(r)))
    && (IsSymbol(head, "if") ==> IfOutcome(rest, fuel, tests, Handed(r)))
    && (IsSymbol(head, "cond") ==> CondOutcome(Spine(rest), fuel, tests, Handed(r)))
    && (IsSymbol(head, "begin") ==> BeginOutcome(rest, fuel, tests, Handed(r)))
    && (IsSymbol(head, "let") || IsSymbol(head, "letrec") ==>
          && (CheckForm(rest, 2, None).Fail? ==> r == Err(CheckForm(rest, 2, None).error))
          && (r.Ok? ==> r.value.1.parent == env)
          && (r.Ok? && !Spine(rest)[0].Sym? ==> r.value.0 == Spine(rest)[|Spine(rest)| - 1])
          && (CheckForm(rest, 2, None).Pass? && Spine(rest)[0].Sym? ==> NamedLetOutcome(rest, env, fuel, natives, trace, r))
          && (CheckForm(rest, 2, None).Pass? && !Spine(rest)[0].Sym? ==> NormalLetOutcome(rest, IsSymbol(head, "letrec"), fuel, trace, r))
          && (r.Ok? && Spine(rest)[0].Sym? ==> trace.applied.Ok? && r.value.0 == Quote(trace.applied.value)))
  }

  /** Where the trampoline goes with what a tail form's handler hands back:
      round again with the expression and frame, or finish with the error. */
  function Resume(r: Result<(Value, Frame<Value>)>): (s: Step)
    ensures s.Again? <==> r.Ok?
  {
    if r.Ok? then Again(r.value.0, r.value.1) else Done(Err(r.error))
  }

  /** scheme.py:490-496 — a logic form, let or letrec: the expression its
      handler hands back, to be evaluated in the same environment, or for
      let and letrec in the new frame the handler made below it.  `tests`
      is the trace of the logic form's handler. */
  method EvalTail(head: Value, rest: Value, env: Frame<Value>, fuel: nat,
                  natives: (string, Value) -> Result<Value>, ghost S: set<Frame<Value>>)
    returns (r: Result<(Value, Frame<Value>)>, ghost tests: seq<Result<Value>>, ghost trace: LetTrace,
             ghost S': set<Frame<Value>>)
    requires TailForm(head) && IsList(rest)
    requires Closed(S) && env in S && Captured(rest) <= S
    modifies S
    decreases fuel, 8
    ensures Closed(S') && S <= S' && fresh(S' - S)
    ensures r.Ok? ==> r.value.1 in S' && Captured(r.value.0) <= S'
    ensures TailOutcome(head, rest, env, fuel, natives, tests, trace, r)
    ensures IsSymbol(head, "let") || IsSymbol(head, "letrec") ==>
      && (CheckForm(rest, 2, None).Fail? ==> S' == S && unchanged(S))
      && (r.Ok? ==> fresh(r.value.1))
  {
    tests := [];
    trace := LetTrace(Err(OutOfFuel), [], [], null, null, Err(OutOfFuel), []);
    if IsSymbol(head, "let") || IsSymbol(head, "letrec") {
      r, trace, S' := DoLetForm(rest, env, IsSymbol(head, "letrec"), fuel, natives, S);
      return;
    }
    var e;
    e, tests, S' := EvalLogic(head, rest, env, fuel, natives, S);
    r := if e.Ok? then Ok((e.value, env)) else Err(e.error);
    assert Handed(r) == e;
  }

  /** Where a call `(head . rest)` in `env` leaves the trampoline
      (scheme.py:507-520), given what the operator (`proc`) and the operands
      (`args`, with `evaluated` the values before any error) evaluated to:
      either error passed on; a primitive's result; a Lambda or Mu whose
      formals do not bind the arguments gives the binding error, and
      otherwise its body goes round again in a call frame below the
      environment the Lambda captured or, for a Mu, below `env` (what that
      frame binds is `CallFrame`); any other operator value is
      NotApplicable.  An operator that is a lambda form evaluates to a
      Lambda with that form's formals and body. */
  predicate CallOutcome(head: Value, rest: Value, env: Frame<Value>, fuel: nat,
                        natives: (string, Value) -> Result<Value>, proc: Result<Value>, args: Result<Value>,
                        evaluated: seq<Value>, s: Step)
  {
    && Settles(head, fuel, proc)
    && (fuel > 0 && IsList(head) && head.Pair? && IsSymbol(head.first, "lambda") ==> LambdaShape(head.second, proc))
    && (proc.Err? ==> s == Done(Err(proc.error)))
    && (proc.Ok? ==> OperandsOutcome(Spine(rest), fuel, evaluated, args))
    && (proc.Ok? && args.Err? ==> s == Done(Err(args.error)))
    && (proc.Ok? && args.Ok? ==>
          var p := proc.value;
          && IsList(args.value) && |Spine(args.value)| == |Spine(rest)|
          && (p.Primitive? ==> s == Done(CallPrimitive(natives, p.pname, args.value)))
          && ((p.Lambda? || p.Mu?) && Bind(p.formals, args.value).Err? ==>
                s == Done(Err(Bind(p.formals, args.value).error)))
          && ((p.Lambda? || p.Mu?) && Bind(p.formals, args.value).Ok? ==>
                && s.Again? && s.expr == p.body
                && s.env.parent == (if p.Lambda? then p.env else env))
          && (!p.Primitive? && !p.Lambda? && !p.Mu? ==> s == Done(Err(NotApplicable))))
  }

  /** The frame a call goes round with binds exactly the procedure's formals
      to the arguments (scheme.py:97-130). */
  predicate CallFrame(proc: Result<Value>, args: Result<Value>, s: Step)
    reads if s.Again? then {s.env} else {}
  {
    s.Again? && proc.Ok? && args.Ok? && (proc.value.Lambda? || proc.value.Mu?)
    && Bind(proc.value.formals, args.value).Ok? ==>
      s.env.bindings == Bind(proc.value.formals, args.value).value
  }

  /** scheme.py:508 — the operator of a call, evaluated in the caller's
      environment: what `Eval` says of it through its first round. */
  method EvalOperator(head: Value, env: Frame<Value>, fuel: nat,
                      natives: (string, Value) -> Result<Value>, ghost S: set<Frame<Value>>)
    returns (r: Result<Value>, ghost S': set<Frame<Value>>)
    requires Closed(S) && env in S && Captured(head) <= S
    modifies S
    decreases fuel, 2
    ensures Closed(S') && S <= S' && fresh(S' - S)
    ensures r.Ok? ==> Captured(r.value) <= S'
    ensures Settles(head, fuel, r)
    ensures fuel > 0 && IsList(head) && head.Pair? && IsSymbol(head.first, "lambda") ==> LambdaShape(head.second, r)
    ensures fuel > 0 && head.Sym? ==> r == old(env.Lookup(head.name))
  {
    ghost var rounds;
    r, rounds, S' := Eval(head, env, fuel, natives, S);
  }

  /** scheme.py:507-520 — a call: the operator, then the operands, are
      evaluated in `env`.  A primitive's result finishes the evaluation; a
      Lambda or Mu has its body evaluated next, in a call frame whose parent
      is the environment the Lambda captured, or for a Mu `env`, the
      environment of the call.  `proc` and `args` are what the operator and
      the operands evaluated to. */
  method EvalCall(head: Value, rest: Value, env: Frame<Value>, fuel: nat,
                  natives: (string, Value) -> Result<Value>, ghost S: set<Frame<Value>>)
    returns (s: Step, ghost proc: Result<Value>, ghost args: Result<Value>, ghost evaluated: seq<Value>,
             ghost S': set<Frame<Value>>)
    requires IsList(rest)
    requires Closed(S) && env in S && Captured(head) <= S && Captured(rest) <= S
    modifies S
    decreases fuel, 4
    ensures Closed(S') && S <= S' && fresh(S' - S)
    ensures s.Done? && s.result.Ok? ==> Captured(s.result.value) <= S'
    ensures s.Again? ==> s.env in S' && Captured(s.expr) <= S' && fresh(s.env)
    ensures CallOutcome(head, rest, env, fuel, natives, proc, args, evaluated, s)
    ensures CallFrame(proc, args, s)
    ensures fuel > 0 && head.Sym? ==> proc == old(env.Lookup(head.name))
  {
    args, evaluated := Err(OutOfFuel), [];
    var f;
    f, S' := EvalOperator(head, env, fuel, natives, S);
    proc := f;
    if f.Err? {
      return Done(Err(f.error)), proc, args, evaluated, S';
    }
    var a;
    a, evaluated, S' := EvalOperands(rest, env, fuel, natives, S');
    args := a;
    if a.Err? {
      return Done(Err(a.error)), proc, args, evaluated, S';
    }
    var p := f.value;
    if p.Primitive? {
      s := Done(CallPrimitive(natives, p.pname, a.value));
    } else if p.Lambda? || p.Mu? {
      var frame;
      frame, S' := ProcedureFrame(p, a.value, env, S');
      if frame.Err? {
        return Done(Err(frame.error)), proc, args, evaluated, S';
      }
      assert Captured(p.body) <= Captured(p);
      s := Again(p.body, frame.value);
    } else {
      s := Done(Err(NotApplicable));
    }
  }

  /** A combination `(head . rest)` in one round of scheme_eval's loop
      (scheme.py:490-520): a lambda, define, set!, quote or mu form finishes
      with its handler's outcome; a logic form, let or letrec resumes with
      what its handler hands back; anything else is a call. */
  method Combination(head: Value, rest: Value, scope: Frame<Value>, fuel: nat,
                     natives: (string, Value) -> Result<Value>, ghost S: set<Frame<Value>>)
    returns (s: Step, ghost val: Result<Value>, ghost binder: Frame?<Value>,
             ghost tail: Result<(Value, Frame<Value>)>, ghost tests: seq<Result<Value>>, ghost trace: LetTrace,
             ghost proc: Result<Value>, ghost args: Result<Value>, ghost evaluated: seq<Value>,
             ghost S': set<Frame<Value>>)
    requires IsList(rest)
    requires Closed(S) && scope in S && Captured(head) <= S && Captured(rest) <= S
    modifies S
    decreases fuel, 9
    ensures Closed(S') && S <= S' && fresh(S' - S)
    ensures s.Done? && s.result.Ok? ==> Captured(s.result.value) <= S'
    ensures s.Again? ==> s.env in S' && Captured(s.expr) <= S' && !ReturnsDirectly(head)
    ensures IsSymbol(head, "quote") ==> s == Done(DoQuoteForm(rest))
    ensures IsSymbol(head, "lambda") ==> s.Done? && LambdaOutcome(rest, scope, s.result)
    ensures IsSymbol(head, "mu") ==> s.Done? && MuOutcome(rest, s.result)
    ensures IsSymbol(head, "define") ==>
      && s.Done? && DefineShape(rest, s.result) && DefineEffect(rest, scope, fuel, val, s.result)
      && DefineInPlace(rest, scope, val, S, S')
    ensures IsSymbol(head, "set!") ==>
      && s.Done? && SetShape(rest, s.result) && SetEffect(rest, scope, fuel, val, binder, s.result)
      && SetInPlace(rest, scope, val, binder, S, S')
    ensures TailForm(head) ==> s == Resume(tail) && TailOutcome(head, rest, scope, fuel, natives, tests, trace, tail)
    ensures !ReturnsDirectly(head) && !TailForm(head) ==>
      && CallOutcome(head, rest, scope, fuel, natives, proc, args, evaluated, s)
      && (fuel > 0 && head.Sym? ==> proc == old(scope.Lookup(head.name)))
    ensures CallFrame(proc, args, s)
  {
    S' := S;
    val, binder, tail, tests, proc, args, evaluated := Err(OutOfFuel), null, Err(OutOfFuel), [], Err(OutOfFuel),
      Err(OutOfFuel), [];
    trace := LetTrace(Err(OutOfFuel), [], [], null, null, Err(OutOfFuel), []);
    if ReturnsDirectly(head) {
      var r;
      r, val, binder, S' := EvalDirect(head, rest, scope, fuel, natives, S);
      s := Done(r);
    } else if TailForm(head) {
      var e;
      e, tests, trace, S' := EvalTail(head, rest, scope, fuel, natives, S);
      tail := e;
      s := Resume(e);
    } else {
      s, proc, args, evaluated, S' := EvalCall(head, rest, scope, fuel, natives, S);
    }
  }

  /** The ghost record of one round of scheme_eval's loop: the expression
      `x` and the frame `scope` it started from, the `fuel` left for it,
      where it left the trampoline (`s`), and what its handler recorded on the
      way (see `Combination`). */
  datatype Turn = Turn(x: Value, scope: Frame<Value>, fuel: nat, s: Step, val: Result<Value>, binder: Frame?<Value>,
                       tail: Result<(Value, Frame<Value>)>, tests: seq<Result<Value>>, trace: LetTrace,
                       proc: Result<Value>, args: Result<Value>, evaluated: seq<Value>)

  /** What one round does whatever the frames bind
      (scheme.py:473-520): an undefined expression, a vector and a malformed
      list are errors, a symbol finishes with its lookup, a self-evaluating
      atom with itself; a combination finishes or goes round again as the
      handler of its head says, and a call as `CallOutcome` says.  Only a
      tail form or a call goes round again. */
  ghost predicate RoundOutcome(t: Turn, natives: (string, Value) -> Result<Value>)
    decreases t, 5
  {
    && (t.x.Undefined? ==> t.s == Done(Err(InvalidExpression)))
    && (t.x.Sym? ==> t.s.Done?)
    && (SelfEvaluating(t.x) ==> t.s == Done(Ok(t.x)))
    && (t.x.Vector? ==> t.s == Done(Err(NotEvaluable)))
    && (!Atomic(t.x) && !IsList(t.x) ==> t.s == Done(Err(MalformedList)))
    && (t.s.Again? ==> IsList(t.x) && t.x.Pair? && !ReturnsDirectly(t.x.first))
    && (IsList(t.x) && t.x.Pair? ==>
          var head, rest := t.x.first, t.x.second;
          && (IsSymbol(head, "quote") ==> t.s == Done(DoQuoteForm(rest)))
          && (IsSymbol(head, "lambda") ==> t.s.Done? && LambdaOutcome(rest, t.scope, t.s.result))
          && (IsSymbol(head, "mu") ==> t.s.Done? && MuOutcome(rest, t.s.result))
          && (IsSymbol(head, "define") ==> t.s.Done? && DefineShape(rest, t.s.result))
          && (IsSymbol(head, "set!") ==> t.s.Done? && SetShape(rest, t.s.result))
          && (TailForm(head) ==> t.s == Resume(t.tail) && TailOutcome(head, rest, t.scope, t.fuel, natives, t.tests, t.trace, t.tail))
          && (!ReturnsDirectly(head) && !TailForm(head) ==>
                CallOutcome(head, rest, t.scope, t.fuel, natives, t.proc, t.args, t.evaluated, t.s)))
  }

  /** One round of scheme_eval's loop (scheme.py:473-520), with `fuel` the
      fuel left for it: an atom, a lambda, define, set!, quote or mu form
      and a call to a primitive finish the evaluation; a logic form, let,
      letrec and a call to a user procedure hand back the next expression
      and environment.  `t` records the round; what the symbol, define,
      set! and call cases do to the frames is stated here. */
  method Round(x: Value, scope: Frame<Value>, fuel: nat,
               natives: (string, Value) -> Result<Value>, ghost S: set<Frame<Value>>)
    returns (s: Step, ghost t: Turn, ghost S': set<Frame<Value>>)
    requires Closed(S) && scope in S && Captured(x) <= S
    modifies S
    decreases fuel, 10
    ensures Closed(S') && S <= S' && fresh(S' - S)
    ensures s.Done? && s.result.Ok? ==> Captured(s.result.value) <= S'
    ensures s.Again? ==> s.env in S' && Captured(s.expr) <= S'
    ensures t.x == x && t.scope == scope && t.fuel == fuel && t.s == s
    ensures RoundOutcome(t, natives)
    ensures !IsList(x) ==> S' == S && unchanged(S)
    ensures x.Sym? ==> s == Done(scope.Lookup(x.name))
    ensures IsList(x) && x.Pair? && IsSymbol(x.first, "define") ==>
      DefineEffect(x.second, scope, fuel, t.val, s.result) && DefineInPlace(x.second, scope, t.val, S, S')
    ensures IsList(x) && x.Pair? && IsSymbol(x.first, "set!") ==>
      SetEffect(x.second, scope, fuel, t.val, t.binder, s.result) && SetInPlace(x.second, scope, t.val, t.binder, S, S')
    ensures CallFrame(t.proc, t.args, s)
    ensures IsList(x) && x.Pair? && !ReturnsDirectly(x.first) && !TailForm(x.first) && fuel > 0 && x.first.Sym? ==>
      t.proc == old(scope.Lookup(x.first.name))
  {
    S' := S;
    ghost var val, binder, tail, tests, trace, proc, args, evaluated;
    val, binder, tail, tests, proc, args, evaluated := Err(OutOfFuel), null, Err(OutOfFuel), [], Err(OutOfFuel),
      Err(OutOfFuel), [];
    trace := LetTrace(Err(OutOfFuel), [], [], null, null, Err(OutOfFuel), []);
    if x.Undefined? {
      s := Done(Err(InvalidExpression));
    } else if x.Sym? {
      LookupWithin(S', scope, x.name);
      s := Done(scope.Lookup(x.name));
    } else if SelfEvaluating(x) {
      s := Done(Ok(x));
    } else if x.Vector? {
      s := Done(Err(NotEvaluable));
    } else if !IsList(x) {
      s := Done(Err(MalformedList));
    } else {
      assert Captured(x.first) <= S' && Captured(x.second) <= S';
      s, val, binder, tail, tests, trace, proc, args, evaluated, S' :=
        Combination(x.first, x.second, scope, fuel, natives, S);
    }
    t := Turn(x, scope, fuel, s, val, binder, tail, tests, trace, proc, args, evaluated);
  }

  /** Round `b` starts from where round `a` went round again. */
  predicate Linked(a: Turn, b: Turn) {
    a.s.Again? && b.x == a.s.expr && b.scope == a.s.env
  }

  /** The last round of a run. */
  function Last(rounds: seq<Turn>): Turn
    requires rounds != []
  {
    rounds[|rounds| - 1]
  }

  /** Round `i` of `rounds` had `fuel - 1 - i` left and did what
      `RoundOutcome` says.  (A round's outcome is only unfolded where it is
      asked for.) */
  ghost predicate EachRound(rounds: seq<Turn>, fuel: nat, natives: (string, Value) -> Result<Value>)
    decreases rounds, 0
  {
    && |rounds| <= fuel
    && forall i {:trigger RoundOutcome(rounds[i], natives)} :: 0 <= i < |rounds| ==>
         rounds[i].fuel == fuel - 1 - i && RoundOutcome(rounds[i], natives)
  }

  /** One more round keeps `EachRound`. */
  lemma EachRoundStep(rounds: seq<Turn>, fuel: nat, natives: (string, Value) -> Result<Value>, t: Turn)
    requires EachRound(rounds, fuel, natives) && |rounds| < fuel
    requires t.fuel == fuel - 1 - |rounds| && RoundOutcome(t, natives)
    ensures EachRound(rounds + [t], fuel, natives)
  {
    var rs := rounds + [t];
    forall i | 0 <= i < |rs| ensures rs[i].fuel == fuel - 1 - i && RoundOutcome(rs[i], natives) {
      if i < |rounds| {
        assert rs[i] == rounds[i] && RoundOutcome(rounds[i], natives);
      } else {
        assert rs[i] == t;
      }
    }
  }

  /** Each round of `rounds` started from where the one before it went. */
  ghost predicate Chained(rounds: seq<Turn>) {
    forall i, j :: 0 <= i < j < |rounds| && j == i + 1 ==> Linked(rounds[i], rounds[j])
  }

  /** A round starting from where the last one went keeps `Chained`. */
  lemma ChainedStep(rounds: seq<Turn>, t: Turn)
    requires Chained(rounds) && (rounds != [] ==> Linked(Last(rounds), t))
    ensures Chained(rounds + [t])
  {
    var rs := rounds + [t];
    forall i, j | 0 <= i < j < |rs| && j == i + 1 ensures Linked(rs[i], rs[j]) {
      if j < |rounds| {
        assert rs[i] == rounds[i] && rs[j] == rounds[j];
      } else {
        assert rs[i] == Last(rounds) && rs[j] == t;
      }
    }
  }

  /** `rounds` are the first rounds of evaluating `expr` in `env` with
      `fuel`, all of which went round again, and the loop is now at `x` in
      `scope`: the first round started from `expr` in `env`, each later one
      from where the one before it went, and round `i` had `fuel - 1 - i`
      left. */
  ghost predicate Going(expr: Value, env: Frame<Value>, fuel: nat, natives: (string, Value) -> Result<Value>,
                        rounds: seq<Turn>, x: Value, scope: Frame<Value>) {
    && EachRound(rounds, fuel, natives) && Chained(rounds)
    && (rounds == [] ==> x == expr && scope == env)
    && (rounds != [] ==>
          && rounds[0].x == expr && rounds[0].scope == env
          && Last(rounds).s == Again(x, scope))
  }

  /** Evaluating `expr` in `env` with `fuel` ran the `rounds` and ended with
      `r` (scheme.py:470-520): every round but the last went round again,
      the first started from `expr` in `env` and each later one from where
      the one before it went; the run ends with the last round's result,
      or, when the fuel runs out first, with OutOfFuel. */
  ghost predicate Runs(expr: Value, env: Frame<Value>, fuel: nat, natives: (string, Value) -> Result<Value>,
                       rounds: seq<Turn>, r: Result<Value>)
    decreases rounds, 1
  {
    && EachRound(rounds, fuel, natives) && Chained(rounds)
    && (rounds == [] <==> fuel == 0)
    && (rounds == [] ==> r == Err(OutOfFuel))
    && (rounds != [] ==>
          && rounds[0].x == expr && rounds[0].scope == env
          && (Last(rounds).s.Done? ==> r == Last(rounds).s.result)
          && (Last(rounds).s.Again? ==> |rounds| == fuel && r == Err(OutOfFuel)))
  }

  /** A round run from where the loop is either ends the run with its
      result or keeps it going. */
  lemma RunsStep(expr: Value, env: Frame<Value>, fuel: nat,
                 natives: (string, Value) -> Result<Value>, rounds: seq<Turn>, t: Turn)
    requires Going(expr, env, fuel, natives, rounds, t.x, t.scope) && |rounds| < fuel
    requires t.fuel == fuel - 1 - |rounds| && RoundOutcome(t, natives)
    ensures t.s.Done? ==> Runs(expr, env, fuel, natives, rounds + [t], t.s.result)
    ensures t.s.Again? ==> Going(expr, env, fuel, natives, rounds + [t], t.s.expr, t.s.env)
  {
    EachRoundStep(rounds, fuel, natives, t);
    ChainedStep(rounds, t);
    var rs := rounds + [t];
    assert Last(rs) == t;
    if rounds != [] {
      assert rs[0] == rounds[0];
    }
  }

  /** A run whose fuel is spent while it is still going ends with
      OutOfFuel. */
  lemma RunsOut(expr: Value, env: Frame<Value>, fuel: nat, natives: (string, Value) -> Result<Value>,
                rounds: seq<Turn>, x: Value, scope: Frame<Value>)
    requires Going(expr, env, fuel, natives, rounds, x, scope) && |rounds| == fuel
    ensures Runs(expr, env, fuel, natives, rounds, Err(OutOfFuel))
  {
  }

  /** A round that finishes ends the run: every round before the last went
      round again. */
  lemma RunsAgain(expr: Value, env: Frame<Value>, fuel: nat, natives: (string, Value) -> Result<Value>,
                  rounds: seq<Turn>, r: Result<Value>, i: nat)
    requires Runs(expr, env, fuel, natives, rounds, r) && i + 1 < |rounds|
    ensures rounds[i].s.Again?
  {
    assert Linked(rounds[i], rounds[i + 1]);
  }

  /** What a run says of its result whatever the frames bind: `Settles`. */
  lemma RunsSettle(expr: Value, env: Frame<Value>, fuel: nat, natives: (string, Value) -> Result<Value>,
                   rounds: seq<Turn>, r: Result<Value>)
    requires Runs(expr, env, fuel, natives, rounds, r)
    ensures Settles(expr, fuel, r)
  {
    if fuel > 0 {
      var t := rounds[0];
      assert RoundOutcome(rounds[0], natives);
      if t.s.Done? && |rounds| > 1 {
        RunsAgain(expr, env, fuel, natives, rounds, r, 0);
      }
    }
  }

  /** What a run says of its result through its first round alone: atoms,
      the forms scheme_eval returns from directly, and the well-formedness
      checks of if and begin; and or or with no operands hand back a
      boolean, which the second round gives back when there is fuel for
      one. */
  lemma RunsFirst(expr: Value, env: Frame<Value>, fuel: nat, natives: (string, Value) -> Result<Value>,
                  rounds: seq<Turn>, r: Result<Value>)
    requires Runs(expr, env, fuel, natives, rounds, r)
    ensures fuel > 0 && expr.Undefined? ==> r == Err(InvalidExpression)
    ensures fuel > 0 && expr.Vector? ==> r == Err(NotEvaluable)
    ensures fuel > 0 && !Atomic(expr) && !IsList(expr) ==> r == Err(MalformedList)
    ensures fuel > 0 && IsList(expr) && expr.Pair? ==>
      var head, rest := expr.first, expr.second;
      && (IsSymbol(head, "lambda") ==> LambdaOutcome(rest, env, r))
      && (IsSymbol(head, "mu") ==> MuOutcome(rest, r))
      && (IsSymbol(head, "define") ==> DefineShape(rest, r))
      && (IsSymbol(head, "set!") ==> SetShape(rest, r))
      && (IsSymbol(head, "if") && CheckForm(rest, 2, Some(3)).Fail? ==> r == Err(CheckForm(rest, 2, Some(3)).error))
      && (IsSymbol(head, "begin") && CheckForm(rest, 1, None).Fail? ==> r == Err(CheckForm(rest, 1, None).error))
      && (IsSymbol(head, "and") && rest == Nil ==> r == if fuel == 1 then Err(OutOfFuel) else Ok(Bool(true)))
      && (IsSymbol(head, "or") && rest == Nil ==> r == if fuel == 1 then Err(OutOfFuel) else Ok(Bool(false)))
  {
    if fuel > 0 {
      var t := rounds[0];
      assert RoundOutcome(rounds[0], natives);
      if IsList(expr) && expr.Pair? && TailForm(expr.first) {
        assert TailOutcome(expr.first, expr.second, t.scope, t.fuel, natives, t.tests, t.trace, t.tail);
      }
      if t.s.Done? && |rounds| > 1 {
        RunsAgain(expr, env, fuel, natives, rounds, r, 0);
      }
      if t.s.Again? && |rounds| > 1 {
        assert Linked(rounds[0], rounds[1]);
        assert RoundOutcome(rounds[1], natives);
        if rounds[1].s.Done? && |rounds| > 2 {
          RunsAgain(expr, env, fuel, natives, rounds, r, 1);
        }
      }
    }
  }

  /** One round of the loop of `Eval` with `f` fuel left for it, from `x`
      in `scope`, recorded after the `rounds` run so far: the round either
      ends the run or keeps it going. */
  method Advance(ghost expr: Value, ghost env: Frame<Value>, ghost fuel: nat, x: Value, scope: Frame<Value>, f: nat,
                 natives: (string, Value) -> Result<Value>, ghost rounds: seq<Turn>, ghost S: set<Frame<Value>>)
    returns (s: Step, ghost rounds': seq<Turn>, ghost S': set<Frame<Value>>)
    requires Closed(S) && scope in S && Captured(x) <= S
    requires Going(expr, env, fuel, natives, rounds, x, scope) && |rounds| + f + 1 == fuel
    requires rounds != [] ==> CallFrame(Last(rounds).proc, Last(rounds).args, Last(rounds).s)
    modifies S
    decreases f, 11
    ensures Closed(S') && S <= S' && fresh(S' - S)
    ensures s.Done? && s.result.Ok? ==> Captured(s.result.value) <= S'
    ensures s.Again? ==> s.env in S' && Captured(s.expr) <= S'
    ensures |rounds'| == |rounds| + 1
    ensures Last(rounds').x == x && Last(rounds').scope == scope && Last(rounds').s == s
    ensures s.Done? ==> Runs(expr, env, fuel, natives, rounds', s.result)
    ensures s.Again? ==> Going(expr, env, fuel, natives, rounds', s.expr, s.env) && IsList(x)
    ensures !IsList(x) ==> S' == S && unchanged(S)
    ensures x.Sym? ==> s == Done(scope.Lookup(x.name))
    ensures CallFrame(Last(rounds').proc, Last(rounds').args, s)
    ensures rounds != [] && !IsList(x) ==>
      var t := rounds'[|rounds'| - 2];
      CallFrame(t.proc, t.args, t.s)
  {
    ghost var t;
    s, t, S' := Round(x, scope, f, natives, S);
    RunsStep(expr, env, fuel, natives, rounds, t);
    rounds' := rounds + [t];
    assert Last(rounds') == t;
  }

  /** The loop of scheme_eval (scheme.py:470-520): each round costs one
      unit of fuel, and the loop goes on while a round hands back an
      expression and an environment to evaluate next.  `rounds` records the
      rounds run (`Runs`); the last one's frame is in the store, a symbol it
      settled is looked up there, and when it changed nothing the call frame
      the round before it went to still binds what the call bound. */
  method RunRounds(expr: Value, env: Frame<Value>, fuel: nat,
                   natives: (string, Value) -> Result<Value>, ghost S: set<Frame<Value>>)
    returns (r: Result<Value>, ghost rounds: seq<Turn>, ghost S': set<Frame<Value>>)
    requires Closed(S) && env in S && Captured(expr) <= S
    modifies S
    decreases fuel, 0
    ensures Closed(S') && S <= S' && fresh(S' - S)
    ensures r.Ok? ==> Captured(r.value) <= S'
    ensures Runs(expr, env, fuel, natives, rounds, r)
    ensures rounds != [] && Last(rounds).x.Sym? ==>
      Last(rounds).scope in S' && r == Last(rounds).scope.Lookup(Last(rounds).x.name)
    ensures |rounds| >= 2 && !IsList(Last(rounds).x) ==>
      var t := rounds[|rounds| - 2];
      CallFrame(t.proc, t.args, t.s)
    ensures fuel == 0 || !IsList(expr) ==> S' == S && unchanged(S)
  {
    var x, scope := expr, env;
    var f: nat := fuel;
    S' := S;
    rounds := [];
    while true
      invariant Closed(S') && S <= S' && fresh(S' - S)
      invariant scope in S' && Captured(x) <= S'
      invariant |rounds| + f == fuel
      invariant Going(expr, env, fuel, natives, rounds, x, scope)
      invariant rounds == [] ==> S' == S && unchanged(S)
      invariant rounds != [] ==> IsList(expr) && CallFrame(Last(rounds).proc, Last(rounds).args, Last(rounds).s)
      decreases f
    {
      if f == 0 {
        if rounds != [] {
          // The last round went round again: it settled no symbol and left a list.
          assert RoundOutcome(Last(rounds), natives);
        }
        RunsOut(expr, env, fuel, natives, rounds, x, scope);
        r := Err(OutOfFuel);
        break;
      }
      f := f - 1;
      var step;
      step, rounds, S' := Advance(expr, env, fuel, x, scope, f, natives, rounds, S');
      if step.Done? {
        r := step.result;
        break;
      }
      x, scope := step.expr, step.env;
    }
  }

  /** scheme_eval (scheme.py:470-520): the trampoline.  Atoms are settled at
      once; lambda, define, set!, quote and mu forms return their handler's
      result; the logic forms, let, letrec and calls to user procedures
      replace the expression (and the environment) and go round again
      (`RunRounds`).  What the run says of the result through its first
      round alone is drawn from `rounds` by `RunsSettle` and `RunsFirst`. */
  method Eval(expr: Value, env: Frame<Value>, fuel: nat,
              natives: (string, Value) -> Result<Value>, ghost S: set<Frame<Value>>)
    returns (r: Result<Value>, ghost rounds: seq<Turn>, ghost S': set<Frame<Value>>)
    requires Closed(S) && env in S && Captured(expr) <= S
    modifies S
    decreases fuel, 1
    ensures Closed(S') && S <= S' && fresh(S' - S)
    ensures r.Ok? ==> Captured(r.value) <= S'
    ensures Runs(expr, env, fuel, natives, rounds, r)
    ensures rounds != [] && Last(rounds).x.Sym? ==>
      Last(rounds).scope in S' && r == Last(rounds).scope.Lookup(Last(rounds).x.name)
    ensures |rounds| >= 2 && !IsList(Last(rounds).x) ==>
      var t := rounds[|rounds| - 2];
      CallFrame(t.proc, t.args, t.s)
    ensures Settles(expr, fuel, r)
    ensures fuel == 0 || !IsList(expr) ==> S' == S && unchanged(S)
    ensures fuel > 0 && expr.Undefined? ==> r == Err(InvalidExpression)
    ensures fuel > 0 && expr.Sym? ==> r == old(env.Lookup(expr.name))
    ensures fuel > 0 && expr.Vector? ==> r == Err(NotEvaluable)
    ensures fuel > 0 && !Atomic(expr) && !IsList(expr) ==> r == Err(MalformedList)
    ensures fuel > 0 && IsList(expr) && expr.Pair? ==>
      var head, rest := expr.first, expr.second;
      && (IsSymbol(head, "lambda") ==> LambdaOutcome(rest, env, r))
      && (IsSymbol(head, "mu") ==> MuOutcome(rest, r))
      && (IsSymbol(head, "define") ==> DefineShape(rest, r))
      && (IsSymbol(head, "set!") ==> SetShape(rest, r))
      && (IsSymbol(head, "if") && CheckForm(rest, 2, Some(3)).Fail? ==> r == Err(CheckForm(rest, 2, Some(3)).error))
      && (IsSymbol(head, "begin") && CheckForm(rest, 1, None).Fail? ==> r == Err(CheckForm(rest, 1, None).error))
      && (IsSymbol(head, "and") && rest == Nil ==> r == if fuel == 1 then Err(OutOfFuel) else Ok(Bool(true)))
      && (IsSymbol(head, "or") && rest == Nil ==> r == if fuel == 1 then Err(OutOfFuel) else Ok(Bool(false)))
  {
    AncestorsWithin(S, env);
    r, rounds, S' := RunRounds(expr, env, fuel, natives, S);
    if fuel > 0 && expr.Sym? {
      // A symbol settles in the first round, which changes nothing.
      assert RoundOutcome(rounds[0], natives);
      if |rounds| > 1 {
        RunsAgain(expr, env, fuel, natives, rounds, r, 0);
      }
    }
    RunsSettle(expr, env, fuel, natives, rounds, r);
    RunsFirst(expr, env, fuel, natives, rounds, r);
  }

  /** The first round of `((lambda (x) x) 5)` calls a Lambda over `(x)`
      on `(5)`, binding `x` to 5, and goes round again with the body `x`. */
  lemma IdentityCall(call: Turn, natives: (string, Value) -> Result<Value>)
    requires call.x == List([List([Sym("lambda"), List([Sym("x")]), Sym("x")]), Num(5)]) && call.fuel > 0
    requires RoundOutcome(call, natives)
    ensures call.s.Again? && call.s.expr == Sym("x")
    ensures call.proc.Ok? && call.proc.value.Lambda? && call.args.Ok?
    ensures var b := Bind(call.proc.value.formals, call.args.value);
      b.Ok? && "x" in b.value && b.value["x"] == Num(5)
  {
    var formals := List([Sym("x")]);
    var form := List([Sym("lambda"), formals, Sym("x")]);
    assert call.x.first == form && Spine(call.x.second) == [Num(5)];
    assert form.first == Sym("lambda") && Spine(form.second) == [formals, Sym("x")];
    assert CheckForm(form.second, 2, None).Pass?;
    ListOrDotted(formals);
    assert ValidFormals(formals);
    assert BodyOf(form.second.second) == Sym("x");
    assert call.proc == Ok(Lambda(formals, Sym("x"), call.proc.value.env));
    assert call.args.Ok? && Spine(call.args.value) == [Num(5)];
    BindPositional(formals, call.args.value);
    assert Spine(formals)[0] == Sym("x");
  }

  /** `((lambda (x) x) 5)` evaluates to 5 when there is fuel for two rounds,
      given what `Eval` promises of its run: the call goes round again with
      the body `x` in a frame that binds `x` to 5, and the second round looks
      `x` up there. */
  lemma LambdaIdentity(env: Frame<Value>, fuel: nat, natives: (string, Value) -> Result<Value>,
                       rounds: seq<Turn>, r: Result<Value>, S': set<Frame<Value>>)
    requires fuel >= 2
    requires Closed(S')
    requires Runs(List([List([Sym("lambda"), List([Sym("x")]), Sym("x")]), Num(5)]), env, fuel, natives, rounds, r)
    requires rounds != [] && Last(rounds).x.Sym? ==>
      Last(rounds).scope in S' && r == Last(rounds).scope.Lookup(Last(rounds).x.name)
    requires |rounds| >= 2 && !IsList(Last(rounds).x) ==>
      var t := rounds[|rounds| - 2];
      CallFrame(t.proc, t.args, t.s)
    ensures r == Ok(Num(5))
  {
    var expr := List([List([Sym("lambda"), List([Sym("x")]), Sym("x")]), Num(5)]);
    assert RoundOutcome(rounds[0], natives);
    IdentityCall(rounds[0], natives);
    // The second round looks `x` up in the call frame, and is the last.
    assert Linked(rounds[0], rounds[1]);
    assert RoundOutcome(rounds[1], natives);
    if |rounds| > 2 {
      RunsAgain(expr, env, fuel, natives, rounds, r, 1);
    }
    assert Last(rounds) == rounds[1];
  }
}
