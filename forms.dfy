/** The structural checks the special forms apply to their operands
    (scheme.py:420-467): `check_form` on the shape and length of a form, and
    `check_formals` on a parameter list.
 */
module Forms {
  import opened Outcomes
  import opened Data

  /** scheme.py:420-430 — `expr` must be a proper list with at least `min`
      elements and, when `max` is given, at most `max`. */
  function CheckForm(expr: Value, min: nat, max: Option<nat>): (r: Outcome)
    ensures r.Pass? <==>
      Tail(expr) == Nil && min <= |Spine(expr)| && (max.Some? ==> |Spine(expr)| <= max.value)
    ensures r == Fail(BadlyFormedExpression) <==> Tail(expr) != Nil
    ensures r == Fail(TooFewOperands) <==> Tail(expr) == Nil && |Spine(expr)| < min
    ensures r == Fail(TooManyOperands) <==>
      Tail(expr) == Nil && min <= |Spine(expr)| && max.Some? && |Spine(expr)| > max.value
    ensures r.Fail? ==> r.error in {BadlyFormedExpression, TooFewOperands, TooManyOperands}
  {
    ListOrDotted(expr);
    if !IsList(expr) then Fail(BadlyFormedExpression)
    else
      ListIsSpine(expr);
      var length := Length(expr);
      if length < min then Fail(TooFewOperands)
      else if max.Some? && length > max.value then Fail(TooManyOperands)
      else Pass
  }

  /** The entries a formals list introduces, in order: its elements, then the
      symbol after the dot when the list is dotted (a lone symbol is a dotted
      list with no elements). */
  function FormalItems(formals: Value): seq<Value> {
    Spine(formals) + if Tail(formals) == Nil then [] else [Tail(formals)]
  }

  predicate AllSymbols(items: seq<Value>) {
    forall i :: 0 <= i < |items| ==> items[i].Sym?
  }

  predicate Distinct(items: seq<Value>) {
    forall i, j :: 0 <= i < j < |items| ==> items[i] != items[j]
  }

  /** A well-formed parameter list: only symbols, none repeated. */
  predicate ValidFormals(formals: Value) {
    AllSymbols(FormalItems(formals)) && Distinct(FormalItems(formals))
  }

  /** The nested check_unique of scheme.py:445-450: reject a symbol already
      seen, then reject a non-symbol, otherwise remember the symbol.  `arg`
      is entry `k` of the formals' entries `items`, and `seen` holds the
      names of the entries before it. */
  method CheckUnique(arg: Value, seen: seq<string>, ghost items: seq<Value>, ghost k: nat)
    returns (r: Outcome, seen': seq<string>)
    requires k < |items| && items[k] == arg
    requires AllSymbols(items[..k]) && Distinct(items[..k])
    requires forall x :: x in seen <==> Sym(x) in items[..k]
    ensures r.Pass? <==> arg.Sym? && arg.name !in seen
    ensures r == Fail(DuplicateFormal) <==> arg.Sym? && arg.name in seen
    ensures r.Fail? ==> r.error in {DuplicateFormal, FormalsNotFormed}
    ensures seen' == if r.Pass? then seen + [arg.name] else seen
    ensures r == Fail(DuplicateFormal) ==> !Distinct(items)
    ensures r == Fail(FormalsNotFormed) ==> !AllSymbols(items)
    ensures r.Pass? ==>
      && AllSymbols(items[..k + 1]) && Distinct(items[..k + 1])
      && forall x :: x in seen' <==> Sym(x) in items[..k + 1]
  {
    seen' := seen;
    if arg.Sym? && arg.name in seen {
      ghost var i :| 0 <= i < k && items[i] == Sym(arg.name);
      assert items[i] == items[k];
      return Fail(DuplicateFormal), seen';
    }
    if !arg.Sym? {
      assert !items[k].Sym?;
      return Fail(FormalsNotFormed), seen';
    }
    seen' := seen + [arg.name];
    assert items[..k + 1] == items[..k] + [arg];
    r := Pass;
  }

  /** scheme.py:432-467 — accepts exactly the lists of pairwise distinct
      symbols, proper or dotted, nil and a lone symbol included.  A failure
      names the first entry at fault: a repeat, or a non-symbol. */
  method CheckFormals(formals: Value) returns (r: Outcome)
    ensures r.Pass? <==> ValidFormals(formals)
    ensures r == Fail(DuplicateFormal) ==> !Distinct(FormalItems(formals))
    ensures r == Fail(FormalsNotFormed) ==> !AllSymbols(FormalItems(formals))
    ensures r.Fail? ==> r.error in {DuplicateFormal, FormalsNotFormed}
  {
    ghost var items := FormalItems(formals);
    var seen: seq<string> := [];
    var cur := formals;
    ghost var k := 0;
    // Both the dotted walk and the proper-list walk check the elements in
    // order; the dotted one then checks the symbol after the dot.
    while cur.Pair?
      invariant 0 <= k <= |Spine(formals)|
      invariant Spine(cur) == Spine(formals)[k..] && Tail(cur) == Tail(formals)
      invariant AllSymbols(items[..k]) && Distinct(items[..k])
      invariant forall x :: x in seen <==> Sym(x) in items[..k]
      decreases cur
    {
      assert items[k] == cur.first;
      r, seen := CheckUnique(cur.first, seen, items, k);
      if r.Fail? {
        return;
      }
      cur := cur.second;
      k := k + 1;
    }
    assert Spine(cur) == [] && cur == Tail(formals);
    if cur != Nil {
      // scheme_dottedp(formals): the entry after the dot.
      assert items == Spine(formals) + [cur] && items[k] == cur;
      r, seen := CheckUnique(cur, seen, items, k);
      if r.Fail? {
        return;
      }
      assert items == items[..k + 1];
    } else {
      assert items == items[..k];
      r := Pass;
    }
  }

  /** The examples of scheme.py:437-442, with the other ways a parameter
      list can be rejected: `(a b c)` and `(a b c . d)` are accepted, and so
      are nil and a lone symbol; `5`, a list holding a number and a
      repeated symbol, after the dot too, are not. */
  lemma CheckFormalsAccepted()
    ensures ValidFormals(List([Sym("a"), Sym("b"), Sym("c")]))
    ensures ValidFormals(Pair(Sym("a"), Pair(Sym("b"), Pair(Sym("c"), Sym("d")))))
    ensures ValidFormals(Nil) && ValidFormals(Sym("args"))
  {
    var abc := List([Sym("a"), Sym("b"), Sym("c")]);
    assert abc == Pair(Sym("a"), Pair(Sym("b"), Pair(Sym("c"), Nil)));
    assert FormalItems(abc) == [Sym("a"), Sym("b"), Sym("c")];
    assert FormalItems(Pair(Sym("a"), Pair(Sym("b"), Pair(Sym("c"), Sym("d"))))) == [Sym("a"), Sym("b"), Sym("c"), Sym("d")];
  }

  lemma CheckFormalsRejected()
    ensures !ValidFormals(Num(5))
    ensures !ValidFormals(List([Sym("a"), Num(1)]))
    ensures !ValidFormals(List([Sym("a"), Sym("b"), Sym("a")]))
    ensures !ValidFormals(Pair(Sym("a"), Sym("a")))
  {
    assert FormalItems(Num(5)) == [Num(5)];
    assert !FormalItems(Num(5))[0].Sym?;
    var an := List([Sym("a"), Num(1)]);
    assert an == Pair(Sym("a"), Pair(Num(1), Nil));
    assert !FormalItems(an)[1].Sym?;
    var aba := List([Sym("a"), Sym("b"), Sym("a")]);
    assert aba == Pair(Sym("a"), Pair(Sym("b"), Pair(Sym("a"), Nil)));
    assert FormalItems(aba) == [Sym("a"), Sym("b"), Sym("a")];
    assert FormalItems(aba)[0] == FormalItems(aba)[2];
    var aa := Pair(Sym("a"), Sym("a"));
    assert FormalItems(aa) == [Sym("a"), Sym("a")];
    assert FormalItems(aa)[0] == FormalItems(aa)[1];
  }


  /** scheme.py:348-357 — the expression `(quote v)`. */
  function Quote(v: Value): Value {
    Pair(Sym("quote"), Pair(v, Nil))
  }

  /** scheme.py:236-239 — the operand of a quote form, which must be exactly one. */
  function DoQuoteForm(vals: Value): (r: Result<Value>)
    ensures r.Ok? <==> IsList(vals) && |Spine(vals)| == 1
    ensures r.Ok? ==> r.value == Spine(vals)[0]
    ensures r.Err? ==> r.error == CheckForm(vals, 1, Some(1)).error
  {
    var c := CheckForm(vals, 1, Some(1));
    if c.Fail? then Err(c.error) else Ok(vals.first)
  }

  /** Quoting is undone by the quote form: the operands of `quote(v)` yield
      `v` itself, which is how `or` and `cond` hand back a value they have
      already evaluated without evaluating it again. */
  lemma QuoteRoundTrip(v: Value)
    ensures DoQuoteForm(Quote(v).second) == Ok(v)
  {
    var vals := Quote(v).second;
    assert Spine(vals) == [v] && Tail(vals) == Nil;
    assert CheckForm(vals, 1, Some(1)) == Pass;
  }

  /** scheme.py:398-400 — a begin form over a non-empty list of expressions. */
  function Begin(vals: Value): (r: Result<Value>)
    ensures r.Ok? <==> IsList(vals) && |Spine(vals)| >= 1
    ensures r.Err? ==> r.error == CheckForm(vals, 1, None).error
    ensures r.Ok? ==> IsList(r.value) && Spine(r.value) == [Sym("begin")] + Spine(vals)
  {
    var c := CheckForm(vals, 1, None);
    if c.Fail? then Err(c.error) else Ok(Pair(Sym("begin"), vals))
  }

  /** The single body expression of a procedure whose body is the
      non-empty list `exprs` (scheme.py:194-197, 206-209, 225-229): the one
      expression itself, or a begin form of all of them. */
  function BodyOf(exprs: Value): (b: Value)
    requires IsList(exprs) && |Spine(exprs)| >= 1
    ensures |Spine(exprs)| == 1 ==> b == Spine(exprs)[0]
    ensures |Spine(exprs)| > 1 ==> IsList(b) && Spine(b) == [Sym("begin")] + Spine(exprs)
  {
    ListIsSpine(exprs);
    if Length(exprs) > 1 then Begin(exprs).value else Nth(exprs, 0)
  }

  /** A cond clause whose first element is the symbol `else`. */
  predicate IsElse(clause: Value) {
    clause.Pair? && IsSymbol(clause.first, "else")
  }

  /** scheme.py:385-394 — what the first clause with a true test hands to the
      trampoline: the begin of its consequents when there are several, the
      consequent when there is one, and otherwise the test value quoted.  The
      source's separate branch for a bare last clause (scheme.py:387-388)
      yields the same as its general bare-clause branch. */
  function ClauseResult(clause: Value, test: Value): (e: Value)
    requires IsList(clause) && |Spine(clause)| >= 1
    ensures |Spine(clause)| == 1 ==> e == Quote(test)
    ensures |Spine(clause)| == 2 ==> e == Spine(clause)[1]
    ensures |Spine(clause)| > 2 ==> IsList(e) && Spine(e) == [Sym("begin")] + Spine(clause)[1..]
  {
    ListIsSpine(clause);
    var n := Length(clause);
    assert Spine(clause) == [clause.first] + Spine(clause.second);
    if n > 2 then Begin(clause.second).value
    else if n == 2 then Nth(clause, 1)
    else Quote(test)
  }
}
