/** Binding a procedure's formals to its arguments in a new call frame
    (scheme.py:97-130, Frame.make_call_frame).

    `Bind` is the binding the source computes, as a map from symbol names to
    values; `MakeCallFrame` fills a fresh frame with it the way the source
    does, one binding at a time.  The lemmas state the binding positionally.
 */
module Calls {
  import opened Outcomes
  import opened Env
  import opened Data
  import opened Forms

  /** The dotted branch (scheme.py:111-120): walk formals and values together,
      binding each leading formal to the next value; the formal after the dot
      takes what is left of the values.  Running out of values raises a host
      AttributeError (`nil` has no `first`). */
  function BindDotted(formals: Value, vals: Value, acc: map<string, Value>): Result<map<string, Value>>
    decreases formals
  {
    match formals
    case Pair(formal, more) =>
      if !vals.Pair? then Err(HostFault("AttributeError: no first"))
      else if !formal.Sym? then Err(NotAVariable)
      else BindDotted(more, vals.second, acc[formal.name := vals.first])
    case Sym(rest) => Ok(acc[rest := vals])
    case _ => Err(NotAVariable)
  }

  /** The proper branch (scheme.py:125-130): formals and values side by side,
      each formal checked to be a symbol. */
  function BindProper(formals: Value, vals: Value, acc: map<string, Value>): Result<map<string, Value>>
    decreases formals
  {
    match formals
    case Pair(formal, more) =>
      if !formal.Sym? then Err(NotAVariable)
      else if !vals.Pair? then Ok(acc)
      else BindProper(more, vals.second, acc[formal.name := vals.first])
    case _ => Ok(acc)
  }

  /** The bindings make_call_frame gives the new frame, or the error it raises. */
  function Bind(formals: Value, vals: Value): Result<map<string, Value>> {
    if IsDotted(formals) then BindDotted(formals, vals, map[])
    else if !IsList(formals) || !IsList(vals) then Err(HostFault("TypeError: len() of an improper list"))
    else if Length(formals) != Length(vals) then Err(ArityMismatch)
    else BindProper(formals, vals, map[])
  }

  /** `vals` after `k` steps along its pair chain. */
  function Drop(vals: Value, k: nat): Value {
    if k == 0 || !vals.Pair? then vals else Drop(vals.second, k - 1)
  }

  /** The proper branch leaves alone every name that is not a formal. */
  lemma {:induction false} BindProperKeeps(formals: Value, vals: Value, acc: map<string, Value>, n: string)
    requires BindProper(formals, vals, acc).Ok? && Sym(n) !in Spine(formals)
    ensures var m := BindProper(formals, vals, acc).value;
      (n in m <==> n in acc) && (n in acc ==> m[n] == acc[n])
    decreases formals
  {
    if formals.Pair? && vals.Pair? {
      assert Spine(formals) == [formals.first] + Spine(formals.second);
      BindProperKeeps(formals.second, vals.second, acc[formals.first.name := vals.first], n);
    }
  }

  /** The proper branch puts the i-th value under the i-th formal when the
      formals are distinct symbols and the lengths agree. */
  lemma {:induction false} BindProperAt(formals: Value, vals: Value, acc: map<string, Value>, i: nat)
    requires IsList(formals) && IsList(vals) && |Spine(formals)| == |Spine(vals)|
    requires AllSymbols(Spine(formals)) && Distinct(Spine(formals)) && i < |Spine(formals)|
    ensures BindProper(formals, vals, acc).Ok?
    ensures var m := BindProper(formals, vals, acc).value;
      Spine(formals)[i].name in m && m[Spine(formals)[i].name] == Spine(vals)[i]
    decreases formals
  {
    var f, v := Spine(formals), Spine(vals);
    assert f == [formals.first] + Spine(formals.second) && v == [vals.first] + Spine(vals.second);
    assert f[0] == formals.first && f[0].Sym?;
    var acc' := acc[formals.first.name := vals.first];
    var rest := Spine(formals.second);
    assert AllSymbols(rest) && Distinct(rest) by {
      forall j | 0 <= j < |rest| ensures rest[j] == f[j + 1] {}
    }
    if i == 0 {
      BindProperOk(formals.second, vals.second, acc');
      assert Sym(formals.first.name) !in Spine(formals.second) by {
        forall j | 0 <= j < |f| - 1 ensures Spine(formals.second)[j] != f[0] {
          assert Spine(formals.second)[j] == f[j + 1];
        }
      }
      BindProperKeeps(formals.second, vals.second, acc', formals.first.name);
    } else {
      BindProperAt(formals.second, vals.second, acc', i - 1);
    }
  }

  /** The proper branch succeeds exactly when every formal is a symbol. */
  lemma {:induction false} BindProperOk(formals: Value, vals: Value, acc: map<string, Value>)
    requires IsList(formals) && IsList(vals) && |Spine(formals)| == |Spine(vals)|
    ensures BindProper(formals, vals, acc).Ok? <==> AllSymbols(Spine(formals))
    ensures BindProper(formals, vals, acc).Err? ==> BindProper(formals, vals, acc).error == NotAVariable
    decreases formals
  {
    if formals.Pair? {
      var f, rest := Spine(formals), Spine(formals.second);
      assert f == [formals.first] + rest && f[0] == formals.first;
      assert Spine(vals) == [vals.first] + Spine(vals.second);
      if formals.first.Sym? {
        BindProperOk(formals.second, vals.second, acc[formals.first.name := vals.first]);
        assert AllSymbols(f) <==> AllSymbols(rest) by {
          forall j | 0 <= j < |rest| ensures rest[j] == f[j + 1] {}
        }
      }
    }
  }

  /** The new names the proper branch introduces are the formals' names. */
  lemma {:induction false} BindProperKeys(formals: Value, vals: Value, acc: map<string, Value>, n: string)
    requires BindProper(formals, vals, acc).Ok? && IsList(formals) && IsList(vals) && |Spine(formals)| == |Spine(vals)|
    ensures n in BindProper(formals, vals, acc).value <==> n in acc || Sym(n) in Spine(formals)
    decreases formals
  {
    if formals.Pair? {
      assert Spine(formals) == [formals.first] + Spine(formals.second);
      BindProperKeys(formals.second, vals.second, acc[formals.first.name := vals.first], n);
    }
  }

  /** For a proper list of distinct symbols (the formals of every lambda and
      mu), make_call_frame fails with an arity mismatch unless there are as
      many values as formals, and otherwise binds exactly the formals, the
      i-th to the i-th value (scheme.py:121-130). */
  lemma BindPositional(formals: Value, vals: Value)
    requires IsList(formals) && AllSymbols(Spine(formals)) && Distinct(Spine(formals))
    ensures IsList(vals) ==> (Bind(formals, vals).Ok? <==> |Spine(formals)| == |Spine(vals)|)
    ensures IsList(vals) && |Spine(formals)| != |Spine(vals)| ==> Bind(formals, vals) == Err(ArityMismatch)
    ensures Bind(formals, vals).Ok? ==>
      var m := Bind(formals, vals).value;
      && IsList(vals) && |Spine(formals)| == |Spine(vals)|
      && (forall i :: 0 <= i < |Spine(formals)| ==> Spine(formals)[i].name in m && m[Spine(formals)[i].name] == Spine(vals)[i])
      && (forall n :: n in m <==> Sym(n) in Spine(formals))
  {
    ListOrDotted(formals);
    if IsList(vals) {
      ListIsSpine(formals);
      ListIsSpine(vals);
      if |Spine(formals)| == |Spine(vals)| {
        BindProperOk(formals, vals, map[]);
        forall i | 0 <= i < |Spine(formals)|
          ensures Spine(formals)[i].name in Bind(formals, vals).value
          ensures Bind(formals, vals).value[Spine(formals)[i].name] == Spine(vals)[i]
        {
          BindProperAt(formals, vals, map[], i);
        }
        forall n ensures n in Bind(formals, vals).value <==> Sym(n) in Spine(formals) {
          BindProperKeys(formals, vals, map[], n);
        }
      }
    }
  }

  /** The dotted branch leaves alone every name it does not bind. */
  lemma {:induction false} BindDottedKeeps(formals: Value, vals: Value, acc: map<string, Value>, n: string)
    requires BindDotted(formals, vals, acc).Ok? && Sym(n) !in FormalItems(formals)
    ensures var m := BindDotted(formals, vals, acc).value;
      (n in m <==> n in acc) && (n in acc ==> m[n] == acc[n])
    decreases formals
  {
    if formals.Pair? {
      assert FormalItems(formals) == [formals.first] + FormalItems(formals.second);
      BindDottedKeeps(formals.second, vals.second, acc[formals.first.name := vals.first], n);
    } else {
      assert FormalItems(formals) == [formals];
    }
  }

  /** The new names the dotted branch introduces are the formals' names. */
  lemma {:induction false} BindDottedKeys(formals: Value, vals: Value, acc: map<string, Value>, n: string)
    requires BindDotted(formals, vals, acc).Ok?
    ensures n in BindDotted(formals, vals, acc).value <==> n in acc || Sym(n) in FormalItems(formals)
    decreases formals
  {
    if formals.Pair? {
      assert FormalItems(formals) == [formals.first] + FormalItems(formals.second);
      BindDottedKeys(formals.second, vals.second, acc[formals.first.name := vals.first], n);
    } else {
      assert FormalItems(formals) == [formals];
    }
  }

  /** The dotted branch succeeds exactly when every entry is a symbol and
      there are at least as many values as leading formals. */
  lemma {:induction false} BindDottedOk(formals: Value, vals: Value, acc: map<string, Value>)
    requires Tail(formals) != Nil && AllSymbols(FormalItems(formals))
    ensures BindDotted(formals, vals, acc).Ok? <==> |Spine(formals)| <= |Spine(vals)|
    decreases formals
  {
    var items := FormalItems(formals);
    if formals.Pair? {
      assert items == [formals.first] + FormalItems(formals.second);
      assert AllSymbols(FormalItems(formals.second)) by {
        forall j | 0 <= j < |items| - 1 ensures FormalItems(formals.second)[j].Sym? {
          assert FormalItems(formals.second)[j] == items[j + 1];
        }
      }
      assert items[0].Sym?;
      if vals.Pair? {
        BindDottedOk(formals.second, vals.second, acc[formals.first.name := vals.first]);
      }
    } else {
      assert items == [formals] && items[0].Sym?;
    }
  }

  /** The dotted branch puts the i-th value under the i-th leading formal. */
  lemma {:induction false} BindDottedAt(formals: Value, vals: Value, acc: map<string, Value>, i: nat)
    requires BindDotted(formals, vals, acc).Ok? && Distinct(FormalItems(formals))
    requires i < |Spine(formals)| && Spine(formals)[i].Sym?
    ensures var m := BindDotted(formals, vals, acc).value;
      Spine(formals)[i].name in m && i < |Spine(vals)| && m[Spine(formals)[i].name] == Spine(vals)[i]
    decreases formals
  {
    var items, rest := FormalItems(formals), FormalItems(formals.second);
    assert items == [formals.first] + rest;
    assert Spine(formals) == [formals.first] + Spine(formals.second);
    assert Spine(vals) == [vals.first] + Spine(vals.second);
    var acc' := acc[formals.first.name := vals.first];
    if i == 0 {
      assert Sym(formals.first.name) !in rest by {
        forall j | 0 <= j < |rest| ensures rest[j] != items[0] {
          assert rest[j] == items[j + 1];
        }
      }
      BindDottedKeeps(formals.second, vals.second, acc', formals.first.name);
    } else {
      assert Distinct(rest) by {
        forall a, b | 0 <= a < b < |rest| ensures rest[a] != rest[b] {
          assert rest[a] == items[a + 1] && rest[b] == items[b + 1];
        }
      }
      BindDottedAt(formals.second, vals.second, acc', i - 1);
    }
  }

  /** The dotted branch binds the symbol after the dot to the values left
      over once the leading formals have taken theirs. */
  lemma {:induction false} BindDottedRest(formals: Value, vals: Value, acc: map<string, Value>)
    requires BindDotted(formals, vals, acc).Ok? && Distinct(FormalItems(formals))
    ensures Tail(formals).Sym?
    ensures var m := BindDotted(formals, vals, acc).value;
      Tail(formals).name in m && m[Tail(formals).name] == Drop(vals, |Spine(formals)|)
    decreases formals
  {
    if formals.Pair? {
      var items, rest := FormalItems(formals), FormalItems(formals.second);
      assert items == [formals.first] + rest;
      assert Distinct(rest) by {
        forall a, b | 0 <= a < b < |rest| ensures rest[a] != rest[b] {
          assert rest[a] == items[a + 1] && rest[b] == items[b + 1];
        }
      }
      BindDottedRest(formals.second, vals.second, acc[formals.first.name := vals.first]);
    }
  }

  /** For a dotted list of distinct symbols (a lone symbol included),
      make_call_frame succeeds exactly when there are at least as many values
      as leading formals; it binds those positionally and the symbol after
      the dot to the remaining values, and binds nothing else
      (scheme.py:111-120). */
  lemma BindVariadic(formals: Value, vals: Value)
    requires Tail(formals) != Nil && ValidFormals(formals)
    ensures Bind(formals, vals).Ok? <==> |Spine(formals)| <= |Spine(vals)|
    ensures Bind(formals, vals).Ok? ==>
      var m := Bind(formals, vals).value;
      && (forall i :: 0 <= i < |Spine(formals)| ==> Spine(formals)[i].Sym? && Spine(formals)[i].name in m && m[Spine(formals)[i].name] == Spine(vals)[i])
      && Tail(formals).Sym? && Tail(formals).name in m && m[Tail(formals).name] == Drop(vals, |Spine(formals)|)
      && (forall n :: n in m <==> Sym(n) in FormalItems(formals))
  {
    ListOrDotted(formals);
    BindDottedOk(formals, vals, map[]);
    if Bind(formals, vals).Ok? {
      var items := FormalItems(formals);
      forall i | 0 <= i < |Spine(formals)|
        ensures Spine(formals)[i].Sym? && Spine(formals)[i].name in Bind(formals, vals).value
        ensures Bind(formals, vals).value[Spine(formals)[i].name] == Spine(vals)[i]
      {
        assert Spine(formals)[i] == items[i];
        BindDottedAt(formals, vals, map[], i);
      }
      BindDottedRest(formals, vals, map[]);
      forall n ensures n in Bind(formals, vals).value <==> Sym(n) in items {
        BindDottedKeys(formals, vals, map[], n);
      }
    }
  }

  /** The example of scheme.py:103-106: `(a b c)` with `(1 2 3)` binds a to
      1, b to 2 and c to 3. */
  lemma ProperExample()
    ensures Bind(List([Sym("a"), Sym("b"), Sym("c")]), List([Num(1), Num(2), Num(3)]))
      == Ok(map["a" := Num(1), "b" := Num(2), "c" := Num(3)])
  {
    var formals := List([Sym("a"), Sym("b"), Sym("c")]);
    var vals := List([Num(1), Num(2), Num(3)]);
    assert formals == Pair(Sym("a"), Pair(Sym("b"), Pair(Sym("c"), Nil)));
    assert vals == Pair(Num(1), Pair(Num(2), Pair(Num(3), Nil)));
  }

  /** The example of scheme.py:107-109: `(a b . c)` with `(1 2 3 4 5)` binds
      a to 1, b to 2 and c to `(3 4 5)`. */
  lemma DottedExample()
    ensures Bind(Pair(Sym("a"), Pair(Sym("b"), Sym("c"))), List([Num(1), Num(2), Num(3), Num(4), Num(5)]))
      == Ok(map["a" := Num(1), "b" := Num(2), "c" := List([Num(3), Num(4), Num(5)])])
  {
    var vals := List([Num(1), Num(2), Num(3), Num(4), Num(5)]);
    assert vals == Pair(Num(1), Pair(Num(2), List([Num(3), Num(4), Num(5)])));
  }

  /** scheme.py:97-130 — a new frame whose parent is `parent`, holding the
      bindings of the formals to the values; the parent is left as it was. */
  method MakeCallFrame(parent: Frame<Value>, formals: Value, vals: Value) returns (r: Result<Frame<Value>>)
    requires parent.Chain()
    ensures r.Ok? <==> Bind(formals, vals).Ok?
    ensures r.Err? ==> r.error == Bind(formals, vals).error
    ensures r.Ok? ==>
      fresh(r.value) && r.value.parent == parent && r.value.Chain() && r.value.bindings == Bind(formals, vals).value
  {
    if IsDotted(formals) {
      var frame := new Frame(parent);
      var fs, vs := formals, vals;
      while true
        invariant fresh(frame) && frame.parent == parent && frame.Chain()
        invariant BindDotted(fs, vs, frame.bindings) == Bind(formals, vals)
        decreases fs
      {
        if fs.Pair? {
          if !vs.Pair? {
            return Err(HostFault("AttributeError: no first"));
          }
          var formal, val := fs.first, vs.first;
          fs, vs := fs.second, vs.second;
          if !formal.Sym? {
            return Err(NotAVariable);
          }
          frame.bindings := frame.bindings[formal.name := val];
        } else {
          if !fs.Sym? {
            return Err(NotAVariable);
          }
          frame.bindings := frame.bindings[fs.name := vs];
          return Ok(frame);
        }
      }
    } else {
      if !IsList(formals) || !IsList(vals) {
        return Err(HostFault("TypeError: len() of an improper list"));
      }
      if Length(formals) != Length(vals) {
        return Err(ArityMismatch);
      }
      var frame := new Frame(parent);
      var fs, vs := formals, vals;
      while fs.Pair? && vs.Pair?
        invariant fresh(frame) && frame.parent == parent && frame.Chain()
        invariant BindProper(fs, vs, frame.bindings) == Bind(formals, vals)
        decreases fs
      {
        var formal, val := fs.first, vs.first;
        if !formal.Sym? {
          return Err(NotAVariable);
        }
        frame.bindings := frame.bindings[formal.name := val];
        fs, vs := fs.second, vs.second;
      }
      if fs.Pair? && !fs.first.Sym? {
        return Err(NotAVariable);
      }
      return Ok(frame);
    }
  }
}
