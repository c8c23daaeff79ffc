/** The frames an evaluation can reach, as a ghost set threaded through the
    evaluator so that its `modifies` clauses can name them.

    A value reaches frames through the closures inside it (a `Lambda` keeps
    the frame it was made in).  A set of frames is closed when every frame in
    it is well founded, has its parent in the set, and binds only values whose
    closures point back into the set.  Defining, setting and making call
    frames keep a set closed; looking a symbol up in a closed set yields a
    value whose closures stay inside it.
 */
module Store {
  import opened Outcomes
  import opened Env
  import opened Data
  import opened Calls

  /** The frames held by the closures inside `v`. */
  ghost function Captured(v: Value): set<Frame<Value>>
    decreases v
  {
    match v
    case Pair(a, d) => Captured(a) + Captured(d)
    case Vector(items) => set i, f | 0 <= i < |items| && f in Captured(items[i]) :: f
    case Lambda(formals, body, env) => {env} + Captured(formals) + Captured(body)
    case Mu(formals, body) => Captured(formals) + Captured(body)
    case _ => {}
  }

  /** The procedure values inside `v`, the closures held inside other
      closures included.  Unlike `Captured` this can be computed, so a
      program can compare what two values hold. */
  function Closures(v: Value): (cs: set<Value>)
    decreases v
    ensures forall c :: c in cs ==> c.Lambda?
  {
    match v
    case Pair(a, d) => Closures(a) + Closures(d)
    case Vector(items) => set i, c | 0 <= i < |items| && c in Closures(items[i]) :: c
    case Lambda(formals, body, env) => {v} + Closures(formals) + Closures(body)
    case Mu(formals, body) => Closures(formals) + Closures(body)
    case _ => {}
  }

  /** The frames captured by `v` are exactly the environments of its closures. */
  lemma {:induction false} CapturedByClosures(v: Value)
    decreases v
    ensures forall f :: f in Captured(v) ==> exists c :: c in Closures(v) && c.env == f
    ensures forall c :: c in Closures(v) ==> c.env in Captured(v)
  {
    match v
    case Pair(a, d) =>
      CapturedByClosures(a);
      CapturedByClosures(d);
    case Vector(items) =>
      forall i | 0 <= i < |items| {
        CapturedByClosures(items[i]);
      }
      forall f | f in Captured(v) ensures exists c :: c in Closures(v) && c.env == f {
        var i :| 0 <= i < |items| && f in Captured(items[i]);
        var c :| c in Closures(items[i]) && c.env == f;
        assert c in Closures(v);
      }
      forall c | c in Closures(v) ensures c.env in Captured(v) {
        var i :| 0 <= i < |items| && c in Closures(items[i]);
        assert c.env in Captured(items[i]);
      }
    case Lambda(formals, body, env) =>
      CapturedByClosures(formals);
      CapturedByClosures(body);
      assert v in Closures(v);
    case Mu(formals, body) =>
      CapturedByClosures(formals);
      CapturedByClosures(body);
    case _ =>
  }

  /** A value holding only closures that `w` holds captures no frame `w`
      does not. */
  lemma ClosuresWithin(v: Value, w: Value)
    requires Closures(v) <= Closures(w)
    ensures Captured(v) <= Captured(w)
  {
    CapturedByClosures(v);
    CapturedByClosures(w);
  }

  /** Every value bound in `m` captures only frames of `S`. */
  ghost predicate Within(m: map<string, Value>, S: set<Frame<Value>>) {
    forall k :: k in m ==> Captured(m[k]) <= S
  }

  ghost predicate Closed(S: set<Frame<Value>>)
    reads S
  {
    forall f :: f in S ==> f.Chain() && (f.parent != null ==> f.parent in S) && Within(f.bindings, S)
  }

  /** A closed set holds the whole parent chain of each of its frames. */
  lemma {:induction false} AncestorsWithin(S: set<Frame<Value>>, f: Frame<Value>)
    requires Closed(S) && f in S
    decreases f.depth
    ensures f.Ancestors() <= S
  {
    if f.parent != null {
      AncestorsWithin(S, f.parent);
    }
  }

  /** Looking a symbol up from a frame of a closed set yields a value whose
      closures stay inside the set. */
  lemma {:induction false} LookupWithin(S: set<Frame<Value>>, f: Frame<Value>, s: string)
    requires Closed(S) && f in S
    decreases f.depth
    ensures f.Lookup(s).Ok? ==> Captured(f.Lookup(s).value) <= S
  {
    if s !in f.bindings && f.parent != null {
      LookupWithin(S, f.parent, s);
    }
  }

  /** The elements and the end of a pair chain capture no more than the chain. */
  lemma {:induction false} SpineWithin(v: Value)
    ensures forall i :: 0 <= i < |Spine(v)| ==> Captured(Spine(v)[i]) <= Captured(v)
    ensures Captured(Tail(v)) <= Captured(v)
  {
    if v.Pair? {
      SpineWithin(v.second);
      assert Spine(v) == [v.first] + Spine(v.second);
      forall i | 0 < i < |Spine(v)| ensures Captured(Spine(v)[i]) <= Captured(v) {
        assert Spine(v)[i] == Spine(v.second)[i - 1];
      }
    }
  }

  /** A list built from values that capture only frames of `S` does too. */
  lemma {:induction false} FromSeqWithin(s: seq<Value>, t: Value, S: set<Frame<Value>>)
    requires forall i :: 0 <= i < |s| ==> Captured(s[i]) <= S
    requires Captured(t) <= S
    ensures Captured(FromSeq(s, t)) <= S
  {
    if s != [] {
      FromSeqWithin(s[1..], t, S);
    }
  }

  lemma {:induction false} DropWithin(v: Value, k: nat)
    ensures Captured(Drop(v, k)) <= Captured(v)
  {
    if k > 0 && v.Pair? {
      DropWithin(v.second, k - 1);
    }
  }

  lemma {:induction false} BindDottedWithin(formals: Value, vals: Value, acc: map<string, Value>, S: set<Frame<Value>>)
    requires Within(acc, S) && Captured(vals) <= S
    requires BindDotted(formals, vals, acc).Ok?
    ensures Within(BindDotted(formals, vals, acc).value, S)
    decreases formals
  {
    if formals.Pair? {
      BindDottedWithin(formals.second, vals.second, acc[formals.first.name := vals.first], S);
    }
  }

  lemma {:induction false} BindProperWithin(formals: Value, vals: Value, acc: map<string, Value>, S: set<Frame<Value>>)
    requires Within(acc, S) && Captured(vals) <= S
    requires BindProper(formals, vals, acc).Ok?
    ensures Within(BindProper(formals, vals, acc).value, S)
    decreases formals
  {
    if formals.Pair? && vals.Pair? {
      BindProperWithin(formals.second, vals.second, acc[formals.first.name := vals.first], S);
    }
  }

  /** The bindings of a call frame are parts of the argument list. */
  lemma BindWithin(formals: Value, vals: Value, S: set<Frame<Value>>)
    requires Captured(vals) <= S && Bind(formals, vals).Ok?
    ensures Within(Bind(formals, vals).value, S)
  {
    if IsDotted(formals) {
      BindDottedWithin(formals, vals, map[], S);
    } else {
      BindProperWithin(formals, vals, map[], S);
    }
  }

  /** Frame.define on a frame of a closed set, keeping the set closed. */
  method DefineIn(env: Frame<Value>, s: string, v: Value, ghost S: set<Frame<Value>>)
    requires Closed(S) && env in S && Captured(v) <= S
    modifies env
    ensures Closed(S)
    ensures env.bindings == old(env.bindings)[s := v]
    ensures env.Lookup(s) == Ok(v)
    ensures forall t :: t != s ==> env.Lookup(t) == old(env.Lookup(t))
  {
    env.Define(s, v);
  }

  /** Frame.set on a frame of a closed set, keeping the set closed.  Only
      the nearest frame binding the symbol changes, at that symbol; no frame
      of the set gains or loses a key.  After a successful set the symbol
      looks up to the new value; after a failed one it still looks up to
      nothing. */
  method SetIn(env: Frame<Value>, s: string, v: Value, ghost S: set<Frame<Value>>) returns (r: Outcome)
    requires Closed(S) && env in S && Captured(v) <= S
    modifies S
    ensures Closed(S)
    ensures r.Pass? <==> old(env.Binder(s)) != null
    ensures r.Fail? ==> r.error == UnboundIdentifier(s)
    ensures forall f :: f in S ==>
      f.bindings == if r.Pass? && f == old(env.Binder(s)) then old(f.bindings)[s := v] else old(f.bindings)
    ensures env.Binder(s) == old(env.Binder(s))
    ensures unchanged(S - {old(env.Binder(s))})
    ensures r.Pass? ==> env.Lookup(s) == Ok(v)
    ensures r.Fail? ==> env.Lookup(s) == Err(UnboundIdentifier(s))
  {
    AncestorsWithin(S, env);
    r := env.Set(s, v);
  }

  /** Frame.make_call_frame from a frame of a closed set, adding the new
      frame to the set. */
  method CallFrameIn(parent: Frame<Value>, formals: Value, vals: Value, ghost S: set<Frame<Value>>)
    returns (r: Result<Frame<Value>>, ghost S': set<Frame<Value>>)
    requires Closed(S) && parent in S && Captured(vals) <= S
    ensures r.Ok? <==> Bind(formals, vals).Ok?
    ensures r.Err? ==> r.error == Bind(formals, vals).error && S' == S
    ensures r.Ok? ==>
      fresh(r.value) && r.value.parent == parent && r.value.bindings == Bind(formals, vals).value
      && S' == S + {r.value}
    ensures Closed(S')
  {
    r := MakeCallFrame(parent, formals, vals);
    if r.Ok? {
      BindWithin(formals, vals, S);
      S' := S + {r.value};
    } else {
      S' := S;
    }
  }

  /** make_call_frame(nil, nil) from a frame of a closed set: an empty child
      frame, added to the set. */
  method EmptyFrameIn(parent: Frame<Value>, ghost S: set<Frame<Value>>) returns (f: Frame<Value>, ghost S': set<Frame<Value>>)
    requires Closed(S) && parent in S
    ensures fresh(f) && f.parent == parent && f.bindings == map[]
    ensures S' == S + {f} && Closed(S')
  {
    f := new Frame(parent);
    S' := S + {f};
  }
}
