/** Environment frames (scheme.py, class Frame).

    A frame binds symbol names to values and has a parent frame, absent only
    for the global frame.  The parent link is fixed when the frame is made and
    never reassigned, so it is a `const`; `depth` (one more than the
    parent's) makes the chain provably acyclic.  Only `bindings` is updated in
    place, by `Define` and `Set`.
 */
module Env {
  import opened Outcomes

  class Frame<V> {
    const parent: Frame?<V>
    const depth: nat
    var bindings: map<string, V>

    /** The parent chain is well founded: every parent is strictly shallower. */
    ghost predicate Chain()
      decreases depth
    {
      parent != null ==> parent.depth < depth && parent.Chain()
    }

    /** An empty frame whose parent is `p` (which may be absent). */
    constructor (p: Frame?<V>)
      requires p != null ==> p.Chain()
      ensures parent == p && bindings == map[] && Chain()
    {
      parent := p;
      depth := if p == null then 0 else p.depth + 1;
      bindings := map[];
    }

    /** The frames from this one up to the root, innermost first. */
    ghost function Frames(): (c: seq<Frame<V>>)
      requires Chain()
      decreases depth
      ensures |c| > 0 && c[0] == this
      ensures forall i :: 0 <= i < |c| ==> c[i].Chain() && c[i].depth <= depth
      ensures forall i :: 0 < i < |c| ==> c[i].depth < depth
      ensures forall i :: 0 <= i < |c| - 1 ==> c[i].parent == c[i + 1]
      ensures c[|c| - 1].parent == null
    {
      if parent == null then [this] else [this] + parent.Frames()
    }

    /** The same frames as a set: what a walk up the chain reads. */
    ghost function Ancestors(): (a: set<Frame<V>>)
      requires Chain()
      decreases depth
      ensures this in a
      ensures forall f :: f in a ==> f.Chain() && f.depth <= depth
      ensures parent != null ==> this !in parent.Ancestors()
    {
      if parent == null then {this} else {this} + parent.Ancestors()
    }

    lemma {:induction false} AncestorsAreFrames()
      requires Chain()
      decreases depth
      ensures forall f :: f in Ancestors() <==> f in Frames()
    {
      if parent != null {
        parent.AncestorsAreFrames();
      }
    }

    lemma {:induction false} AncestorsAllocated()
      requires Chain()
      decreases depth
      ensures forall f :: f in Ancestors() ==> allocated(f)
    {
      if parent != null {
        parent.AncestorsAllocated();
      }
    }

    /** scheme.py:73-80 — the value bound to `s` in the nearest frame that binds it. */
    function Lookup(s: string): (r: Result<V>)
      requires Chain()
      reads Ancestors()
      decreases depth
    {
      if s in bindings then Ok(bindings[s])
      else if parent != null then parent.Lookup(s)
      else Err(UnboundIdentifier(s))
    }

    /** The nearest frame on the chain that binds `s`, if any (specification only). */
    ghost function Binder(s: string): (b: Frame?<V>)
      requires Chain()
      reads Ancestors()
      decreases depth
      ensures b != null ==> b in Ancestors() && s in b.bindings
    {
      if s in bindings then this
      else if parent != null then parent.Binder(s)
      else null
    }

    /** Lookup against the chain as a sequence: it fails exactly when no frame
        binds `s`, and otherwise yields the binding of the first frame that
        does, every frame before it leaving `s` unbound. */
    lemma {:induction false} LookupIsInnermost(s: string)
      requires Chain()
      decreases depth
      ensures Lookup(s).Err? <==> forall i :: 0 <= i < |Frames()| ==> s !in Frames()[i].bindings
      ensures Lookup(s).Ok? ==>
        exists i :: 0 <= i < |Frames()| && s in Frames()[i].bindings
          && Lookup(s).value == Frames()[i].bindings[s]
          && forall j :: 0 <= j < i ==> s !in Frames()[j].bindings
    {
      var c := Frames();
      if s in bindings {
        assert Frames()[0] == this && s in Frames()[0].bindings;
      } else if parent != null {
        parent.LookupIsInnermost(s);
        var pc := parent.Frames();
        assert c == [this] + pc;
        if parent.Lookup(s).Ok? {
          var i :| 0 <= i < |pc| && s in pc[i].bindings && parent.Lookup(s).value == pc[i].bindings[s]
            && forall j :: 0 <= j < i ==> s !in pc[j].bindings;
          assert c[i + 1] == pc[i];
          forall j | 0 <= j < i + 1 ensures s !in c[j].bindings {
            if j > 0 { assert c[j] == pc[j - 1]; }
          }
        } else {
          forall i | 0 <= i < |c| ensures s !in c[i].bindings {
            if i > 0 {
              assert c[i] == pc[i - 1];
              assert forall j :: 0 <= j < |parent.Frames()| ==> s !in parent.Frames()[j].bindings;
            }
          }
        }
      } else {
        assert c == [this];
      }
    }

    /** Lookup agrees with the specification-level binder. */
    lemma {:induction false} LookupIsBinder(s: string)
      requires Chain()
      decreases depth
      ensures Lookup(s).Ok? <==> Binder(s) != null
      ensures Lookup(s).Ok? ==> Lookup(s).value == Binder(s).bindings[s]
      ensures Lookup(s).Err? ==> Lookup(s) == Err(UnboundIdentifier(s))
    {
      if s !in bindings && parent != null {
        parent.LookupIsBinder(s);
      }
    }

    /** scheme.py:132-134 — bind `s` in this frame only, replacing any binding. */
    method Define(s: string, v: V)
      requires Chain()
      modifies this
      ensures bindings == old(bindings)[s := v]
      ensures Lookup(s) == Ok(v)
      ensures forall t :: t != s ==> Lookup(t) == old(Lookup(t))
    {
      bindings := bindings[s := v];
      assert parent != null ==> this !in parent.Ancestors();
    }

    /** scheme.py:82-88 — overwrite the binding of `s` in the nearest frame that
        binds it.  No binding is ever created; if no frame binds `s` the result
        is an UnboundIdentifier error and no frame changes. */
    method Set(s: string, v: V) returns (r: Outcome)
      requires Chain()
      modifies Ancestors()
      decreases depth
      ensures r.Pass? <==> old(Binder(s)) != null
      ensures r.Fail? ==> r.error == UnboundIdentifier(s)
      ensures forall f :: f in Ancestors() ==> old(allocated(f))
      ensures forall f :: f in Ancestors() ==>
        f.bindings == if r.Pass? && f == old(Binder(s)) then old(f.bindings)[s := v] else old(f.bindings)
      ensures forall f :: f in Ancestors() ==> f.bindings.Keys == old(f.bindings.Keys)
      ensures unchanged(Ancestors() - {old(Binder(s))})
      ensures r.Pass? ==> Lookup(s) == Ok(v)
      ensures r.Fail? ==> Lookup(s) == Err(UnboundIdentifier(s))
      ensures Binder(s) == old(Binder(s))
    {
      AncestorsAllocated();
      if s in bindings {
        assert parent != null ==> this !in parent.Ancestors();
        bindings := bindings[s := v];
        r := Pass;
      } else if parent != null {
        assert this !in parent.Ancestors();
        assert Ancestors() == {this} + parent.Ancestors();
        ghost var b := parent.Binder(s);
        r := parent.Set(s, v);
        assert old(Binder(s)) == b;
      } else {
        r := Fail(UnboundIdentifier(s));
      }
    }

    /** scheme.py:90-95 — the root of the chain, found by walking parents. */
    method GlobalFrame() returns (g: Frame<V>)
      requires Chain()
      ensures g == Frames()[|Frames()| - 1]
      ensures g.parent == null && g in Ancestors()
    {
      ghost var c := Frames();
      ghost var k := 0;
      var e: Frame<V> := this;
      while e.parent != null
        invariant e.Chain() && 0 <= k < |c| && c[k..] == e.Frames()
        decreases e.depth
      {
        assert c[k + 1..] == e.parent.Frames();
        e := e.parent;
        k := k + 1;
      }
      assert c[k..] == [e];
      AncestorsAreFrames();
      g := e;
    }
  }
}
