/** Scheme values and expressions, and the list and truth predicates the
    evaluator takes from the reader and the primitives library.

    Expressions and values share one closed type, as they do in the
    interpreter: `quote` turns any value back into an expression.  Symbols are
    compared by name.  `Undefined` is Python's `None`, which `set!` returns.
 */
module Data {
  import opened Env

  datatype Value =
    | Nil
    | Pair(first: Value, second: Value)
    | Sym(name: string)
    | Num(n: int)
    | Bool(b: bool)
    | Str(s: string)
    | Okay
    | Undefined
    | Vector(items: seq<Value>)
    | Primitive(pname: string)
    | Lambda(formals: Value, body: Value, env: Frame<Value>)
    | Mu(formals: Value, body: Value)

  /** `v` is the symbol `name`. */
  predicate IsSymbol(v: Value, name: string) {
    v.Sym? && v.name == name
  }

  /** scheme_true: every value except false counts as true. */
  predicate SchemeTrue(v: Value) {
    v != Bool(false)
  }

  /** scheme_false. */
  predicate SchemeFalse(v: Value) {
    v == Bool(false)
  }

  /** The atoms that evaluate to themselves: scheme_atomp (booleans, numbers,
      nil — symbols are dispatched before this test), scheme_stringp, and
      okay. */
  predicate SelfEvaluating(v: Value) {
    v.Num? || v.Bool? || v.Nil? || v.Str? || v.Okay?
  }

  /** The elements along the pair chain of `v`. */
  function Spine(v: Value): seq<Value> {
    match v
    case Pair(a, d) => [a] + Spine(d)
    case _ => []
  }

  /** Where the pair chain of `v` ends: nil for a proper list. */
  function Tail(v: Value): (t: Value)
    ensures !t.Pair?
  {
    match v
    case Pair(_, d) => Tail(d)
    case _ => v
  }

  /** scheme_listp: a proper, nil-terminated list. */
  predicate IsList(v: Value) {
    match v
    case Nil => true
    case Pair(_, d) => IsList(d)
    case _ => false
  }

  /** scheme_dottedp: the pair chain ends in something other than nil.  A lone
      non-nil atom is a dotted list with no leading elements. */
  predicate IsDotted(v: Value) {
    match v
    case Nil => false
    case Pair(_, d) => IsDotted(d)
    case _ => true
  }

  /** Every value is exactly one of a proper list or a dotted list, and the
      two are told apart by the end of the pair chain. */
  lemma {:induction false} ListOrDotted(v: Value)
    ensures IsList(v) <==> Tail(v) == Nil
    ensures IsDotted(v) <==> !IsList(v)
  {
    if v.Pair? {
      ListOrDotted(v.second);
    }
  }

  /** len() of a proper list. */
  function Length(v: Value): nat
    requires IsList(v)
  {
    if v.Pair? then 1 + Length(v.second) else 0
  }

  /** v[k] of a proper list. */
  function Nth(v: Value, k: nat): Value
    requires IsList(v) && k < Length(v)
  {
    if k == 0 then v.first else Nth(v.second, k - 1)
  }

  /** The list whose elements are `s` and whose chain ends in `t`. */
  function FromSeq(s: seq<Value>, t: Value): Value {
    if s == [] then t else Pair(s[0], FromSeq(s[1..], t))
  }

  /** Length and indexing of a proper list are those of its spine. */
  lemma {:induction false} ListIsSpine(v: Value)
    requires IsList(v)
    ensures Length(v) == |Spine(v)|
    ensures forall k :: 0 <= k < Length(v) ==> Nth(v, k) == Spine(v)[k]
  {
    if v.Pair? {
      ListIsSpine(v.second);
      forall k | 0 < k < Length(v) ensures Nth(v, k) == Spine(v)[k] {
        assert Spine(v)[k] == Spine(v.second)[k - 1];
      }
    }
  }

  /** Building a list from a sequence and a non-pair end, then reading it
      back, gives the sequence and the end. */
  lemma {:induction false} FromSeqRoundTrip(s: seq<Value>, t: Value)
    requires !t.Pair?
    ensures Spine(FromSeq(s, t)) == s && Tail(FromSeq(s, t)) == t
  {
    if s != [] {
      FromSeqRoundTrip(s[1..], t);
    }
  }

  /** scheme_reader's nil-terminated list of the elements of `s`. */
  function List(s: seq<Value>): (v: Value)
    ensures IsList(v) && Length(v) == |s| && Spine(v) == s
  {
    FromSeqRoundTrip(s, Nil);
    ListOrDotted(FromSeq(s, Nil));
    ListIsSpine(FromSeq(s, Nil));
    FromSeq(s, Nil)
  }
}
