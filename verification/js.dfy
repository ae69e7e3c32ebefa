/** The slice of JavaScript value semantics the monitoring script relies on:
    nullish and truthy tests, the `??` and `||` operators, `String(v)`,
    the element conversion of `Array.prototype.join`, and object spread. */
module Js {

  /** A possibly absent value, used where the script has `undefined` or `null`
      standing for "nothing". */
  datatype Option<+T> = None | Some(value: T)

  /** A JavaScript value, as far as the script observes it. `Other` stands for
      every value that is neither nullish nor a string (numbers, booleans,
      objects, arrays); it carries its truthiness and the text `String(v)`
      gives for it, which the model treats as opaque. */
  datatype Value = Undefined | Null | Str(s: string) | Other(truthy: bool, text: string)

  /** `v === undefined || v === null`, the test behind `??` and `?.`. */
  predicate Nullish(v: Value) {
    v.Undefined? || v.Null?
  }

  /** JavaScript's ToBoolean. */
  predicate Truthy(v: Value) {
    match v
    case Undefined => false
    case Null => false
    case Str(s) => s != ""
    case Other(t, _) => t
  }

  /** `a ?? b` */
  function Coalesce(a: Value, b: Value): Value {
    if Nullish(a) then b else a
  }

  /** `a || b` */
  function Or(a: Value, b: Value): Value {
    if Truthy(a) then a else b
  }

  /** `String(v)`, also what a template literal `${v}` produces. */
  function ToText(v: Value): string {
    match v
    case Undefined => "undefined"
    case Null => "null"
    case Str(s) => s
    case Other(_, t) => t
  }

  /** How `Array.prototype.join` renders one element: nullish elements
      become the empty string, everything else goes through `String`. */
  function JoinText(v: Value): string {
    if Nullish(v) then "" else ToText(v)
  }

  /** `vs[i]` is the first value of `vs` that is not nullish. */
  ghost predicate FirstDefinedAt(vs: seq<Value>, i: int) {
    0 <= i < |vs| && !Nullish(vs[i]) && forall j :: 0 <= j < i ==> Nullish(vs[j])
  }

  /** The value a chain `vs[0] ?? vs[1] ?? ... ?? vs[n-1]` evaluates to. */
  function FirstDefined(vs: seq<Value>): (r: Value)
    ensures (forall i :: 0 <= i < |vs| ==> Nullish(vs[i])) ==> r == Undefined
    ensures (exists i :: 0 <= i < |vs| && !Nullish(vs[i])) ==>
              exists i :: FirstDefinedAt(vs, i) && r == vs[i]
    decreases |vs|
  {
    if |vs| == 0 then Undefined
    else if !Nullish(vs[0]) then (assert FirstDefinedAt(vs, 0); vs[0])
    else
      var r := FirstDefined(vs[1..]);
      assert forall i :: 0 <= i < |vs[1..]| && FirstDefinedAt(vs[1..], i) ==> FirstDefinedAt(vs, i + 1);
      assert forall i :: 1 <= i < |vs| && !Nullish(vs[i]) ==> !Nullish(vs[1..][i - 1]);
      r
  }

  /** Evaluating `a ?? b ?? ... ?? last` right-nested is the same as picking the
      first defined candidate, and a chain ending in a defined value never
      yields a nullish result. */
  lemma {:induction false} CoalesceChain(vs: seq<Value>, last: Value)
    requires !Nullish(last)
    ensures FirstDefined(vs + [last]) == CoalesceAll(vs, last)
    ensures !Nullish(CoalesceAll(vs, last))
    decreases |vs|
  {
    if |vs| == 0 {
      assert vs + [last] == [last];
    } else {
      assert (vs + [last])[1..] == vs[1..] + [last];
      CoalesceChain(vs[1..], last);
    }
  }

  /** `vs[0] ?? (vs[1] ?? (... ?? last))` */
  function CoalesceAll(vs: seq<Value>, last: Value): Value
    decreases |vs|
  {
    if |vs| == 0 then last else Coalesce(vs[0], CoalesceAll(vs[1..], last))
  }

  /** The first `Some` that `f` gives along `xs`, scanning from the left: the
      error a left-to-right pass over `xs` stops at, when each step either
      goes on or throws. */
  function FirstSome<T, R>(xs: seq<T>, f: T -> Option<R>): (r: Option<R>)
    ensures r.None? <==> forall i :: 0 <= i < |xs| ==> f(xs[i]).None?
    ensures forall i :: 0 <= i < |xs| && f(xs[i]).Some? && (forall j :: 0 <= j < i ==> f(xs[j]).None?) ==> r == f(xs[i])
    decreases |xs|
  {
    if |xs| == 0 then None
    else if f(xs[0]).Some? then f(xs[0])
    else
      var r := FirstSome(xs[1..], f);
      assert forall i :: 1 <= i < |xs| ==> xs[1..][i - 1] == xs[i];
      r
  }

  /** Object spread `{...base, ...over}` on objects with plain data
      properties: every property of `over` wins over the same-named property
      of `base`. */
  function Spread(base: map<string, Value>, over: map<string, Value>): (r: map<string, Value>)
    ensures r.Keys == base.Keys + over.Keys
    ensures forall k :: k in over ==> r[k] == over[k]
    ensures forall k :: k in base && k !in over ==> r[k] == base[k]
  {
    base + over
  }
}
