/** JavaScript numbers as the scoring code uses them: a real value or NaN.
    The operations propagate NaN the way the IEEE-754 operators do. */
module JsNumber {
  import opened Wrappers

  /** A coerced JavaScript number; `None` is NaN. */
  type Num = Option<real>

  /** `a / b`. A zero divisor gives NaN here (JavaScript would give an
      infinity unless `a` is also zero); the scorer treats both as "no data". */
  function Div(a: Num, b: Num): (q: Num)
    ensures q.Some? <==> a.Some? && b.Some? && b.value != 0.0
    ensures q.Some? ==> q.value * b.value == a.value
  {
    if a.Some? && b.Some? && b.value != 0.0 then Some(a.value / b.value) else None
  }

  /** `a + b`: NaN if either operand is. */
  function Add(a: Num, b: Num): (s: Num)
    ensures s.Some? <==> a.Some? && b.Some?
    ensures s.Some? ==> s.value - b.value == a.value
  {
    if a.Some? && b.Some? then Some(a.value + b.value) else None
  }

  /** `a / 2`: NaN if `a` is. */
  function Half(a: Num): (h: Num)
    ensures h.Some? <==> a.Some?
    ensures h.Some? ==> h.value + h.value == a.value
  {
    if a.Some? then Some(a.value / 2.0) else None
  }

  /** The mean of two numbers, `(a + b) / 2`, as both branches of the scorer write it. */
  function Mean(a: Num, b: Num): (m: Num)
    ensures m.Some? <==> a.Some? && b.Some?
    ensures m.Some? ==> m.value + m.value == a.value + b.value
    ensures m.Some? ==> (a.value <= m.value <= b.value || b.value <= m.value <= a.value)
  {
    Half(Add(a, b))
  }

  /** Averaging with zero halves: `(a + 0) / 2 == a / 2`, NaN included. */
  lemma MeanWithZero(a: Num)
    ensures Mean(a, Some(0.0)) == Half(a)
  {
    assert Add(a, Some(0.0)) == a;
  }
}
