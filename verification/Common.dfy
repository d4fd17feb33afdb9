/** Option and Result types, in the failure-compatible style, and small facts about sequences. */
module Common {

  datatype Option<+T> = None | Some(value: T)

  datatype Result<+T, +E> = Ok(value: T) | Err(error: E)
  {
    predicate IsFailure() {
      Err?
    }

    function PropagateFailure<U>(): Result<U, E>
      requires Err?
    {
      Err(error)
    }

    function Extract(): T
      requires Ok?
    {
      value
    }
  }

  predicate Distinct<T(==)>(s: seq<T>) {
    forall i, j :: 0 <= i < j < |s| ==> s[i] != s[j]
  }

  predicate Increasing(s: seq<int>) {
    forall i, j :: 0 <= i < j < |s| ==> s[i] < s[j]
  }

  /** A set's members in some order. */
  method ListOf<T(==)>(members: set<T>) returns (order: seq<T>)
    ensures Distinct(order) && forall x :: x in order <==> x in members
  {
    order := [];
    var todo := members;
    while todo != {}
      invariant Distinct(order)
      invariant forall x :: x in members <==> x in order || x in todo
      invariant forall x :: x in order ==> x !in todo
      decreases |todo|
    {
      var x :| x in todo;
      order, todo := order + [x], todo - {x};
    }
  }
}

/** Exact real arithmetic: the few nonlinear facts the accounting proofs use. */
module Numbers {

  function Min(a: real, b: real): real {
    if a <= b then a else b
  }

  function Max(a: real, b: real): real {
    if a <= b then b else a
  }

  function Abs(a: real): real {
    if a < 0.0 then -a else a
  }

  lemma MulMono(a: real, b: real, c: real)
    requires a <= b && 0.0 <= c
    ensures a * c <= b * c
  {
    MulNonneg(b - a, c);
  }

  lemma MulNonneg(a: real, b: real)
    requires 0.0 <= a && 0.0 <= b
    ensures 0.0 <= a * b
  {
  }

  lemma MulPositive(a: real, b: real)
    requires 0.0 < a && 0.0 < b
    ensures 0.0 < a * b
  {
  }

  lemma MulStrict(a: real, b: real, c: real)
    requires a < b && 0.0 < c
    ensures a * c < b * c
  {
    MulPositive(b - a, c);
  }

  lemma MulSucc(a: real, c: real)
    ensures (a + 1.0) * c == a * c + c
    ensures (-a) * c == -(a * c)
  {
  }

  lemma DivCancel(a: real, b: real)
    requires b != 0.0
    ensures a / b * b == a
  {
  }

  lemma DivNonneg(a: real, b: real)
    requires 0.0 <= a && 0.0 < b
    ensures 0.0 <= a / b
  {
    var q := a / b;
    DivCancel(a, b);
    if q < 0.0 {
      MulStrict(q, 0.0, b);
      assert false;
    }
  }

  lemma DivMono(a: real, b: real, c: real)
    requires a <= b && 0.0 < c
    ensures a / c <= b / c
  {
    DivNonneg(b - a, c);
    assert b / c - a / c == (b - a) / c;
  }

  /** A product kept as one term. */
  function Times(a: real, b: real): real {
    a * b
  }

  /** The share of every buy the cash can pay for. */
  function BuyScale(cash: real, required: real): real
    requires 0.0 < required
  {
    Min(1.0, cash / required)
  }

  lemma TimesMono(a: real, b: real, c: real)
    requires a <= b && 0.0 <= c
    ensures Times(a, c) <= Times(b, c) && Times(c, a) <= Times(c, b)
  {
    MulMono(a, b, c);
  }

  lemma TimesNonneg(a: real, b: real)
    requires 0.0 <= a && 0.0 <= b
    ensures 0.0 <= Times(a, b)
    ensures 0.0 < a && 0.0 < b ==> 0.0 < Times(a, b)
  {
    if 0.0 < a && 0.0 < b {
      MulPositive(a, b);
    }
  }

  lemma TimesUnit(a: real, r: real)
    ensures Times(a, 1.0 + r) == a + Times(a, r)
    ensures Times(a, 1.0 - r) == a - Times(a, r)
  {
  }

  lemma TimesSum(a: real, b: real, c: real)
    ensures Times(a, b + c) == Times(a, b) + Times(a, c)
  {
  }

  lemma ScaleFits(cash: real, required: real)
    requires 0.0 <= cash && 0.0 < required
    ensures 0.0 <= BuyScale(cash, required)
    ensures Times(BuyScale(cash, required), required) <= cash
  {
    DivNonneg(cash, required);
    DivCancel(cash, required);
    if cash / required < 1.0 {
    } else {
      MulMono(1.0, cash / required, required);
    }
  }

  lemma DivTimes(q: real, price: real)
    requires 0.0 < price
    ensures Times(q, price) / price == q
  {
  }

  /** Moving by the quotient less the holding reaches the product, and being within t of it is being within t's worth. */
  lemma MoveReaches(target: real, mid: real, held: real, delta: real, t: real)
    requires 0.0 < mid && delta == target / mid - held
    ensures (held + delta) * mid == target
    ensures -t <= delta <= t <==> target - t * mid <= held * mid <= target + t * mid
  {
    DivCancel(target, mid);
    assert (held + delta) * mid == held * mid + delta * mid;
    Ordered(delta, t, mid);
    Ordered(-t, delta, mid);
    MulSucc(t, mid);
  }

  lemma Ordered(a: real, b: real, c: real)
    requires 0.0 < c
    ensures a <= b <==> a * c <= b * c
  {
    if a <= b {
      MulMono(a, b, c);
    } else {
      MulStrict(b, a, c);
    }
  }
}
