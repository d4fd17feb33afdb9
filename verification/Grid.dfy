/**
 Decimal grids: a LOT_SIZE or MARKET_LOT_SIZE step allows exactly the integer
 multiples of the step.  `FloorStep` is the rounding of src/paper_broker.py,
 `OnGrid` the meaning it is proved against.
 */
module Grid {
  import opened Numbers

  function Multiple(n: int, step: real): real {
    n as real * step
  }

  ghost predicate OnGrid(x: real, step: real) {
    exists n: int :: x == Multiple(n, step)
  }

  /** floor_step: an integer number of whole steps. */
  function FloorStep(value: real, step: real): real
    requires 0.0 < step
  {
    Multiple((value / step).Floor, step)
  }

  /** step_aligned: the remainder of value by step is zero. */
  predicate Aligned(value: real, step: real)
    requires 0.0 < step
  {
    FloorStep(value, step) == value
  }

  lemma FloorStepBounds(value: real, step: real)
    requires 0.0 < step
    ensures OnGrid(FloorStep(value, step), step)
    ensures FloorStep(value, step) <= value < FloorStep(value, step) + step
  {
    var q := value / step;
    DivCancel(value, step);
    MulMono(q.Floor as real, q, step);
    var f := q.Floor as real;
    MulStrict(q, f + 1.0, step);
    MulSucc(f, step);
    var fs := FloorStep(value, step);
    assert fs == f * step;
    assert value < fs + step;
  }

  /** No other multiple of the step fits between the floor and the value. */
  lemma FloorStepGreatest(value: real, step: real, x: real)
    requires 0.0 < step && OnGrid(x, step) && x <= value
    ensures x <= FloorStep(value, step)
  {
    var n: int :| x == Multiple(n, step);
    var q := value / step;
    DivCancel(value, step);
    if q < n as real {
      MulStrict(q, n as real, step);
      assert false;
    }
    assert n <= q.Floor;
    MulMono(n as real, q.Floor as real, step);
  }

  /** The executable alignment test decides membership of the grid. */
  lemma AlignedIffOnGrid(value: real, step: real)
    requires 0.0 < step
    ensures Aligned(value, step) <==> OnGrid(value, step)
  {
    FloorStepBounds(value, step);
    if OnGrid(value, step) {
      FloorStepGreatest(value, step, value);
    }
  }

  lemma FloorStepNonneg(value: real, step: real)
    requires 0.0 < step && 0.0 <= value
    ensures 0.0 <= FloorStep(value, step)
  {
    assert Multiple(0, step) == 0.0;
    FloorStepGreatest(value, step, 0.0);
  }

  /** A multiple of a coarse step lies on every grid that divides the step. */
  lemma CoarseOnFine(x: real, coarse: real, fine: real)
    requires OnGrid(x, coarse) && OnGrid(coarse, fine)
    ensures OnGrid(x, fine)
  {
    var n: int :| x == Multiple(n, coarse);
    var m: int :| coarse == Multiple(m, fine);
    MulAssoc(n as real, m as real, fine);
    assert (n * m) as real == n as real * m as real;
    assert x == Multiple(n * m, fine);
  }

  lemma MulAssoc(a: real, b: real, c: real)
    ensures (a * b) * c == a * (b * c)
  {
  }

  lemma GridClosed(x: real, y: real, step: real)
    requires OnGrid(x, step) && OnGrid(y, step)
    ensures OnGrid(x + y, step) && OnGrid(x - y, step) && OnGrid(-x, step)
  {
    var n: int :| x == Multiple(n, step);
    var m: int :| y == Multiple(m, step);
    assert x + y == Multiple(n + m, step);
    assert x - y == Multiple(n - m, step);
    assert -x == Multiple(-n, step);
  }

  lemma ZeroOnGrid(step: real)
    ensures OnGrid(0.0, step)
  {
    assert Multiple(0, step) == 0.0;
  }

  lemma MultipleMagnitude(n: int, step: real)
    requires 0.0 < step
    ensures 1 <= n ==> step <= Multiple(n, step)
    ensures n <= -1 ==> Multiple(n, step) <= -step
  {
    if 1 <= n {
      MulMono(1.0, n as real, step);
    } else if n <= -1 {
      var p := n as real * step;
      MulMono(1.0, -(n as real), step);
      MulSucc(n as real, step);
      assert 1.0 * step <= -p;
    }
  }

  /** On a grid coarser than the tolerance only zero is within the tolerance. */
  lemma GridGap(x: real, step: real, tolerance: real)
    requires OnGrid(x, step) && 0.0 <= tolerance < step && Abs(x) <= tolerance
    ensures x == 0.0
  {
    var n: int :| x == Multiple(n, step);
    MultipleMagnitude(n, step);
  }
}
