/** The passive-production carry (`pendingPies`, Piemaker.cpp:17, 351-356).

    Each tick the production for the elapsed time is added to a fractional
    carry; once the carry reaches a whole pie, its whole part is moved into
    the pie count and the fraction stays behind. The source does this in
    single-precision floating point; here it is done over the reals, which
    is the behaviour the float code approximates.
 */
module Accumulator {

  /** The whole pies moved out of the carry, and the carry left behind. */
  datatype Accrual = Accrual(added: int, pending: real)

  /** One accumulator update: `rate` pies per second for `dt` seconds, on top
      of the carry `pending`. The cast to `int` in the source truncates
      toward zero; it only runs on a carry of at least one, where truncation
      and floor agree. */
  function Accrue(pending: real, rate: int, dt: real): (r: Accrual)
    // nothing is created or lost: whole pies plus carry equal the old carry plus production
    ensures r.added as real + r.pending == pending + rate as real * dt
    ensures 0 <= r.added
    ensures r.pending < 1.0
    ensures 0.0 <= r.pending <==> 0.0 <= pending + rate as real * dt
    ensures 0.0 <= pending + rate as real * dt ==> r.added == (pending + rate as real * dt).Floor
  {
    var carry := pending + rate as real * dt;
    if carry >= 1.0 then
      var whole := carry.Floor;
      Accrual(whole, carry - whole as real)
    else
      Accrual(0, carry)
  }

  /** Total of a sequence of elapsed times. */
  function Sum(dts: seq<real>): real
    decreases |dts|
  {
    if |dts| == 0 then 0.0 else dts[0] + Sum(dts[1..])
  }

  /** Successive updates at a constant rate over the elapsed times `dts`:
      the pies added across all of them, and the final carry. */
  function AccrueAll(pending: real, rate: int, dts: seq<real>): Accrual
    decreases |dts|
  {
    if |dts| == 0 then Accrual(0, pending)
    else
      var first := Accrue(pending, rate, dts[0]);
      var rest := AccrueAll(first.pending, rate, dts[1..]);
      Accrual(first.added + rest.added, rest.pending)
  }

  /** An integer within one below a real is that real's floor. */
  lemma FloorOf(x: real, k: int)
    requires k as real <= x < k as real + 1.0
    ensures x.Floor == k
  {
  }

  /** Starting from a carry in [0, 1) with non-negative production, the
      carry stays in [0, 1) and the pies added are the floor of the carry
      plus production. */
  lemma AccrueKeepsCarry(pending: real, rate: int, dt: real)
    requires 0.0 <= pending < 1.0
    requires 0.0 <= rate as real * dt
    ensures 0.0 <= Accrue(pending, rate, dt).pending < 1.0
    ensures Accrue(pending, rate, dt).added == (pending + rate as real * dt).Floor
  {
  }

  /** Two consecutive updates at the same rate amount to one update over
      the combined time. */
  lemma AccrueTwice(pending: real, rate: int, a: real, b: real)
    requires 0.0 <= pending < 1.0
    requires 0 <= rate && 0.0 <= a && 0.0 <= b
    ensures var first := Accrue(pending, rate, a);
            var second := Accrue(first.pending, rate, b);
            Accrual(first.added + second.added, second.pending) == Accrue(pending, rate, a + b)
  {
    var ra := rate as real * a;
    var rb := rate as real * b;
    assert rate as real * (a + b) == ra + rb;
    var first := Accrue(pending, rate, a);
    var second := Accrue(first.pending, rate, b);
    var total := pending + ra + rb;
    assert 0.0 <= first.pending < 1.0;
    assert (first.added + second.added) as real + second.pending == total;
    FloorOf(total, first.added + second.added);
  }

  /** Splitting elapsed time into ticks does not change the outcome: any
      sequence of non-negative ticks at a constant rate adds exactly the
      pies, and leaves exactly the carry, of one tick covering their total
      time. No fraction of a pie drifts away between ticks. */
  lemma {:induction false} AccrueAllIsOneTick(pending: real, rate: int, dts: seq<real>)
    requires 0.0 <= pending < 1.0
    requires 0 <= rate
    requires forall i :: 0 <= i < |dts| ==> 0.0 <= dts[i]
    ensures AccrueAll(pending, rate, dts) == Accrue(pending, rate, Sum(dts))
    decreases |dts|
  {
    if |dts| == 0 {
      FloorOf(pending, 0);
    } else {
      var first := Accrue(pending, rate, dts[0]);
      var tail := dts[1..];
      AccrueKeepsCarry(pending, rate, dts[0]);
      AccrueAllIsOneTick(first.pending, rate, tail);
      SumNonNegative(tail);
      AccrueTwice(pending, rate, dts[0], Sum(tail));
    }
  }

  lemma ProductNonNegative(rate: int, dt: real)
    requires 0 <= rate && 0.0 <= dt
    ensures 0.0 <= rate as real * dt
  {
  }

  lemma {:induction false} SumNonNegative(dts: seq<real>)
    requires forall i :: 0 <= i < |dts| ==> 0.0 <= dts[i]
    ensures 0.0 <= Sum(dts)
    decreases |dts|
  {
    if |dts| > 0 {
      SumNonNegative(dts[1..]);
    }
  }
}
