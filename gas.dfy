/** The frame's gas meter as a value: the pair (remaining, used) and the two
    primitives that change it. `Call.CallFrame` keeps the same pair in its
    fields and is specified by these functions. */
module GasMeter {
  import opened Common

  datatype Meter = Meter(remaining: int, used: int)

  /** The quantity both primitives keep constant. */
  function Total(m: Meter): int {
    m.remaining + m.used
  }

  /** `consumeGas`: all or nothing. */
  function Consume(m: Meter, amount: int): (r: Result<Meter>)
    ensures r.Err? <==> m.remaining < amount
    ensures r.Err? ==> r.error == OutOfGas
    ensures r.Ok? ==> Total(r.value) == Total(m) && r.value.used == m.used + amount
    ensures r.Ok? ==> 0 <= r.value.remaining
  {
    if m.remaining < amount then Err(OutOfGas)
    else Ok(Meter(m.remaining - amount, m.used + amount))
  }

  /** `refundGas`: moves `amount` back from used to remaining, uncapped. */
  function Refund(m: Meter, amount: int): (r: Meter)
    ensures Total(r) == Total(m)
    ensures r.remaining == m.remaining + amount
    ensures 0 <= m.remaining && 0 <= amount ==> 0 <= r.remaining
  {
    Meter(m.remaining + amount, m.used - amount)
  }

  /** A refund of what was just consumed restores the meter exactly. */
  lemma ConsumeThenRefund(m: Meter, amount: int)
    requires Consume(m, amount).Ok?
    ensures Refund(Consume(m, amount).value, amount) == m
  {
  }

  /** The bound is inclusive: consuming exactly what remains succeeds and
      leaves nothing. */
  lemma ConsumeEverything(m: Meter)
    ensures Consume(m, m.remaining) == Ok(Meter(0, Total(m)))
  {
  }

  /** One call of either primitive, as the dispatcher issues them. */
  datatype GasOp = ConsumeOp(amount: int) | RefundOp(amount: int)

  /** The meter after the frame received `ops` in order; a consume that
      fails leaves the meter as it was (the failure is atomic). */
  function Run(m: Meter, ops: seq<GasOp>): Meter
    decreases |ops|
  {
    if ops == [] then m
    else
      var next := match ops[0]
        case ConsumeOp(a) => (match Consume(m, a) case Ok(m') => m' case Err(_) => m)
        case RefundOp(a) => Refund(m, a);
      Run(next, ops[1..])
  }

  /** Gas never leaks: any sequence of consumes and refunds, failed or not,
      keeps remaining + used constant. */
  lemma {:induction false} RunConserves(m: Meter, ops: seq<GasOp>)
    ensures Total(Run(m, ops)) == Total(m)
    decreases |ops|
  {
    if ops != [] {
      var next := match ops[0]
        case ConsumeOp(a) => (match Consume(m, a) case Ok(m') => m' case Err(_) => m)
        case RefundOp(a) => Refund(m, a);
      RunConserves(next, ops[1..]);
    }
  }

  /** Remaining gas never goes negative when the meter starts non-negative
      and no refund is negative; consumes need no such bound. */
  lemma {:induction false} RunKeepsNonNegative(m: Meter, ops: seq<GasOp>)
    requires 0 <= m.remaining
    requires forall i :: 0 <= i < |ops| && ops[i].RefundOp? ==> 0 <= ops[i].amount
    ensures 0 <= Run(m, ops).remaining
    decreases |ops|
  {
    if ops != [] {
      var next := match ops[0]
        case ConsumeOp(a) => (match Consume(m, a) case Ok(m') => m' case Err(_) => m)
        case RefundOp(a) => Refund(m, a);
      assert forall i :: 0 <= i < |ops[1..]| && ops[1..][i].RefundOp? ==> 0 <= ops[1..][i].amount by {
        forall i | 0 <= i < |ops[1..]| ensures ops[1..][i] == ops[i + 1] { }
      }
      RunKeepsNonNegative(next, ops[1..]);
    }
  }
}
