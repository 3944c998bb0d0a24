/** The retry delays as a value, and the closed form the doubling comes to
    (porchlightd/src/core/backoff.h). */
module BackoffRules {
  import opened Types

  datatype Delays = Delays(initial: nat, cap: nat, next: nat)

  function Fresh(initial: nat, cap: nat): Delays { Delays(initial, cap, initial) }

  function Reset(b: Delays): Delays { b.(next := b.initial) }

  /** The delay the failure imposes, and the state after it. */
  function Fail(b: Delays): (nat, Delays) {
    (b.next, b.(next := Min(b.next * 2, b.cap)))
  }

  function Pow2(k: nat): (r: nat)
    ensures r >= 1
  {
    if k == 0 then 1 else 2 * Pow2(k - 1)
  }

  /** The promised schedule: the delay after k failures in a row. */
  function Delay(initial: nat, cap: nat, k: nat): nat {
    Min(initial * Pow2(k), cap)
  }

  function FailTimes(b: Delays, k: nat): Delays {
    if k == 0 then b else Fail(FailTimes(b, k - 1)).1
  }

  lemma DelayStep(initial: nat, cap: nat, k: nat)
    requires initial <= cap
    ensures Min(Delay(initial, cap, k) * 2, cap) == Delay(initial, cap, k + 1)
    ensures Delay(initial, cap, 0) == initial
  {
    var x := initial * Pow2(k);
    assert initial * Pow2(k + 1) == initial * (2 * Pow2(k)) == 2 * x;
  }

  /** Doubling in place is capped exponentiation, however many failures. */
  lemma {:induction false} ScheduleIsCappedDoubling(initial: nat, cap: nat, k: nat)
    requires initial <= cap
    ensures FailTimes(Fresh(initial, cap), k) == Delays(initial, cap, Delay(initial, cap, k))
  {
    if k == 0 {
      DelayStep(initial, cap, 0);
    } else {
      ScheduleIsCappedDoubling(initial, cap, k - 1);
      DelayStep(initial, cap, k - 1);
    }
  }

  /** Delays never shrink while failures go on, and stay between the two ends. */
  lemma DelayBounds(initial: nat, cap: nat, k: nat)
    requires initial <= cap
    ensures initial <= Delay(initial, cap, k) <= cap
    ensures Delay(initial, cap, k) <= Delay(initial, cap, k + 1)
  {
    DelayStep(initial, cap, k);
    assert initial * Pow2(k) >= initial * 1;
  }
}

/** The same delays as an object; there are two of them, one for alerts and one
    for uploads. */
module Backoffs {
  import opened Types
  import Rules = BackoffRules

  class Backoff {
    const initial: nat
    const cap: nat
    var next: nat

    function View(): Rules.Delays reads this { Rules.Delays(initial, cap, next) }

    constructor (initial: nat, cap: nat)
      ensures View() == Rules.Fresh(initial, cap)
    {
      this.initial, this.cap, this.next := initial, cap, initial;
    }

    method Reset()
      modifies this
      ensures View() == Rules.Reset(old(View()))
    {
      next := initial;
    }

    /** Returns when the delay that was due is over, and moves on to the next. */
    method Fail(now: Time) returns (retryAt: Time)
      modifies this
      ensures (retryAt - now, View()) == Rules.Fail(old(View()))
    {
      retryAt := now + next;
      next := Min(next * 2, cap);
    }
  }
}
