/** Which of the two system slots is booted
    (image/buildroot/board/porchlight/rpi4/boot.cmd). */
module BootRules {
  import opened Types

  datatype Slot = A | B

  /** The three variables as the environment holds them, set or not. */
  datatype Env = Env(order: seq<string>, leftA: Option<int>, leftB: Option<int>)

  const TRIES: int := 3

  function Other(s: Slot): Slot { if s == A then B else A }

  function Named(word: string): Option<Slot> {
    if word == "A" then Some(A) else if word == "B" then Some(B) else None
  }

  function Or(count: Option<int>, otherwise: int): int { if count.None? then otherwise else count.value }

  function WithDefaults(e: Env): Env {
    Env(if e.order == [] then ["A", "B"] else e.order, Some(Or(e.leftA, TRIES)), Some(Or(e.leftB, TRIES)))
  }

  function Tries(e: Env, s: Slot): int { Or(if s == A then e.leftA else e.leftB, TRIES) }

  /** The first slot in the order that has tries left. */
  function Choose(order: seq<string>, e: Env): Option<Slot> {
    if order == [] then None
    else
      var s := Named(order[0]);
      if s.Some? && Tries(e, s.value) > 0 then s else Choose(order[1..], e)
  }

  function Spend(e: Env, s: Slot): Env {
    if s == A then e.(leftA := Some(Tries(e, A) - 1)) else e.(leftB := Some(Tries(e, B) - 1))
  }

  function GiveBack(e: Env): Env { e.(leftA := Some(TRIES), leftB := Some(TRIES)) }

  /** The slot one run of the script boots, if it boots one. */
  function Booted(e: Env): Option<Slot> { Choose(WithDefaults(e).order, WithDefaults(e)) }

  /** The environment it saves before it does. */
  function Saved(e: Env): Env {
    var booted := Booted(e);
    if booted.None? then GiveBack(WithDefaults(e)) else Spend(WithDefaults(e), booted.value)
  }

  /** After that many runs, when nothing else writes the environment. */
  function After(e: Env, runs: nat): Env
    decreases runs
  {
    if runs == 0 then e else After(Saved(e), runs - 1)
  }

  /** What the run after those boots. */
  function BootedAfter(e: Env, runs: nat): Option<Slot> { Booted(After(e, runs)) }

  function WordOf(s: Slot): string { if s == A then "A" else "B" }

  predicate Lists(e: Env, s: Slot) { WordOf(s) in WithDefaults(e).order }

  // ---- What one run decides ----

  /** It boots the earliest slot named that has a try left; none only when no slot
      named has. */
  lemma {:induction false} FirstWithTries(order: seq<string>, e: Env)
    ensures Choose(order, e).None? <==>
      forall k :: 0 <= k < |order| ==> !(Named(order[k]).Some? && Tries(e, Named(order[k]).value) > 0)
    ensures Choose(order, e).Some? ==>
      exists k :: 0 <= k < |order| && Named(order[k]) == Choose(order, e) && Tries(e, Choose(order, e).value) > 0
        && forall j :: 0 <= j < k ==> !(Named(order[j]).Some? && Tries(e, Named(order[j]).value) > 0)
  {
    if order != [] {
      FirstWithTries(order[1..], e);
      assert forall k :: 1 <= k < |order| ==> order[k] == order[1..][k - 1];
      var s := Named(order[0]);
      if s.Some? && Tries(e, s.value) > 0 {
        assert Named(order[0]) == Choose(order, e);
      } else if Choose(order, e).Some? {
        var k :| 0 <= k < |order| - 1 && Named(order[1..][k]) == Choose(order, e)
          && forall j :: 0 <= j < k ==> !(Named(order[1..][j]).Some? && Tries(e, Named(order[1..][j]).value) > 0);
        assert Named(order[k + 1]) == Choose(order, e);
        assert forall j :: 0 <= j < k + 1 ==> !(Named(order[j]).Some? && Tries(e, Named(order[j]).value) > 0) by {
          assert forall j :: 1 <= j < k + 1 ==> order[j] == order[1..][j - 1];
        }
      }
    }
  }

  /** Every run spends exactly one try, of the slot it boots, or gives both slots
      three and boots none; the order stays. */
  lemma OneTryOrBothBack(e: Env)
    ensures match Booted(e)
      case Some(s) => Tries(e, s) > 0 && Tries(Saved(e), s) == Tries(e, s) - 1
                      && Tries(Saved(e), Other(s)) == Tries(e, Other(s))
      case None => Tries(Saved(e), A) == 3 && Tries(Saved(e), B) == 3
    ensures WithDefaults(Saved(e)).order == WithDefaults(e).order
  {
    hide Choose;
    FirstWithTries(WithDefaults(e).order, WithDefaults(e));
  }

  lemma NoneMeansSpent(e: Env, s: Slot)
    requires Lists(e, s) && Booted(e).None?
    ensures Tries(e, s) <= 0
  {
    hide Choose;
    FirstWithTries(WithDefaults(e).order, WithDefaults(e));
    assert Named(WordOf(s)) == Some(s);
  }

  // ---- Over many runs ----

  /** While the other slot has a try, at most the tries of this one stand between. */
  lemma {:induction false} OtherAfterItsTries(e: Env, x: Slot)
    requires Lists(e, Other(x)) && Tries(e, Other(x)) > 0
    ensures exists n :: 0 <= n <= Max(0, Tries(e, x)) && BootedAfter(e, n) == Some(Other(x))
    decreases Max(0, Tries(e, x))
  {
    hide Choose, Saved, Booted;
    OneTryOrBothBack(e);
    if Booted(e) == Some(x) {
      OtherAfterItsTries(Saved(e), x);
      var n :| 0 <= n <= Max(0, Tries(Saved(e), x)) && BootedAfter(Saved(e), n) == Some(Other(x));
      assert BootedAfter(e, n + 1) == Some(Other(x));
    } else {
      if Booted(e).None? { NoneMeansSpent(e, Other(x)); }
      assert BootedAfter(e, 0) == Some(Other(x));
    }
  }

  lemma OneMore(e: Env, n: nat)
    ensures BootedAfter(e, n + 1) == BootedAfter(Saved(e), n)
  {}

  lemma {:induction false} NotBeforeAReset(e: Env, x: Slot, n: nat)
    requires Lists(e, x) && Tries(e, Other(x)) <= 0 && n <= Max(0, Tries(e, x))
    ensures BootedAfter(e, n) != Some(Other(x))
    decreases n
  {
    hide Choose, Saved, Booted;
    OneTryOrBothBack(e);
    if n > 0 {
      if Booted(e).None? { NoneMeansSpent(e, x); }
      NotBeforeAReset(Saved(e), x, n - 1);
      OneMore(e, n - 1);
    }
  }

  /** In any order that names both: the other slot comes within this one's tries if
      and only if it has a try itself. */
  lemma WithinItsTriesIff(e: Env, x: Slot)
    requires Lists(e, A) && Lists(e, B)
    ensures (exists n :: 0 <= n <= Max(0, Tries(e, x)) && BootedAfter(e, n) == Some(Other(x)))
      <==> Tries(e, Other(x)) > 0
  {
    hide Lists, BootedAfter, Tries;
    if Tries(e, Other(x)) > 0 {
      assert Lists(e, Other(x)) by { assert x == A || x == B; }
      OtherAfterItsTries(e, x);
    } else {
      forall n | 0 <= n <= Max(0, Tries(e, x)) ensures BootedAfter(e, n) != Some(Other(x)) {
        NotBeforeAReset(e, x, n);
      }
    }
  }

  /** Whatever the counters say: a slot that is never marked good gives way to the
      other within its tries and five more runs. */
  lemma {:induction false} FallsBack(e: Env, x: Slot)
    requires Lists(e, A) && Lists(e, B)
    ensures exists n :: 0 <= n < Max(0, Tries(e, x)) + 5 && BootedAfter(e, n) == Some(Other(x))
    decreases Max(0, Tries(e, x))
  {
    hide Choose, Saved, Booted;
    OneTryOrBothBack(e);
    if Booted(e) == Some(Other(x)) {
      assert BootedAfter(e, 0) == Some(Other(x));
    } else if Booted(e) == Some(x) {
      FallsBack(Saved(e), x);
      var n :| 0 <= n < Max(0, Tries(Saved(e), x)) + 5 && BootedAfter(Saved(e), n) == Some(Other(x));
      OneMore(e, n);
    } else {
      OtherAfterItsTries(Saved(e), x);
      var n :| 0 <= n <= Max(0, Tries(Saved(e), x)) && BootedAfter(Saved(e), n) == Some(Other(x));
      OneMore(e, n);
    }
  }

  /** And that bound is reached: a slot named first, beside one with no tries left,
      is booted or gives back for exactly that long. */
  lemma {:induction false} NoSooner(e: Env, x: Slot, n: nat)
    requires e.order == [WordOf(x), WordOf(Other(x))] && Tries(e, Other(x)) <= 0
    requires n < Max(0, Tries(e, x)) + 4
    ensures BootedAfter(e, n) != Some(Other(x))
    decreases n
  {
    Both(e, x);
    if n > 0 {
      hide Choose, Booted, Saved;
      OneTryOrBothBack(e);
      SameOrder(e);
      OneMore(e, n - 1);
      if Tries(e, x) > 0 { NoSooner(Saved(e), x, n - 1); } else { ThreeFirst(Saved(e), x, n - 1); }
    }
  }

  lemma Both(e: Env, x: Slot)
    requires e.order == [WordOf(x), WordOf(Other(x))]
    ensures Booted(e) == if Tries(e, x) > 0 then Some(x) else if Tries(e, Other(x)) > 0 then Some(Other(x)) else None
  {
    var d := WithDefaults(e);
    var second := e.order[1..];
    assert second == [WordOf(Other(x))] && second[1..] == [];
    assert Choose(second[1..], d) == None;
    assert Choose(second, d) == if Tries(d, Other(x)) > 0 then Some(Other(x)) else None;
  }

  lemma SameOrder(e: Env)
    requires e.order != []
    ensures Saved(e).order == e.order
  {}

  /** The slot named first is booted for as long as it has tries: after three of
      three the other one gets its turn. */
  lemma {:induction false} ThreeFirst(e: Env, x: Slot, n: nat)
    requires e.order == [WordOf(x), WordOf(Other(x))]
    requires n < Tries(e, x)
    ensures BootedAfter(e, n) == Some(x)
    decreases n
  {
    Both(e, x);
    if n > 0 {
      hide Choose, Booted, Saved;
      OneTryOrBothBack(e);
      SameOrder(e);
      OneMore(e, n - 1);
      ThreeFirst(Saved(e), x, n - 1);
    }
  }

  /** On a device whose environment says nothing yet, that is slot A, three times. */
  lemma UnsetIsAThrice(n: nat)
    requires n < 3
    ensures BootedAfter(Env([], None, None), n) == Some(A)
  {
    var e := Env([], None, None);
    var first := e.(order := ["A", "B"]);
    assert WithDefaults(e) == WithDefaults(first);
    Both(first, A);
    if n > 0 {
      hide Choose, Booted, Saved;
      SavesA(first);
      assert Saved(e) == Saved(first) by { SavedByDefaults(e, first); }
      OneMore(e, n - 1);
      ThreeFirst(Saved(first), A, n - 1);
    }
  }

  lemma SavesA(e: Env)
    requires e.order == ["A", "B"] && Booted(e) == Some(A)
    ensures Saved(e).order == e.order && Tries(Saved(e), A) == Tries(e, A) - 1
  {
    hide Choose;
  }

  lemma SavedByDefaults(e: Env, f: Env)
    requires WithDefaults(e) == WithDefaults(f)
    ensures Saved(e) == Saved(f) && Booted(e) == Booted(f)
  {
    hide Choose;
  }
}

module Boots {
  import opened Types
  import opened BootRules

  /** U-Boot's environment while the script runs, and what is stored of it. */
  class BootScript {
    var order: seq<string>
    var leftA: Option<int>
    var leftB: Option<int>
    var stored: Env

    ghost function View(): Env reads this { Env(order, leftA, leftB) }

    constructor (stored: Env)
      ensures View() == stored && this.stored == stored
    {
      this.stored := stored;
      order, leftA, leftB := stored.order, stored.leftA, stored.leftB;
    }

    method SaveEnv()
      modifies this`stored
      ensures stored == View()
    {
      stored := Env(order, leftA, leftB);
    }

    /** The kernel starts only once the attempt it costs is stored. */
    method StartKernel(slot: Slot, ghost before: Env)
      requires stored == View() == Spend(WithDefaults(before), slot)
    {
    }

    method Run() returns (slot: Option<Slot>)
      modifies this
      ensures slot == Booted(old(View()))
      ensures stored == View() == Saved(old(View()))
    {
      if order == [] { order := ["A", "B"]; }
      if leftA.None? { leftA := Some(TRIES); }
      if leftB.None? { leftB := Some(TRIES); }
      ghost var e := View();
      assert e == WithDefaults(old(View()));
      slot := None;
      for k := 0 to |order|
        invariant order == e.order
        invariant slot.None? ==> View() == e && Choose(order, e) == Choose(order[k..], e)
        invariant slot.Some? ==> Choose(order, e) == slot && View() == Spend(e, slot.value)
      {
        var s := order[k];
        assert order[k..][1..] == order[k + 1..];
        if slot.None? {
          if s == "A" && leftA.value > 0 {
            leftA := Some(leftA.value - 1);
            slot := Some(A);
          } else if s == "B" && leftB.value > 0 {
            leftB := Some(leftB.value - 1);
            slot := Some(B);
          }
        }
      }
      if slot.None? {
        leftA, leftB := Some(TRIES), Some(TRIES);
        SaveEnv();
        return;
      }
      SaveEnv();
      StartKernel(slot.value, old(View()));
    }
  }
}
