/** The alert queue as a plain FIFO with drops. A ledger keeps every alert ever
    pushed, in order, with what became of it; the queue is the ledger's entries
    still waiting, whatever calls are made in whatever order. */
module AlertLedger {
  import opened Types
  import opened AlertQueueRules

  datatype Fate = Waiting | Settled | Evicted | Expired

  datatype Entry = Entry(alert: Alert, fate: Fate)

  type Ledger = seq<Entry>

  /** The calls AlertQueue takes; Send is ready() followed by mark_sent(). */
  datatype Call =
    | DoPush(alert: Alert)
    | DoExpire(now: Time)
    | DoSend(online: bool, now: Time)
    | DoResult(id: EventId, kind: Kind, outcome: AlertOutcome, now: Time)
    | DoLinkLost(now: Time)

  function Obey(q: Queue, capacity: nat, maxAge: nat, c: Call): Queue {
    match c
    case DoPush(a) => Push(q, capacity, a)
    case DoExpire(now) => Expire(q, maxAge, now)
    case DoSend(online, now) => if Ready(q, online, now).Some? then MarkSent(q) else q
    case DoResult(id, kind, outcome, now) => OnResult(q, id, kind, outcome, now)
    case DoLinkLost(now) => LinkLost(q, now)
  }

  function Live(h: Ledger): seq<Alert> {
    if h == [] then []
    else (if h[0].fate == Waiting then [h[0].alert] else []) + Live(h[1..])
  }

  function Pushed(h: Ledger): (r: seq<Alert>)
    ensures |r| == |h|
  {
    if h == [] then [] else [h[0].alert] + Pushed(h[1..])
  }

  function Count(h: Ledger, fate: Fate): nat {
    if h == [] then 0 else (if h[0].fate == fate then 1 else 0) + Count(h[1..], fate)
  }

  /** The k-th alert still waiting meets its fate. */
  function Mark(h: Ledger, k: nat, fate: Fate): Ledger
    requires k < |Live(h)|
  {
    if h[0].fate != Waiting then [h[0]] + Mark(h[1..], k, fate)
    else if k == 0 then [h[0].(fate := fate)] + h[1..]
    else [h[0]] + Mark(h[1..], k - 1, fate)
  }

  /** Everything waiting that is too old expires, but for the first few. */
  function MarkOld(h: Ledger, spared: nat, maxAge: nat, now: Time): Ledger {
    if h == [] then []
    else if h[0].fate != Waiting then [h[0]] + MarkOld(h[1..], spared, maxAge, now)
    else if spared > 0 then [h[0]] + MarkOld(h[1..], spared - 1, maxAge, now)
    else [if now - h[0].alert.at >= maxAge then h[0].(fate := Expired) else h[0]] + MarkOld(h[1..], 0, maxAge, now)
  }

  /** The ledger's own account of a call, told without the queue's code. */
  function Note(h: Ledger, q: Queue, capacity: nat, maxAge: nat, c: Call): Ledger
    requires Live(h) == q.entries
  {
    var spared := if q.inFlight then 1 else 0;
    match c
    case DoPush(a) =>
      (if |Live(h)| >= capacity && |Live(h)| > spared then Mark(h, spared, Evicted) else h) + [Entry(a, Waiting)]
    case DoExpire(now) => MarkOld(h, spared, maxAge, now)
    case DoResult(id, kind, outcome, _) =>
      if q.inFlight && Live(h) != [] && Live(h)[0].id == id && Live(h)[0].kind == kind && outcome != Failed
      then Mark(h, 0, Settled) else h
    case _ => h
  }

  lemma {:induction false} LiveMark(h: Ledger, k: nat, fate: Fate)
    requires k < |Live(h)| && fate != Waiting
    ensures Live(Mark(h, k, fate)) == Without(Live(h), k)
    ensures Pushed(Mark(h, k, fate)) == Pushed(h)
    ensures forall f :: f != Waiting ==> Count(Mark(h, k, fate), f) == Count(h, f) + (if f == fate then 1 else 0)
  {
    var m := Mark(h, k, fate);
    assert m != [] && h == [h[0]] + h[1..];
    if h[0].fate != Waiting {
      LiveMark(h[1..], k, fate);
      assert m[1..] == Mark(h[1..], k, fate);
    } else if k == 0 {
      assert m[1..] == h[1..];
    } else {
      LiveMark(h[1..], k - 1, fate);
      assert m[1..] == Mark(h[1..], k - 1, fate);
      assert Without(Live(h), k) == [h[0].alert] + Without(Live(h[1..]), k - 1);
    }
  }

  lemma LiveOfCons(e: Entry, t: Ledger)
    ensures Live([e] + t) == (if e.fate == Waiting then [e.alert] + Live(t) else Live(t))
    ensures Pushed([e] + t) == [e.alert] + Pushed(t)
  {
    assert ([e] + t)[1..] == t;
  }

  lemma YoungOfCons(a: Alert, t: seq<Alert>, maxAge: nat, now: Time)
    ensures Young([a] + t, maxAge, now)
         == (if TooOld(a, maxAge, now) then Young(t, maxAge, now) else [a] + Young(t, maxAge, now))
  {
    assert ([a] + t)[1..] == t;
  }

  lemma {:induction false} LiveMarkAll(h: Ledger, maxAge: nat, now: Time)
    ensures Live(MarkOld(h, 0, maxAge, now)) == Young(Live(h), maxAge, now)
    ensures Pushed(MarkOld(h, 0, maxAge, now)) == Pushed(h)
  {
    if h != [] {
      hide Live, Pushed, Young;
      LiveMarkAll(h[1..], maxAge, now);
      assert h == [h[0]] + h[1..];
      LiveOfCons(h[0], h[1..]);
      LiveOfCons(MarkOld(h, 0, maxAge, now)[0], MarkOld(h[1..], 0, maxAge, now));
      YoungOfCons(h[0].alert, Live(h[1..]), maxAge, now);
    }
  }

  lemma {:induction false} LiveMarkOld(h: Ledger, spared: nat, maxAge: nat, now: Time)
    ensures var kept := Min(spared, |Live(h)|);
      Live(MarkOld(h, spared, maxAge, now)) == Live(h)[..kept] + Young(Live(h)[kept..], maxAge, now)
    ensures Pushed(MarkOld(h, spared, maxAge, now)) == Pushed(h)
  {
    if spared == 0 {
      LiveMarkAll(h, maxAge, now);
      assert Live(h)[0..] == Live(h);
    } else if h != [] {
      var next := if h[0].fate == Waiting then spared - 1 else spared;
      LiveMarkOld(h[1..], next, maxAge, now);
      LiveMarkOldCons(h[0], h[1..], spared, maxAge, now);
      assert h == [h[0]] + h[1..];
    }
  }

  lemma SliceCons(a: Alert, t: seq<Alert>, k: nat)
    requires k <= |t|
    ensures ([a] + t)[..k + 1] == [a] + t[..k] && ([a] + t)[k + 1..] == t[k..]
  {}

  lemma LiveMarkOldCons(e: Entry, t: Ledger, spared: nat, maxAge: nat, now: Time)
    requires spared > 0
    requires var next := if e.fate == Waiting then spared - 1 else spared;
      var kept := Min(next, |Live(t)|);
      && Live(MarkOld(t, next, maxAge, now)) == Live(t)[..kept] + Young(Live(t)[kept..], maxAge, now)
      && Pushed(MarkOld(t, next, maxAge, now)) == Pushed(t)
    ensures var kept := Min(spared, |Live([e] + t)|);
      && Live(MarkOld([e] + t, spared, maxAge, now))
           == Live([e] + t)[..kept] + Young(Live([e] + t)[kept..], maxAge, now)
      && Pushed(MarkOld([e] + t, spared, maxAge, now)) == Pushed([e] + t)
  {
    var next := if e.fate == Waiting then spared - 1 else spared;
    assert ([e] + t)[1..] == t;
    assert MarkOld([e] + t, spared, maxAge, now) == [e] + MarkOld(t, next, maxAge, now);
    hide Live, Pushed, Young, MarkOld;
    LiveOfCons(e, t);
    LiveOfCons(e, MarkOld(t, next, maxAge, now));
    if e.fate == Waiting {
      var kept := Min(next, |Live(t)|);
      SliceCons(e.alert, Live(t), kept);
      Regroup([e.alert], Live(t)[..kept], Young(Live(t)[kept..], maxAge, now));
    }
  }

  lemma {:induction false} LiveAppend(h: Ledger, e: Entry)
    ensures Live(h + [e]) == Live(h) + (if e.fate == Waiting then [e.alert] else [])
    ensures Pushed(h + [e]) == Pushed(h) + [e.alert]
  {
    if h == [] {
      assert h + [e] == [e] && [e][1..] == [];
    } else {
      hide Live, Pushed;
      LiveAppend(h[1..], e);
      Regroup([h[0]], h[1..], [e]);
      assert h == [h[0]] + h[1..];
      LiveOfCons(h[0], h[1..]);
      LiveOfCons(h[0], h[1..] + [e]);
      Regroup([h[0].alert], Live(h[1..]), if e.fate == Waiting then [e.alert] else []);
      Regroup([h[0].alert], Pushed(h[1..]), [e.alert]);
    }
  }

  /** The ledger's account and the queue's agree after every call. */
  lemma Agrees(h: Ledger, q: Queue, capacity: nat, maxAge: nat, c: Call)
    requires Live(h) == q.entries && Sound(q)
    ensures Live(Note(h, q, capacity, maxAge, c)) == Obey(q, capacity, maxAge, c).entries
    ensures Pushed(Note(h, q, capacity, maxAge, c)) == Pushed(h) + (if c.DoPush? then [c.alert] else [])
    ensures Sound(Obey(q, capacity, maxAge, c))
  {
    hide Live, Pushed, Mark, MarkOld, Young;
    var spared := if q.inFlight then 1 else 0;
    match c
    case DoPush(a) =>
      if |Live(h)| >= capacity && |Live(h)| > spared {
        LiveMark(h, spared, Evicted);
        LiveAppend(Mark(h, spared, Evicted), Entry(a, Waiting));
      } else {
        LiveAppend(h, Entry(a, Waiting));
      }
    case DoExpire(now) => LiveMarkOld(h, spared, maxAge, now);
    case DoResult(id, kind, outcome, _) =>
      if Settles(q, id, kind, outcome) {
        LiveMark(h, 0, Settled);
      }
    case _ =>
  }

  // ---- Over any sequence of calls ----

  function Play(initial: nat, cap: nat, capacity: nat, maxAge: nat, calls: seq<Call>): Queue
    decreases |calls|
  {
    if calls == [] then Empty(initial, cap)
    else Obey(Play(initial, cap, capacity, maxAge, calls[..|calls| - 1]), capacity, maxAge, calls[|calls| - 1])
  }

  function Keep(initial: nat, cap: nat, capacity: nat, maxAge: nat, calls: seq<Call>): (h: Ledger)
    ensures Live(h) == Play(initial, cap, capacity, maxAge, calls).entries
    ensures Sound(Play(initial, cap, capacity, maxAge, calls))
    decreases |calls|
  {
    if calls == [] then []
    else
      var before := calls[..|calls| - 1];
      var h := Keep(initial, cap, capacity, maxAge, before);
      var q := Play(initial, cap, capacity, maxAge, before);
      Agrees(h, q, capacity, maxAge, calls[|calls| - 1]);
      Note(h, q, capacity, maxAge, calls[|calls| - 1])
  }

  function PushedBy(calls: seq<Call>): seq<Alert>
    decreases |calls|
  {
    if calls == [] then []
    else
      var last := calls[|calls| - 1];
      PushedBy(calls[..|calls| - 1]) + (if last.DoPush? then [last.alert] else [])
  }

  lemma {:induction false} LiveIsCounted(h: Ledger)
    ensures |h| == |Live(h)| + Count(h, Settled) + Count(h, Evicted) + Count(h, Expired)
    ensures |Live(h)| == Count(h, Waiting)
  {
    if h != [] {
      LiveIsCounted(h[1..]);
    }
  }

  lemma BoundsKept(q: Queue, capacity: nat, maxAge: nat, c: Call)
    requires capacity > 0 && WithinBounds(q, capacity) && Sound(q)
    ensures WithinBounds(Obey(q, capacity, maxAge, c), capacity)
  {}

  lemma {:induction false} Bounded(initial: nat, cap: nat, capacity: nat, maxAge: nat, calls: seq<Call>)
    requires capacity > 0
    ensures WithinBounds(Play(initial, cap, capacity, maxAge, calls), capacity)
    decreases |calls|
  {
    if calls != [] {
      var before := calls[..|calls| - 1];
      Bounded(initial, cap, capacity, maxAge, before);
      var h := Keep(initial, cap, capacity, maxAge, before);
      BoundsKept(Play(initial, cap, capacity, maxAge, before), capacity, maxAge, calls[|calls| - 1]);
    }
  }

  lemma {:induction false} KeepsEverything(initial: nat, cap: nat, capacity: nat, maxAge: nat, calls: seq<Call>)
    ensures Pushed(Keep(initial, cap, capacity, maxAge, calls)) == PushedBy(calls)
    decreases |calls|
  {
    if calls != [] {
      hide Live, Pushed, Note;
      var before := calls[..|calls| - 1];
      KeepsEverything(initial, cap, capacity, maxAge, before);
      Agrees(Keep(initial, cap, capacity, maxAge, before), Play(initial, cap, capacity, maxAge, before),
             capacity, maxAge, calls[|calls| - 1]);
    }
  }

  /** A queue's contents are what was pushed, in order, less what was settled,
      evicted or expired, and every push is in exactly one of those four; and it
      never outgrows its capacity, two when the capacity is one. */
  lemma FifoWithDrops(initial: nat, cap: nat, capacity: nat, maxAge: nat, calls: seq<Call>)
    requires capacity > 0
    ensures var q := Play(initial, cap, capacity, maxAge, calls);
      var h := Keep(initial, cap, capacity, maxAge, calls);
      && Pushed(h) == PushedBy(calls)
      && q.entries == Live(h)
      && |PushedBy(calls)| == |q.entries| + Count(h, Settled) + Count(h, Evicted) + Count(h, Expired)
      && WithinBounds(q, capacity)
  {
    Bounded(initial, cap, capacity, maxAge, calls);
    KeepsEverything(initial, cap, capacity, maxAge, calls);
    LiveIsCounted(Keep(initial, cap, capacity, maxAge, calls));
  }

  /** The alert in flight stays at the front, in flight, until its own result or a
      lost link; and a result for anything else changes nothing. */
  lemma InFlightIsSafe(q: Queue, capacity: nat, maxAge: nat, c: Call)
    requires Sound(q) && q.inFlight
    ensures var q1 := Obey(q, capacity, maxAge, c);
      var front := q.entries[0];
      if c.DoResult? && c.id == front.id && c.kind == front.kind then
        !q1.inFlight && q1.entries == (if c.outcome == Failed then q.entries else q.entries[1..])
      else if c.DoLinkLost? then !q1.inFlight && q1.entries == q.entries
      else if c.DoResult? || c.DoSend? then q1 == q
      else q1.inFlight && q1.entries != [] && q1.entries[0] == front
  {}

  /** With one place and an alert in flight the queue does hold two. */
  lemma CapacityOneHoldsTwo(a: Alert, b: Alert)
    ensures |Play(1, 1, 1, 10, [DoPush(a), DoSend(true, 0), DoPush(b)]).entries| == 2
  {
    var calls := [DoPush(a), DoSend(true, 0), DoPush(b)];
    assert calls[..2] == [DoPush(a), DoSend(true, 0)] && calls[..2][..1] == [DoPush(a)];
    assert calls[..2][..1][..0] == [];
    assert Play(1, 1, 1, 10, calls[..2][..1]).entries == [a];
    assert Play(1, 1, 1, 10, calls[..2]) == MarkSent(Play(1, 1, 1, 10, calls[..2][..1]));
  }
}
