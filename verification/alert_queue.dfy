/** The alert queue as a value, one function for each of its operations
    (porchlightd/src/core/alert_queue.cpp). */
module AlertQueueRules {
  import opened Types
  import opened BackoffRules

  datatype Queue = Queue(entries: seq<Alert>, inFlight: bool, backoff: Delays, retryAfter: Option<Time>)

  function Empty(initial: nat, cap: nat): Queue {
    Queue([], false, Fresh(initial, cap), None)
  }

  function Without<T>(xs: seq<T>, k: nat): seq<T>
    requires k < |xs|
  {
    xs[..k] + xs[k + 1..]
  }

  /** The index of the first entry a full queue may drop. */
  function Droppable(q: Queue): nat { if q.inFlight then 1 else 0 }

  function Push(q: Queue, capacity: nat, a: Alert): Queue {
    var kept := if |q.entries| >= capacity && Droppable(q) < |q.entries|
                then Without(q.entries, Droppable(q)) else q.entries;
    q.(entries := kept + [a])
  }

  predicate TooOld(a: Alert, maxAge: nat, now: Time) { now - a.at >= maxAge }

  function Young(entries: seq<Alert>, maxAge: nat, now: Time): (r: seq<Alert>)
    ensures |r| <= |entries|
    ensures forall i :: 0 <= i < |r| ==> r[i] in entries && !TooOld(r[i], maxAge, now)
  {
    if entries == [] then []
    else (if TooOld(entries[0], maxAge, now) then [] else [entries[0]]) + Young(entries[1..], maxAge, now)
  }

  function Expire(q: Queue, maxAge: nat, now: Time): Queue {
    var first := if q.entries == [] then 0 else Droppable(q);
    q.(entries := q.entries[..first] + Young(q.entries[first..], maxAge, now))
  }

  function Ready(q: Queue, online: bool, now: Time): Option<Alert> {
    if q.inFlight || !online || q.entries == [] || Before(now, q.retryAfter) then None
    else Some(q.entries[0])
  }

  function MarkSent(q: Queue): Queue { q.(inFlight := true) }

  /** The result is about the alert in flight; any other is a stale answer. */
  predicate Answers(q: Queue, id: EventId, kind: Kind) {
    q.inFlight && q.entries != [] && q.entries[0].id == id && q.entries[0].kind == kind
  }

  predicate Settles(q: Queue, id: EventId, kind: Kind, outcome: AlertOutcome) {
    Answers(q, id, kind) && outcome != Failed
  }

  function BackOff(q: Queue, now: Time): Queue {
    var (delay, backoff) := Fail(q.backoff);
    q.(inFlight := false, backoff := backoff, retryAfter := Some(now + delay))
  }

  function OnResult(q: Queue, id: EventId, kind: Kind, outcome: AlertOutcome, now: Time): Queue {
    if !Answers(q, id, kind) then q
    else if outcome == Failed then BackOff(q, now)
    else Queue(q.entries[1..], false, Reset(q.backoff), None)
  }

  function LinkLost(q: Queue, now: Time): Queue {
    if q.inFlight then BackOff(q, now) else q
  }

  function NextDeadline(q: Queue, maxAge: nat): Option<Time> {
    if q.entries == [] then q.retryAfter
    else Earlier(q.retryAfter, Some(q.entries[0].at + maxAge))
  }

  /** In flight means there is something in flight. */
  predicate Sound(q: Queue) { q.inFlight ==> q.entries != [] }

  predicate WithinBounds(q: Queue, capacity: nat) {
    && |q.entries| <= Max(capacity, 2)
    && (capacity >= 2 ==> |q.entries| <= capacity)
  }

  /** One turn of the compacting loop. */
  lemma YoungStep(kept: seq<Alert>, entries: seq<Alert>, i: nat, maxAge: nat, now: Time)
    requires i < |entries|
    ensures kept + Young(entries[i..], maxAge, now)
         == (if TooOld(entries[i], maxAge, now) then kept else kept + [entries[i]]) + Young(entries[i + 1..], maxAge, now)
  {
    assert entries[i..][1..] == entries[i + 1..] && entries[i..][0] == entries[i];
  }
}

module AlertQueues {
  import opened Types
  import opened Backoffs
  import Rules = AlertQueueRules

  class AlertQueue {
    const maxAge: nat
    const capacity: nat
    const backoff: Backoff
    var entries: seq<Alert>
    var inFlight: bool
    var retryAfter: Option<Time>

    function View(): Rules.Queue
      reads this, backoff
    {
      Rules.Queue(entries, inFlight, backoff.View(), retryAfter)
    }

    constructor (p: Policy)
      ensures View() == Rules.Empty(p.retryBackoffInitial, p.retryBackoffMax)
      ensures maxAge == p.alertMaxAge && capacity == p.maxQueuedAlerts && fresh(backoff)
    {
      maxAge, capacity := p.alertMaxAge, p.maxQueuedAlerts;
      backoff := new Backoff(p.retryBackoffInitial, p.retryBackoffMax);
      entries, inFlight, retryAfter := [], false, None;
    }

    method Push(entry: Alert)
      modifies this
      ensures View() == Rules.Push(old(View()), capacity, entry)
    {
      if |entries| >= capacity {
        var oldestDroppable := if inFlight then 1 else 0;
        if oldestDroppable < |entries| {
          entries := entries[..oldestDroppable] + entries[oldestDroppable + 1..];
        }
      }
      entries := entries + [entry];
    }

    /** One pass that collects the entries to keep; an entry in flight is collected
        whatever its age. */
    method Expire(now: Time)
      modifies this
      ensures View() == Rules.Expire(old(View()), maxAge, now)
    {
      ghost var was := View();
      var first := if inFlight && entries != [] then 1 else 0;
      var kept: seq<Alert>, i := [], first;
      while i < |entries|
        invariant first <= i <= |entries| && View() == was
        invariant kept + Rules.Young(entries[i..], maxAge, now) == Rules.Young(entries[first..], maxAge, now)
      {
        Rules.YoungStep(kept, entries, i, maxAge, now);
        if now - entries[i].at < maxAge {
          kept := kept + [entries[i]];
        }
        i := i + 1;
      }
      assert entries[|entries|..] == [] && kept + [] == kept;
      entries := entries[..first] + kept;
    }

    method Ready(online: bool, now: Time) returns (entry: Option<Alert>)
      ensures entry == Rules.Ready(View(), online, now)
    {
      if inFlight || !online || entries == [] {
        return None;
      }
      if retryAfter.Some? && now < retryAfter.value {
        return None;
      }
      return Some(entries[0]);
    }

    method MarkSent()
      modifies this
      ensures View() == Rules.MarkSent(old(View()))
    {
      inFlight := true;
    }

    method OnResult(id: EventId, kind: Kind, outcome: AlertOutcome, now: Time)
      modifies this, backoff
      ensures View() == Rules.OnResult(old(View()), id, kind, outcome, now)
    {
      if !inFlight || entries == [] {
        return;
      }
      if entries[0].id != id || entries[0].kind != kind {
        return;
      }
      inFlight := false;
      if outcome == Failed {
        var at := backoff.Fail(now);
        retryAfter := Some(at);
        return;
      }
      entries := entries[1..];
      backoff.Reset();
      retryAfter := None;
    }

    method LinkLost(now: Time)
      modifies this, backoff
      ensures View() == Rules.LinkLost(old(View()), now)
    {
      if !inFlight {
        return;
      }
      inFlight := false;
      var at := backoff.Fail(now);
      retryAfter := Some(at);
    }

    method NextDeadline() returns (deadline: Option<Time>)
      ensures deadline == Rules.NextDeadline(View(), maxAge)
    {
      deadline := retryAfter;
      if entries != [] {
        var expiresAt := entries[0].at + maxAge;
        if deadline.None? || expiresAt < deadline.value {
          deadline := Some(expiresAt);
        }
      }
    }
  }
}
