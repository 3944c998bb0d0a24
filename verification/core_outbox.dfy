/** The alert queue inside the core, over whole runs: whose turn it is, that nobody
    waits in vain, and when a failed alert is tried again. */
module CoreOutbox {
  import opened Types
  import opened CoreRules
  import opened CoreRuns
  import opened CoreSends
  import opened CoreRetries
  import opened CoreDeadlines
  import A = AlertLedger
  import B = BackoffRules
  import C = CoreOrders
  import L = CoreLight

  // ---- The ledger of a run ----

  ghost predicate CalledIn(c: A.Call, inputs: seq<Input>) {
    exists n :: 0 <= n < |inputs| && CalledFor(c, inputs[n])
  }

  function PlayAll(p: Policy, calls: seq<A.Call>): Q.Queue {
    A.Play(p.retryBackoffInitial, p.retryBackoffMax, p.maxQueuedAlerts, p.alertMaxAge, calls)
  }

  lemma {:induction false} PlayIsObey(p: Policy, calls: seq<A.Call>)
    ensures PlayAll(p, calls) == ObeyAll(p, Q.Empty(p.retryBackoffInitial, p.retryBackoffMax), calls)
    decreases |calls|
  {
    if calls != [] {
      hide A.Obey;
      PlayIsObey(p, calls[..|calls| - 1]);
    }
  }

  /** The queue of every run is the one a sequence of calls leaves in which the pushes
      are the alerts queued, and every other call was called for by an input. */
  lemma {:induction false} QueueHasCalls(p: Policy, inputs: seq<Input>) returns (calls: seq<A.Call>)
    ensures Run(p, inputs).desk.queue == PlayAll(p, calls)
    ensures AlertsOf(Run(p, inputs).desk.enqueued) == A.PushedBy(calls)
    ensures forall k :: 0 <= k < |calls| ==> CalledIn(calls[k], inputs)
    decreases |inputs|
  {
    if inputs == [] {
      calls := [];
      assert AlertsOf([]) == [];
    } else {
      hide Handle, A.Obey, CalledFor, Turns, A.PushedBy, PlayAll, AlertsOf;
      var n := |inputs| - 1;
      var s, i := Run(p, inputs[..n]), inputs[n];
      var before := QueueHasCalls(p, inputs[..n]);
      HandleBooks(p, s, i);
      var more: seq<A.Call> :| Turns(p, s.desk, Handle(p, s, i).desk, i, more);
      calls := before + more;
      TurnsMean(p, s.desk, Handle(p, s, i).desk, i, more);
      PlayIsObey(p, before);
      PlayIsObey(p, calls);
      ObeySplits(p, Q.Empty(p.retryBackoffInitial, p.retryBackoffMax), before, more);
      forall k | 0 <= k < |calls| ensures CalledIn(calls[k], inputs) {
        if k < |before| {
          assert CalledIn(before[k], inputs[..n]);
          var m :| 0 <= m < n && CalledFor(before[k], inputs[..n][m]);
          assert CalledFor(calls[k], inputs[m]);
        } else {
          assert CalledFor(more[k - |before|], inputs[n]);
        }
      }
    }
  }

  lemma TurnsMean(p: Policy, d: Desk, e: Desk, i: Input, calls: seq<A.Call>)
    requires Turns(p, d, e, i, calls)
    ensures ObeyAll(p, d.queue, calls) == e.queue
    ensures AlertsOf(e.enqueued) == AlertsOf(d.enqueued) + A.PushedBy(calls)
    ensures forall k :: 0 <= k < |calls| ==> CalledFor(calls[k], i)
  {
    hide ObeyAll, A.PushedBy, CalledFor, AlertsOf;
  }

  // ---- What becomes of an alert ----

  /** An alert only leaves unsent for its age, and only settled by a result that was
      its own and no failure. */
  ghost predicate Deserved(p: Policy, e: A.Entry, inputs: seq<Input>) {
    match e.fate
    case Expired => exists n :: 0 <= n < |inputs| && inputs[n].now - e.alert.at >= p.alertMaxAge
    case Settled =>
      exists n :: 0 <= n < |inputs| && inputs[n].event.AlertResult? && inputs[n].event.id == e.alert.id
                  && inputs[n].event.kind == e.alert.kind && inputs[n].event.outcome != Failed
    case _ => true
  }

  lemma {:induction false} MarkIsOne(h: A.Ledger, k: nat, fate: A.Fate, j: nat)
    requires k < |A.Live(h)| && j < |A.Mark(h, k, fate)|
    ensures |A.Mark(h, k, fate)| == |h|
    ensures A.Mark(h, k, fate)[j] == h[j]
      || (A.Mark(h, k, fate)[j] == h[j].(fate := fate) && h[j].alert == A.Live(h)[k])
    decreases |h|
  {
    if h[0].fate != A.Waiting {
      if j > 0 { MarkIsOne(h[1..], k, fate, j - 1); } else { MarkLength(h[1..], k, fate); }
    } else if k > 0 {
      if j > 0 { MarkIsOne(h[1..], k - 1, fate, j - 1); } else { MarkLength(h[1..], k - 1, fate); }
    }
  }

  lemma {:induction false} MarkLength(h: A.Ledger, k: nat, fate: A.Fate)
    requires k < |A.Live(h)|
    ensures |A.Mark(h, k, fate)| == |h|
    decreases |h|
  {
    if h[0].fate != A.Waiting { MarkLength(h[1..], k, fate); }
    else if k > 0 { MarkLength(h[1..], k - 1, fate); }
  }

  lemma {:induction false} MarkOldIsOld(h: A.Ledger, spared: nat, maxAge: nat, now: Time, j: nat)
    requires j < |h|
    ensures |A.MarkOld(h, spared, maxAge, now)| == |h|
    ensures var m := A.MarkOld(h, spared, maxAge, now);
      m[j] == h[j] || (m[j] == h[j].(fate := A.Expired) && now - h[j].alert.at >= maxAge)
    decreases |h|
  {
    var next := if h[0].fate == A.Waiting && spared > 0 then spared - 1 else spared;
    if j > 0 { MarkOldIsOld(h[1..], next, maxAge, now, j - 1); } else { MarkOldLength(h[1..], next, maxAge, now); }
  }

  lemma {:induction false} MarkOldLength(h: A.Ledger, spared: nat, maxAge: nat, now: Time)
    ensures |A.MarkOld(h, spared, maxAge, now)| == |h|
    decreases |h|
  {
    if h != [] { MarkOldLength(h[1..], if h[0].fate == A.Waiting && spared > 0 then spared - 1 else spared, maxAge, now); }
  }

  lemma DeserveNote(p: Policy, h: A.Ledger, q: Q.Queue, c: A.Call, inputs: seq<Input>)
    requires A.Live(h) == q.entries && CalledIn(c, inputs)
    requires forall j :: 0 <= j < |h| ==> Deserved(p, h[j], inputs)
    ensures var m := A.Note(h, q, p.maxQueuedAlerts, p.alertMaxAge, c);
      forall j :: 0 <= j < |m| ==> Deserved(p, m[j], inputs)
  {
    hide A.Live, A.Mark, A.MarkOld;
    var n :| 0 <= n < |inputs| && CalledFor(c, inputs[n]);
    var m := A.Note(h, q, p.maxQueuedAlerts, p.alertMaxAge, c);
    var spared := if q.inFlight then 1 else 0;
    forall j | 0 <= j < |m| ensures Deserved(p, m[j], inputs) {
      match c
      case DoPush(a) =>
        if |A.Live(h)| >= p.maxQueuedAlerts && |A.Live(h)| > spared {
          MarkLengthOf(h, spared, A.Evicted);
          if j < |m| - 1 { MarkIsOne(h, spared, A.Evicted, j); }
        }
      case DoExpire(now) => MarkOldLength(h, spared, p.alertMaxAge, now); MarkOldIsOld(h, spared, p.alertMaxAge, now, j);
      case DoResult(id, kind, outcome, _) =>
        if m != h {
          MarkLengthOf(h, 0, A.Settled);
          MarkIsOne(h, 0, A.Settled, j);
        }
      case _ =>
    }
  }

  lemma MarkLengthOf(h: A.Ledger, k: nat, fate: A.Fate)
    requires k < |A.Live(h)|
    ensures |A.Mark(h, k, fate)| == |h|
  {
    MarkLength(h, k, fate);
  }

  function LedgerOf(p: Policy, calls: seq<A.Call>): A.Ledger {
    A.Keep(p.retryBackoffInitial, p.retryBackoffMax, p.maxQueuedAlerts, p.alertMaxAge, calls)
  }

  lemma {:induction false} DeserveAll(p: Policy, calls: seq<A.Call>, inputs: seq<Input>)
    requires forall k :: 0 <= k < |calls| ==> CalledIn(calls[k], inputs)
    ensures var h := LedgerOf(p, calls); forall j :: 0 <= j < |h| ==> Deserved(p, h[j], inputs)
    decreases |calls|
  {
    if calls != [] {
      hide A.Note, Deserved, CalledIn;
      var before := calls[..|calls| - 1];
      DeserveAll(p, before, inputs);
      DeserveNote(p, LedgerOf(p, before), PlayAll(p, before), calls[|calls| - 1], inputs);
    }
  }

  /** The alerts a run queued, each with what became of it: those still waiting are the
      queue, in the order they came; the rest settled by their own result, grew too
      old, or made room. */
  lemma QueueIsALedger(p: Policy, inputs: seq<Input>) returns (h: A.Ledger)
    requires ValidPolicy(p)
    ensures A.Pushed(h) == AlertsOf(Run(p, inputs).desk.enqueued)
    ensures A.Live(h) == Run(p, inputs).desk.queue.entries
    ensures forall j :: 0 <= j < |h| ==> Deserved(p, h[j], inputs)
    ensures Q.WithinBounds(Run(p, inputs).desk.queue, p.maxQueuedAlerts)
  {
    hide Run, A.Live, A.Pushed, A.Play, A.Keep, Deserved, AlertsOf;
    var calls := QueueHasCalls(p, inputs);
    h := LedgerOf(p, calls);
    A.FifoWithDrops(p.retryBackoffInitial, p.retryBackoffMax, p.maxQueuedAlerts, p.alertMaxAge, calls);
    DeserveAll(p, calls, inputs);
  }

  // ---- Whose turn it is ----

  lemma {:induction false} SoundRun(p: Policy, inputs: seq<Input>)
    ensures Q.Sound(Run(p, inputs).desk.queue)
    decreases |inputs|
  {
    if inputs != [] {
      hide Handle, Sent;
      var n := |inputs| - 1;
      SoundRun(p, inputs[..n]);
      HandleSends(p, Run(p, inputs[..n]), inputs[n]);
    }
  }

  /** In every reachable state the next event sends at most one alert; it is the front
      of the queue it leaves, so by QueueIsALedger the oldest alert still waiting. */
  lemma TheOldestGoes(p: Policy, inputs: seq<Input>, i: Input, k: nat)
    requires |Run(p, inputs).log.trace| <= k < |Handle(p, Run(p, inputs), i).log.trace|
    requires Handle(p, Run(p, inputs), i).log.trace[k].SendAlert?
    ensures var t := Handle(p, Run(p, inputs), i);
      && t.desk.queue.inFlight && t.desk.queue.entries != []
      && t.log.trace[k] == SendAlert(t.desk.queue.entries[0])
      && forall j :: |Run(p, inputs).log.trace| <= j < |t.log.trace| && t.log.trace[j].SendAlert? ==> j == k
  {
    hide Run, Handle, Sent;
    var s := Run(p, inputs);
    var t := Handle(p, s, i);
    SoundRun(p, inputs);
    HandleSends(p, s, i);
    C.HandleOrders(p, s, i);
    SentOfSuffix(s.log.trace, t.log.trace, k);
    forall j | |s.log.trace| <= j < |t.log.trace| && t.log.trace[j].SendAlert? ensures j == k {
      SentOfTwo(s.log.trace, t.log.trace, j, k);
    }
  }

  lemma {:induction false} SentOfSuffix(a: seq<Action>, b: seq<Action>, k: nat)
    requires a <= b && |a| <= k < |b| && b[k].SendAlert?
    ensures |Sent(b)| > |Sent(a)| && b[k].alert in Sent(b)[|Sent(a)|..]
    ensures Sent(a) <= Sent(b)
    decreases |b|
  {
    var front := b[..|b| - 1];
    SentGrowsOnly(a, front);
    if k < |b| - 1 {
      SentOfSuffix(a, front, k);
      var more := Sent(front)[|Sent(a)|..];
      assert Sent(front) <= Sent(b) && more <= Sent(b)[|Sent(a)|..];
    } else {
      assert Sent(b)[|Sent(front)|] == b[k].alert;
      assert Sent(b)[|Sent(a)|..][|Sent(front)| - |Sent(a)|] == b[k].alert;
    }
  }

  lemma {:induction false} SentGrowsOnly(a: seq<Action>, b: seq<Action>)
    requires a <= b
    ensures Sent(a) <= Sent(b)
    decreases |b|
  {
    if |a| < |b| { SentGrowsOnly(a, b[..|b| - 1]); } else { assert a == b; }
  }

  lemma SentOfTwo(a: seq<Action>, b: seq<Action>, j: nat, k: nat)
    requires a <= b && |a| <= j < |b| && |a| <= k < |b| && b[j].SendAlert? && b[k].SendAlert? && |Sent(b)| <= |Sent(a)| + 1
    ensures j == k
  {
    hide Sent;
    if j != k {
      var lo, hi := Min(j, k), Max(j, k);
      SentOfSuffix(a, b[..hi], lo);
      SentOfSuffix(b[..hi], b, hi);
    }
  }

  // ---- Nobody waits in vain ----

  /** After every event before a shutdown, with the link up: an alert is on its way, or
      none is waiting, or the time to try again is still ahead. */
  lemma NobodyWaitsInVain(p: Policy, inputs: seq<Input>)
    requires inputs != [] && L.Online(inputs) && !L.ShutDown(inputs)
    ensures var q := Run(p, inputs).desk.queue;
      || q.inFlight || q.entries == []
      || (q.retryAfter.Some? && inputs[|inputs| - 1].now < q.retryAfter.value)
  {
    hide Handle, L.Online, L.ShutDown;
    var n := |inputs| - 1;
    L.PanelRun(p, inputs);
    SettledAfter(p, Run(p, inputs[..n]), inputs[n]);
  }

  /** The first alert young enough to be worth sending. */
  function FirstYoung(entries: seq<Alert>, maxAge: nat, now: Time): Option<Alert> {
    if entries == [] then None
    else if now - entries[0].at < maxAge then Some(entries[0])
    else FirstYoung(entries[1..], maxAge, now)
  }

  lemma {:induction false} YoungFront(entries: seq<Alert>, maxAge: nat, now: Time)
    ensures var y := Q.Young(entries, maxAge, now);
      FirstYoung(entries, maxAge, now) == if y == [] then None else Some(y[0])
  {
    if entries != [] { YoungFront(entries[1..], maxAge, now); }
  }

  /** So a wake-up at the retry time or after it, with the link up and nothing held for
      the camera, sends the oldest alert that is not too old, if there is one. */
  lemma TickSends(p: Policy, inputs: seq<Input>, now: Time, id: EventId)
    requires L.Online(inputs) && !L.ShutDown(inputs) && !Run(p, inputs).desk.queue.inFlight
    requires var r := Run(p, inputs).desk.queue.retryAfter; r.None? || r.value <= now
    requires FirstYoung(Run(p, inputs).desk.queue.entries, p.alertMaxAge, now).Some?
    requires Run(p, inputs).camera.event.Some? ==> !Run(p, inputs).camera.event.value.awaitingVerdict
    ensures var s := Run(p, inputs); var t := Handle(p, s, Input(Tick, now, id));
      SendAlert(FirstYoung(s.desk.queue.entries, p.alertMaxAge, now).value) in NewActions(s, t)
  {
    hide Run, L.Online, L.ShutDown, FirstYoung, Q.Young;
    var s := Run(p, inputs);
    L.PanelRun(p, inputs);
    YoungFront(s.desk.queue.entries, p.alertMaxAge, now);
    TickPumps(p, s, now, id);
  }

  lemma TickPumps(p: Policy, s: State, now: Time, id: EventId)
    requires s.panel.online && !s.panel.shuttingDown && !s.desk.queue.inFlight
    requires var r := s.desk.queue.retryAfter; r.None? || r.value <= now
    requires Q.Young(s.desk.queue.entries, p.alertMaxAge, now) != []
    requires s.camera.event.Some? ==> !s.camera.event.value.awaitingVerdict
    ensures var t := Handle(p, s, Input(Tick, now, id));
      SendAlert(Q.Young(s.desk.queue.entries, p.alertMaxAge, now)[0]) in NewActions(s, t)
  {
    hide Q.Young, PumpAlerts, PumpUploads, UpdateLed;
    var s1 := Lapse(s, now);
    var a := SendAlert(Q.Young(s.desk.queue.entries, p.alertMaxAge, now)[0]);
    PumpSendsFront(p, s1, now);
    var s2 := PumpAlerts(p, s1, now);
    var t := Handle(p, s, Input(Tick, now, id));
    assert t == UpdateLed(PumpUploads(s2, now));
    PumpsAdd(s2, now);
    AddedAction(s, s2, t, a);
  }

  lemma PumpSendsFront(p: Policy, s: State, now: Time)
    requires s.panel.online && !s.panel.shuttingDown && !s.desk.queue.inFlight && !Before(now, s.desk.queue.retryAfter)
    requires Q.Young(s.desk.queue.entries, p.alertMaxAge, now) != []
    ensures PumpAlerts(p, s, now).log.trace
         == s.log.trace + [SendAlert(Q.Young(s.desk.queue.entries, p.alertMaxAge, now)[0])]
  {
    hide Q.Young;
    var entries := s.desk.queue.entries;
    assert entries[0..] == entries && entries[..0] == [];
    assert Q.Expire(s.desk.queue, p.alertMaxAge, now).entries == Q.Young(entries, p.alertMaxAge, now);
  }

  lemma PumpsAdd(s: State, now: Time)
    ensures s.log.trace <= UpdateLed(PumpUploads(s, now)).log.trace
  {}

  lemma AddedAction(s: State, s2: State, t: State, a: Action)
    requires s2.log.trace == s.log.trace + [a] && s2.log.trace <= t.log.trace
    ensures a in NewActions(s, t)
  {
    assert t.log.trace[|s.log.trace|] == a;
    assert NewActions(s, t)[0] == a;
  }

  // ---- When a failed alert is tried again ----

  /** The alert in flight failed, by its result or with the link. */
  predicate Fails(q: Q.Queue, e: Event) {
    && q.inFlight && q.entries != []
    && (e.ServerOffline?
        || (e.AlertResult? && e.outcome == Failed && e.id == q.entries[0].id && e.kind == q.entries[0].kind))
  }

  /** The n-th failure since an alert was last settled is tried again exactly
      min(initial * 2^(n-1), cap) later, and until then nothing is. */
  lemma RetryIsDue(p: Policy, inputs: seq<Input>, i: Input)
    requires ValidPolicy(p) && Legal(inputs) && Fails(Run(p, inputs).desk.queue, i.event)
    ensures var s := Run(p, inputs); var t := Handle(p, s, i); var n := |SendTimes(p, inputs)|;
      && n > 0 && !t.desk.queue.inFlight
      && t.desk.queue.retryAfter == Some(i.now + Min(p.retryBackoffInitial * B.Pow2(n - 1), p.retryBackoffMax))
  {
    hide Run, SendTimes;
    var s := Run(p, inputs);
    RetryRun(p, inputs);
    AttemptsAreSends(p, inputs);
    FailureBacksOff(p, s, i);
  }

  lemma FailureBacksOff(p: Policy, s: State, i: Input)
    requires ValidPolicy(p) && RetryInv(p, s.desk, s.log.clock) && Fails(s.desk.queue, i.event)
    ensures var t := Handle(p, s, i); var n := |s.desk.attempts|;
      && n > 0 && !t.desk.queue.inFlight
      && t.desk.queue.retryAfter == Some(i.now + Step(p, n - 1))
  {
    hide Dispatch, Close;
    var s1 := Lapse(s, i.now);
    FailureSets(p, s1, i, s.log.clock);
    ClosePumpsNothing(p, Dispatch(p, s1, i), i.now);
    assert Step(p, |s.desk.attempts| - 1) > 0 by {
      B.DelayBounds(p.retryBackoffInitial, p.retryBackoffMax, |s.desk.attempts| - 1);
    }
  }

  lemma FailureSets(p: Policy, s: State, i: Input, clock: Time)
    requires RetryInv(p, s.desk, clock)
    requires Fails(s.desk.queue, i.event)
    ensures var q := Dispatch(p, s, i).desk.queue;
      && |s.desk.attempts| > 0 && !q.inFlight && q.retryAfter == Some(i.now + Step(p, |s.desk.attempts| - 1))
  {}

  lemma ClosePumpsNothing(p: Policy, s: State, now: Time)
    requires !s.desk.queue.inFlight && s.desk.queue.retryAfter.Some? && now < s.desk.queue.retryAfter.value
    ensures var q := Close(p, s, now).desk.queue; !q.inFlight && q.retryAfter == s.desk.queue.retryAfter
  {
    hide Q.Expire, Q.Push;
    ExpireKeepsTimes(s.desk.queue, p, now);
    if Overdue(s.camera, now) {
      var d := Enqueue(p, s.desk, HeldAlert(s.camera, ""), now);
      PushKeepsTimes(s.desk.queue, p, HeldAlert(s.camera, ""));
      ExpireKeepsTimes(d.queue, p, now);
      ExpireKeepsTimes(Q.Expire(d.queue, p.alertMaxAge, now), p, now);
    }
  }

  lemma ExpireKeepsTimes(q: Q.Queue, p: Policy, now: Time)
    ensures var r := Q.Expire(q, p.alertMaxAge, now); r.inFlight == q.inFlight && r.retryAfter == q.retryAfter
  {}

  lemma PushKeepsTimes(q: Q.Queue, p: Policy, a: Alert)
    ensures var r := Q.Push(q, p.maxQueuedAlerts, a); r.inFlight == q.inFlight && r.retryAfter == q.retryAfter
  {}

  /** A result of its own that is no failure ends the waiting: no time to try again is
      left, and with the link up and no shutdown the next alert, if any, is on its way. */
  lemma SettlingFreesTheNext(p: Policy, inputs: seq<Input>)
    requires inputs != [] && inputs[|inputs| - 1].event.AlertResult?
    requires var q := Run(p, inputs[..|inputs| - 1]).desk.queue; var e := inputs[|inputs| - 1].event;
      q.inFlight && q.entries != [] && q.entries[0].id == e.id && q.entries[0].kind == e.kind && e.outcome != Failed
    ensures var q := Run(p, inputs).desk.queue;
      q.retryAfter.None? && (L.Online(inputs) && !L.ShutDown(inputs) ==> q.inFlight || q.entries == [])
  {
    hide Handle, L.Online, L.ShutDown;
    var n := |inputs| - 1;
    SettlingClears(p, Run(p, inputs[..n]), inputs[n]);
    if L.Online(inputs) && !L.ShutDown(inputs) { NobodyWaitsInVain(p, inputs); }
  }

  lemma SettlingClears(p: Policy, s: State, i: Input)
    requires i.event.AlertResult? && i.event.outcome != Failed && s.desk.queue.inFlight && s.desk.queue.entries != []
    requires s.desk.queue.entries[0].id == i.event.id && s.desk.queue.entries[0].kind == i.event.kind
    ensures Handle(p, s, i).desk.queue.retryAfter.None?
  {
    hide Q.Expire, Q.Push;
    var s1 := Dispatch(p, Lapse(s, i.now), i);
    assert s1.desk.queue.retryAfter.None?;
    ExpireKeepsTimes(s1.desk.queue, p, i.now);
    if Overdue(s1.camera, i.now) {
      var d := Enqueue(p, s1.desk, HeldAlert(s1.camera, ""), i.now);
      PushKeepsTimes(s1.desk.queue, p, HeldAlert(s1.camera, ""));
      ExpireKeepsTimes(d.queue, p, i.now);
      ExpireKeepsTimes(Q.Expire(d.queue, p.alertMaxAge, i.now), p, i.now);
      ExpireKeepsTimes(Q.MarkSent(Q.Expire(d.queue, p.alertMaxAge, i.now)), p, i.now);
    }
  }
}
