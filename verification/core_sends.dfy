/** What the core's history fields say of its alerts, read off the trace instead:
    which alerts left in a SendAlert, and when. */
module CoreSends {
  import opened Types
  import opened CoreRules
  import opened CoreRuns
  import A = AlertLedger

  /** The alerts that left, in order. */
  function Sent(trace: seq<Action>): seq<Alert>
    decreases |trace|
  {
    if trace == [] then []
    else
      var last := trace[|trace| - 1];
      Sent(trace[..|trace| - 1]) + (if last.SendAlert? then [last.alert] else [])
  }

  function Times(now: Time, n: nat): (r: seq<Time>)
    ensures |r| == n
  {
    seq(n, _ => now)
  }

  lemma SentGrows(trace: seq<Action>, a: Action)
    ensures Sent(trace + [a]) == Sent(trace) + (if a.SendAlert? then [a.alert] else [])
  {
    assert (trace + [a])[..|trace|] == trace;
  }

  lemma {:induction false} DiscardsSendNothing(trace: seq<Action>, victims: seq<Clip>)
    ensures Sent(trace + Discards(victims)) == Sent(trace)
    decreases |victims|
  {
    if victims == [] {
      assert trace + Discards(victims) == trace;
    } else {
      var n := |victims| - 1;
      var victim := victims[n];
      DiscardsGrow(trace, victims[..n], victim);
      assert victims[..n] + [victim] == victims;
      DiscardsSendNothing(trace, victims[..n]);
      SentGrows(trace + Discards(victims[..n]), DiscardClip(victim.id, victim.path));
    }
  }

  /** Whatever left, and whatever is waiting to, was queued. */
  ghost predicate Traced(s: State) {
    && (forall a :: a in Sent(s.log.trace) ==> Queued(s.desk, a))
    && (forall a :: a in s.desk.queue.entries ==> Queued(s.desk, a))
  }

  ghost predicate Queued(d: Desk, a: Alert) {
    exists k :: 0 <= k < |d.enqueued| && d.enqueued[k].alert == a
  }

  // ---- The queue as the ledger knows it ----

  function ObeyAll(p: Policy, q: Q.Queue, calls: seq<A.Call>): Q.Queue
    decreases |calls|
  {
    if calls == [] then q
    else A.Obey(ObeyAll(p, q, calls[..|calls| - 1]), p.maxQueuedAlerts, p.alertMaxAge, calls[|calls| - 1])
  }

  function AlertsOf(e: seq<Enqueued>): (r: seq<Alert>)
    ensures |r| == |e|
  {
    seq(|e|, k requires 0 <= k < |e| => e[k].alert)
  }

  /** What an event may have the queue do besides taking new alerts: age and offer at
      its own time, hear its own result, or lose the link it reports lost. */
  predicate CalledFor(c: A.Call, i: Input) {
    match c
    case DoPush(_) => true
    case DoExpire(now) => now == i.now
    case DoSend(_, now) => now == i.now
    case DoResult(id, kind, outcome, now) => now == i.now && i.event == AlertResult(id, kind, outcome)
    case DoLinkLost(now) => now == i.now && i.event.ServerOffline?
  }

  ghost predicate Turns(p: Policy, d: Desk, e: Desk, i: Input, calls: seq<A.Call>) {
    && ObeyAll(p, d.queue, calls) == e.queue
    && AlertsOf(e.enqueued) == AlertsOf(d.enqueued) + A.PushedBy(calls)
    && forall k :: 0 <= k < |calls| ==> CalledFor(calls[k], i)
  }

  ghost predicate Turned(p: Policy, d: Desk, e: Desk, i: Input) {
    exists calls :: Turns(p, d, e, i, calls)
  }

  lemma {:induction false} ObeySplits(p: Policy, q: Q.Queue, a: seq<A.Call>, b: seq<A.Call>)
    ensures ObeyAll(p, q, a + b) == ObeyAll(p, ObeyAll(p, q, a), b)
    ensures A.PushedBy(a + b) == A.PushedBy(a) + A.PushedBy(b)
    decreases |b|
  {
    if b == [] {
      assert a + b == a;
    } else {
      var n := |b| - 1;
      assert (a + b)[..|a + b| - 1] == a + b[..n];
      ObeySplits(p, q, a, b[..n]);
    }
  }

  lemma TurnedThen(p: Policy, d: Desk, e: Desk, f: Desk, i: Input)
    requires Turned(p, d, e, i) && Turned(p, e, f, i)
    ensures Turned(p, d, f, i)
  {
    hide A.PushedBy, ObeyAll, AlertsOf, CalledFor;
    var a: seq<A.Call> :| Turns(p, d, e, i, a);
    var b: seq<A.Call> :| Turns(p, e, f, i, b);
    ObeySplits(p, d.queue, a, b);
    Regroup(AlertsOf(d.enqueued), A.PushedBy(a), A.PushedBy(b));
    assert Turns(p, d, f, i, a + b);
  }

  lemma TurnedBy(p: Policy, d: Desk, e: Desk, i: Input, calls: seq<A.Call>)
    requires |calls| == 1 && CalledFor(calls[0], i)
    requires e.queue == A.Obey(d.queue, p.maxQueuedAlerts, p.alertMaxAge, calls[0])
    requires e.enqueued == if calls[0].DoPush? then d.enqueued + [Enqueued(calls[0].alert, i.now)] else d.enqueued
    ensures Turned(p, d, e, i)
  {
    hide A.Obey;
    assert calls[..0] == [];
    assert ObeyAll(p, d.queue, calls) == e.queue;
    assert A.PushedBy(calls) == if calls[0].DoPush? then [calls[0].alert] else [];
    assert AlertsOf(e.enqueued) == AlertsOf(d.enqueued) + A.PushedBy(calls);
    assert Turns(p, d, e, i, calls);
  }

  lemma TurnedStill(p: Policy, d: Desk, e: Desk, i: Input)
    requires e.queue == d.queue && e.enqueued == d.enqueued
    ensures Turned(p, d, e, i)
  {
    assert AlertsOf(d.enqueued) + [] == AlertsOf(d.enqueued);
    assert Turns(p, d, e, i, []);
  }

  // ---- Whose turn it is ----

  /** An alert in flight stays where it is and nothing else leaves; otherwise at most
      one leaves, and it is the front, in flight from then on. */
  ghost predicate Offers(s: State, t: State) {
    var q, r := s.desk.queue, t.desk.queue;
    Q.Sound(q) ==>
      && Q.Sound(r)
      && if q.inFlight then
           r.inFlight && r.entries[0] == q.entries[0] && Sent(t.log.trace) == Sent(s.log.trace)
         else if r.inFlight then
           Sent(t.log.trace) == Sent(s.log.trace) + [r.entries[0]]
         else Sent(t.log.trace) == Sent(s.log.trace)
  }

  /** As many more attempts as alerts left, all at that time. */
  ghost predicate Booked(p: Policy, s: State, t: State, i: Input) {
    && |Sent(s.log.trace)| <= |Sent(t.log.trace)|
    && t.desk.attempts == s.desk.attempts + Times(i.now, |Sent(t.log.trace)| - |Sent(s.log.trace)|)
    && (Traced(s) ==> Traced(t))
    && Turned(p, s.desk, t.desk, i)
    && (i.event.ServerOffline? || Offers(s, t))
  }

  lemma BookedThen(p: Policy, s: State, t: State, u: State, i: Input)
    requires Booked(p, s, t, i) && Booked(p, t, u, i)
    ensures Booked(p, s, u, i)
  {
    hide Sent, Traced, Turned;
    TurnedThen(p, s.desk, t.desk, u.desk, i);
    var m, n := |Sent(t.log.trace)| - |Sent(s.log.trace)|, |Sent(u.log.trace)| - |Sent(t.log.trace)|;
    assert Times(i.now, m) + Times(i.now, n) == Times(i.now, m + n);
    Regroup(s.desk.attempts, Times(i.now, m), Times(i.now, n));
  }

  /** Nothing about alerts happened. */
  lemma BookedStill(p: Policy, s: State, t: State, i: Input)
    requires t.desk == s.desk && Sent(t.log.trace) == Sent(s.log.trace)
    ensures Booked(p, s, t, i)
  {
    hide Sent, Turned;
    TurnedStill(p, s.desk, t.desk, i);
    assert s.desk.attempts + Times(i.now, 0) == s.desk.attempts;
  }

  lemma PumpBooks(p: Policy, s: State, i: Input)
    ensures Booked(p, s, PumpAlerts(p, s, i.now), i) && PumpAlerts(p, s, i.now).camera == s.camera
  {
    hide Sent, Queued, Q.Expire, Q.Ready, Turned;
    var t := PumpAlerts(p, s, i.now);
    PumpTurns(p, s, i);
    var next := NextAlert(p, s.desk, s.panel.online, i.now);
    ExpireKeepsSome(s.desk.queue, p.alertMaxAge, s.panel.online, i.now);
    if next.Some? && !s.panel.shuttingDown {
      SentGrows(s.log.trace, SendAlert(next.value));
      assert Times(i.now, 1) == [i.now];
    } else {
      assert s.desk.attempts + Times(i.now, 0) == s.desk.attempts;
    }
    SameQueued(s.desk, t.desk);
    PumpOffers(p, s, i.now);
  }

  lemma PumpOffers(p: Policy, s: State, now: Time)
    ensures Offers(s, PumpAlerts(p, s, now))
  {
    hide Sent;
    var next := NextAlert(p, s.desk, s.panel.online, now);
    if next.Some? { SentGrows(s.log.trace, SendAlert(next.value)); }
  }

  lemma PumpTurns(p: Policy, s: State, i: Input)
    ensures Turned(p, s.desk, PumpAlerts(p, s, i.now).desk, i)
  {
    hide Q.Expire, Q.Ready, Turned;
    if s.panel.shuttingDown {
      TurnedStill(p, s.desk, s.desk, i);
    } else {
      var aged := s.desk.(queue := Q.Expire(s.desk.queue, p.alertMaxAge, i.now));
      var t := PumpAlerts(p, s, i.now).desk;
      TurnedBy(p, s.desk, aged, i, [A.DoExpire(i.now)]);
      TurnedBy(p, aged, t, i, [A.DoSend(s.panel.online, i.now)]);
      TurnedThen(p, s.desk, aged, t, i);
    }
  }

  lemma SameQueued(d: Desk, e: Desk)
    requires e.enqueued == d.enqueued
    ensures forall a :: Queued(e, a) <==> Queued(d, a)
  {}

  lemma ExpireKeepsSome(q: Q.Queue, maxAge: nat, online: bool, now: Time)
    ensures var e := Q.Expire(q, maxAge, now);
      && (forall a :: a in e.entries ==> a in q.entries)
      && (Q.Ready(e, online, now).Some? ==> Q.Ready(e, online, now).value in e.entries)
  {}

  lemma EnqueueBooks(p: Policy, s: State, a: Alert, i: Input)
    ensures Booked(p, s, s.(desk := Enqueue(p, s.desk, a, i.now)), i)
  {
    hide Sent, Turned;
    var d := Enqueue(p, s.desk, a, i.now);
    TurnedBy(p, s.desk, d, i, [A.DoPush(a)]);
    assert s.desk.attempts + Times(i.now, 0) == s.desk.attempts;
    forall b | Queued(s.desk, b) ensures Queued(d, b) {
      var k :| 0 <= k < |s.desk.enqueued| && s.desk.enqueued[k].alert == b;
      assert d.enqueued[k].alert == b;
    }
    assert d.enqueued[|s.desk.enqueued|].alert == a;
    assert forall b :: b in d.queue.entries ==> b == a || b in s.desk.queue.entries;
  }

  lemma AlertNowBooks(p: Policy, s: State, a: Alert, i: Input)
    ensures Booked(p, s, AlertNow(p, s, a, i.now), i) && AlertNow(p, s, a, i.now).camera == s.camera
  {
    hide Booked, PumpAlerts, Enqueue;
    var s1 := s.(desk := Enqueue(p, s.desk, a, i.now));
    EnqueueBooks(p, s, a, i);
    PumpBooks(p, s1, i);
    BookedThen(p, s, s1, PumpAlerts(p, s1, i.now), i);
  }

  /** An action that is no SendAlert, whatever else changed outside the desk. */
  lemma EmitBooks(p: Policy, s: State, t: State, a: Action, i: Input)
    requires t.desk == s.desk && t.log.trace == s.log.trace + [a] && !a.SendAlert?
    ensures Booked(p, s, t, i)
  {
    SentGrows(s.log.trace, a);
    BookedStill(p, s, t, i);
  }

  lemma SameBooks(p: Policy, s: State, s1: State, t: State, i: Input)
    requires s1.desk == s.desk && s1.log.trace == s.log.trace && Booked(p, s1, t, i)
    ensures Booked(p, s, t, i)
  {
    hide Sent, Queued, Turned;
  }

  // ---- Handler by handler ----

  lemma TriggerBooks(p: Policy, s: State, kind: Kind, i: Input, withClip: bool, id: EventId)
    ensures Booked(p, s, Trigger(p, s, kind, i.now, withClip, id), i)
  {
    hide Booked, AlertNow;
    var t := Trigger(p, s, kind, i.now, withClip, id);
    if kind == Ring && withClip && p.ringFaceWait > 0 {
      EmitBooks(p, s, t, StartRecording(id, p.clip, 0, p.ringFaceWait), i);
    } else {
      var log := Mint(s.log, id, i.now);
      var s1 := s.(log := if kind == Ring then NoteRing(log, id, i.now) else log);
      AlertNowBooks(p, s1, Alert(id, kind, i.now, ""), i);
      var s2 := AlertUnjudged(p, s, kind, i.now, id);
      SameBooks(p, s, s1, s2, i);
      if withClip {
        EmitBooks(p, s2, t, StartRecording(id, p.clip, 0, 0), i);
        BookedThen(p, s, s2, t, i);
      }
    }
  }

  lemma MotionBooks(p: Policy, s: State, i: Input, id: EventId)
    ensures Booked(p, s, OnMotion(p, s, i.now, id), i)
  {
    hide Booked, Trigger;
    var t := OnMotion(p, s, i.now, id);
    var s1 := s.(timers := s.timers.(motionCooldownUntil := Some(i.now + p.motionCooldown)));
    if s.panel.shuttingDown || s.timers.motionCooldownUntil.Some? || s1.camera.recording != NotRecording {
      BookedStill(p, s, t, i);
    } else if p.personDetection && s1.camera.viewers == {} {
      EmitBooks(p, s, t, StartRecording(id, p.clip, p.detectWindow, 0), i);
    } else {
      TriggerBooks(p, s1, Motion, i, s1.camera.viewers == {}, id);
      SameBooks(p, s, s1, t, i);
    }
  }

  lemma NewPressBooks(p: Policy, s: State, i: Input, id: EventId)
    ensures Booked(p, s, OnNewPress(p, s, i.now, id), i)
  {
    hide Booked, Trigger, AlertNow;
    var t := OnNewPress(p, s, i.now, id);
    if !JoinsRecording(s.camera) {
      TriggerBooks(p, s, Ring, i, s.camera.viewers == {} && s.camera.recording == NotRecording, id);
    } else if s.camera.event.value.kind == Motion && !WaitsForAName(p, s.camera.event.value) {
      var e := s.camera.event.value;
      var s1 := s.(camera := s.camera.(event := Some(AsRing(p, e, i.now))), log := NoteRing(s.log, e.id, i.now));
      AlertNowBooks(p, s1, Alert(e.id, Ring, i.now, e.faces), i);
      SameBooks(p, s, s1, t, i);
    } else {
      BookedStill(p, s, t, i);
    }
  }

  lemma ButtonBooks(p: Policy, s: State, i: Input, id: EventId)
    ensures Booked(p, s, OnButton(p, s, i.now, id), i)
  {
    hide Booked, OnNewPress;
    var t := OnButton(p, s, i.now, id);
    if s.panel.shuttingDown {
      BookedStill(p, s, t, i);
    } else {
      var timers := s.timers.(ringLedUntil := Some(i.now + p.ringLed));
      var s1 := s.(timers := if s.timers.pressWindowUntil.Some? then timers
                             else timers.(pressWindowUntil := Some(i.now + p.pressDedupWindow)),
                   log := Emit(s.log, PlayChime));
      EmitBooks(p, s, s1, PlayChime, i);
      if s.timers.pressWindowUntil.None? {
        NewPressBooks(p, s1, i, id);
        BookedThen(p, s, s1, t, i);
      }
    }
  }

  lemma PutAwayBooks(p: Policy, s: State, e: Option<ActiveEvent>, id: EventId, path: string,
                     ok: bool, duration: nat, bytes: nat, i: Input)
    ensures Booked(p, s, PutAway(p, s, e, id, path, ok, duration, bytes), i)
  {
    hide Booked, Overflow, WorthKeeping, Sent;
    var t := PutAway(p, s, e, id, path, ok, duration, bytes);
    if WorthKeeping(p, e, id, ok, duration, bytes) {
      assert e.Some? by { WorthKeepingIsDescribed(p, e, id, ok, duration, bytes); }
      DiscardsSendNothing(s.log.trace, Overflow(p, Accept(s.spool, ClipOf(e.value, path, duration), bytes)).victims);
      BookedStill(p, s, t, i);
    } else if path != "" {
      EmitBooks(p, s, t, DiscardClip(id, path), i);
    } else {
      BookedStill(p, s, t, i);
    }
  }

  lemma FinishBooks(p: Policy, s: State, i: Input)
    requires i.event.RecordingFinished?
    ensures Booked(p, s, Dispatch(p, s, i), i)
  {
    hide Booked, AlertNow, PutAway;
    var e := i.event;
    var s1 := ReleaseIfHeld(p, s, i.now);
    if Holding(s.camera) {
      AlertNowBooks(p, s.(camera := LetGo(s.camera)), HeldAlert(s.camera, ""), i);
      SameBooks(p, s, s.(camera := LetGo(s.camera)), s1, i);
    } else {
      BookedStill(p, s, s1, i);
    }
    var s2 := FreeCamera(s1);
    var s3 := PutAway(p, s2, s1.camera.event, e.id, e.path, e.ok, e.duration, e.bytes);
    PutAwayBooks(p, s2, s1.camera.event, e.id, e.path, e.ok, e.duration, e.bytes, i);
    SameBooks(p, s1, s2, s3, i);
    BookedThen(p, s, s1, s3, i);
    var t := StartDeferred(s3);
    if s3.camera.deferredCall.Some? {
      EmitBooks(p, s3, t, StartCall(s3.camera.deferredCall.value), i);
    } else {
      BookedStill(p, s3, t, i);
    }
    BookedThen(p, s, s3, t, i);
  }

  lemma StopBooks(p: Policy, s: State, i: Input)
    ensures Booked(p, s, StopIfActive(s), i)
  {
    hide Booked;
    if s.camera.recording == Active {
      EmitBooks(p, s, StopIfActive(s), StopRecording, i);
    } else {
      BookedStill(p, s, StopIfActive(s), i);
    }
  }

  lemma VerdictBooks(p: Policy, s: State, i: Input)
    requires i.event.DetectionResult?
    ensures Booked(p, s, Dispatch(p, s, i), i)
  {
    hide Booked, AlertNow, StopIfActive;
    var e, t := i.event, Dispatch(p, s, i);
    if s.camera.event.None? || s.camera.event.value.id != e.id {
      BookedStill(p, s, t, i);
    } else {
      var s1 := s.(camera := KeepFaces(s.camera, e.verdict, e.faces));
      if !Holding(s1.camera) {
        BookedStill(p, s, t, i);
      } else if s1.camera.event.value.kind == Ring || e.verdict != NoPerson {
        var s2 := s1.(camera := LetGo(s1.camera));
        AlertNowBooks(p, s2, HeldAlert(s1.camera, e.faces), i);
        SameBooks(p, s, s2, t, i);
      } else {
        var a := s1.camera.event.value;
        var s2 := s1.(camera := s1.camera.(event := Some(a.(awaitingVerdict := false, unwanted := true))),
                      timers := s1.timers.(motionCooldownUntil := Some(i.now + p.noPersonCooldown)),
                      log := s1.log.(silenced := s1.log.silenced + {a.id}));
        StopBooks(p, s2, i);
        SameBooks(p, s, s2, t, i);
      }
    }
  }

  lemma ShutdownBooks(p: Policy, s: State, i: Input)
    ensures Booked(p, s, OnShutdown(s), i)
  {
    hide Booked, StopIfActive;
    var s0 := s.(panel := s.panel.(shuttingDown := true));
    var s1 := StopIfActive(s0);
    StopBooks(p, s0, i);
    SameBooks(p, s, s0, s1, i);
    var s2 := HangUp(s1);
    if s1.camera.viewers != {} { EmitBooks(p, s1, s2, StopCall, i); } else { BookedStill(p, s1, s2, i); }
    BookedThen(p, s, s1, s2, i);
    EmitBooks(p, s2, OnShutdown(s), SetLed(LedPattern.Off), i);
    BookedThen(p, s, s2, OnShutdown(s), i);
  }

  lemma ViewerBooks(p: Policy, s: State, peer: PeerId, i: Input)
    ensures Booked(p, s, OnViewer(s, peer), i)
  {
    hide Booked, StopIfActive;
    var t := OnViewer(s, peer);
    if s.panel.shuttingDown {
      BookedStill(p, s, t, i);
    } else if s.camera.recording == NotRecording {
      EmitBooks(p, s, t, StartCall(peer), i);
    } else {
      StopBooks(p, s, i);
      BookedStill(p, StopIfActive(s), t, i);
      BookedThen(p, s, StopIfActive(s), t, i);
    }
  }

  lemma LinkBooks(p: Policy, s: State, i: Input)
    requires i.event.ServerOffline?
    ensures Booked(p, s, OnServerOffline(s, i.now, i.event.permanent), i)
  {
    hide Sent, Queued, FailUpload, Turned;
    var t := OnServerOffline(s, i.now, i.event.permanent);
    TurnedBy(p, s.desk, t.desk, i, [A.DoLinkLost(i.now)]);
    assert s.desk.attempts + Times(i.now, 0) == s.desk.attempts;
    SameQueued(s.desk, t.desk);
  }

  /** The result settles the alert in flight, so that counting starts again. */
  predicate SettlesNow(s: State, e: Event) {
    e.AlertResult? && Q.Settles(s.desk.queue, e.id, e.kind, e.outcome)
  }

  lemma ResultBooks(p: Policy, s: State, i: Input)
    requires i.event.AlertResult?
    ensures var t := Dispatch(p, s, i);
      && t.log.trace == s.log.trace && (Traced(s) ==> Traced(t)) && Turned(p, s.desk, t.desk, i)
      && t.desk.attempts == if SettlesNow(s, i.event) then [] else s.desk.attempts
  {
    hide Sent, Queued, Turned;
    var t := Dispatch(p, s, i);
    SameQueued(s.desk, t.desk);
    TurnedBy(p, s.desk, t.desk, i, [A.DoResult(i.event.id, i.event.kind, i.event.outcome, i.now)]);
    assert forall a :: a in t.desk.queue.entries ==> a in s.desk.queue.entries;
  }

  lemma DispatchBooks(p: Policy, s: State, i: Input)
    requires !i.event.AlertResult?
    ensures Booked(p, s, Dispatch(p, s, i), i)
  {
    hide Booked, OnMotion, OnButton, OnViewer, OnRecordingFinished, OnDetection, OnServerOffline, OnShutdown;
    match i.event
    case MotionDetected => MotionBooks(p, s, i, i.id);
    case ButtonPressed => ButtonBooks(p, s, i, i.id);
    case ViewerRequested(peer) => ViewerBooks(p, s, peer, i);
    case RecordingFinished(_, _, _, _, _) => FinishBooks(p, s, i);
    case DetectionResult(_, _, _) => VerdictBooks(p, s, i);
    case ServerOffline(permanent) => LinkBooks(p, s, i);
    case Shutdown => ShutdownBooks(p, s, i);
    case _ => BookedStill(p, s, Dispatch(p, s, i), i);
  }

  lemma CloseBooks(p: Policy, s: State, i: Input)
    ensures Booked(p, s, Close(p, s, i.now), i)
  {
    hide Booked, AlertNow, PumpAlerts, Sent;
    var s1 := CheckVerdictDeadline(p, s, i.now);
    if Overdue(s.camera, i.now) {
      var s0 := s.(camera := LetGo(s.camera));
      AlertNowBooks(p, s0, HeldAlert(s.camera, ""), i);
      SameBooks(p, s, s0, s1, i);
    } else {
      BookedStill(p, s, s1, i);
    }
    var s2 := PumpAlerts(p, s1, i.now);
    PumpBooks(p, s1, i);
    BookedThen(p, s, s1, s2, i);
    var s3 := PumpUploads(s2, i.now);
    if UploadReady(s2, i.now) {
      EmitBooks(p, s2, s3, UploadClip(s2.spool.uploads[0].clip), i);
    } else {
      BookedStill(p, s2, s3, i);
    }
    BookedThen(p, s, s2, s3, i);
    var t := UpdateLed(s3);
    if DesiredLed(s3) == s3.panel.led {
      BookedStill(p, s3, t, i);
    } else {
      EmitBooks(p, s3, t, SetLed(DesiredLed(s3)), i);
    }
    BookedThen(p, s, s3, t, i);
  }

  /** The attempts noted before an event, unless it settles the alert in flight. */
  function Standing(s: State, e: Event): seq<Time> { if SettlesNow(s, e) then [] else s.desk.attempts }

  /** How many alerts one handling sends. */
  function Sends(s: State, t: State): nat {
    if |Sent(s.log.trace)| <= |Sent(t.log.trace)| then |Sent(t.log.trace)| - |Sent(s.log.trace)| else 0
  }

  lemma HandleBooks(p: Policy, s: State, i: Input)
    ensures var t := Handle(p, s, i);
      && t.desk.attempts == Standing(s, i.event) + Times(i.now, Sends(s, t))
      && (Traced(s) ==> Traced(t))
      && Turned(p, s.desk, t.desk, i)
  {
    hide Dispatch, Close, Booked, Traced, Turned;
    var s1 := Lapse(s, i.now);
    var s2 := Dispatch(p, s1, i);
    var t := Handle(p, s, i);
    CloseBooks(p, s2, i);
    if i.event.AlertResult? {
      ResultBooks(p, s1, i);
      BookedMeans(p, s2, t, i);
      TurnedThen(p, s1.desk, s2.desk, t.desk, i);
    } else {
      DispatchBooks(p, s1, i);
      BookedThen(p, s1, s2, t, i);
      BookedMeans(p, s1, t, i);
    }
    LapseTraces(s, i.now);
  }

  /** One handling sends at most one alert, the front of the queue as it leaves it. */
  lemma HandleSends(p: Policy, s: State, i: Input)
    requires Q.Sound(s.desk.queue)
    ensures var t := Handle(p, s, i); var q := t.desk.queue;
      && Q.Sound(q)
      && (Sent(t.log.trace) == Sent(s.log.trace)
          || (q.inFlight && Sent(t.log.trace) == Sent(s.log.trace) + [q.entries[0]]))
      && (q.inFlight && Sent(t.log.trace) == Sent(s.log.trace) ==>
            s.desk.queue.inFlight && q.entries[0] == s.desk.queue.entries[0])
  {
    hide Dispatch, Close, Booked, Sent;
    var s1 := Lapse(s, i.now);
    var s2 := Dispatch(p, s1, i);
    var calm := Input(Tick, i.now, i.id);
    CloseBooks(p, s2, calm);
    BookedOffers(p, s2, Close(p, s2, i.now), calm);
    if i.event.AlertResult? {
      ResultBooks(p, s1, i);
      ResultOffersNothing(p, s1, i);
    } else if i.event.ServerOffline? {
      LinkOffersNothing(p, s1, i);
    } else {
      DispatchBooks(p, s1, i);
      BookedOffers(p, s1, s2, i);
    }
  }

  lemma BookedOffers(p: Policy, s: State, t: State, i: Input)
    requires Booked(p, s, t, i) && !i.event.ServerOffline?
    ensures Offers(s, t)
  {
    hide Sent, Traced, Turned;
  }

  lemma ResultOffersNothing(p: Policy, s: State, i: Input)
    requires i.event.AlertResult? && Q.Sound(s.desk.queue)
    ensures var q := Dispatch(p, s, i).desk.queue;
      Q.Sound(q) && (q.inFlight ==> s.desk.queue.inFlight && q.entries[0] == s.desk.queue.entries[0])
  {}

  lemma LinkOffersNothing(p: Policy, s: State, i: Input)
    requires i.event.ServerOffline?
    ensures var t := Dispatch(p, s, i); !t.desk.queue.inFlight && t.log.trace == s.log.trace
  {}

  lemma BookedMeans(p: Policy, s: State, t: State, i: Input)
    requires Booked(p, s, t, i)
    ensures t.desk.attempts == s.desk.attempts + Times(i.now, Sends(s, t)) && (Traced(s) ==> Traced(t)) && Turned(p, s.desk, t.desk, i)
  {
    hide Sent, Traced, Turned;
  }

  lemma LapseTraces(s: State, now: Time)
    ensures Traced(s) ==> Traced(Lapse(s, now))
  {
    hide Sent, Queued;
  }

  // ---- Over runs ----

  /** When a SendAlert left, since a result last settled an alert: from the inputs
      and the trace alone. */
  function SendTimes(p: Policy, inputs: seq<Input>): seq<Time>
    decreases |inputs|
  {
    if inputs == [] then []
    else
      var n := |inputs| - 1;
      var s := Run(p, inputs[..n]);
      (if SettlesNow(s, inputs[n].event) then [] else SendTimes(p, inputs[..n]))
        + Times(inputs[n].now, Sends(s, Run(p, inputs)))
  }

  /** The history field is just that. */
  lemma {:induction false} AttemptsAreSends(p: Policy, inputs: seq<Input>)
    ensures Run(p, inputs).desk.attempts == SendTimes(p, inputs)
    decreases |inputs|
  {
    if inputs != [] {
      hide Handle, SettlesNow, Sends;
      var n := |inputs| - 1;
      AttemptsAreSends(p, inputs[..n]);
      HandleBooks(p, Run(p, inputs[..n]), inputs[n]);
    }
  }

  lemma {:induction false} TracedRun(p: Policy, inputs: seq<Input>)
    ensures Traced(Run(p, inputs))
    decreases |inputs|
  {
    if inputs != [] {
      hide Handle, Traced;
      var n := |inputs| - 1;
      TracedRun(p, inputs[..n]);
      HandleBooks(p, Run(p, inputs[..n]), inputs[n]);
    }
  }

  lemma {:induction false} SentIsInTrace(trace: seq<Action>, k: nat)
    requires k < |trace| && trace[k].SendAlert?
    ensures trace[k].alert in Sent(trace)
    decreases |trace|
  {
    if k < |trace| - 1 { SentIsInTrace(trace[..|trace| - 1], k); }
  }

  /** Every SendAlert ever emitted carries an alert that was queued. */
  lemma SendsWereQueued(p: Policy, inputs: seq<Input>, k: nat)
    requires k < |Run(p, inputs).log.trace| && Run(p, inputs).log.trace[k].SendAlert?
    ensures Queued(Run(p, inputs).desk, Run(p, inputs).log.trace[k].alert)
  {
    hide Run, Queued;
    TracedRun(p, inputs);
    SentIsInTrace(Run(p, inputs).log.trace, k);
  }
}
