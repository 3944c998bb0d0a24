/** Why the daemon's drain loop ends. Every event may make the core act, and every
    action may be answered at once with another event; but each event weighs more
    than all the answers it can lead to, once the two retry timers are counted. */
module DrainRules {
  import opened Types
  import opened CoreRules
  import opened CoreRuns
  import opened BackoffRules

  /** How many events one event can lead to in a drain, itself included. */
  function Weight(e: Event): nat {
    match e
    case ButtonPressed => 3
    case MotionDetected => 3
    case ViewerRequested(_) => 2
    case RecordingFinished(_, _, _, _, _) => 2
    case AlertResult(_, _, outcome) => if outcome == Failed then 1 else 2
    case UploadFinished(_, ok) => if ok then 2 else 1
    case _ => 1
  }

  function Weights(events: seq<Event>): nat {
    if events == [] then 0 else Weight(events[0]) + Weights(events[1..])
  }

  /** The weight of the failure an action can be answered with at once. */
  function AnswerWeight(a: Action): nat {
    match a
    case SendAlert(_) => 1
    case StartRecording(_, _, _, _) => 2
    case UploadClip(_) => 1
    case StartCall(_) => 1
    case _ => 0
  }

  function Load(actions: seq<Action>): nat
    decreases |actions|
  {
    if actions == [] then 0
    else Load(actions[..|actions| - 1]) + AnswerWeight(actions[|actions| - 1])
  }

  lemma LoadOfNone()
    ensures Load([]) == 0
  {}

  lemma LoadGrows(actions: seq<Action>, a: Action)
    ensures Load(actions + [a]) == Load(actions) + AnswerWeight(a)
  {
    assert (actions + [a])[..|actions|] == actions;
  }

  lemma {:induction false} LoadSplits(a: seq<Action>, b: seq<Action>)
    ensures Load(a + b) == Load(a) + Load(b)
    decreases |b|
  {
    if b == [] {
      assert a + b == a;
    } else {
      var n := |b| - 1;
      assert a + b == (a + b[..n]) + [b[n]] && b == b[..n] + [b[n]];
      LoadSplits(a, b[..n]);
      LoadGrows(a + b[..n], b[n]);
      LoadGrows(b[..n], b[n]);
    }
  }

  lemma {:induction false} DiscardsWeighNothing(victims: seq<Clip>)
    ensures Load(Discards(victims)) == 0
    decreases |victims|
  {
    if victims != [] {
      var n := |victims| - 1;
      assert Discards(victims)[..n] == Discards(victims[..n]);
      DiscardsWeighNothing(victims[..n]);
    }
  }

  lemma {:induction false} WeightsSplit(a: seq<Event>, b: seq<Event>)
    ensures Weights(a + b) == Weights(a) + Weights(b)
  {
    if a == [] {
      assert a + b == b;
    } else {
      assert (a + b)[1..] == a[1..] + b;
      WeightsSplit(a[1..], b);
    }
  }

  lemma WeightOfOne(e: Event)
    ensures Weights([e]) == Weight(e)
  {
    assert [e][1..] == [];
  }

  // ---- The two tokens: before the drain is over, may an alert still be sent, may
  // a clip still go up ----

  function SendToken(d: Desk, until: Time): nat {
    if d.queue.inFlight || Before(until, d.queue.retryAfter) then 0 else 1
  }

  function UploadToken(s: Spool, until: Time): nat {
    if s.inFlight || Before(until, s.retryAfter) then 0 else 1
  }

  function Tokens(s: State, until: Time): nat { SendToken(s.desk, until) + UploadToken(s.spool, until) }

  function Energy(s: State, until: Time): nat { Load(s.log.trace) + Tokens(s, until) }

  /** No retry delay is shorter than the first one. */
  predicate Paced(p: Policy, s: State) { Steady(p, s.desk.queue.backoff) && Steady(p, s.spool.backoff) }

  predicate Steady(p: Policy, b: Delays) {
    0 < p.retryBackoffInitial == b.initial <= b.cap && b.initial <= b.next
  }

  /** The clock may move while the daemon drains, but by less than the first retry
      delay: a failure at any time of the drain is not retried in it. */
  predicate Within(p: Policy, now: Time, until: Time) { now <= until < now + p.retryBackoffInitial }

  lemma AlertNowCosts(p: Policy, s: State, a: Alert, now: Time, until: Time)
    requires now <= until
    ensures var t := AlertNow(p, s, a, now);
      Energy(t, until) <= Energy(s, until) && t.camera == s.camera && t.spool == s.spool
      && (Paced(p, s) ==> Paced(p, t))
  {
    hide Load, Q.Ready;
    var d := Enqueue(p, s.desk, a, now);
    var next := NextAlert(p, d, s.panel.online, now);
    ReadyIsFree(p, d, s.panel.online, now, until);
    if next.Some? { LoadGrows(s.log.trace, SendAlert(next.value)); }
  }

  lemma ReadyIsFree(p: Policy, d: Desk, online: bool, now: Time, until: Time)
    requires now <= until
    ensures NextAlert(p, d, online, now).Some? ==> SendToken(d, until) == 1
  {}

  lemma TriggerCosts(p: Policy, s: State, kind: Kind, now: Time, withClip: bool, id: EventId, until: Time)
    requires now <= until
    ensures Energy(Trigger(p, s, kind, now, withClip, id), until) <= Energy(s, until) + 2
    ensures Paced(p, s) ==> Paced(p, Trigger(p, s, kind, now, withClip, id))
  {
    hide Load, AlertNow;
    var log := Mint(s.log, id, now);
    var s1 := s.(log := if kind == Ring then NoteRing(log, id, now) else log);
    AlertNowCosts(p, s1, Alert(id, kind, now, ""), now, until);
    LoadGrows(s.log.trace, StartRecording(id, p.clip, 0, p.ringFaceWait));
    LoadGrows(AlertUnjudged(p, s, kind, now, id).log.trace, StartRecording(id, p.clip, 0, 0));
  }

  lemma SensorCosts(p: Policy, s: State, i: Input, until: Time)
    requires i.now <= until
    requires FromSensor(i.event)
    ensures Energy(Dispatch(p, s, i), until) <= Energy(s, until) + 2
    ensures Paced(p, s) ==> Paced(p, Dispatch(p, s, i))
  {
    hide Load, AlertNow, Trigger;
    var now := i.now;
    if i.event.MotionDetected? {
      LoadGrows(s.log.trace, StartRecording(i.id, p.clip, p.detectWindow, 0));
      TriggerCosts(p, s.(timers := s.timers.(motionCooldownUntil := Some(now + p.motionCooldown))),
                   Motion, now, s.camera.viewers == {}, i.id, until);
    } else {
      LoadGrows(s.log.trace, PlayChime);
      var timers := s.timers.(ringLedUntil := Some(now + p.ringLed), pressWindowUntil := Some(now + p.pressDedupWindow));
      var s1 := s.(timers := timers, log := Emit(s.log, PlayChime));
      if JoinsRecording(s1.camera) {
        var e := s1.camera.event.value;
        var s2 := s1.(camera := s1.camera.(event := Some(AsRing(p, e, now))), log := NoteRing(s1.log, e.id, now));
        AlertNowCosts(p, s2, Alert(e.id, Ring, now, e.faces), now, until);
      } else {
        TriggerCosts(p, s1, Ring, now, s1.camera.viewers == {} && s1.camera.recording == NotRecording, i.id, until);
      }
    }
  }

  lemma PutAwayCosts(p: Policy, s: State, e: Option<ActiveEvent>, id: EventId, path: string,
                     ok: bool, duration: nat, bytes: nat, until: Time)
    ensures var t := PutAway(p, s, e, id, path, ok, duration, bytes);
      Energy(t, until) == Energy(s, until) && (Paced(p, s) ==> Paced(p, t))
  {
    hide Load, Overflow, WorthKeeping;
    LoadGrows(s.log.trace, DiscardClip(id, path));
    if WorthKeeping(p, e, id, ok, duration, bytes) {
      assert e.Some? by { WorthKeepingIsDescribed(p, e, id, ok, duration, bytes); }
      var victims := Overflow(p, Accept(s.spool, ClipOf(e.value, path, duration), bytes)).victims;
      LoadSplits(s.log.trace, Discards(victims));
      DiscardsWeighNothing(victims);
    }
  }

  lemma DeferredCosts(p: Policy, s: State, until: Time)
    ensures Energy(StartDeferred(s), until) <= Energy(s, until) + 1 && (Paced(p, s) ==> Paced(p, StartDeferred(s)))
  {
    hide Load;
    if s.camera.deferredCall.Some? { LoadGrows(s.log.trace, StartCall(s.camera.deferredCall.value)); }
  }

  lemma FinishCosts(p: Policy, s: State, i: Input, until: Time)
    requires i.now <= until
    requires i.event.RecordingFinished?
    ensures Energy(Dispatch(p, s, i), until) <= Energy(s, until) + 1
    ensures Paced(p, s) ==> Paced(p, Dispatch(p, s, i))
  {
    hide Load, AlertNow, PutAway, StartDeferred;
    if s.camera.event.Some? {
      AlertNowCosts(p, s.(camera := LetGo(s.camera)), HeldAlert(s.camera, ""), i.now, until);
    }
    var e := i.event;
    var s1 := ReleaseIfHeld(p, s, i.now);
    PutAwayCosts(p, FreeCamera(s1), s1.camera.event, e.id, e.path, e.ok, e.duration, e.bytes, until);
    DeferredCosts(p, PutAway(p, FreeCamera(s1), s1.camera.event, e.id, e.path, e.ok, e.duration, e.bytes), until);
  }

  lemma VerdictCosts(p: Policy, s: State, i: Input, until: Time)
    requires i.now <= until
    requires i.event.DetectionResult?
    ensures Energy(Dispatch(p, s, i), until) <= Energy(s, until)
    ensures Paced(p, s) ==> Paced(p, Dispatch(p, s, i))
  {
    hide Load, AlertNow;
    LoadGrows(s.log.trace, StopRecording);
    if s.camera.event.Some? {
      var s1 := s.(camera := KeepFaces(s.camera, i.event.verdict, i.event.faces));
      AlertNowCosts(p, s1.(camera := LetGo(s1.camera)), HeldAlert(s1.camera, i.event.faces), i.now, until);
    }
  }

  lemma OtherCosts(p: Policy, s: State, i: Input, until: Time)
    requires Within(p, i.now, until)
    requires !FromSensor(i.event) && !FromRecorder(i.event) && Paced(p, s)
    ensures Energy(Dispatch(p, s, i), until) + 1 <= Energy(s, until) + Weight(i.event)
    ensures Paced(p, Dispatch(p, s, i))
  {
    hide Load;
    LoadGrows(s.log.trace, StopRecording);
    match i.event
    case ViewerRequested(peer) => LoadGrows(s.log.trace, StartCall(peer));
    case Shutdown =>
      var s1 := StopIfActive(s.(panel := s.panel.(shuttingDown := true)));
      LoadGrows(s1.log.trace, StopCall);
      LoadGrows(HangUp(s1).log.trace, SetLed(LedPattern.Off));
    case _ =>
  }

  lemma CloseCosts(p: Policy, s: State, now: Time, until: Time)
    requires now <= until
    ensures Energy(Close(p, s, now), until) <= Energy(s, until) && (Paced(p, s) ==> Paced(p, Close(p, s, now)))
  {
    hide Load, AlertNow, Pumped, NextAlert;
    if Overdue(s.camera, now) {
      AlertNowCosts(p, s.(camera := LetGo(s.camera)), HeldAlert(s.camera, ""), now, until);
    }
    var s1 := CheckVerdictDeadline(p, s, now);
    PumpCosts(p, s1, now, until);
    var s2 := PumpAlerts(p, s1, now);
    if UploadReady(s2, now) { LoadGrows(s2.log.trace, UploadClip(s2.spool.uploads[0].clip)); }
    var s3 := PumpUploads(s2, now);
    LoadGrows(s3.log.trace, SetLed(DesiredLed(s3)));
  }

  lemma PumpCosts(p: Policy, s: State, now: Time, until: Time)
    requires now <= until
    ensures Energy(PumpAlerts(p, s, now), until) <= Energy(s, until) && (Paced(p, s) ==> Paced(p, PumpAlerts(p, s, now)))
    ensures PumpAlerts(p, s, now).spool == s.spool
  {
    hide Load, Q.Ready;
    var next := NextAlert(p, s.desk, s.panel.online, now);
    ReadyIsFree(p, s.desk, s.panel.online, now, until);
    if next.Some? { LoadGrows(s.log.trace, SendAlert(next.value)); }
  }

  /** One core step spends at least one unit of the weight of the event it handles. */
  lemma HandleCosts(p: Policy, s: State, i: Input, until: Time)
    requires Within(p, i.now, until)
    requires Paced(p, s)
    ensures Energy(Handle(p, s, i), until) + 1 <= Energy(s, until) + Weight(i.event)
    ensures Paced(p, Handle(p, s, i))
  {
    hide Load, Dispatch, Close;
    var s1 := Lapse(s, i.now);
    if FromSensor(i.event) { SensorCosts(p, s1, i, until); }
    else if i.event.RecordingFinished? { FinishCosts(p, s1, i, until); }
    else if i.event.DetectionResult? { VerdictCosts(p, s1, i, until); }
    else { OtherCosts(p, s1, i, until); }
    CloseCosts(p, Dispatch(p, s1, i), i.now, until);
  }

  /** The same, of the actions one step returns. */
  lemma StepCosts(p: Policy, s: State, i: Input, actions: seq<Action>, until: Time)
    requires Within(p, i.now, until)
    requires Paced(p, s) && Handle(p, s, i).log.trace == s.log.trace + actions
    ensures Load(actions) + Tokens(Handle(p, s, i), until) + 1 <= Tokens(s, until) + Weight(i.event)
    ensures Paced(p, Handle(p, s, i))
  {
    hide Handle, Load, Tokens, Weight;
    HandleCosts(p, s, i, until);
    LoadSplits(s.log.trace, actions);
  }

  /** In every run. */
  lemma {:induction false} PacedRun(p: Policy, inputs: seq<Input>)
    requires ValidPolicy(p)
    ensures Paced(p, Run(p, inputs))
    decreases |inputs|
  {
    if inputs != [] {
      hide Handle, Paced;
      var n := |inputs| - 1;
      PacedRun(p, inputs[..n]);
      var now := inputs[n].now;
      HandleCosts(p, Run(p, inputs[..n]), inputs[n], now);
    }
  }
}
