/** Over whole runs, a retry leaves no sooner than the doubling schedule allows. */
module CoreRetries {
  import opened Types
  import opened CoreRules
  import opened CoreRuns
  import opened BackoffRules
  import opened CoreSends

  /** How many of the attempts noted since an alert was last settled have failed. */
  function Failures(d: Desk): int { |d.attempts| - (if d.queue.inFlight then 1 else 0) }

  function Step(p: Policy, k: nat): nat { Delay(p.retryBackoffInitial, p.retryBackoffMax, k) }

  ghost predicate SpacedAttempts(p: Policy, attempts: seq<Time>) {
    forall k :: 0 <= k < |attempts| - 1 ==> attempts[k] + Step(p, k) <= attempts[k + 1]
  }

  ghost predicate RetryInv(p: Policy, d: Desk, clock: Time) {
    && Q.Sound(d.queue)
    && Failures(d) >= 0
    && d.queue.backoff == Delays(p.retryBackoffInitial, p.retryBackoffMax, Step(p, Failures(d)))
    && (d.attempts != [] ==> d.attempts[|d.attempts| - 1] <= clock)
    && (!d.queue.inFlight && d.attempts != [] ==>
          && d.queue.retryAfter.Some?
          && d.attempts[|d.attempts| - 1] + Step(p, |d.attempts| - 1) <= d.queue.retryAfter.value)
    && SpacedAttempts(p, d.attempts)
  }

  lemma EnqueueRetries(p: Policy, d: Desk, a: Alert, now: Time)
    requires RetryInv(p, d, now)
    ensures RetryInv(p, Enqueue(p, d, a, now), now)
  {}

  lemma ExpireIsSound(q: Q.Queue, maxAge: nat, now: Time)
    requires Q.Sound(q)
    ensures Q.Sound(Q.Expire(q, maxAge, now))
  {}

  lemma PumpRetries(p: Policy, d: Desk, online: bool, now: Time)
    requires RetryInv(p, d, now)
    ensures RetryInv(p, Pumped(p, d, online, now), now)
  {
    ExpireIsSound(d.queue, p.alertMaxAge, now);
  }

  lemma BackOffRetries(p: Policy, d: Desk, now: Time)
    requires ValidPolicy(p) && RetryInv(p, d, now) && d.queue.inFlight
    ensures RetryInv(p, d.(queue := Q.BackOff(d.queue, now)), now)
  {
    DelayStep(p.retryBackoffInitial, p.retryBackoffMax, Failures(d));
  }

  lemma SettleRetries(p: Policy, d: Desk, now: Time)
    requires ValidPolicy(p) && RetryInv(p, d, now) && d.queue.inFlight
    ensures RetryInv(p, d.(queue := Q.Queue(d.queue.entries[1..], false, Reset(d.queue.backoff), None), attempts := []), now)
  {
    DelayStep(p.retryBackoffInitial, p.retryBackoffMax, 0);
  }

  lemma AlertNowRetries(p: Policy, s: State, a: Alert, now: Time)
    requires RetryInv(p, s.desk, now)
    ensures RetryInv(p, AlertNow(p, s, a, now).desk, now)
  {
    hide RetryInv, Enqueue, Pumped, NextAlert;
    EnqueueRetries(p, s.desk, a, now);
    PumpRetries(p, Enqueue(p, s.desk, a, now), s.panel.online, now);
  }

  lemma TriggerRetries(p: Policy, s: State, kind: Kind, now: Time, withClip: bool, id: EventId)
    requires RetryInv(p, s.desk, now)
    ensures RetryInv(p, Trigger(p, s, kind, now, withClip, id).desk, now)
  {
    hide AlertNow, RetryInv;
    var log := Mint(s.log, id, now);
    AlertNowRetries(p, s.(log := if kind == Ring then NoteRing(log, id, now) else log), Alert(id, kind, now, ""), now);
  }

  lemma SensorRetries(p: Policy, s: State, i: Input)
    requires RetryInv(p, s.desk, i.now) && FromSensor(i.event)
    ensures RetryInv(p, Dispatch(p, s, i).desk, i.now)
  {
    hide AlertNow, Trigger, RetryInv;
    var now := i.now;
    if i.event.MotionDetected? {
      TriggerRetries(p, s.(timers := s.timers.(motionCooldownUntil := Some(now + p.motionCooldown))),
                     Motion, now, s.camera.viewers == {}, i.id);
    } else {
      var timers := s.timers.(ringLedUntil := Some(now + p.ringLed), pressWindowUntil := Some(now + p.pressDedupWindow));
      var s1 := s.(timers := timers, log := Emit(s.log, PlayChime));
      if JoinsRecording(s1.camera) {
        var e := s1.camera.event.value;
        var s2 := s1.(camera := s1.camera.(event := Some(AsRing(p, e, now))), log := NoteRing(s1.log, e.id, now));
        AlertNowRetries(p, s2, Alert(e.id, Ring, now, e.faces), now);
      } else {
        TriggerRetries(p, s1, Ring, now, s1.camera.viewers == {} && s1.camera.recording == NotRecording, i.id);
      }
    }
  }

  lemma RecorderRetries(p: Policy, s: State, i: Input)
    requires RetryInv(p, s.desk, i.now) && FromRecorder(i.event)
    ensures RetryInv(p, Dispatch(p, s, i).desk, i.now)
  {
    hide AlertNow, RetryInv, Overflow, WorthKeeping;
    if s.camera.event.Some? {
      if i.event.DetectionResult? {
        var s1 := s.(camera := KeepFaces(s.camera, i.event.verdict, i.event.faces));
        AlertNowRetries(p, s1.(camera := LetGo(s1.camera)), HeldAlert(s1.camera, i.event.faces), i.now);
      } else {
        AlertNowRetries(p, s.(camera := LetGo(s.camera)), HeldAlert(s.camera, ""), i.now);
      }
    }
  }

  lemma OtherRetries(p: Policy, s: State, i: Input)
    requires ValidPolicy(p) && RetryInv(p, s.desk, i.now) && !FromSensor(i.event) && !FromRecorder(i.event)
    ensures RetryInv(p, Dispatch(p, s, i).desk, i.now)
  {
    hide RetryInv, Q.BackOff;
    if s.desk.queue.inFlight {
      BackOffRetries(p, s.desk, i.now);
      SettleRetries(p, s.desk, i.now);
    }
    match i.event
    case AlertResult(id, kind, outcome) =>
    case ServerOffline(_) =>
    case _ =>
  }

  lemma CloseRetries(p: Policy, s: State, now: Time)
    requires RetryInv(p, s.desk, now)
    ensures RetryInv(p, Close(p, s, now).desk, now)
  {
    hide RetryInv, AlertNow, Pumped;
    if Overdue(s.camera, now) {
      AlertNowRetries(p, s.(camera := LetGo(s.camera)), HeldAlert(s.camera, ""), now);
    }
    var s1 := CheckVerdictDeadline(p, s, now);
    PumpRetries(p, s1.desk, s1.panel.online, now);
  }

  lemma RetryStep(p: Policy, s: State, i: Input)
    requires ValidPolicy(p) && RetryInv(p, s.desk, s.log.clock) && s.log.clock <= i.now
    ensures RetryInv(p, Handle(p, s, i).desk, i.now)
  {
    assert RetryInv(p, s.desk, i.now);
    hide RetryInv, Dispatch, Close;
    var s1 := Lapse(s, i.now);
    if FromSensor(i.event) { SensorRetries(p, s1, i); }
    else if FromRecorder(i.event) { RecorderRetries(p, s1, i); }
    else { OtherRetries(p, s1, i); }
    CloseRetries(p, Dispatch(p, s1, i), i.now);
  }

  lemma {:induction false} RetryRun(p: Policy, inputs: seq<Input>)
    requires ValidPolicy(p) && Legal(inputs)
    ensures RetryInv(p, Run(p, inputs).desk, Run(p, inputs).log.clock)
  {
    if inputs == [] {
      DelayStep(p.retryBackoffInitial, p.retryBackoffMax, 0);
    } else {
      hide Handle, RetryInv;
      var n := |inputs| - 1;
      LegalRunStep(p, inputs);
      RetryRun(p, inputs[..n]);
      RetryStep(p, Run(p, inputs[..n]), inputs[n]);
      HandleDraws(p, Run(p, inputs[..n]), inputs[n]);
    }
  }

  /** The least time n retries take. */
  function Backlog(p: Policy, n: nat): nat {
    if n == 0 then 0 else Backlog(p, n - 1) + Step(p, n - 1)
  }

  lemma {:induction false} BacklogBetween(p: Policy, attempts: seq<Time>, n: nat)
    requires SpacedAttempts(p, attempts) && n < |attempts|
    ensures attempts[0] + Backlog(p, n) <= attempts[n]
  {
    if n > 0 {
      BacklogBetween(p, attempts, n - 1);
    }
  }

  /** However the failures came - answers or lost links - the n-th retry since an
      alert was last settled leaves no sooner after the first SendAlert than the sum
      of the capped doublings. */
  lemma RetriesAreSpaced(p: Policy, inputs: seq<Input>, n: nat)
    requires ValidPolicy(p) && Legal(inputs) && n < |SendTimes(p, inputs)|
    ensures SendTimes(p, inputs)[0] + Backlog(p, n) <= SendTimes(p, inputs)[n]
  {
    hide Run, SendTimes;
    RetryRun(p, inputs);
    AttemptsAreSends(p, inputs);
    BacklogBetween(p, SendTimes(p, inputs), n);
  }
}
