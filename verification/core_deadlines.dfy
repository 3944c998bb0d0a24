/** One timer is enough, and every alert held for the camera goes out in time. */
module CoreDeadlines {
  import opened Types
  import opened CoreRules
  import opened CoreRuns
  import opened CoreStories

  // ---- Between deadlines nothing happens ----

  /** Nothing is left to do at the time the last event was handled. */
  predicate Settled(s: State) {
    var now := s.log.clock;
    && !Overdue(s.camera, now)
    && (s.panel.shuttingDown || Q.Ready(s.desk.queue, s.panel.online, now).None?)
    && !UploadReady(s, now)
    && DesiredLed(s) == s.panel.led
  }

  lemma CloseSettles(p: Policy, s: State, now: Time)
    requires s.log.clock == now
    ensures Settled(Close(p, s, now))
  {
    hide Q.Expire;
    Closing(p, s, now);
    var s1 := CheckVerdictDeadline(p, s, now);
    var s2 := PumpAlerts(p, s1, now);
    var s3 := PumpUploads(s2, now);
    assert s2.panel.shuttingDown || Q.Ready(s2.desk.queue, s2.panel.online, now).None? by { PumpReadies(p, s1, now); }
    assert s3.desk == s2.desk && s3.panel == s2.panel && !UploadReady(s3, now);
  }

  lemma PumpReadies(p: Policy, s: State, now: Time)
    ensures var t := PumpAlerts(p, s, now);
      t.panel == s.panel && (t.panel.shuttingDown || Q.Ready(t.desk.queue, t.panel.online, now).None?)
  {}

  /** After every handling, reachable state or not. */
  lemma SettledAfter(p: Policy, s: State, i: Input)
    ensures Settled(Handle(p, s, i)) && Handle(p, s, i).log.clock == i.now
  {
    hide Dispatch, Close, Settled;
    HandleDraws(p, s, i);
    DispatchDraws(p, Lapse(s, i.now), i);
    CloseSettles(p, Dispatch(p, Lapse(s, i.now), i), i.now);
  }

  /** The instant is not here yet. */
  predicate NotYet(now: Time, deadline: Option<Time>) { deadline.None? || now < deadline.value }

  lemma DeadlineParts(p: Policy, s: State, now: Time)
    requires !s.panel.shuttingDown && NotYet(now, NextDeadline(p, s))
    ensures NotYet(now, s.timers.motionCooldownUntil) && NotYet(now, s.timers.pressWindowUntil)
    ensures NotYet(now, s.timers.ringLedUntil) && NotYet(now, s.spool.retryAfter)
    ensures NotYet(now, s.desk.queue.retryAfter)
    ensures s.desk.queue.entries != [] ==> now < s.desk.queue.entries[0].at + p.alertMaxAge
    ensures !Overdue(s.camera, now)
  {
    var t, q := s.timers, Q.NextDeadline(s.desk.queue, p.alertMaxAge);
    var held := if Holding(s.camera) then Some(s.camera.event.value.verdictDue) else None;
    var timers := Earlier(Earlier(t.motionCooldownUntil, t.pressWindowUntil), t.ringLedUntil);
    hide Earlier, NotYet;
    assert NextDeadline(p, s) == Earlier(Earlier(Earlier(timers, q), s.spool.retryAfter), held);
    NotYetEither(Earlier(Earlier(timers, q), s.spool.retryAfter), held, now);
    NotYetEither(Earlier(timers, q), s.spool.retryAfter, now);
    NotYetEither(timers, q, now);
    NotYetEither(Earlier(t.motionCooldownUntil, t.pressWindowUntil), t.ringLedUntil, now);
    NotYetEither(t.motionCooldownUntil, t.pressWindowUntil, now);
    QueueParts(s.desk.queue, p.alertMaxAge, now);
    HeldPart(s.camera, held, now);
  }

  lemma NotYetEither(a: Option<Time>, b: Option<Time>, now: Time)
    requires NotYet(now, Earlier(a, b))
    ensures NotYet(now, a) && NotYet(now, b)
  {}

  lemma QueueParts(q: Q.Queue, maxAge: nat, now: Time)
    requires NotYet(now, Q.NextDeadline(q, maxAge))
    ensures NotYet(now, q.retryAfter) && (q.entries != [] ==> now < q.entries[0].at + maxAge)
  {}

  lemma HeldPart(c: Camera, held: Option<Time>, now: Time)
    requires held == (if Holding(c) then Some(c.event.value.verdictDue) else None) && NotYet(now, held)
    ensures !Overdue(c, now)
  {}

  /** An instant at which something runs out: one of the three timers, a wait to try
      again, the oldest alert's age, or the time a held alert is due. */
  predicate Awaited(p: Policy, s: State, at: Time) {
    || s.timers.motionCooldownUntil == Some(at) || s.timers.pressWindowUntil == Some(at) || s.timers.ringLedUntil == Some(at)
    || s.desk.queue.retryAfter == Some(at) || s.spool.retryAfter == Some(at)
    || (s.desk.queue.entries != [] && s.desk.queue.entries[0].at + p.alertMaxAge == at)
    || (s.camera.event.Some? && s.camera.event.value.awaitingVerdict && s.camera.event.value.verdictDue == at)
  }

  /** The wake-up asked for is the first of those instants, and none is asked for
      exactly when there is none, or after a shutdown. */
  lemma DeadlineIsTheFirst(p: Policy, s: State)
    ensures var d := NextDeadline(p, s);
      if s.panel.shuttingDown then d.None?
      else if d.Some? then Awaited(p, s, d.value) && forall at :: Awaited(p, s, at) ==> d.value <= at
      else forall at :: !Awaited(p, s, at)
  {
    var d := NextDeadline(p, s);
    if !s.panel.shuttingDown {
      forall at | Awaited(p, s, at) ensures d.Some? && d.value <= at {
        if d.None? || at < d.value { DeadlineParts(p, s, at); }
      }
    }
  }

  /** Until the deadline the core asked for, a Tick emits no action at all. */
  lemma TickIsSilent(p: Policy, s: State, now: Time, id: EventId)
    requires Settled(s) && s.log.clock <= now && NotYet(now, NextDeadline(p, s))
    ensures Handle(p, s, Input(Tick, now, id)).log.trace == s.log.trace
  {
    hide Q.Push, Q.NextDeadline, Earlier, NextDeadline;
    var s1 := Lapse(s, now);
    if s.panel.shuttingDown {
    } else {
      DeadlineParts(p, s, now);
      assert s1.timers == s.timers;
      var q := Q.Expire(s.desk.queue, p.alertMaxAge, now);
      assert Q.Ready(q, s.panel.online, now).None? by {
        ExpiryWakesNothing(s.desk.queue, p.alertMaxAge, s.panel.online, s.log.clock, now);
      }
      assert CheckVerdictDeadline(p, s1, now) == s1;
    }
  }

  lemma ExpiryWakesNothing(q: Q.Queue, maxAge: nat, online: bool, before: Time, now: Time)
    requires Q.Ready(q, online, before).None? && NotYet(now, q.retryAfter)
    ensures Q.Ready(Q.Expire(q, maxAge, now), online, now).None?
  {}

  /** In every run: the wake-up the core asks for is the only one it needs. */
  lemma OneTimerIsEnough(p: Policy, inputs: seq<Input>, now: Time, id: EventId)
    requires inputs != [] && inputs[|inputs| - 1].now <= now
    requires NotYet(now, NextDeadline(p, Run(p, inputs)))
    ensures Handle(p, Run(p, inputs), Input(Tick, now, id)).log.trace == Run(p, inputs).log.trace
  {
    hide Handle, Settled, NextDeadline;
    var n := |inputs| - 1;
    SettledAfter(p, Run(p, inputs[..n]), inputs[n]);
    TickIsSilent(p, Run(p, inputs), now, id);
  }

  // ---- Held alerts ----

  /** How long an alert of a kind may wait for the camera. */
  function Wait(p: Policy, kind: Kind): nat {
    if kind == Motion then p.detectWindow + p.faceSearch + p.detectGrace else p.ringFaceWait
  }

  predicate HoldInv(p: Policy, s: Story, clock: Time) {
    s.event.Some? && s.event.value.awaiting ==>
      var e := s.event.value;
      && e.alertAt <= clock
      && e.due <= e.alertAt + Wait(p, e.kind)
      && (e.kind == Motion ==> e.due == e.alertAt + Wait(p, Motion) && e.alertAt == e.triggeredAt)
  }

  /** The press is answered by a ring carrying its stamp, or the ring is being held. */
  ghost predicate Answered(s: Story, r: Press) {
    || (exists k :: 0 <= k < |s.enqueued| && AnsweredBy(s.enqueued[k].alert, r))
    || (s.event.Some? && s.event.value.awaiting && s.event.value.kind == Ring
        && s.event.value.id == r.id && s.event.value.alertAt == r.at)
  }

  predicate AnsweredBy(a: Alert, r: Press) { a.kind == Ring && a.id == r.id && a.at == r.at }

  ghost predicate AllAnswered(s: Story) {
    forall k :: 0 <= k < |s.rings| ==> Answered(s, s.rings[k])
  }

  /** Every alert was queued within its wait, give or take the driver's slack. */
  ghost predicate Prompt(p: Policy, s: Story, slack: nat) {
    forall k :: 0 <= k < |s.enqueued| ==>
      s.enqueued[k].alert.at <= s.enqueued[k].at <= s.enqueued[k].alert.at + Wait(p, s.enqueued[k].alert.kind) + slack
  }

  lemma AnsweredStays(s: Story, s1: Story, r: Press)
    requires Answered(s, r) && s.enqueued <= s1.enqueued
    requires s1.event == s.event
      || (s.event.Some? && s.event.value.awaiting ==>
            exists k :: 0 <= k < |s1.enqueued| && AnsweredBy(s1.enqueued[k].alert, Press(s.event.value.id, s.event.value.alertAt)))
      || (s.event.Some? && s.event.value.kind != Ring)
    ensures Answered(s1, r)
  {
    if exists k :: 0 <= k < |s.enqueued| && AnsweredBy(s.enqueued[k].alert, r) {
      var k :| 0 <= k < |s.enqueued| && AnsweredBy(s.enqueued[k].alert, r);
      assert AnsweredBy(s1.enqueued[k].alert, r);
    }
  }

  lemma HoldTell(p: Policy, s: Story, t: Telling, now: Time, id: EventId)
    requires HoldInv(p, s, now) && CanTell(p, s, t)
    ensures HoldInv(p, Tell(p, s, t, now, id), now)
  {}

  lemma HoldStep(p: Policy, s: State, i: Input)
    requires CameraInv(s.camera, s.panel.shuttingDown) && HoldInv(p, StoryOf(s), s.log.clock) && s.log.clock <= i.now
    ensures HoldInv(p, StoryOf(Handle(p, s, i)), i.now)
  {
    hide Dispatch, Close, Tell, CanTell;
    var s1 := Lapse(s, i.now);
    assert HoldInv(p, StoryOf(s1), i.now);
    hide HoldInv;
    var t1 := DispatchTells(p, s1, i);
    HoldTell(p, StoryOf(s1), t1, i.now, i.id);
    var s2 := Dispatch(p, s1, i);
    var t2 := CloseTells(p, s2, i.now, i.id);
    HoldTell(p, StoryOf(s2), t2, i.now, i.id);
  }

  lemma {:induction false} HoldRun(p: Policy, inputs: seq<Input>)
    requires Legal(inputs)
    ensures HoldInv(p, StoryOf(Run(p, inputs)), Run(p, inputs).log.clock)
  {
    if inputs != [] {
      hide Handle, HoldInv, CameraInv;
      var n := |inputs| - 1;
      LegalRunStep(p, inputs);
      CameraRun(p, inputs[..n]);
      HoldRun(p, inputs[..n]);
      HoldStep(p, Run(p, inputs[..n]), inputs[n]);
      HandleDraws(p, Run(p, inputs[..n]), inputs[n]);
    }
  }

  /** In every run, shut down or not, however late its events: a held motion is due
      exactly the window, the face search and the grace after the sensor fired, a
      held ring at most the face wait after its press. */
  lemma HeldIsDue(p: Policy, inputs: seq<Input>)
    requires Legal(inputs) && Holding(Run(p, inputs).camera)
    ensures var e := Run(p, inputs).camera.event.value;
      && e.alertAt <= Run(p, inputs).log.clock
      && (e.kind == Motion ==>
            e.alertAt == e.triggeredAt && e.verdictDue == e.triggeredAt + p.detectWindow + p.faceSearch + p.detectGrace)
      && (e.kind == Ring ==> e.verdictDue <= e.alertAt + p.ringFaceWait)
  {
    hide Run;
    HoldRun(p, inputs);
  }

  lemma AnsweredTell(p: Policy, s: Story, t: Telling, now: Time, id: EventId)
    requires AllAnswered(s) && CanTell(p, s, t)
    ensures AllAnswered(Tell(p, s, t, now, id))
  {
    hide Answered;
    var s1 := Tell(p, s, t, now, id);
    var said := Says(s, t.beat, now, id);
    if said.Some? {
      assert s1.enqueued[|s.enqueued|].alert == said.value;
    }
    forall k | 0 <= k < |s1.rings| ensures Answered(s1, s1.rings[k]) {
      if k < |s.rings| {
        assert Answered(s, s.rings[k]);
        AnsweredStays(s, s1, s.rings[k]);
      } else {
        NewRingAnswered(p, s, t, now, id);
      }
    }
  }

  lemma NewRingAnswered(p: Policy, s: Story, t: Telling, now: Time, id: EventId)
    requires CanTell(p, s, t) && Rings(s, t.beat, id).Some?
    ensures Answered(Tell(p, s, t, now, id), Press(Rings(s, t.beat, id).value, now))
  {
    var s1 := Tell(p, s, t, now, id);
    var r := Press(Rings(s, t.beat, id).value, now);
    var said := Says(s, t.beat, now, id);
    if said.Some? {
      assert AnsweredBy(s1.enqueued[|s.enqueued|].alert, r);
    }
  }

  lemma PromptTell(p: Policy, s: Story, t: Telling, now: Time, id: EventId, slack: nat)
    requires Prompt(p, s, slack) && HoldInv(p, s, now) && CanTell(p, s, t)
    requires s.event.Some? && s.event.value.awaiting ==> now <= s.event.value.due + slack
    ensures Prompt(p, Tell(p, s, t, now, id), slack)
    ensures var e := Tell(p, s, t, now, id).event; e.Some? && e.value.awaiting ==> now <= e.value.due + slack
  {}

  ghost predicate Kept(p: Policy, s: Story, clock: Time, slack: nat) {
    HoldInv(p, s, clock) && AllAnswered(s) && Prompt(p, s, slack)
  }

  lemma KeptTell(p: Policy, s: Story, t: Telling, now: Time, id: EventId, slack: nat)
    requires Kept(p, s, now, slack) && CanTell(p, s, t)
    requires s.event.Some? && s.event.value.awaiting ==> now <= s.event.value.due + slack
    ensures var s1 := Tell(p, s, t, now, id);
      Kept(p, s1, now, slack) && (s1.event.Some? && s1.event.value.awaiting ==> now <= s1.event.value.due + slack)
  {
    hide Tell, CanTell, HoldInv, AllAnswered, Prompt;
    HoldTell(p, s, t, now, id);
    AnsweredTell(p, s, t, now, id);
    PromptTell(p, s, t, now, id, slack);
  }

  /** The driver wakes the core by the deadline it asked for, or at once if that
      has passed, give or take a slack. */
  predicate OnTime(p: Policy, slack: nat, s: State, now: Time) {
    var d := NextDeadline(p, s);
    d.Some? ==> now <= Max(d.value, s.log.clock) + slack
  }

  ghost predicate Driven(p: Policy, slack: nat, inputs: seq<Input>) {
    forall n :: 0 < n < |inputs| ==> OnTime(p, slack, Run(p, inputs[..n]), inputs[n].now)
  }

  /** The deadline asked for never lies after a held alert's own. */
  lemma DeadlineCoversHold(p: Policy, s: State)
    requires !s.panel.shuttingDown && Holding(s.camera)
    ensures NextDeadline(p, s).Some? && NextDeadline(p, s).value <= s.camera.event.value.verdictDue
  {
    hide Q.NextDeadline;
  }

  lemma KeptStep(p: Policy, s: State, i: Input, slack: nat)
    requires CameraInv(s.camera, s.panel.shuttingDown) && Kept(p, StoryOf(s), s.log.clock, slack)
    requires s.log.clock <= i.now
    requires Holding(s.camera) ==> i.now <= s.camera.event.value.verdictDue + slack
    ensures var t := Handle(p, s, i); Kept(p, StoryOf(t), t.log.clock, slack)
  {
    hide Dispatch, Close, Tell, CanTell, Kept;
    HandleDraws(p, s, i);
    var s1 := Lapse(s, i.now);
    LapseKeeps(p, s, i.now, slack);
    var t1 := DispatchTells(p, s1, i);
    KeptTell(p, StoryOf(s1), t1, i.now, i.id, slack);
    var s2 := Dispatch(p, s1, i);
    var t2 := CloseTells(p, s2, i.now, i.id);
    KeptTell(p, StoryOf(s2), t2, i.now, i.id, slack);
  }

  lemma LapseKeeps(p: Policy, s: State, now: Time, slack: nat)
    requires Kept(p, StoryOf(s), s.log.clock, slack) && s.log.clock <= now
    ensures Kept(p, StoryOf(Lapse(s, now)), now, slack)
  {
    var a, b := StoryOf(s), StoryOf(Lapse(s, now));
    forall k | 0 <= k < |b.rings| ensures Answered(b, b.rings[k]) {
      assert Answered(a, a.rings[k]);
      AnsweredStays(a, b, a.rings[k]);
    }
  }

  lemma ShutdownSticks(p: Policy, s: State, i: Input)
    requires s.panel.shuttingDown
    ensures Handle(p, s, i).panel.shuttingDown
  {
    hide Dispatch, Close;
    var s1 := Lapse(s, i.now);
    DispatchStaysDown(p, s1, i);
    Closing(p, Dispatch(p, s1, i), i.now);
  }

  lemma DispatchStaysDown(p: Policy, s: State, i: Input)
    requires s.panel.shuttingDown
    ensures Dispatch(p, s, i).panel.shuttingDown
  {
    hide Pumped, NextAlert, Overflow, WorthKeeping;
    if FromSensor(i.event) {
    } else if FromRecorder(i.event) {
    } else {
    }
  }

  lemma {:induction false} KeptRun(p: Policy, inputs: seq<Input>, slack: nat)
    requires Legal(inputs) && Driven(p, slack, inputs)
    requires !Run(p, inputs).panel.shuttingDown
    ensures var t := Run(p, inputs); Kept(p, StoryOf(t), t.log.clock, slack)
  {
    if inputs != [] {
      hide Handle, Kept, NextDeadline, Settled, CameraInv;
      var n := |inputs| - 1;
      var s := Run(p, inputs[..n]);
      if s.panel.shuttingDown { ShutdownSticks(p, s, inputs[n]); }
      LegalRunStep(p, inputs);
      CameraRun(p, inputs[..n]);
      DrivenBefore(p, slack, inputs);
      KeptRun(p, inputs[..n], slack);
      if n > 0 && Holding(s.camera) {
        DeadlineCoversHold(p, s);
        NotOverdueAfter(p, inputs[..n]);
      }
      KeptStep(p, s, inputs[n], slack);
    }
  }

  lemma DrivenBefore(p: Policy, slack: nat, inputs: seq<Input>)
    requires inputs != [] && Driven(p, slack, inputs)
    ensures Driven(p, slack, inputs[..|inputs| - 1])
    ensures |inputs| > 1 ==> OnTime(p, slack, Run(p, inputs[..|inputs| - 1]), inputs[|inputs| - 1].now)
  {
    hide Run, OnTime;
    var front := inputs[..|inputs| - 1];
    forall n | 0 < n < |front| ensures OnTime(p, slack, Run(p, front[..n]), front[n].now) {
      assert front[..n] == inputs[..n] && front[n] == inputs[n];
    }
  }

  /** After every event, a held alert is still before its own deadline, and the
      deadline the core asks for comes no later. */
  lemma NotOverdueAfter(p: Policy, inputs: seq<Input>)
    requires inputs != []
    ensures var t := Run(p, inputs); Holding(t.camera) ==>
      && inputs[|inputs| - 1].now == t.log.clock < t.camera.event.value.verdictDue
      && (!t.panel.shuttingDown ==>
            NextDeadline(p, t).Some? && NextDeadline(p, t).value <= t.camera.event.value.verdictDue)
  {
    hide Handle, NextDeadline;
    var n := |inputs| - 1;
    SettledAfter(p, Run(p, inputs[..n]), inputs[n]);
    var t := Run(p, inputs);
    if Holding(t.camera) && !t.panel.shuttingDown { DeadlineCoversHold(p, t); }
  }

  /** Under a driver that wakes the core in time, every press that minted a ring
      or turned a motion into one is, at every moment before shutdown, either
      answered by a ring with its id and stamp, queued within ring_face_wait of
      the press, or still held with that wait not yet over. */
  lemma RingInTime(p: Policy, inputs: seq<Input>, slack: nat, k: nat)
    requires Legal(inputs) && inputs != [] && Driven(p, slack, inputs)
    requires !Run(p, inputs).panel.shuttingDown && k < |Run(p, inputs).log.rings|
    ensures var t := Run(p, inputs); var r := t.log.rings[k];
      || (exists j :: 0 <= j < |t.desk.enqueued|
            && AnsweredBy(t.desk.enqueued[j].alert, r)
            && r.at <= t.desk.enqueued[j].at <= r.at + p.ringFaceWait + slack)
      || (Holding(t.camera) && HeldAlert(t.camera, "") == Alert(r.id, Ring, r.at, "")
            && t.log.clock < r.at + p.ringFaceWait)
  {
    hide Run, NextDeadline;
    var t := Run(p, inputs);
    KeptRun(p, inputs, slack);
    NotOverdueAfter(p, inputs);
    var r := t.log.rings[k];
    assert Answered(StoryOf(t), StoryOf(t).rings[k]);
    if exists j :: 0 <= j < |t.desk.enqueued| && AnsweredBy(t.desk.enqueued[j].alert, r) {
      var j :| 0 <= j < |t.desk.enqueued| && AnsweredBy(t.desk.enqueued[j].alert, r);
      assert StoryOf(t).enqueued[j] == t.desk.enqueued[j];
    }
  }

  /** And every alert, motion or ring, is queued within its own wait. */
  lemma AlertInTime(p: Policy, inputs: seq<Input>, slack: nat, k: nat)
    requires Legal(inputs) && Driven(p, slack, inputs)
    requires !Run(p, inputs).panel.shuttingDown && k < |Run(p, inputs).desk.enqueued|
    ensures var e := Run(p, inputs).desk.enqueued[k];
      e.alert.at <= e.at <= e.alert.at + Wait(p, e.alert.kind) + slack
  {
    hide Run;
    KeptRun(p, inputs, slack);
    assert StoryOf(Run(p, inputs)).enqueued[k] == Run(p, inputs).desk.enqueued[k];
  }

  /** Which presses are owed a ring: those outside the window, before shutdown,
      that do not land on a recording that is a ring already. */
  lemma PressIsOwedARing(p: Policy, s: State, now: Time, id: EventId)
    requires CameraInv(s.camera, s.panel.shuttingDown)
    ensures var t := Handle(p, s, Input(ButtonPressed, now, id));
      if !s.panel.shuttingDown && Running(s.timers.pressWindowUntil, now).None?
         && !(Joins(s.camera) && s.camera.event.value.kind == Ring)
      then t.log.rings == s.log.rings + [Press(if Joins(s.camera) then s.camera.event.value.id else id, now)]
      else t.log.rings == s.log.rings
  {
    hide Close, NextAlert;
    var s1 := Lapse(s, now);
    Closing(p, OnButton(p, s1, now, id), now);
  }
}
