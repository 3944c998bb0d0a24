/** What a press or a motion does, and when it counts, read off the inputs. */
module CoreSensors {
  import opened Types
  import opened CoreRules
  import opened CoreRuns
  import opened CoreStories
  import opened CoreAlerting
  import O = CoreOrders
  import L = CoreLight

  // ---- When a press or a motion counts: the timers, from the inputs ----

  /** Until when presses only ring: dedup after the last press that was not itself
      inside such a window. */
  function QuietPressesUntil(p: Policy, inputs: seq<Input>): Option<Time>
    decreases |inputs|
  {
    if inputs == [] then None
    else
      var n := |inputs| - 1;
      var before, i := QuietPressesUntil(p, inputs[..n]), inputs[n];
      if i.event.ButtonPressed? && !L.ShutDown(inputs[..n]) && !(before.Some? && i.now < before.value)
      then Some(i.now + p.pressDedupWindow) else before
  }

  /** Until when motions are ignored: the cooldown after the last one that was not,
      or the shorter one after the last silenced motion. */
  function QuietMotionsUntil(p: Policy, inputs: seq<Input>): Option<Time>
    decreases |inputs|
  {
    if inputs == [] then None
    else
      var n := |inputs| - 1;
      var before, i := QuietMotionsUntil(p, inputs[..n]), inputs[n];
      if i.event.MotionDetected? && !L.ShutDown(inputs[..n]) && !(before.Some? && i.now < before.value)
      then Some(i.now + p.motionCooldown)
      else if i.event.DetectionResult? && Hushed(Run(p, inputs[..n]), i.event, i.event.id)
      then Some(i.now + p.noPersonCooldown)
      else before
  }

  /** At no later time can the two be told apart. */
  ghost predicate SameFrom(a: Option<Time>, b: Option<Time>, clock: Time) {
    forall now: Time :: clock <= now ==> Running(a, now) == Running(b, now)
  }

  lemma TimersStep(p: Policy, inputs: seq<Input>)
    requires inputs != [] && Run(p, inputs[..|inputs| - 1]).log.clock <= inputs[|inputs| - 1].now
    requires var s := Run(p, inputs[..|inputs| - 1]);
      && s.panel.shuttingDown == L.ShutDown(inputs[..|inputs| - 1])
      && SameFrom(s.timers.pressWindowUntil, QuietPressesUntil(p, inputs[..|inputs| - 1]), s.log.clock)
      && SameFrom(s.timers.motionCooldownUntil, QuietMotionsUntil(p, inputs[..|inputs| - 1]), s.log.clock)
    ensures var t := Handle(p, Run(p, inputs[..|inputs| - 1]), inputs[|inputs| - 1]); var i := inputs[|inputs| - 1];
      && SameFrom(t.timers.pressWindowUntil, QuietPressesUntil(p, inputs), i.now)
      && SameFrom(t.timers.motionCooldownUntil, QuietMotionsUntil(p, inputs), i.now)
  {
    hide Run, Handle, Hushed, L.ShutDown, QuietPressesUntil, QuietMotionsUntil;
    var n := |inputs| - 1;
    var s, i := Run(p, inputs[..n]), inputs[n];
    var was, wasMotion := QuietPressesUntil(p, inputs[..n]), QuietMotionsUntil(p, inputs[..n]);
    Latest(p, inputs);
    HandleTimers(p, inputs[..n], i);
    assert Running(s.timers.pressWindowUntil, i.now) == Running(was, i.now);
    assert Running(s.timers.motionCooldownUntil, i.now) == Running(wasMotion, i.now);
    RunsOut(s.timers.pressWindowUntil, was, i.now);
    RunsOut(s.timers.motionCooldownUntil, wasMotion, i.now);
  }

  /** What one event makes of the two timers. */
  lemma HandleTimers(p: Policy, inputs: seq<Input>, i: Input)
    ensures var s := Run(p, inputs); var t := Handle(p, s, i);
      var press, motion := Running(s.timers.pressWindowUntil, i.now), Running(s.timers.motionCooldownUntil, i.now);
      && t.timers.pressWindowUntil
         == (if i.event.ButtonPressed? && !s.panel.shuttingDown && press.None? then Some(i.now + p.pressDedupWindow)
             else press)
      && t.timers.motionCooldownUntil
         == (if i.event.MotionDetected? && !s.panel.shuttingDown && motion.None? then Some(i.now + p.motionCooldown)
             else if i.event.DetectionResult? && Hushed(s, i.event, i.event.id) then Some(i.now + p.noPersonCooldown)
             else motion)
  {
    hide Run, Handle;
    var s := Run(p, inputs);
    TheStoryGoesOn(p, inputs, i);
    assert StoryOf(Handle(p, s, i)) == Unfolded(p, s, i);
  }

  lemma Latest(p: Policy, inputs: seq<Input>)
    requires inputs != []
    ensures var n := |inputs| - 1; var i := inputs[n];
      var before := QuietPressesUntil(p, inputs[..n]);
      QuietPressesUntil(p, inputs)
        == if i.event.ButtonPressed? && !L.ShutDown(inputs[..n]) && !(before.Some? && i.now < before.value)
           then Some(i.now + p.pressDedupWindow) else before
    ensures var n := |inputs| - 1; var i := inputs[n];
      var before := QuietMotionsUntil(p, inputs[..n]);
      QuietMotionsUntil(p, inputs)
        == if i.event.MotionDetected? && !L.ShutDown(inputs[..n]) && !(before.Some? && i.now < before.value)
           then Some(i.now + p.motionCooldown)
           else if i.event.DetectionResult? && Hushed(Run(p, inputs[..n]), i.event, i.event.id)
           then Some(i.now + p.noPersonCooldown)
           else before
  {
    hide Run, Hushed, L.ShutDown;
  }

  lemma RunsOut(a: Option<Time>, b: Option<Time>, clock: Time)
    requires Running(a, clock) == Running(b, clock)
    ensures SameFrom(Running(a, clock), b, clock)
  {}

  /** The two timers of a run are those, for every later time. */
  lemma {:induction false} TimersFollowTheInputs(p: Policy, inputs: seq<Input>)
    requires Legal(inputs)
    ensures var s := Run(p, inputs);
      && SameFrom(s.timers.pressWindowUntil, QuietPressesUntil(p, inputs), s.log.clock)
      && SameFrom(s.timers.motionCooldownUntil, QuietMotionsUntil(p, inputs), s.log.clock)
    decreases |inputs|
  {
    if inputs != [] {
      hide Handle, L.ShutDown, SameFrom, Legal;
      var front := inputs[..|inputs| - 1];
      LegalRunStep(p, inputs);
      TimersFollowTheInputs(p, front);
      L.PanelRun(p, front);
      TimersStep(p, inputs);
      HandleDraws(p, Run(p, front), inputs[|inputs| - 1]);
    }
  }

  // ---- What it does ----

  /** Not before the timer is over, and not after a shutdown. */
  predicate Counts(inputs: seq<Input>, quietUntil: Option<Time>, now: Time) {
    !L.ShutDown(inputs) && !(quietUntil.Some? && now < quietUntil.value)
  }

  /** The alert a camera lets go of because its time is up. */
  function LateRelease(c: Camera, now: Time): seq<Enqueued> {
    if c.event.Some? && c.event.value.awaitingVerdict && now >= c.event.value.verdictDue then
      var e := c.event.value;
      [Enqueued(Alert(e.id, e.kind, e.alertAt, ""), now)]
    else []
  }

  /** No id is drawn and no press noted. */
  predicate NothingNew(s: State, t: State) {
    t.log.minted == s.log.minted && t.log.rings == s.log.rings
  }

  /** An alert of its own, at once. */
  predicate AlertedAtOnce(s: State, t: State, kind: Kind, i: Input) {
    t.desk.enqueued == s.desk.enqueued + [Enqueued(Alert(i.id, kind, i.now, ""), i.now)] + LateRelease(s.camera, i.now)
  }

  /** A recording of its own, and whether its alert waits for the camera. */
  predicate Began(s: State, t: State, kind: Kind, i: Input, orders: seq<O.Order>, order: O.Order, due: Option<Time>) {
    && orders == [order]
    && t.camera.recording == Active && t.camera.event.Some?
    && var e := t.camera.event.value;
       && e.id == i.id && e.kind == kind && e.triggeredAt == i.now && !e.unwanted && !e.cutShort
       && e.awaitingVerdict == due.Some?
       && (due.Some? ==> e.verdictDue == due.value && e.alertAt == i.now)
  }

  /** The state a counting event is handled in agrees with the inputs. */
  lemma CountsIs(p: Policy, inputs: seq<Input>, now: Time)
    requires Legal(inputs) && Run(p, inputs).log.clock <= now
    ensures var s := Run(p, inputs);
      && s.panel.shuttingDown == L.ShutDown(inputs)
      && Counts(inputs, QuietPressesUntil(p, inputs), now)
           == (!s.panel.shuttingDown && Running(s.timers.pressWindowUntil, now).None?)
      && Counts(inputs, QuietMotionsUntil(p, inputs), now)
           == (!s.panel.shuttingDown && Running(s.timers.motionCooldownUntil, now).None?)
  {
    hide Run, QuietPressesUntil, QuietMotionsUntil, L.ShutDown, Legal;
    TimersFollowTheInputs(p, inputs);
    L.PanelRun(p, inputs);
  }

  /** A motion that does not count does nothing. */
  lemma MotionIgnored(p: Policy, inputs: seq<Input>, i: Input)
    requires Legal(inputs) && Run(p, inputs).log.clock <= i.now && i.event.MotionDetected?
    requires !Counts(inputs, QuietMotionsUntil(p, inputs), i.now) || Run(p, inputs).camera.recording != NotRecording
    ensures var s := Run(p, inputs); var t := Handle(p, s, i);
      NothingNew(s, t) && t.desk.enqueued == s.desk.enqueued + LateRelease(s.camera, i.now)
  {
    hide Run, Handle, QuietMotionsUntil, L.ShutDown, Legal;
    var s := Run(p, inputs);
    CountsIs(p, inputs, i.now);
    TheStoryGoesOn(p, inputs, i);
    assert StoryOf(Handle(p, s, i)) == Unfolded(p, s, i);
    assert s.desk.enqueued + [] == s.desk.enqueued;
  }

  /** One that does, with the camera at rest: watched, it is told at once; else it is
      recorded, and told at once only if nobody looks for a person. */
  lemma MotionAnswered(p: Policy, inputs: seq<Input>, i: Input)
    requires ValidPolicy(p)
    requires Legal(inputs) && Run(p, inputs).log.clock <= i.now && i.event.MotionDetected?
    requires Counts(inputs, QuietMotionsUntil(p, inputs), i.now) && Run(p, inputs).camera.recording == NotRecording
    ensures var s := Run(p, inputs); var t := Handle(p, s, i); var orders := O.Orders(NewActions(s, t));
      && t.log.minted == s.log.minted[i.id := i.now]
      && if s.camera.viewers != {} then AlertedAtOnce(s, t, Motion, i) && orders == []
         else if p.personDetection then
           && t.desk.enqueued == s.desk.enqueued
           && Began(s, t, Motion, i, orders, O.Roll(i.id, p.clip, p.detectWindow, 0),
                    Some(i.now + p.detectWindow + p.faceSearch + p.detectGrace))
         else AlertedAtOnce(s, t, Motion, i) && Began(s, t, Motion, i, orders, O.Roll(i.id, p.clip, 0, 0), None)
  {
    hide Run, Handle, QuietMotionsUntil, L.ShutDown, Legal, O.Orders, NewActions;
    var s := Run(p, inputs);
    var t := Handle(p, s, i);
    CountsIs(p, inputs, i.now);
    CameraRun(p, inputs);
    TheStoryGoesOn(p, inputs, i);
    assert StoryOf(t) == Unfolded(p, s, i);
    O.HandleOrders(p, s, i);
    O.NewOrders(p, s, i);
    CameraStep(p, s, i);
    assert s.desk.enqueued + [Enqueued(Alert(i.id, Motion, i.now, ""), i.now)] + []
        == s.desk.enqueued + [Enqueued(Alert(i.id, Motion, i.now, ""), i.now)];
  }

  /** A press that does not count draws nothing and is owed nothing. */
  lemma PressIgnored(p: Policy, inputs: seq<Input>, i: Input)
    requires Legal(inputs) && Run(p, inputs).log.clock <= i.now && i.event.ButtonPressed?
    requires !Counts(inputs, QuietPressesUntil(p, inputs), i.now)
    ensures var s := Run(p, inputs); var t := Handle(p, s, i);
      NothingNew(s, t) && t.desk.enqueued == s.desk.enqueued + LateRelease(s.camera, i.now)
  {
    hide Run, Handle, QuietPressesUntil, L.ShutDown, Legal;
    var s := Run(p, inputs);
    CountsIs(p, inputs, i.now);
    TheStoryGoesOn(p, inputs, i);
    assert StoryOf(Handle(p, s, i)) == Unfolded(p, s, i);
    assert s.desk.enqueued + [] == s.desk.enqueued;
  }

  /** What such a press tells, its orders aside. */
  lemma PressTellsItsOwn(p: Policy, inputs: seq<Input>, i: Input)
    requires var s := Run(p, inputs);
      && i.event.ButtonPressed? && !s.panel.shuttingDown && Running(s.timers.pressWindowUntil, i.now).None?
      && !Joins(s.camera) && CameraInv(s.camera, false)
    ensures var s := Run(p, inputs); var t := Handle(p, s, i);
      var free := s.camera.viewers == {} && s.camera.recording == NotRecording;
      && t.log.minted == s.log.minted[i.id := i.now] && t.log.rings == s.log.rings + [Press(i.id, i.now)]
      && (free && p.ringFaceWait > 0 ==> t.desk.enqueued == s.desk.enqueued)
      && (!(free && p.ringFaceWait > 0) ==> AlertedAtOnce(s, t, Ring, i))
      && (free ==>
            t.camera.event.Some? &&
            var e := t.camera.event.value;
            && e.id == i.id && e.kind == Ring && e.triggeredAt == i.now && !e.unwanted
            && e.awaitingVerdict == (p.ringFaceWait > 0)
            && (p.ringFaceWait > 0 ==> e.verdictDue == i.now + p.ringFaceWait && e.alertAt == i.now))
  {
    hide Run, Handle;
    var s := Run(p, inputs);
    TheStoryGoesOn(p, inputs, i);
    assert StoryOf(Handle(p, s, i)) == Unfolded(p, s, i);
    assert s.desk.enqueued + [Enqueued(Alert(i.id, Ring, i.now, ""), i.now)] + []
        == s.desk.enqueued + [Enqueued(Alert(i.id, Ring, i.now, ""), i.now)];
  }

  /** A press that counts and joins no recording draws an id and is a ring of its own:
      told at once if the camera is taken, otherwise recorded, and held for a name
      exactly if names are waited for. */
  lemma PressAnswered(p: Policy, inputs: seq<Input>, i: Input)
    requires Legal(inputs) && Run(p, inputs).log.clock <= i.now && i.event.ButtonPressed?
    requires Counts(inputs, QuietPressesUntil(p, inputs), i.now) && !Joins(Run(p, inputs).camera)
    ensures var s := Run(p, inputs); var t := Handle(p, s, i); var orders := O.Orders(NewActions(s, t));
      && t.log.minted == s.log.minted[i.id := i.now] && t.log.rings == s.log.rings + [Press(i.id, i.now)]
      && if s.camera.viewers != {} || s.camera.recording != NotRecording then
           AlertedAtOnce(s, t, Ring, i) && orders == []
         else if p.ringFaceWait > 0 then
           && t.desk.enqueued == s.desk.enqueued
           && Began(s, t, Ring, i, orders, O.Roll(i.id, p.clip, 0, p.ringFaceWait), Some(i.now + p.ringFaceWait))
         else AlertedAtOnce(s, t, Ring, i) && Began(s, t, Ring, i, orders, O.Roll(i.id, p.clip, 0, 0), None)
  {
    hide Run, Handle, QuietPressesUntil, L.ShutDown, Legal, O.Orders, NewActions, StoryOf, Unfolded;
    var s := Run(p, inputs);
    CountsIs(p, inputs, i.now);
    CameraRun(p, inputs);
    PressTellsItsOwn(p, inputs, i);
    O.HandleOrders(p, s, i);
    O.NewOrders(p, s, i);
    CameraStep(p, s, i);
  }

  /** One that joins a recording draws nothing. A ring's takes it in silence; a
      motion's turns into a ring, which stays held if the motion was and names are
      waited for, for no longer than a ring of its own would be, and is told at once
      with the faces seen so far if not. */
  lemma PressJoined(p: Policy, inputs: seq<Input>, i: Input)
    requires Legal(inputs) && Run(p, inputs).log.clock <= i.now && i.event.ButtonPressed?
    requires Counts(inputs, QuietPressesUntil(p, inputs), i.now) && Joins(Run(p, inputs).camera)
    ensures var s := Run(p, inputs); var t := Handle(p, s, i); var e := s.camera.event.value;
      && t.log.minted == s.log.minted && O.Orders(NewActions(s, t)) == []
      && t.camera.event.Some? && t.camera.event.value.kind == Ring && t.camera.event.value.id == e.id
      && t.camera.event.value.triggeredAt == e.triggeredAt
      && if e.kind == Ring then
           t.log.rings == s.log.rings && t.desk.enqueued == s.desk.enqueued + LateRelease(s.camera, i.now)
         else
           && t.log.rings == s.log.rings + [Press(e.id, i.now)] && !t.camera.event.value.unwanted
           && if e.awaitingVerdict && p.ringFaceWait > 0 then
                var due := Min(e.verdictDue, i.now + p.ringFaceWait);
                if i.now < due then
                  t.desk.enqueued == s.desk.enqueued && t.camera.event.value.awaitingVerdict
                  && t.camera.event.value.verdictDue == due && t.camera.event.value.alertAt == i.now
                else t.desk.enqueued == s.desk.enqueued + [Enqueued(Alert(e.id, Ring, i.now, ""), i.now)]
              else
                t.desk.enqueued == s.desk.enqueued + [Enqueued(Alert(e.id, Ring, i.now, e.faces), i.now)]
                && !t.camera.event.value.awaitingVerdict
  {
    hide Run, Handle, QuietPressesUntil, L.ShutDown, Legal, O.Orders, NewActions;
    var s := Run(p, inputs);
    var t := Handle(p, s, i);
    CountsIs(p, inputs, i.now);
    CameraRun(p, inputs);
    TheStoryGoesOn(p, inputs, i);
    assert StoryOf(t) == Unfolded(p, s, i);
    O.HandleOrders(p, s, i);
    O.NewOrders(p, s, i);
    assert s.desk.enqueued + [] == s.desk.enqueued;
  }

  // ---- And what else queues an alert ----

  /** The end of a recording lets an alert still held for it go, with no names. */
  lemma EndReleases(p: Policy, inputs: seq<Input>, i: Input)
    requires i.event.RecordingFinished?
    ensures var s := Run(p, inputs); var t := Handle(p, s, i); var c := s.camera;
      && NothingNew(s, t)
      && t.desk.enqueued
         == if c.event.Some? && c.event.value.awaitingVerdict then
              var e := c.event.value;
              s.desk.enqueued + [Enqueued(Alert(e.id, e.kind, e.alertAt, ""), i.now)]
            else s.desk.enqueued
  {
    hide Run, Handle;
    var s := Run(p, inputs);
    TheStoryGoesOn(p, inputs, i);
    assert StoryOf(Handle(p, s, i)) == Unfolded(p, s, i);
  }

  /** Neither sensor nor recorder: nothing is queued but an alert whose time is up. */
  lemma OthersQueueTheLate(p: Policy, inputs: seq<Input>, i: Input)
    requires !FromSensor(i.event) && !FromRecorder(i.event)
    ensures var s := Run(p, inputs); var t := Handle(p, s, i);
      NothingNew(s, t) && t.desk.enqueued == s.desk.enqueued + LateRelease(s.camera, i.now)
  {
    hide Run, Handle;
    var s := Run(p, inputs);
    TheStoryGoesOn(p, inputs, i);
    assert StoryOf(Handle(p, s, i)) == Unfolded(p, s, i);
    assert s.desk.enqueued + [] == s.desk.enqueued;
  }
}
