/** What every reachable state of the decision engine looks like: who has the
    camera, and where ids and the clock come from. */
module CoreRuns {
  import opened Types
  import opened CoreRules

  /** Who has the camera, and why. The rest of the device relies on each line. */
  ghost predicate CameraInv(c: Camera, shuttingDown: bool) {
    && (c.recording == NotRecording <==> c.event.None?)
    && (c.recording != NotRecording ==> c.viewers == {})
    && (c.deferredCall.Some? ==> c.recording == Stopping)
    && (c.event.Some? ==> (c.event.value.cutShort <==> c.recording == Stopping))
    && (c.event.Some? && c.event.value.unwanted ==>
          c.recording == Stopping && c.event.value.kind == Motion && !c.event.value.awaitingVerdict)
    && (shuttingDown ==> c.viewers == {} && c.deferredCall.None? && c.recording != Active)
  }

  predicate FromSensor(e: Event) { e.ButtonPressed? || e.MotionDetected? }

  predicate FromRecorder(e: Event) { e.RecordingFinished? || e.DetectionResult? }

  lemma CameraSensor(p: Policy, s: State, i: Input)
    requires CameraInv(s.camera, s.panel.shuttingDown) && FromSensor(i.event)
    ensures var t := Dispatch(p, s, i); CameraInv(t.camera, t.panel.shuttingDown)
  {
    hide Pumped, NextAlert;
  }

  lemma CameraRecorder(p: Policy, s: State, i: Input)
    requires CameraInv(s.camera, s.panel.shuttingDown) && FromRecorder(i.event)
    ensures var t := Dispatch(p, s, i); CameraInv(t.camera, t.panel.shuttingDown)
  {
    hide Pumped, NextAlert, Overflow;
  }

  lemma CameraOther(p: Policy, s: State, i: Input)
    requires CameraInv(s.camera, s.panel.shuttingDown) && !FromSensor(i.event) && !FromRecorder(i.event)
    ensures var t := Dispatch(p, s, i); CameraInv(t.camera, t.panel.shuttingDown)
  {
  }

  lemma WorthKeepingIsDescribed(p: Policy, e: Option<ActiveEvent>, id: EventId, ok: bool, duration: nat, bytes: nat)
    requires WorthKeeping(p, e, id, ok, duration, bytes)
    ensures e.Some? && !e.value.unwanted
  {}

  /** What one handling added to the trace. */
  function NewActions(s: State, t: State): seq<Action> {
    if s.log.trace <= t.log.trace then t.log.trace[|s.log.trace|..] else []
  }

  /** What the end of every handling does, field by field. */
  lemma Closing(p: Policy, s: State, now: Time)
    ensures var t := Close(p, s, now);
      && t.camera == (if Overdue(s.camera, now) then LetGo(s.camera) else s.camera)
      && t.timers == s.timers
      && t.desk.enqueued == s.desk.enqueued
           + (if Overdue(s.camera, now) then [Enqueued(HeldAlert(s.camera, ""), now)] else [])
      && t.spool.(inFlight := s.spool.inFlight) == s.spool
      && t.panel.(led := s.panel.led) == s.panel
      && t.log.(trace := s.log.trace) == s.log
  {
    hide Pumped, NextAlert;
    var s1 := CheckVerdictDeadline(p, s, now);
    var s2 := PumpAlerts(p, s1, now);
    assert s2.desk.enqueued == s1.desk.enqueued by { PumpKeeps(p, s1.desk, s1.panel.online, now); }
    assert s1.desk.enqueued == s.desk.enqueued
           + (if Overdue(s.camera, now) then [Enqueued(HeldAlert(s.camera, ""), now)] else []) by {
      if Overdue(s.camera, now) {
        var d := Enqueue(p, s.desk, HeldAlert(s.camera, ""), now);
        PumpKeeps(p, d, s.panel.online, now);
      }
    }
  }

  lemma PumpKeeps(p: Policy, d: Desk, online: bool, now: Time)
    ensures Pumped(p, d, online, now).enqueued == d.enqueued
  {}

  lemma CameraStep(p: Policy, s: State, i: Input)
    requires CameraInv(s.camera, s.panel.shuttingDown)
    ensures var t := Handle(p, s, i); CameraInv(t.camera, t.panel.shuttingDown)
  {
    hide Dispatch, Close;
    var s1 := Lapse(s, i.now);
    if FromSensor(i.event) { CameraSensor(p, s1, i); }
    else if FromRecorder(i.event) { CameraRecorder(p, s1, i); }
    else { CameraOther(p, s1, i); }
    Closing(p, Dispatch(p, s1, i), i.now);
  }

  lemma {:induction false} CameraRun(p: Policy, inputs: seq<Input>)
    ensures var t := Run(p, inputs); CameraInv(t.camera, t.panel.shuttingDown)
  {
    hide Handle;
    if inputs != [] {
      var n := |inputs| - 1;
      CameraRun(p, inputs[..n]);
      CameraStep(p, Run(p, inputs[..n]), inputs[n]);
    }
  }

  lemma DispatchMints(p: Policy, s: State, i: Input)
    ensures Dispatch(p, s, i).log.clock == s.log.clock
    ensures var t := Dispatch(p, s, i);
      t.log.minted == s.log.minted || (FromSensor(i.event) && t.log.minted == s.log.minted[i.id := i.now])
  {
    hide Pumped, NextAlert, Overflow;
    if FromSensor(i.event) {
    } else if FromRecorder(i.event) {
    } else {
    }
  }

  lemma DispatchDraws(p: Policy, s: State, i: Input)
    ensures Dispatch(p, s, i).log.clock == s.log.clock
    ensures Dispatch(p, s, i).log.minted.Keys <= s.log.minted.Keys + {i.id}
  {
    hide Dispatch;
    DispatchMints(p, s, i);
  }

  lemma HandleDraws(p: Policy, s: State, i: Input)
    ensures Handle(p, s, i).log.clock == i.now
    ensures Handle(p, s, i).log.minted.Keys <= s.log.minted.Keys + {i.id}
  {
    hide Dispatch, Close;
    DispatchDraws(p, Lapse(s, i.now), i);
    Closing(p, Dispatch(p, Lapse(s, i.now), i), i.now);
  }

  function Ids(inputs: seq<Input>): set<EventId> {
    set k | 0 <= k < |inputs| :: inputs[k].id
  }

  /** Ids are only ever drawn from the inputs, and the clock is the last one's. */
  lemma {:induction false} RunDraws(p: Policy, inputs: seq<Input>)
    ensures Run(p, inputs).log.minted.Keys <= Ids(inputs)
    ensures Run(p, inputs).log.clock == if inputs == [] then 0 else inputs[|inputs| - 1].now
  {
    hide Handle;
    if inputs != [] {
      var n := |inputs| - 1;
      RunDraws(p, inputs[..n]);
      HandleDraws(p, Run(p, inputs[..n]), inputs[n]);
      assert forall id :: id in Ids(inputs[..n]) ==> id in Ids(inputs) by {
        assert forall k :: 0 <= k < n ==> inputs[..n][k] == inputs[k];
      }
      assert inputs[n].id in Ids(inputs);
    }
  }

  lemma HandleMints(p: Policy, s: State, i: Input)
    ensures var t := Handle(p, s, i);
      t.log.minted == s.log.minted || (FromSensor(i.event) && t.log.minted == s.log.minted[i.id := i.now])
  {
    hide Dispatch, Close;
    DispatchMints(p, Lapse(s, i.now), i);
    Closing(p, Dispatch(p, Lapse(s, i.now), i), i.now);
  }

  /** Some sensor event drew that id at that time. */
  ghost predicate DrawnAt(inputs: seq<Input>, id: EventId, at: Time) {
    exists n :: 0 <= n < |inputs| && inputs[n].id == id && inputs[n].now == at && FromSensor(inputs[n].event)
  }

  /** Every id drawn is one the source gave a sensor event, noted with that event's time. */
  lemma {:induction false} MintedBySensor(p: Policy, inputs: seq<Input>, id: EventId)
    requires id in Run(p, inputs).log.minted
    ensures DrawnAt(inputs, id, Run(p, inputs).log.minted[id])
    decreases |inputs|
  {
    hide Handle, FromSensor;
    var n := |inputs| - 1;
    assert inputs != [];
    var s := Run(p, inputs[..n]);
    HandleMints(p, s, inputs[n]);
    if id in s.log.minted && Run(p, inputs).log.minted[id] == s.log.minted[id] {
      MintedBySensor(p, inputs[..n], id);
      var k :| 0 <= k < n && inputs[..n][k].id == id && inputs[..n][k].now == s.log.minted[id] && FromSensor(inputs[..n][k].event);
      assert inputs[k].id == id;
    } else {
      assert inputs[n].id == id;
    }
  }

  /** Each step of a legal run is a legal step. */
  lemma LegalRunStep(p: Policy, inputs: seq<Input>)
    requires inputs != [] && Legal(inputs)
    ensures Legal(inputs[..|inputs| - 1])
    ensures LegalStep(Run(p, inputs[..|inputs| - 1]), inputs[|inputs| - 1])
  {
    hide Handle, Run;
    var n := |inputs| - 1;
    RunDraws(p, inputs[..n]);
    assert forall k :: 0 <= k < n ==> inputs[..n][k] == inputs[k];
    assert inputs[n].id !in Ids(inputs[..n]);
  }
}
