/** The light never lies: after every event, over any history, the last SetLed ever
    emitted is what the history calls for. */
module CoreLight {
  import opened Types
  import opened CoreRules
  import opened CoreRuns

  function LastLed(trace: seq<Action>): Option<LedPattern>
    decreases |trace|
  {
    if trace == [] then None
    else
      var last := trace[|trace| - 1];
      if last.SetLed? then Some(last.pattern) else LastLed(trace[..|trace| - 1])
  }

  /** Nothing added touches the light. */
  ghost predicate Dark(before: seq<Action>, after: seq<Action>) {
    before <= after && forall k :: |before| <= k < |after| ==> !after[k].SetLed?
  }

  lemma {:induction false} DarkKeepsLight(before: seq<Action>, after: seq<Action>)
    requires Dark(before, after)
    ensures LastLed(after) == LastLed(before)
    decreases |after|
  {
    if |before| < |after| {
      DarkKeepsLight(before, after[..|after| - 1]);
    } else {
      assert before == after;
    }
  }

  lemma LightSet(trace: seq<Action>, pattern: LedPattern)
    ensures LastLed(trace + [SetLed(pattern)]) == Some(pattern)
  {}

  lemma AlertNowDark(p: Policy, s: State, a: Alert, now: Time)
    ensures Dark(s.log.trace, AlertNow(p, s, a, now).log.trace)
  {
    hide Pumped, NextAlert;
  }

  lemma TriggerDark(p: Policy, s: State, kind: Kind, now: Time, withClip: bool, id: EventId)
    ensures Dark(s.log.trace, Trigger(p, s, kind, now, withClip, id).log.trace)
  {
    hide AlertNow;
    var log := Mint(s.log, id, now);
    AlertNowDark(p, s.(log := if kind == Ring then NoteRing(log, id, now) else log), Alert(id, kind, now, ""), now);
  }

  lemma SensorDark(p: Policy, s: State, i: Input)
    requires FromSensor(i.event)
    ensures Dark(s.log.trace, Dispatch(p, s, i).log.trace)
  {
    hide AlertNow, Trigger;
    var now := i.now;
    if i.event.MotionDetected? {
      TriggerDark(p, s.(timers := s.timers.(motionCooldownUntil := Some(now + p.motionCooldown))),
                  Motion, now, s.camera.viewers == {}, i.id);
    } else {
      var timers := s.timers.(ringLedUntil := Some(now + p.ringLed), pressWindowUntil := Some(now + p.pressDedupWindow));
      var s1 := s.(timers := timers, log := Emit(s.log, PlayChime));
      if JoinsRecording(s1.camera) {
        var e := s1.camera.event.value;
        var s2 := s1.(camera := s1.camera.(event := Some(AsRing(p, e, now))), log := NoteRing(s1.log, e.id, now));
        AlertNowDark(p, s2, Alert(e.id, Ring, now, e.faces), now);
      } else {
        TriggerDark(p, s1, Ring, now, s1.camera.viewers == {} && s1.camera.recording == NotRecording, i.id);
      }
    }
  }

  lemma PutAwayDark(p: Policy, s: State, e: Option<ActiveEvent>, id: EventId, path: string,
                    ok: bool, duration: nat, bytes: nat)
    ensures Dark(s.log.trace, PutAway(p, s, e, id, path, ok, duration, bytes).log.trace)
  {
    hide Overflow, WorthKeeping, Accept, WithinCap;
  }

  lemma DeferredDark(s: State)
    ensures Dark(s.log.trace, StartDeferred(s).log.trace)
  {}

  lemma FinishDark(p: Policy, s: State, i: Input)
    requires i.event.RecordingFinished?
    ensures Dark(s.log.trace, Dispatch(p, s, i).log.trace)
  {
    hide AlertNow, PutAway, StartDeferred;
    if s.camera.event.Some? {
      AlertNowDark(p, s.(camera := LetGo(s.camera)), HeldAlert(s.camera, ""), i.now);
    }
    var e := i.event;
    var s1 := ReleaseIfHeld(p, s, i.now);
    PutAwayDark(p, FreeCamera(s1), s1.camera.event, e.id, e.path, e.ok, e.duration, e.bytes);
    DeferredDark(PutAway(p, FreeCamera(s1), s1.camera.event, e.id, e.path, e.ok, e.duration, e.bytes));
  }

  lemma VerdictDark(p: Policy, s: State, i: Input)
    requires i.event.DetectionResult?
    ensures Dark(s.log.trace, Dispatch(p, s, i).log.trace)
  {
    hide AlertNow;
    if s.camera.event.Some? {
      var s1 := s.(camera := KeepFaces(s.camera, i.event.verdict, i.event.faces));
      AlertNowDark(p, s1.(camera := LetGo(s1.camera)), HeldAlert(s1.camera, i.event.faces), i.now);
    }
  }

  lemma OtherDark(p: Policy, s: State, i: Input)
    requires !FromSensor(i.event) && !FromRecorder(i.event) && !i.event.Shutdown?
    ensures Dark(s.log.trace, Dispatch(p, s, i).log.trace)
  {
  }

  /** The light shows what the core last chose, dark only before anything was chosen. */
  predicate Lit(s: State) {
    LastLed(s.log.trace) == Some(s.panel.led)
    || (LastLed(s.log.trace).None? && s.panel.led == LedPattern.Off && !s.panel.shuttingDown)
  }

  lemma LitDispatch(p: Policy, s: State, i: Input)
    requires Lit(s)
    ensures Lit(Dispatch(p, s, i))
  {
    hide LastLed;
    if i.event.Shutdown? {
      LightSet(HangUp(StopIfActive(s.(panel := s.panel.(shuttingDown := true)))).log.trace, LedPattern.Off);
    } else {
      DispatchPanel(p, s, i);
      hide Dispatch;
      if FromSensor(i.event) { SensorDark(p, s, i); }
      else if i.event.RecordingFinished? { FinishDark(p, s, i); }
      else if i.event.DetectionResult? { VerdictDark(p, s, i); }
      else { OtherDark(p, s, i); }
      DarkKeepsLight(s.log.trace, Dispatch(p, s, i).log.trace);
    }
  }

  /** Four events write the panel, and no other does. */
  lemma DispatchPanel(p: Policy, s: State, i: Input)
    ensures Dispatch(p, s, i).panel ==
      match i.event
      case ServerOnline => s.panel.(online := true, fault := false)
      case ServerOffline(permanent) => s.panel.(online := false, fault := s.panel.fault || permanent)
      case Shutdown => s.panel.(led := LedPattern.Off, shuttingDown := true)
      case _ => s.panel
  {
    hide Pumped, NextAlert, Overflow, WorthKeeping;
    if FromSensor(i.event) {
    } else if FromRecorder(i.event) {
    } else {
    }
  }

  lemma CloseLights(p: Policy, s: State, now: Time)
    requires Lit(s)
    ensures LastLed(Close(p, s, now).log.trace) == Some(DesiredLed(Close(p, s, now)))
    ensures Close(p, s, now).panel.led == DesiredLed(Close(p, s, now))
  {
    hide Pumped, NextAlert, LastLed, AlertNow;
    if Overdue(s.camera, now) {
      AlertNowDark(p, s.(camera := LetGo(s.camera)), HeldAlert(s.camera, ""), now);
    }
    var s1 := CheckVerdictDeadline(p, s, now);
    assert s1.panel == s.panel by { AlertNowPanel(p, s, now); }
    DarkKeepsLight(s.log.trace, s1.log.trace);
    var s2 := PumpAlerts(p, s1, now);
    DarkKeepsLight(s1.log.trace, s2.log.trace);
    var s3 := PumpUploads(s2, now);
    DarkKeepsLight(s2.log.trace, s3.log.trace);
    LightSet(s3.log.trace, DesiredLed(s3));
    assert DesiredLed(UpdateLed(s3)) == DesiredLed(s3);
  }

  lemma AlertNowPanel(p: Policy, s: State, now: Time)
    ensures CheckVerdictDeadline(p, s, now).panel == s.panel
  {
    hide Pumped, NextAlert;
  }

  // ---- What the history calls for ----

  predicate ShutDown(inputs: seq<Input>)
    decreases |inputs|
  {
    inputs != [] && (inputs[|inputs| - 1].event.Shutdown? || ShutDown(inputs[..|inputs| - 1]))
  }

  /** A ServerOnline is later than every ServerOffline. */
  predicate Online(inputs: seq<Input>)
    decreases |inputs|
  {
    inputs != [] &&
    match inputs[|inputs| - 1].event
    case ServerOnline => true
    case ServerOffline(_) => false
    case _ => Online(inputs[..|inputs| - 1])
  }

  /** A permanent ServerOffline is later than every ServerOnline. */
  predicate Faulty(inputs: seq<Input>)
    decreases |inputs|
  {
    inputs != [] &&
    match inputs[|inputs| - 1].event
    case ServerOnline => false
    case ServerOffline(permanent) => permanent || Faulty(inputs[..|inputs| - 1])
    case _ => Faulty(inputs[..|inputs| - 1])
  }

  /** When the button was last pressed before the daemon was told to stop. */
  function LastPressed(inputs: seq<Input>): Option<Time>
    decreases |inputs|
  {
    if inputs == [] then None
    else
      var n := |inputs| - 1;
      if inputs[n].event.ButtonPressed? && !ShutDown(inputs[..n]) then Some(inputs[n].now)
      else LastPressed(inputs[..n])
  }

  /** The event just handled was such a press. */
  predicate JustPressed(inputs: seq<Input>) {
    inputs != [] && inputs[|inputs| - 1].event.ButtonPressed? && !ShutDown(inputs[..|inputs| - 1])
  }

  /** The light rings for ring_led after a press, and always on the press itself. */
  predicate Ringing(p: Policy, inputs: seq<Input>, now: Time) {
    LastPressed(inputs).Some? && (now < LastPressed(inputs).value + p.ringLed || JustPressed(inputs))
  }

  function Wanted(p: Policy, inputs: seq<Input>, now: Time, watched: bool, recording: bool): LedPattern {
    if ShutDown(inputs) then LedPattern.Off
    else if Ringing(p, inputs, now) then LedPattern.RingLed
    else if watched then LedPattern.Live
    else if recording then LedPattern.Recording
    else if Faulty(inputs) then LedPattern.Fault
    else if !Online(inputs) then LedPattern.Offline
    else LedPattern.Idle
  }

  /** The ring light's timer, against the presses. */
  predicate RingTimer(p: Policy, until: Option<Time>, inputs: seq<Input>, clock: Time) {
    var pressed := LastPressed(inputs);
    if until.Some? then pressed.Some? && until.value == pressed.value + p.ringLed && Ringing(p, inputs, clock)
    else !Ringing(p, inputs, clock)
  }

  lemma DispatchRingTimer(p: Policy, s: State, i: Input)
    ensures Dispatch(p, s, i).timers.ringLedUntil ==
      if i.event.ButtonPressed? && !s.panel.shuttingDown then Some(i.now + p.ringLed) else s.timers.ringLedUntil
  {
    hide Pumped, NextAlert, Overflow, WorthKeeping;
    if FromSensor(i.event) {
    } else if FromRecorder(i.event) {
    } else {
    }
  }

  ghost predicate Remembers(p: Policy, s: State, inputs: seq<Input>) {
    && Lit(s)
    && s.panel.shuttingDown == ShutDown(inputs)
    && s.panel.online == Online(inputs)
    && s.panel.fault == Faulty(inputs)
    && (!s.panel.shuttingDown ==> RingTimer(p, s.timers.ringLedUntil, inputs, s.log.clock))
  }

  lemma RememberStep(p: Policy, s: State, inputs: seq<Input>)
    requires inputs != [] && Remembers(p, s, inputs[..|inputs| - 1]) && s.log.clock <= inputs[|inputs| - 1].now
    ensures Remembers(p, Handle(p, s, inputs[|inputs| - 1]), inputs)
    ensures LastLed(Handle(p, s, inputs[|inputs| - 1]).log.trace) == Some(DesiredLed(Handle(p, s, inputs[|inputs| - 1])))
  {
    hide Dispatch, Close, LastLed, DesiredLed;
    var i := inputs[|inputs| - 1];
    var s1 := Lapse(s, i.now);
    var s2 := Dispatch(p, s1, i);
    LitDispatch(p, s1, i);
    DispatchPanel(p, s1, i);
    DispatchRingTimer(p, s1, i);
    CloseLights(p, s2, i.now);
    Closing(p, s2, i.now);
    HandleDraws(p, s, i);
  }

  /** What the panel holds is in the inputs, whatever their times and ids. */
  lemma {:induction false} PanelRun(p: Policy, inputs: seq<Input>)
    ensures var s := Run(p, inputs).panel;
      s.shuttingDown == ShutDown(inputs) && s.online == Online(inputs) && s.fault == Faulty(inputs)
    decreases |inputs|
  {
    if inputs != [] {
      hide Handle;
      var n := |inputs| - 1;
      PanelRun(p, inputs[..n]);
      HandlePanel(p, Run(p, inputs[..n]), inputs[n]);
    }
  }

  lemma HandlePanel(p: Policy, s: State, i: Input)
    ensures var t := Handle(p, s, i).panel;
      && t.shuttingDown == (s.panel.shuttingDown || i.event.Shutdown?)
      && t.online == (i.event.ServerOnline? || (s.panel.online && !i.event.ServerOffline?))
      && t.fault == (!i.event.ServerOnline? && (s.panel.fault || (i.event.ServerOffline? && i.event.permanent)))
  {
    hide Dispatch, Close;
    var s1 := Lapse(s, i.now);
    DispatchPanel(p, s1, i);
    Closing(p, Dispatch(p, s1, i), i.now);
  }

  lemma {:induction false} RememberRun(p: Policy, inputs: seq<Input>)
    requires Legal(inputs)
    ensures Remembers(p, Run(p, inputs), inputs)
    ensures inputs != [] ==> LastLed(Run(p, inputs).log.trace) == Some(DesiredLed(Run(p, inputs)))
  {
    if inputs != [] {
      hide Handle, Remembers;
      var n := |inputs| - 1;
      LegalRunStep(p, inputs);
      RememberRun(p, inputs[..n]);
      RememberStep(p, Run(p, inputs[..n]), inputs);
    }
  }

  /** After every event: off once told to stop; ringing for ring_led after the last
      press; then live while somebody watches, recording while the recorder has the
      camera, fault since a permanent ServerOffline, offline, idle. */
  lemma LightNeverLies(p: Policy, inputs: seq<Input>)
    requires Legal(inputs) && inputs != []
    ensures var t := Run(p, inputs);
      LastLed(t.log.trace) == Some(Wanted(p, inputs, inputs[|inputs| - 1].now,
                                          t.camera.viewers != {}, t.camera.recording != NotRecording))
  {
    hide Run, LastLed, LastPressed, Online, Faulty, ShutDown;
    RememberRun(p, inputs);
    RunDraws(p, inputs);
  }
}
