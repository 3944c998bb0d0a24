/** Which actions an event may lead to: nothing leaves the core that its event does
    not call for, and after a shutdown next to nothing leaves at all. */
module CoreActions {
  import opened Types
  import opened CoreRules
  import opened CoreRuns
  import O = CoreOrders

  /** shut is whether the core had been told to stop before the event. */
  predicate Allowed(e: Event, shut: bool, a: Action) {
    match a
    case SetLed(_) => true
    case PlayChime => e.ButtonPressed? && !shut
    case SendAlert(_) => !shut && !e.Shutdown?
    case UploadClip(_) => !shut && !e.Shutdown?
    case StartRecording(_, _, _, _) => FromSensor(e) && !shut
    case StopRecording => (e.ViewerRequested? && !shut) || e.DetectionResult? || e.Shutdown?
    case DiscardClip(_, _) => e.RecordingFinished?
    case StartCall(_) => (e.ViewerRequested? || e.RecordingFinished?) && !shut
    case StopCall => e.Shutdown?
  }

  /** up is whether an UploadClip may be among what was added. */
  ghost predicate Keeps(e: Event, shut: bool, up: bool, before: seq<Action>, after: seq<Action>) {
    && before <= after
    && forall k :: |before| <= k < |after| ==> Allowed(e, shut, after[k]) && (after[k].UploadClip? ==> up)
  }

  lemma KeepsThen(e: Event, shut: bool, up: bool, a: seq<Action>, b: seq<Action>, c: seq<Action>)
    requires Keeps(e, shut, up, a, b) && Keeps(e, shut, up, b, c)
    ensures Keeps(e, shut, up, a, c)
  {}

  lemma AlertNowKeeps(p: Policy, s: State, a: Alert, now: Time, e: Event, shut: bool)
    requires shut ==> s.panel.shuttingDown
    requires e.Shutdown? ==> s.panel.shuttingDown
    ensures var t := AlertNow(p, s, a, now); Keeps(e, shut, false, s.log.trace, t.log.trace) && t.panel == s.panel
  {
    hide Pumped, NextAlert;
  }

  lemma TriggerKeeps(p: Policy, s: State, kind: Kind, i: Input, withClip: bool)
    requires FromSensor(i.event) && !s.panel.shuttingDown
    ensures Keeps(i.event, false, false, s.log.trace, Trigger(p, s, kind, i.now, withClip, i.id).log.trace)
  {
    hide AlertNow;
    var log := Mint(s.log, i.id, i.now);
    AlertNowKeeps(p, s.(log := if kind == Ring then NoteRing(log, i.id, i.now) else log),
                  Alert(i.id, kind, i.now, ""), i.now, i.event, false);
  }

  lemma MotionKeeps(p: Policy, s: State, i: Input)
    requires i.event.MotionDetected?
    ensures Keeps(i.event, s.panel.shuttingDown, false, s.log.trace, Dispatch(p, s, i).log.trace)
  {
    hide Trigger;
    if !s.panel.shuttingDown {
      TriggerKeeps(p, s.(timers := s.timers.(motionCooldownUntil := Some(i.now + p.motionCooldown))),
                   Motion, i, s.camera.viewers == {});
    }
  }

  lemma NewPressKeeps(p: Policy, s: State, i: Input)
    requires i.event.ButtonPressed? && !s.panel.shuttingDown
    ensures var t := OnNewPress(p, s, i.now, i.id);
      && s.log.trace <= t.log.trace
      && forall k :: |s.log.trace| <= k < |t.log.trace| ==>
           t.log.trace[k].StartRecording? || t.log.trace[k].SendAlert?
  {
    hide Pumped, NextAlert;
  }

  /** The chime is what a press leads to first, and once. */
  lemma ButtonKeeps(p: Policy, s: State, i: Input)
    requires i.event.ButtonPressed?
    ensures var t := Dispatch(p, s, i); var n := |s.log.trace|;
      && Keeps(i.event, s.panel.shuttingDown, false, s.log.trace, t.log.trace)
      && (!s.panel.shuttingDown ==>
            n < |t.log.trace| && t.log.trace[n] == PlayChime
            && forall k :: n < k < |t.log.trace| ==> t.log.trace[k] != PlayChime)
  {
    hide OnNewPress;
    if !s.panel.shuttingDown {
      NewPressKeeps(p, s.(timers := s.timers.(ringLedUntil := Some(i.now + p.ringLed),
                                              pressWindowUntil := Some(i.now + p.pressDedupWindow)),
                          log := Emit(s.log, PlayChime)), i);
    }
  }

  lemma PutAwayKeeps(p: Policy, s: State, d: Option<ActiveEvent>, e: Event, shut: bool)
    requires e.RecordingFinished?
    ensures var t := PutAway(p, s, d, e.id, e.path, e.ok, e.duration, e.bytes);
      Keeps(e, shut, false, s.log.trace, t.log.trace) && t.camera == s.camera
  {
    hide Overflow, WorthKeeping, Accept, WithinCap;
  }

  lemma FinishKeeps(p: Policy, s: State, i: Input)
    requires i.event.RecordingFinished? && CameraInv(s.camera, s.panel.shuttingDown)
    ensures Keeps(i.event, s.panel.shuttingDown, false, s.log.trace, Dispatch(p, s, i).log.trace)
  {
    hide AlertNow, PutAway;
    var e, shut := i.event, s.panel.shuttingDown;
    if s.camera.event.Some? {
      AlertNowKeeps(p, s.(camera := LetGo(s.camera)), HeldAlert(s.camera, ""), i.now, e, shut);
    }
    var s1 := ReleaseIfHeld(p, s, i.now);
    assert s1.camera.deferredCall == s.camera.deferredCall by { ReleaseDefers(p, s, i.now); }
    PutAwayKeeps(p, FreeCamera(s1), s1.camera.event, e, shut);
    var s2 := PutAway(p, FreeCamera(s1), s1.camera.event, e.id, e.path, e.ok, e.duration, e.bytes);
    KeepsThen(e, shut, false, s.log.trace, s1.log.trace, s2.log.trace);
    KeepsThen(e, shut, false, s.log.trace, s2.log.trace, StartDeferred(s2).log.trace);
  }

  lemma ReleaseDefers(p: Policy, s: State, now: Time)
    ensures ReleaseIfHeld(p, s, now).camera.deferredCall == s.camera.deferredCall
  {
    hide Pumped, NextAlert;
  }

  lemma VerdictKeeps(p: Policy, s: State, i: Input)
    requires i.event.DetectionResult?
    ensures Keeps(i.event, s.panel.shuttingDown, false, s.log.trace, Dispatch(p, s, i).log.trace)
  {
    hide AlertNow;
    if s.camera.event.Some? {
      var s1 := s.(camera := KeepFaces(s.camera, i.event.verdict, i.event.faces));
      AlertNowKeeps(p, s1.(camera := LetGo(s1.camera)), HeldAlert(s1.camera, i.event.faces), i.now, i.event, s.panel.shuttingDown);
    }
  }

  lemma OtherKeeps(p: Policy, s: State, i: Input)
    requires !FromSensor(i.event) && !FromRecorder(i.event)
    ensures Keeps(i.event, s.panel.shuttingDown, false, s.log.trace, Dispatch(p, s, i).log.trace)
    ensures Dispatch(p, s, i).panel.shuttingDown == (s.panel.shuttingDown || i.event.Shutdown?)
  {}

  lemma PanelStays(p: Policy, s: State, i: Input)
    requires FromSensor(i.event) || FromRecorder(i.event)
    ensures Dispatch(p, s, i).panel == s.panel
  {
    hide Pumped, NextAlert, Overflow, WorthKeeping;
    if FromSensor(i.event) {
    } else {
    }
  }

  lemma PumpsKeep(p: Policy, s: State, now: Time)
    ensures var t := PumpAlerts(p, s, now);
      && Keeps(Tick, s.panel.shuttingDown, false, s.log.trace, t.log.trace)
      && t.panel == s.panel && t.spool == s.spool && t.camera == s.camera
    ensures Keeps(Tick, s.panel.shuttingDown, false, s.log.trace, UpdateLed(s).log.trace)
  {
    hide Pumped, NextAlert;
  }

  lemma DeadlineKeeps(p: Policy, s: State, now: Time)
    ensures var t := CheckVerdictDeadline(p, s, now);
      && Keeps(Tick, s.panel.shuttingDown, false, s.log.trace, t.log.trace)
      && t.panel == s.panel && t.spool == s.spool && t.camera.viewers == s.camera.viewers
  {
    hide Pumped, NextAlert;
    if Overdue(s.camera, now) {
      AlertNowKeeps(p, s.(camera := LetGo(s.camera)), HeldAlert(s.camera, ""), now, Tick, s.panel.shuttingDown);
    }
  }

  /** The end of a handling may add an UploadClip, and only when one is due. */
  lemma CloseAdds(p: Policy, s: State, now: Time) returns (mid: seq<Action>)
    ensures Keeps(Tick, s.panel.shuttingDown, false, s.log.trace, mid)
    ensures var up := if UploadReady(s, now) then [UploadClip(s.spool.uploads[0].clip)] else [];
      Keeps(Tick, s.panel.shuttingDown, false, mid + up, Close(p, s, now).log.trace)
  {
    hide CheckVerdictDeadline, PumpAlerts, UpdateLed;
    var s1 := CheckVerdictDeadline(p, s, now);
    var s2 := PumpAlerts(p, s1, now);
    DeadlineKeeps(p, s, now);
    PumpsKeep(p, s1, now);
    PumpsKeep(p, PumpUploads(s2, now), now);
    mid := s2.log.trace;
    KeepsThen(Tick, s.panel.shuttingDown, false, s.log.trace, s1.log.trace, mid);
    assert mid + [] == mid;
  }

  lemma CloseKeeps(p: Policy, s: State, now: Time, e: Event, shut: bool)
    requires (shut || e.Shutdown?) ==> s.panel.shuttingDown
    ensures Keeps(e, shut, true, s.log.trace, Close(p, s, now).log.trace)
    ensures forall k :: |s.log.trace| <= k < |Close(p, s, now).log.trace| ==> Close(p, s, now).log.trace[k] != PlayChime
  {
    hide Close, Allowed;
    var mid := CloseAdds(p, s, now);
    TickAllows(e, shut, s.panel.shuttingDown);
    var up := if UploadReady(s, now) then [UploadClip(s.spool.uploads[0].clip)] else [];
    assert forall k :: 0 <= k < |up| ==> Allowed(Tick, s.panel.shuttingDown, up[k]) by {
      if UploadReady(s, now) { UploadAllowed(s, now); }
    }
    var t := Close(p, s, now);
    forall k | |s.log.trace| <= k < |t.log.trace| ensures Allowed(Tick, s.panel.shuttingDown, t.log.trace[k]) {
      if k < |mid| { assert t.log.trace[k] == mid[k]; }
      else if k < |mid + up| { assert t.log.trace[k] == up[k - |mid|]; }
    }
    assert s.log.trace <= mid <= mid + up <= t.log.trace;
  }

  lemma UploadAllowed(s: State, now: Time)
    requires UploadReady(s, now)
    ensures Allowed(Tick, s.panel.shuttingDown, UploadClip(s.spool.uploads[0].clip))
  {}

  lemma TickAllows(e: Event, shut: bool, down: bool)
    requires (shut || e.Shutdown?) ==> down
    ensures forall a :: Allowed(Tick, down, a) ==> Allowed(e, shut, a) && a != PlayChime
  {}

  /** In every reachable state. */
  lemma NothingUncalledFor(p: Policy, inputs: seq<Input>, i: Input)
    ensures var s := Run(p, inputs); var t := Handle(p, s, i);
      Keeps(i.event, s.panel.shuttingDown, true, s.log.trace, t.log.trace)
  {
    hide Run, Handle;
    CameraRun(p, inputs);
    HandleKeeps(p, Run(p, inputs), i);
  }

  lemma DispatchKeeps(p: Policy, s: State, i: Input)
    requires CameraInv(s.camera, s.panel.shuttingDown)
    ensures var t := Dispatch(p, s, i); var n := |s.log.trace|;
      && Keeps(i.event, s.panel.shuttingDown, false, s.log.trace, t.log.trace)
      && t.panel.shuttingDown == (s.panel.shuttingDown || i.event.Shutdown?)
      && (i.event.ButtonPressed? && !s.panel.shuttingDown ==>
            n < |t.log.trace| && t.log.trace[n] == PlayChime
            && forall k :: n < k < |t.log.trace| ==> t.log.trace[k] != PlayChime)
  {
    hide Dispatch, Allowed;
    match i.event
    case MotionDetected => MotionKeeps(p, s, i); PanelStays(p, s, i);
    case ButtonPressed => ButtonKeeps(p, s, i); PanelStays(p, s, i);
    case RecordingFinished(_, _, _, _, _) => FinishKeeps(p, s, i); PanelStays(p, s, i);
    case DetectionResult(_, _, _) => VerdictKeeps(p, s, i); PanelStays(p, s, i);
    case _ => OtherKeeps(p, s, i);
  }

  lemma HandleKeeps(p: Policy, s: State, i: Input)
    requires CameraInv(s.camera, s.panel.shuttingDown)
    ensures var t := Handle(p, s, i); var n := |s.log.trace|;
      && Keeps(i.event, s.panel.shuttingDown, true, s.log.trace, t.log.trace)
      && (i.event.ButtonPressed? && !s.panel.shuttingDown ==>
            n < |t.log.trace| && t.log.trace[n] == PlayChime
            && forall k :: n < k < |t.log.trace| ==> t.log.trace[k] != PlayChime)
  {
    hide Dispatch, Close, Allowed;
    var s1 := Lapse(s, i.now);
    var s2 := Dispatch(p, s1, i);
    DispatchKeeps(p, s1, i);
    CloseKeeps(p, s2, i.now, i.event, s.panel.shuttingDown);
    KeepsThen(i.event, s.panel.shuttingDown, true, s.log.trace, s2.log.trace, Close(p, s2, i.now).log.trace);
  }

  /** After a shutdown the core only puts files away and sets the light. */
  lemma ShutdownIsQuiet(p: Policy, inputs: seq<Input>, i: Input, k: nat)
    requires Run(p, inputs).panel.shuttingDown
    requires |Run(p, inputs).log.trace| <= k < |Handle(p, Run(p, inputs), i).log.trace|
    ensures var a := Handle(p, Run(p, inputs), i).log.trace[k];
      a.SetLed? || (i.event.RecordingFinished? && a.DiscardClip?)
  {
    hide Run, Handle, O.Orders;
    var s := Run(p, inputs);
    var t := Handle(p, s, i);
    NothingUncalledFor(p, inputs, i);
    CameraRun(p, inputs);
    O.NewOrders(p, s, i);
    O.HandleOrders(p, s, i);
    var a := t.log.trace[k];
    assert NewActions(s, t)[k - |s.log.trace|] == a;
    O.OrdersShow(NewActions(s, t), O.Cut);
    O.OrdersShow(NewActions(s, t), O.Quit);
    assert O.Wanted(p, s.camera, t.camera, i.event, true) == [];
    assert Allowed(i.event, true, a);
  }

  /** Every press before a shutdown sounds the chime, once, before all else. */
  lemma EveryPressChimes(p: Policy, inputs: seq<Input>, i: Input)
    requires i.event.ButtonPressed? && !Run(p, inputs).panel.shuttingDown
    ensures var t := Handle(p, Run(p, inputs), i); var n := |Run(p, inputs).log.trace|;
      && n < |t.log.trace| && t.log.trace[n] == PlayChime
      && forall k :: n < k < |t.log.trace| ==> t.log.trace[k] != PlayChime
  {
    hide Run, Handle;
    CameraRun(p, inputs);
    HandleKeeps(p, Run(p, inputs), i);
  }
}
