/** What a verdict of the camera does, over whole runs: a "nobody" about a held motion
    silences it for good, any other answer lets the held alert go at once. */
module CoreVerdicts {
  import opened Types
  import opened CoreRules
  import opened CoreRuns
  import opened CoreStories
  import opened CoreAlerting
  import opened CoreClips
  import O = CoreOrders

  // ---- Silenced for good ----

  ghost predicate NoMotion(s: Story) {
    forall id :: id in s.silenced ==> Motion !in KindsOf(s.enqueued, id)
  }

  lemma NoMotionTell(p: Policy, s: Story, t: Telling, now: Time, id: EventId)
    requires Once(s) && SilentUnlessRing(s) && NoMotion(s)
    requires CanTell(p, s, t) && (Draws(t.beat) ==> id !in s.minted)
    ensures NoMotion(Tell(p, s, t, now, id))
  {
    hide KindsOf, Told;
    var said := Says(s, t.beat, now, id);
    if said.Some? { KindsGrow(s.enqueued, Enqueued(said.value, now)); }
  }

  lemma NoMotionStep(p: Policy, s: State, i: Input)
    requires CameraInv(s.camera, s.panel.shuttingDown) && Once(StoryOf(s)) && Truthful(s) && NoMotion(StoryOf(s))
    requires i.id !in s.log.minted
    ensures NoMotion(StoryOf(Handle(p, s, i)))
  {
    hide Dispatch, Close, Tell, CanTell, Plan, Once, NoMotion, KindsOf, Truthful, CameraInv;
    var s1 := Lapse(s, i.now);
    LapsedIsAsGood(s, i.now);
    var t1 := DispatchTells(p, s1, i);
    SilentOf(s1);
    NoMotionTell(p, StoryOf(s1), t1, i.now, i.id);
    TruthfulDispatch(p, s1, i);
    var s2 := Dispatch(p, s1, i);
    SilentOf(s2);
    var t2 := CloseTells(p, s2, i.now, i.id);
    NoMotionTell(p, StoryOf(s2), t2, i.now, i.id);
  }

  lemma SilentOf(s: State)
    requires Truthful(s)
    ensures SilentUnlessRing(StoryOf(s))
  {}

  lemma LapsedIsAsGood(s: State, now: Time)
    ensures Truthful(s) ==> Truthful(Lapse(s, now))
    ensures Once(StoryOf(s)) ==> Once(StoryOf(Lapse(s, now)))
    ensures NoMotion(StoryOf(s)) ==> NoMotion(StoryOf(Lapse(s, now)))
  {
    hide Tape, CutIn, LastStarted, KindsOf, Told, ToldSoFar;
    var s1 := Lapse(s, now);
    assert ReelOf(s1) == ReelOf(s);
    if Truthful(s) { TimersAreNoMatter(StoryOf(s), StoryOf(s1), s.spool.history.accepted); }
  }

  lemma {:induction false} NoMotionRun(p: Policy, inputs: seq<Input>)
    requires Legal(inputs)
    ensures NoMotion(StoryOf(Run(p, inputs)))
  {
    if inputs != [] {
      hide Handle, Once, Truthful, NoMotion, CameraInv, Legal;
      var front := inputs[..|inputs| - 1];
      LegalRunStep(p, inputs);
      CameraRun(p, front);
      OnceRun(p, front);
      TruthfulRun(p, front);
      NoMotionRun(p, front);
      NoMotionStep(p, Run(p, front), inputs[|inputs| - 1]);
    }
  }

  lemma {:induction false} SilencedStays(p: Policy, inputs: seq<Input>, k: nat, id: EventId)
    requires k <= |inputs| && id in Run(p, inputs[..k]).log.silenced
    ensures id in Run(p, inputs).log.silenced
    decreases |inputs|
  {
    hide Handle;
    if k == |inputs| {
      assert inputs[..k] == inputs;
    } else {
      var n := |inputs| - 1;
      assert inputs[..n][..k] == inputs[..k];
      SilencedStays(p, inputs[..n], k, id);
      SilencedGrows(p, inputs[..n], inputs[n]);
    }
  }

  lemma SilencedGrows(p: Policy, inputs: seq<Input>, i: Input)
    ensures Run(p, inputs).log.silenced <= Handle(p, Run(p, inputs), i).log.silenced
  {
    hide Run, Handle, Plan, Says, EventAfter;
    var s := Run(p, inputs);
    TheStoryGoesOn(p, inputs, i);
    assert StoryOf(Handle(p, s, i)).silenced == Unfolded(p, s, i).silenced;
  }

  // ---- One verdict ----

  /** "Nobody" about a held motion: no alert, no clip to keep, a short cooldown, and a
      recording still running is told to stop. */
  lemma HushSilences(p: Policy, inputs: seq<Input>, i: Input, id: EventId)
    requires Hushed(Run(p, inputs), i.event, id)
    ensures var s := Run(p, inputs); var t := Handle(p, s, i);
      && id in t.log.silenced
      && t.desk.enqueued == s.desk.enqueued
      && t.timers.motionCooldownUntil == Some(i.now + p.noPersonCooldown)
      && t.camera.event.Some? && t.camera.event.value.unwanted && !t.camera.event.value.awaitingVerdict
      && (s.camera.recording == Active ==> StopRecording in NewActions(s, t) && t.camera.recording == Stopping)
  {
    hide Run, Handle;
    var s := Run(p, inputs);
    TheStoryGoesOn(p, inputs, i);
    var t := Handle(p, s, i);
    assert StoryOf(t) == Unfolded(p, s, i);
    HushOrders(p, s, i, id);
  }

  lemma HushOrders(p: Policy, s: State, i: Input, id: EventId)
    requires Hushed(s, i.event, id)
    ensures var t := Handle(p, s, i);
      s.camera.recording == Active ==> StopRecording in NewActions(s, t) && t.camera.recording == Stopping
  {
    hide Handle, O.Orders;
    O.NewOrders(p, s, i);
    O.HandleOrders(p, s, i);
    O.OrdersShow(NewActions(s, Handle(p, s, i)), O.Cut);
    if s.camera.recording == Active {
      assert O.Cut in O.Cuts(s.camera, Handle(p, s, i).camera);
    }
  }

  /** Over the whole run: an id once answered "nobody" while its motion was held never
      gets a motion alert, however long the run goes on. */
  lemma HushedIsNeverAMotion(p: Policy, inputs: seq<Input>, k: nat, id: EventId, j: nat)
    requires Legal(inputs) && k < |inputs| && Hushed(Run(p, inputs[..k]), inputs[k].event, id)
    requires j < |Run(p, inputs).desk.enqueued| && Run(p, inputs).desk.enqueued[j].alert.id == id
    ensures Run(p, inputs).desk.enqueued[j].alert.kind == Ring
  {
    hide Handle, Hushed, KindsOf;
    HushSilences(p, inputs[..k], inputs[k], id);
    assert inputs[..k + 1][..k] == inputs[..k] && inputs[..k + 1][k] == inputs[k];
    assert Run(p, inputs[..k + 1]) == Handle(p, Run(p, inputs[..k]), inputs[k]);
    hide Run;
    SilencedStays(p, inputs, k + 1, id);
    NoMotionRun(p, inputs);
    KindIsAmong(Run(p, inputs).desk.enqueued, j);
  }

  lemma {:induction false} KindIsAmong(e: seq<Enqueued>, j: nat)
    requires j < |e|
    ensures e[j].alert.kind in KindsOf(e, e[j].alert.id)
    decreases |e|
  {
    if j < |e| - 1 { KindIsAmong(e[..|e| - 1], j); }
  }

  /** Any other verdict about an alert still held, and any verdict about a held ring,
      queues it in that very handling, with the faces the verdict names. */
  lemma VerdictReleases(p: Policy, inputs: seq<Input>, i: Input)
    requires i.event.DetectionResult? && Run(p, inputs).camera.event.Some?
    requires var e := Run(p, inputs).camera.event.value;
      e.id == i.event.id && e.awaitingVerdict && (e.kind == Ring || i.event.verdict != NoPerson)
    ensures var s := Run(p, inputs); var t := Handle(p, s, i); var e := s.camera.event.value;
      && t.desk.enqueued == s.desk.enqueued + [Enqueued(Alert(e.id, e.kind, e.alertAt, i.event.faces), i.now)]
      && t.camera.event.Some? && !t.camera.event.value.awaitingVerdict && !t.camera.event.value.unwanted
      && t.timers.motionCooldownUntil == Running(s.timers.motionCooldownUntil, i.now)
  {
    hide Run, Handle;
    CameraRun(p, inputs);
    TheStoryGoesOn(p, inputs, i);
    assert StoryOf(Handle(p, Run(p, inputs), i)) == Unfolded(p, Run(p, inputs), i);
  }

  /** And no verdict does anything else: one about another id, or about an alert
      already decided, queues nothing unless the held alert's time is up. */
  lemma OtherVerdictsSayNothing(p: Policy, inputs: seq<Input>, i: Input)
    requires i.event.DetectionResult?
    requires var c := Run(p, inputs).camera;
      c.event.None? || c.event.value.id != i.event.id || !c.event.value.awaitingVerdict
    ensures var s := Run(p, inputs); var t := Handle(p, s, i);
      && t.log.silenced == s.log.silenced
      && t.timers.motionCooldownUntil == Running(s.timers.motionCooldownUntil, i.now)
      && (t.desk.enqueued == s.desk.enqueued
          || (s.camera.event.Some? && s.camera.event.value.awaitingVerdict && i.now >= s.camera.event.value.verdictDue))
  {
    hide Run, Handle;
    TheStoryGoesOn(p, inputs, i);
    assert StoryOf(Handle(p, Run(p, inputs), i)) == Unfolded(p, Run(p, inputs), i);
  }

  // ---- The faces a verdict leaves behind ----

  /** The names given last for the recording that is running, unless nobody was seen. */
  function FacesSeen(p: Policy, inputs: seq<Input>): string
    decreases |inputs|
  {
    if inputs == [] then ""
    else
      var n := |inputs| - 1;
      var c, e := Run(p, inputs[..n]).camera, inputs[n].event;
      if c.event.None? then ""
      else if e.DetectionResult? && e.id == c.event.value.id && e.verdict != NoPerson then e.faces
      else FacesSeen(p, inputs[..n])
  }

  lemma SensorFaces(p: Policy, s: State, i: Input)
    requires FromSensor(i.event) && CameraInv(s.camera, s.panel.shuttingDown)
    ensures var t := Dispatch(p, s, i); t.camera.event.Some? ==>
      t.camera.event.value.faces == if s.camera.event.Some? then s.camera.event.value.faces else ""
  {
    hide Pumped, NextAlert;
  }

  lemma OtherFaces(p: Policy, s: State, i: Input)
    requires !FromSensor(i.event)
    ensures var t := Dispatch(p, s, i); var e := i.event; t.camera.event.Some? ==>
      && s.camera.event.Some?
      && t.camera.event.value.faces
           == if e.DetectionResult? && e.id == s.camera.event.value.id && e.verdict != NoPerson then e.faces
              else s.camera.event.value.faces
  {
    hide Pumped, NextAlert, Overflow;
    if FromRecorder(i.event) {
    } else {
    }
  }

  /** What a later press tells the server is what the camera said last. */
  lemma {:induction false} FacesAreKept(p: Policy, inputs: seq<Input>)
    requires Run(p, inputs).camera.event.Some?
    ensures Run(p, inputs).camera.event.value.faces == FacesSeen(p, inputs)
    decreases |inputs|
  {
    if inputs != [] {
      hide Dispatch, Close;
      var n := |inputs| - 1;
      var s := Run(p, inputs[..n]);
      CameraRun(p, inputs[..n]);
      if s.camera.event.Some? { FacesAreKept(p, inputs[..n]); }
      var s1 := Lapse(s, inputs[n].now);
      if FromSensor(inputs[n].event) { SensorFaces(p, s1, inputs[n]); } else { OtherFaces(p, s1, inputs[n]); }
      Closing(p, Dispatch(p, s1, inputs[n]), inputs[n].now);
    }
  }
}
