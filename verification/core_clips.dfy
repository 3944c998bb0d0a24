/** What is said about a clip is true of its recording, over whole runs. */
module CoreClips {
  import opened Types
  import opened CoreRules
  import opened CoreRuns
  import opened CoreStories
  import opened CoreAlerting

  /** What the recorder was told, out of everything the core ever did. */
  datatype Take = Started(id: EventId) | Stopped

  function TakeOf(a: Action): Option<Take> {
    match a
    case StartRecording(id, _, _, _) => Some(Started(id))
    case StopRecording => Some(Stopped)
    case _ => None
  }

  function Spliced(tape: seq<Take>, take: Option<Take>): seq<Take> {
    if take.None? then tape else tape + [take.value]
  }

  function Tape(trace: seq<Action>): seq<Take>
    decreases |trace|
  {
    if trace == [] then []
    else Spliced(Tape(trace[..|trace| - 1]), TakeOf(trace[|trace| - 1]))
  }

  lemma TapeGrows(trace: seq<Action>, a: Action)
    ensures Tape(trace + [a]) == Spliced(Tape(trace), TakeOf(a))
  {
    assert (trace + [a])[..|trace|] == trace;
  }

  lemma {:induction false} TapeIgnoresDiscards(trace: seq<Action>, victims: seq<Clip>)
    ensures Tape(trace + Discards(victims)) == Tape(trace)
    decreases |victims|
  {
    var n := |victims|;
    if n == 0 {
      assert trace + Discards(victims) == trace;
    } else {
      var all := trace + Discards(victims);
      assert all[..|all| - 1] == trace + Discards(victims[..n - 1]);
      TapeIgnoresDiscards(trace, victims[..n - 1]);
    }
  }

  /** The recording begun last. */
  function LastStarted(tape: seq<Take>): Option<EventId>
    decreases |tape|
  {
    if tape == [] then None
    else
      var last := tape[|tape| - 1];
      if last.Started? then Some(last.id) else LastStarted(tape[..|tape| - 1])
  }

  /** The recorder was told to stop while it was recording under that id. */
  predicate CutIn(tape: seq<Take>, id: EventId)
    decreases |tape|
  {
    tape != [] &&
    (CutIn(tape[..|tape| - 1], id)
     || (tape[|tape| - 1].Stopped? && LastStarted(tape[..|tape| - 1]) == Some(id)))
  }

  lemma CutGrows(tape: seq<Take>, t: Take)
    ensures LastStarted(tape + [t]) == if t.Started? then Some(t.id) else LastStarted(tape)
    ensures forall id :: CutIn(tape + [t], id) <==> CutIn(tape, id) || (t.Stopped? && LastStarted(tape) == Some(id))
  {
    assert (tape + [t])[..|tape|] == tape;
  }

  // ---- What one event does to the recording that is running ----

  datatype Shot = Shot(id: EventId, triggeredAt: Time, cutShort: bool)

  datatype Reel = Reel(shot: Option<Shot>, tape: seq<Take>, accepted: seq<Clip>)

  function ReelOf(s: State): Reel {
    Reel(if s.camera.event.None? then None
         else Some(Shot(s.camera.event.value.id, s.camera.event.value.triggeredAt, s.camera.event.value.cutShort)),
         Tape(s.log.trace), s.spool.history.accepted)
  }

  datatype Cut = Still | Begin | Stop | End | Keep(clip: Clip)

  predicate CanCut(r: Reel, c: Cut) {
    match c
    case Still => true
    case Begin => r.shot.None?
    case Stop => r.shot.Some? && !r.shot.value.cutShort
    case End => true
    case Keep(clip) =>
      r.shot.Some? && r.shot.value == Shot(clip.id, clip.triggeredAt, clip.cutShort)
  }

  function Edit(r: Reel, c: Cut, now: Time, id: EventId): Reel {
    match c
    case Still => r
    case Begin => r.(shot := Some(Shot(id, now, false)), tape := r.tape + [Started(id)])
    case Stop =>
      r.(shot := if r.shot.None? then None else Some(r.shot.value.(cutShort := true)), tape := r.tape + [Stopped])
    case End => r.(shot := None)
    case Keep(clip) => r.(shot := None, accepted := r.accepted + [clip])
  }

  lemma AlertNowFilms(p: Policy, s: State, a: Alert, now: Time)
    ensures var t := AlertNow(p, s, a, now);
      ReelOf(t) == ReelOf(s) && t.camera == s.camera && t.log.minted == s.log.minted && t.panel == s.panel
  {
    hide Tape, Pumped, NextAlert;
    var d := Enqueue(p, s.desk, a, now);
    var next := NextAlert(p, d, s.panel.online, now);
    if next.Some? { TapeGrows(s.log.trace, SendAlert(next.value)); }
  }

  lemma TriggerFilms(p: Policy, s: State, kind: Kind, now: Time, withClip: bool, id: EventId)
    requires withClip ==> s.camera.event.None?
    ensures var t := Trigger(p, s, kind, now, withClip, id);
      && ReelOf(t) == Edit(ReelOf(s), if withClip then Begin else Still, now, id)
      && t.log.minted == s.log.minted[id := now]
  {
    hide Tape, AlertNow;
    if kind == Ring && withClip && p.ringFaceWait > 0 {
      TapeGrows(s.log.trace, StartRecording(id, p.clip, 0, p.ringFaceWait));
    } else {
      var log := Mint(s.log, id, now);
      var s1 := s.(log := if kind == Ring then NoteRing(log, id, now) else log);
      AlertNowFilms(p, s1, Alert(id, kind, now, ""), now);
      if withClip {
        TapeGrows(AlertUnjudged(p, s, kind, now, id).log.trace, StartRecording(id, p.clip, 0, 0));
      }
    }
  }

  lemma MotionFilms(p: Policy, s: State, now: Time, id: EventId) returns (c: Cut)
    requires CameraInv(s.camera, s.panel.shuttingDown)
    ensures CanCut(ReelOf(s), c) && (c.Still? || c.Begin?)
    ensures c.Begin? ==> OnMotion(p, s, now, id).log.minted == s.log.minted[id := now]
    ensures ReelOf(OnMotion(p, s, now, id)) == Edit(ReelOf(s), c, now, id)
  {
    hide Tape, Trigger;
    c := Still;
    if !s.panel.shuttingDown && s.timers.motionCooldownUntil.None? && s.camera.recording == NotRecording {
      var s1 := s.(timers := s.timers.(motionCooldownUntil := Some(now + p.motionCooldown)));
      TriggerFilms(p, s1, Motion, now, s1.camera.viewers == {}, id);
      TapeGrows(s.log.trace, StartRecording(id, p.clip, p.detectWindow, 0));
      if s.camera.viewers == {} { c := Begin; }
    }
  }

  lemma NewPressFilms(p: Policy, s: State, now: Time, id: EventId) returns (c: Cut)
    requires CameraInv(s.camera, s.panel.shuttingDown)
    ensures CanCut(ReelOf(s), c) && (c.Still? || c.Begin?)
    ensures c.Begin? ==> OnNewPress(p, s, now, id).log.minted == s.log.minted[id := now]
    ensures ReelOf(OnNewPress(p, s, now, id)) == Edit(ReelOf(s), c, now, id)
  {
    hide Tape, Trigger, AlertNow;
    c := Still;
    if JoinsRecording(s.camera) {
      var e := s.camera.event.value;
      var s1 := s.(camera := s.camera.(event := Some(AsRing(p, e, now))), log := NoteRing(s.log, e.id, now));
      AlertNowFilms(p, s1, Alert(e.id, Ring, now, e.faces), now);
    } else {
      var free := s.camera.viewers == {} && s.camera.recording == NotRecording;
      TriggerFilms(p, s, Ring, now, free, id);
      if free { c := Begin; }
    }
  }

  lemma PressFilms(p: Policy, s: State, now: Time, id: EventId) returns (c: Cut)
    requires CameraInv(s.camera, s.panel.shuttingDown)
    ensures CanCut(ReelOf(s), c) && (c.Still? || c.Begin?)
    ensures c.Begin? ==> OnButton(p, s, now, id).log.minted == s.log.minted[id := now]
    ensures ReelOf(OnButton(p, s, now, id)) == Edit(ReelOf(s), c, now, id)
  {
    hide Tape, OnNewPress;
    c := Still;
    if !s.panel.shuttingDown {
      TapeGrows(s.log.trace, PlayChime);
      if s.timers.pressWindowUntil.None? {
        var timers := s.timers.(ringLedUntil := Some(now + p.ringLed), pressWindowUntil := Some(now + p.pressDedupWindow));
        c := NewPressFilms(p, s.(timers := timers, log := Emit(s.log, PlayChime)), now, id);
      }
    }
  }

  lemma StopFilms(s: State)
    requires s.camera.recording == Active ==> s.camera.event.Some? && !s.camera.event.value.cutShort
    ensures var c := if s.camera.recording == Active then Stop else Still;
      CanCut(ReelOf(s), c) && forall now, id :: ReelOf(StopIfActive(s)) == Edit(ReelOf(s), c, now, id)
  {
    hide Tape;
    TapeGrows(s.log.trace, StopRecording);
  }

  lemma VerdictFilms(p: Policy, s: State, i: Input) returns (c: Cut)
    requires CameraInv(s.camera, s.panel.shuttingDown) && i.event.DetectionResult?
    ensures CanCut(ReelOf(s), c) && (c.Still? || c.Stop?)
    ensures ReelOf(Dispatch(p, s, i)) == Edit(ReelOf(s), c, i.now, i.id)
  {
    hide Tape, AlertNow, StopIfActive;
    c := Still;
    var e := i.event;
    if s.camera.event.Some? && s.camera.event.value.id == e.id {
      var s1 := s.(camera := KeepFaces(s.camera, e.verdict, e.faces));
      if Holding(s1.camera) {
        if s1.camera.event.value.kind == Ring || e.verdict != NoPerson {
          AlertNowFilms(p, s1.(camera := LetGo(s1.camera)), HeldAlert(s1.camera, e.faces), i.now);
        } else {
          var a := s1.camera.event.value;
          var s2 := s1.(camera := s1.camera.(event := Some(a.(awaitingVerdict := false, unwanted := true))),
                        timers := s1.timers.(motionCooldownUntil := Some(i.now + p.noPersonCooldown)),
                        log := s1.log.(silenced := s1.log.silenced + {a.id}));
          assert ReelOf(s2) == ReelOf(s);
          if s.camera.recording == Active { c := Stop; }
          StopFilms(s2);
        }
      }
    }
  }

  lemma PutAwayFilms(p: Policy, s: State, e: Option<ActiveEvent>, id: EventId, path: string,
                     ok: bool, duration: nat, bytes: nat)
    ensures var t := PutAway(p, s, e, id, path, ok, duration, bytes);
      && t.camera == s.camera
      && ReelOf(t) == if WorthKeeping(p, e, id, ok, duration, bytes)
                      then ReelOf(s).(accepted := s.spool.history.accepted + [ClipOf(e.value, path, duration)])
                      else ReelOf(s)
  {
    hide Tape, Overflow, WorthKeeping;
    TapeGrows(s.log.trace, DiscardClip(id, path));
    if WorthKeeping(p, e, id, ok, duration, bytes) {
      assert e.Some? by { WorthKeepingIsDescribed(p, e, id, ok, duration, bytes); }
      TapeIgnoresDiscards(s.log.trace, Overflow(p, Accept(s.spool, ClipOf(e.value, path, duration), bytes)).victims);
    }
  }

  lemma DeferredFilms(s: State)
    ensures ReelOf(StartDeferred(s)) == ReelOf(s)
  {
    hide Tape;
    if s.camera.deferredCall.Some? {
      TapeGrows(s.log.trace, StartCall(s.camera.deferredCall.value));
    }
  }

  lemma FinishFilms(p: Policy, s: State, i: Input) returns (c: Cut)
    requires i.event.RecordingFinished?
    ensures CanCut(ReelOf(s), c) && (c.End? || c.Keep?)
    ensures c.Keep? ==> s.camera.event.Some? && !s.camera.event.value.unwanted && c.clip.kind == s.camera.event.value.kind
    ensures ReelOf(Dispatch(p, s, i)) == Edit(ReelOf(s), c, i.now, i.id)
  {
    hide Tape, AlertNow, PutAway, StartDeferred, WorthKeeping;
    var e := i.event;
    if Holding(s.camera) {
      AlertNowFilms(p, s.(camera := LetGo(s.camera)), HeldAlert(s.camera, ""), i.now);
    }
    var s1 := ReleaseIfHeld(p, s, i.now);
    assert ReelOf(s1) == ReelOf(s);
    var s2 := FreeCamera(s1);
    PutAwayFilms(p, s2, s1.camera.event, e.id, e.path, e.ok, e.duration, e.bytes);
    DeferredFilms(PutAway(p, s2, s1.camera.event, e.id, e.path, e.ok, e.duration, e.bytes));
    if WorthKeeping(p, s1.camera.event, e.id, e.ok, e.duration, e.bytes) {
      WorthKeepingIsDescribed(p, s1.camera.event, e.id, e.ok, e.duration, e.bytes);
      c := Keep(ClipOf(s1.camera.event.value, e.path, e.duration));
    } else {
      c := End;
    }
  }

  lemma OtherFilms(p: Policy, s: State, i: Input) returns (c: Cut)
    requires CameraInv(s.camera, s.panel.shuttingDown) && !FromSensor(i.event) && !FromRecorder(i.event)
    ensures CanCut(ReelOf(s), c) && (c.Still? || c.Stop?)
    ensures ReelOf(Dispatch(p, s, i)) == Edit(ReelOf(s), c, i.now, i.id)
  {
    hide Tape, StopIfActive;
    c := Still;
    StopFilms(s);
    match i.event
    case ViewerRequested(peer) =>
      TapeGrows(s.log.trace, StartCall(peer));
      if !s.panel.shuttingDown && s.camera.recording == Active { c := Stop; }
    case Shutdown =>
      var s0 := s.(panel := s.panel.(shuttingDown := true));
      StopFilms(s0);
      var s1 := StopIfActive(s0);
      TapeGrows(s1.log.trace, StopCall);
      TapeGrows(HangUp(s1).log.trace, SetLed(LedPattern.Off));
      if s.camera.recording == Active { c := Stop; }
    case _ =>
  }

  lemma DispatchFilms(p: Policy, s: State, i: Input) returns (c: Cut)
    requires CameraInv(s.camera, s.panel.shuttingDown)
    ensures CanCut(ReelOf(s), c)
    ensures c.Begin? ==> Dispatch(p, s, i).log.minted == s.log.minted[i.id := i.now]
    ensures c.Keep? ==> s.camera.event.Some? && !s.camera.event.value.unwanted && c.clip.kind == s.camera.event.value.kind
                        && i.event.RecordingFinished?
    ensures ReelOf(Dispatch(p, s, i)) == Edit(ReelOf(s), c, i.now, i.id)
  {
    hide OnMotion, OnButton, OnRecordingFinished, OnDetection, ReelOf, CanCut, Edit;
    hide OnViewer, OnCallEnded, OnUploadFinished, OnAlertResult, OnServerOnline, OnServerOffline, OnShutdown;
    match i.event
    case MotionDetected => c := MotionFilms(p, s, i.now, i.id);
    case ButtonPressed => c := PressFilms(p, s, i.now, i.id);
    case RecordingFinished(_, _, _, _, _) => c := FinishFilms(p, s, i);
    case DetectionResult(_, _, _) => c := VerdictFilms(p, s, i);
    case _ => c := OtherFilms(p, s, i);
  }

  lemma CloseFilms(p: Policy, s: State, now: Time)
    ensures ReelOf(Close(p, s, now)) == ReelOf(s)
  {
    hide Tape, AlertNow, Pumped, NextAlert;
    if Overdue(s.camera, now) {
      AlertNowFilms(p, s.(camera := LetGo(s.camera)), HeldAlert(s.camera, ""), now);
    }
    var s1 := CheckVerdictDeadline(p, s, now);
    var s2 := PumpAlerts(p, s1, now);
    var next := NextAlert(p, s1.desk, s1.panel.online, now);
    if next.Some? { TapeGrows(s1.log.trace, SendAlert(next.value)); }
    assert ReelOf(s2) == ReelOf(s);
    var s3 := PumpUploads(s2, now);
    if UploadReady(s2, now) { TapeGrows(s2.log.trace, UploadClip(s2.spool.uploads[0].clip)); }
    assert ReelOf(s3) == ReelOf(s);
    TapeGrows(s3.log.trace, SetLed(DesiredLed(s3)));
  }

  // ---- What therefore holds of every clip ever spooled ----

  ghost predicate ReelInv(r: Reel, minted: map<EventId, Time>) {
    && (r.shot.Some? ==>
          && LastStarted(r.tape) == Some(r.shot.value.id)
          && r.shot.value.id in minted && minted[r.shot.value.id] == r.shot.value.triggeredAt
          && (r.shot.value.cutShort <==> CutIn(r.tape, r.shot.value.id)))
    && (forall id :: id !in minted ==> !CutIn(r.tape, id))
    && (forall k :: 0 <= k < |r.accepted| ==> Described(r.accepted[k], r, minted))
  }

  /** The clip states its sensor time, and says it was cut short exactly when the
      recorder was told to stop while recording it. */
  ghost predicate Described(c: Clip, r: Reel, minted: map<EventId, Time>) {
    && c.id in minted && minted[c.id] == c.triggeredAt
    && (c.cutShort <==> CutIn(r.tape, c.id))
    && !(r.shot.Some? && r.shot.value.id == c.id)
  }

  ghost predicate Extends(m: map<EventId, Time>, m1: map<EventId, Time>) {
    forall id :: id in m ==> id in m1 && m1[id] == m[id]
  }

  lemma ReelEdit(r: Reel, c: Cut, now: Time, id: EventId, m: map<EventId, Time>, m1: map<EventId, Time>)
    requires ReelInv(r, m) && CanCut(r, c) && Extends(m, m1)
    requires c.Begin? ==> id !in m && id in m1 && m1[id] == now
    ensures ReelInv(Edit(r, c, now, id), m1)
  {
    hide CutIn, LastStarted;
    if c.Begin? { CutGrows(r.tape, Started(id)); }
    if c.Stop? { CutGrows(r.tape, Stopped); }
    var r1 := Edit(r, c, now, id);
    forall k | 0 <= k < |r1.accepted| ensures Described(r1.accepted[k], r1, m1) {
      if k < |r.accepted| { assert Described(r.accepted[k], r, m); }
    }
  }

  predicate IsAlertOf(a: Alert, c: Clip) { a.id == c.id && a.kind == c.kind }

  /** Every clip was announced by an alert of its id and kind, and a silenced
      motion's clip is there only if a press made it a ring. */
  ghost predicate Announced(s: Story, accepted: seq<Clip>) {
    forall k :: 0 <= k < |accepted| ==>
      HasAlert(s.enqueued, accepted[k]) && (accepted[k].id in s.silenced ==> accepted[k].kind == Ring)
  }

  ghost predicate HasAlert(e: seq<Enqueued>, c: Clip) {
    exists j :: 0 <= j < |e| && IsAlertOf(e[j].alert, c)
  }

  ghost predicate SilentUnlessRing(s: Story) {
    s.event.Some? && s.event.value.id in s.silenced ==> s.event.value.unwanted || s.event.value.kind == Ring
  }

  lemma {:induction false} KindHasAlert(e: seq<Enqueued>, c: Clip)
    requires c.kind in KindsOf(e, c.id)
    ensures HasAlert(e, c)
    decreases |e|
  {
    var n := |e| - 1;
    if c.kind in KindsOf(e[..n], c.id) {
      KindHasAlert(e[..n], c);
      var j :| 0 <= j < n && IsAlertOf(e[..n][j].alert, c);
      assert IsAlertOf(e[j].alert, c);
    } else {
      assert IsAlertOf(e[n].alert, c);
    }
  }

  lemma SilentTell(p: Policy, s: Story, t: Telling, now: Time, id: EventId)
    requires Once(s) && SilentUnlessRing(s) && CanTell(p, s, t) && (Draws(t.beat) ==> id !in s.minted)
    ensures SilentUnlessRing(Tell(p, s, t, now, id))
  {
    hide KindsOf, Told, ToldSoFar;
  }

  /** The recording ended, and its clip is kept: the alert is out by now. */
  lemma KeptClipIsAnnounced(p: Policy, s: Story, t: Telling, now: Time, id: EventId, c: Clip)
    requires Once(s) && CanTell(p, s, t) && EventAfter(p, s, t.beat, now, id).None?
    requires s.event.Some? && !s.event.value.unwanted && c.id == s.event.value.id && c.kind == s.event.value.kind
    ensures HasAlert(Tell(p, s, t, now, id).enqueued, c)
  {
    var s1 := Tell(p, s, t, now, id);
    var said := Says(s, t.beat, now, id);
    if said.Some? {
      assert IsAlertOf(s1.enqueued[|s.enqueued|].alert, c);
    } else {
      assert c.kind in KindsOf(s.enqueued, c.id);
      KindHasAlert(s.enqueued, c);
    }
  }

  /** Alerts are never taken back, and only the running recording is silenced. */
  lemma AnnouncedTell(p: Policy, s: Story, t: Telling, now: Time, id: EventId, accepted: seq<Clip>)
    requires Announced(s, accepted) && CanTell(p, s, t)
    requires forall k :: 0 <= k < |accepted| ==> !IsCurrent(s, accepted[k].id)
    ensures Announced(Tell(p, s, t, now, id), accepted)
  {}

  ghost predicate Truthful(s: State) {
    && ReelInv(ReelOf(s), s.log.minted)
    && Announced(StoryOf(s), s.spool.history.accepted)
    && SilentUnlessRing(StoryOf(s))
  }

  lemma TruthfulDispatch(p: Policy, s: State, i: Input)
    requires CameraInv(s.camera, s.panel.shuttingDown) && Once(StoryOf(s)) && Truthful(s) && i.id !in s.log.minted
    ensures Truthful(Dispatch(p, s, i)) && Once(StoryOf(Dispatch(p, s, i)))
  {
    hide Dispatch, Once, KindsOf, CanTell, Tape, ReelInv, Announced, SilentUnlessRing;
    var t := DispatchTells(p, s, i);
    var c := DispatchFilms(p, s, i);
    var s1 := Dispatch(p, s, i);
    OnceTell(p, StoryOf(s), t, i.now, i.id);
    SilentTell(p, StoryOf(s), t, i.now, i.id);
    assert s1.log.minted == StoryOf(s1).minted;
    ReelEdit(ReelOf(s), c, i.now, i.id, s.log.minted, s1.log.minted);
    var accepted := s.spool.history.accepted;
    assert forall k :: 0 <= k < |accepted| ==> !IsCurrent(StoryOf(s), accepted[k].id) by { NotCurrent(s); }
    AnnouncedTell(p, StoryOf(s), t, i.now, i.id, accepted);
    if c.Keep? {
      assert s1.camera.event.None?;
      KeptClipIsAnnounced(p, StoryOf(s), t, i.now, i.id, c.clip);
      KeptAnnounced(StoryOf(s), StoryOf(s1), accepted, c.clip);
    }
  }

  lemma NotCurrent(s: State)
    requires ReelInv(ReelOf(s), s.log.minted)
    ensures forall k :: 0 <= k < |s.spool.history.accepted| ==> !IsCurrent(StoryOf(s), s.spool.history.accepted[k].id)
  {}

  lemma KeptAnnounced(s: Story, s1: Story, accepted: seq<Clip>, c: Clip)
    requires Announced(s1, accepted) && SilentUnlessRing(s)
    requires s.event.Some? && !s.event.value.unwanted && s.event.value.id == c.id && s.event.value.kind == c.kind
    requires s1.silenced == s.silenced
    requires HasAlert(s1.enqueued, c)
    ensures Announced(s1, accepted + [c])
  {}

  lemma TruthfulStep(p: Policy, s: State, i: Input)
    requires CameraInv(s.camera, s.panel.shuttingDown) && Once(StoryOf(s)) && Truthful(s) && i.id !in s.log.minted
    ensures Truthful(Handle(p, s, i))
  {
    hide Dispatch, Close, Once, CanTell, Tell, Tape, ReelInv, Announced, SilentUnlessRing;
    var s1 := Lapse(s, i.now);
    OnceForgetsTimers(StoryOf(s), StoryOf(s1));
    TimersAreNoMatter(StoryOf(s), StoryOf(s1), s.spool.history.accepted);
    TruthfulDispatch(p, s1, i);
    var s2 := Dispatch(p, s1, i);
    var s3 := Close(p, s2, i.now);
    var t := CloseTells(p, s2, i.now, i.id);
    CloseFilms(p, s2, i.now);
    Closing(p, s2, i.now);
    SilentTell(p, StoryOf(s2), t, i.now, i.id);
    NotCurrent(s2);
    AnnouncedTell(p, StoryOf(s2), t, i.now, i.id, s2.spool.history.accepted);
  }

  lemma TimersAreNoMatter(s: Story, s1: Story, accepted: seq<Clip>)
    requires s1 == s.(cooldown := s1.cooldown, window := s1.window)
    ensures Announced(s, accepted) ==> Announced(s1, accepted)
    ensures SilentUnlessRing(s) ==> SilentUnlessRing(s1)
  {}

  lemma {:induction false} TruthfulRun(p: Policy, inputs: seq<Input>)
    requires Legal(inputs)
    ensures Truthful(Run(p, inputs))
  {
    if inputs == [] {
      TruthfulAtStart(p);
    } else {
      hide Handle, Truthful, Once, CameraInv;
      var n := |inputs| - 1;
      LegalRunStep(p, inputs);
      CameraRun(p, inputs[..n]);
      OnceRun(p, inputs[..n]);
      TruthfulRun(p, inputs[..n]);
      TruthfulStep(p, Run(p, inputs[..n]), inputs[n]);
    }
  }

  lemma TruthfulAtStart(p: Policy)
    ensures Truthful(Init(p))
  {
    assert Tape([]) == [];
  }

  /** Every clip ever spooled carries an id and kind already queued as an alert,
      states the time its sensor fired, says it is partial exactly when the
      recorder was told to stop while recording it, and is not a silenced motion. */
  lemma EveryClipHasItsAlert(p: Policy, inputs: seq<Input>, k: nat)
    requires Legal(inputs) && k < |Run(p, inputs).spool.history.accepted|
    ensures var t := Run(p, inputs); var c := t.spool.history.accepted[k];
      && HasAlert(t.desk.enqueued, c)
      && c.id in t.log.minted && c.triggeredAt == t.log.minted[c.id] && DrawnAt(inputs, c.id, c.triggeredAt)
      && (c.cutShort <==> CutIn(Tape(t.log.trace), c.id))
      && (c.id in t.log.silenced ==> c.kind == Ring)
  {
    hide Run, Tape, CutIn;
    TruthfulRun(p, inputs);
    var t := Run(p, inputs);
    assert Described(ReelOf(t).accepted[k], ReelOf(t), t.log.minted);
    MintedBySensor(p, inputs, t.spool.history.accepted[k].id);
  }
}
