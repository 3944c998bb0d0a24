/** The story the decision engine tells about each id, told in beats. Whatever
    event arrives, at most two beats are added: one by its handler, one by the
    verdict deadline. The alerting theorems are proved beat by beat. */
module CoreStories {
  import opened Types
  import opened CoreRules
  import opened CoreRuns

  /** What of a running recording's event an alert depends on. */
  datatype Tale = Tale(id: EventId, kind: Kind, triggeredAt: Time, awaiting: bool, due: Time,
                       alertAt: Time, unwanted: bool)

  datatype Story = Story(
    event: Option<Tale>,
    cooldown: Option<Time>,
    window: Option<Time>,
    enqueued: seq<Enqueued>,
    minted: map<EventId, Time>,
    silenced: set<EventId>,
    rings: seq<Press>)

  function TaleOf(e: ActiveEvent): Tale {
    Tale(e.id, e.kind, e.triggeredAt, e.awaitingVerdict, e.verdictDue, e.alertAt, e.unwanted)
  }

  function StoryOf(s: State): Story {
    Story(if s.camera.event.None? then None else Some(TaleOf(s.camera.event.value)),
          s.timers.motionCooldownUntil, s.timers.pressWindowUntil,
          s.desk.enqueued, s.log.minted, s.log.silenced, s.log.rings)
  }

  datatype Beat =
    | Nothing
    | Ended                        // the recording is over, its alert already decided
    | Released(faces: string)      // the held alert goes out
    | ReleasedEnded(faces: string) // and the recording is over
    | Unrecorded(kind: Kind)       // an alert with no recording
    | Recorded(kind: Kind)         // an alert, and a recording that owes nothing
    | Held(kind: Kind)             // a recording whose alert waits for the camera
    | UpgradedHeld                 // a press on a motion still held
    | UpgradedNow(faces: string)   // a press on a motion already told, or silenced
    | Silenced                     // nobody there

  /** A beat, and whether it opened the motion cooldown or the press window. */
  datatype Telling = Telling(beat: Beat, cooling: bool, pressing: bool)

  function HeldDue(p: Policy, kind: Kind, now: Time): Time {
    if kind == Motion then now + p.detectWindow + p.faceSearch + p.detectGrace else now + p.ringFaceWait
  }

  predicate CanTell(p: Policy, s: Story, t: Telling) {
    && (t.cooling ==> s.cooldown.None? && t.beat != Silenced)
    && (t.pressing ==> s.window.None?)
    && match t.beat
       case Nothing => true
       case Ended => s.event.Some? && !s.event.value.awaiting
       case Released(_) => s.event.Some? && s.event.value.awaiting
       case ReleasedEnded(_) => s.event.Some? && s.event.value.awaiting
       case Unrecorded(kind) => (if kind == Motion then t.cooling && s.event.None? else t.pressing)
       case Recorded(kind) => s.event.None? && (if kind == Motion then t.cooling else t.pressing)
       case Held(kind) => s.event.None? && (if kind == Motion then t.cooling else t.pressing)
       case UpgradedHeld => s.event.Some? && s.event.value.kind == Motion && s.event.value.awaiting && t.pressing
       case UpgradedNow(_) =>
         s.event.Some? && s.event.value.kind == Motion && t.pressing
         && (s.event.value.awaiting ==> p.ringFaceWait == 0)
       case Silenced => s.event.Some? && s.event.value.kind == Motion && s.event.value.awaiting
  }

  /** The alert a beat enqueues, if any. */
  function Says(s: Story, b: Beat, now: Time, id: EventId): Option<Alert> {
    match b
    case Released(faces) =>
      if s.event.None? then None
      else Some(Alert(s.event.value.id, s.event.value.kind, s.event.value.alertAt, faces))
    case ReleasedEnded(faces) =>
      if s.event.None? then None
      else Some(Alert(s.event.value.id, s.event.value.kind, s.event.value.alertAt, faces))
    case Unrecorded(kind) => Some(Alert(id, kind, now, ""))
    case Recorded(kind) => Some(Alert(id, kind, now, ""))
    case UpgradedNow(faces) => if s.event.None? then None else Some(Alert(s.event.value.id, Ring, now, faces))
    case _ => None
  }

  predicate Draws(b: Beat) { b.Unrecorded? || b.Recorded? || b.Held? }

  /** The id a press turned into a ring, if the beat is one. */
  function Rings(s: Story, b: Beat, id: EventId): Option<EventId> {
    if Draws(b) && b.kind == Ring then Some(id)
    else if (b.UpgradedHeld? || b.UpgradedNow?) && s.event.Some? then Some(s.event.value.id)
    else None
  }

  function EventAfter(p: Policy, s: Story, b: Beat, now: Time, id: EventId): Option<Tale> {
    match b
    case Recorded(kind) => Some(Tale(id, kind, now, false, 0, 0, false))
    case Held(kind) => Some(Tale(id, kind, now, true, HeldDue(p, kind, now), now, false))
    case Ended => None
    case ReleasedEnded(_) => None
    case _ =>
      if s.event.None? then None
      else
        var e := s.event.value;
        match b
        case Released(_) => Some(e.(awaiting := false))
        case UpgradedHeld =>
          Some(e.(kind := Ring, unwanted := false, alertAt := now, due := Min(e.due, now + p.ringFaceWait)))
        case UpgradedNow(_) => Some(e.(kind := Ring, unwanted := false, alertAt := now, awaiting := false))
        case Silenced => Some(e.(awaiting := false, unwanted := true))
        case _ => s.event
  }

  function Tell(p: Policy, s: Story, t: Telling, now: Time, id: EventId): Story {
    var said := Says(s, t.beat, now, id);
    var ring := Rings(s, t.beat, id);
    Story(
      EventAfter(p, s, t.beat, now, id),
      if t.cooling then Some(now + p.motionCooldown)
      else if t.beat == Silenced then Some(now + p.noPersonCooldown) else s.cooldown,
      if t.pressing then Some(now + p.pressDedupWindow) else s.window,
      if said.None? then s.enqueued else s.enqueued + [Enqueued(said.value, now)],
      if Draws(t.beat) then s.minted[id := now] else s.minted,
      if t.beat == Silenced && s.event.Some? then s.silenced + {s.event.value.id} else s.silenced,
      if ring.None? then s.rings else s.rings + [Press(ring.value, now)])
  }

  /** There is a recording for a press to join: one running, or one being thrown away. */
  predicate Joins(c: Camera) { c.event.Some? && (c.recording == Active || c.event.value.unwanted) }

  /** Which beat an event is, from the fields it is decided on: the whole behaviour of
      alerts in one table. The timers are those still running. */
  function Plan(p: Policy, s: State, e: Event): Telling {
    var quiet := Telling(Nothing, false, false);
    var c, free := s.camera, s.camera.recording == NotRecording && s.camera.viewers == {};
    match e
    case MotionDetected =>
      if s.panel.shuttingDown || s.timers.motionCooldownUntil.Some? then quiet
      else
        Telling(if c.recording != NotRecording then Nothing
                else if c.viewers != {} then Unrecorded(Motion)
                else if p.personDetection then Held(Motion)
                else Recorded(Motion), true, false)
    case ButtonPressed =>
      if s.panel.shuttingDown || s.timers.pressWindowUntil.Some? then quiet
      else
        Telling(if Joins(c) then
                  (if c.event.value.kind == Ring then Nothing
                   else if c.event.value.awaitingVerdict && p.ringFaceWait > 0 then UpgradedHeld
                   else UpgradedNow(c.event.value.faces))
                else if !free then Unrecorded(Ring)
                else if p.ringFaceWait > 0 then Held(Ring)
                else Recorded(Ring), false, true)
    case RecordingFinished(_, _, _, _, _) =>
      Telling(if c.event.None? then Nothing
              else if c.event.value.awaitingVerdict then ReleasedEnded("") else Ended, false, false)
    case DetectionResult(id, verdict, faces) =>
      if c.event.None? || c.event.value.id != id || !c.event.value.awaitingVerdict then quiet
      else Telling(if c.event.value.kind == Motion && verdict == NoPerson then Silenced else Released(faces), false, false)
    case _ => quiet
  }

  lemma AlertNowTells(p: Policy, s: State, a: Alert, now: Time)
    ensures var t := AlertNow(p, s, a, now);
      && StoryOf(t) == StoryOf(s).(enqueued := s.desk.enqueued + [Enqueued(a, now)])
      && t.camera == s.camera && t.panel == s.panel
  {
    hide NextAlert;
  }

  // ---- Every handler tells one beat ----

  lemma MotionTells(p: Policy, s: State, now: Time, id: EventId) returns (t: Telling)
    requires CameraInv(s.camera, s.panel.shuttingDown)
    ensures CanTell(p, StoryOf(s), t) && t.beat != Silenced && t == Plan(p, s, MotionDetected)
    ensures StoryOf(OnMotion(p, s, now, id)) == Tell(p, StoryOf(s), t, now, id)
  {
    hide NextAlert;
    if s.panel.shuttingDown || s.timers.motionCooldownUntil.Some? { t := Telling(Nothing, false, false); }
    else if s.camera.recording != NotRecording { t := Telling(Nothing, true, false); }
    else if s.camera.viewers != {} { t := Telling(Unrecorded(Motion), true, false); }
    else if p.personDetection { t := Telling(Held(Motion), true, false); }
    else { t := Telling(Recorded(Motion), true, false); }
  }

  lemma PressTells(p: Policy, s: State, now: Time, id: EventId) returns (t: Telling)
    requires CameraInv(s.camera, s.panel.shuttingDown)
    ensures CanTell(p, StoryOf(s), t) && t.beat != Silenced && t == Plan(p, s, ButtonPressed)
    ensures StoryOf(OnButton(p, s, now, id)) == Tell(p, StoryOf(s), t, now, id)
  {
    hide NextAlert;
    var c := s.camera;
    if s.panel.shuttingDown || s.timers.pressWindowUntil.Some? { t := Telling(Nothing, false, false); }
    else if JoinsRecording(c) {
      if c.event.value.kind == Ring { t := Telling(Nothing, false, true); }
      else if WaitsForAName(p, c.event.value) { t := Telling(UpgradedHeld, false, true); }
      else { t := Telling(UpgradedNow(c.event.value.faces), false, true); }
    }
    else if c.viewers != {} || c.recording != NotRecording { t := Telling(Unrecorded(Ring), false, true); }
    else if p.ringFaceWait > 0 { t := Telling(Held(Ring), false, true); }
    else { t := Telling(Recorded(Ring), false, true); }
  }

  lemma DeferredKeepsStory(s: State)
    ensures StoryOf(StartDeferred(s)) == StoryOf(s)
  {}

  lemma PutAwayKeepsStory(p: Policy, s: State, e: Option<ActiveEvent>, id: EventId, path: string,
                          ok: bool, duration: nat, bytes: nat)
    ensures StoryOf(PutAway(p, s, e, id, path, ok, duration, bytes)) == StoryOf(s)
  {
    hide Overflow, WorthKeeping;
  }

  lemma FinishTells(p: Policy, s: State, i: Input) returns (t: Telling)
    requires CameraInv(s.camera, s.panel.shuttingDown) && i.event.RecordingFinished?
    ensures CanTell(p, StoryOf(s), t) && t.beat != Silenced && !Draws(t.beat) && t == Plan(p, s, i.event)
    ensures StoryOf(Dispatch(p, s, i)) == Tell(p, StoryOf(s), t, i.now, i.id)
  {
    hide NextAlert, PutAway, StartDeferred;
    var s1 := ReleaseIfHeld(p, s, i.now);
    var s2 := FreeCamera(s1);
    var e := i.event;
    var s3 := PutAway(p, s2, s1.camera.event, e.id, e.path, e.ok, e.duration, e.bytes);
    PutAwayKeepsStory(p, s2, s1.camera.event, e.id, e.path, e.ok, e.duration, e.bytes);
    DeferredKeepsStory(s3);
    t := Telling(if s.camera.event.None? then Nothing
                 else if Holding(s.camera) then ReleasedEnded("") else Ended, false, false);
  }

  lemma VerdictTells(p: Policy, s: State, i: Input) returns (t: Telling)
    requires CameraInv(s.camera, s.panel.shuttingDown) && i.event.DetectionResult?
    ensures CanTell(p, StoryOf(s), t) && t == Plan(p, s, i.event)
    ensures StoryOf(Dispatch(p, s, i)) == Tell(p, StoryOf(s), t, i.now, i.id)
    ensures t.beat == Silenced ==> i.event.verdict == NoPerson && s.camera.event.value.id == i.event.id
  {
    hide AlertNow;
    if s.camera.event.Some? {
      var kept := s.(camera := KeepFaces(s.camera, i.event.verdict, i.event.faces));
      AlertNowTells(p, kept.(camera := LetGo(kept.camera)), HeldAlert(kept.camera, i.event.faces), i.now);
    }
    if s.camera.event.None? || s.camera.event.value.id != i.event.id || !Holding(s.camera) {
      t := Telling(Nothing, false, false);
    } else if s.camera.event.value.kind == Ring || i.event.verdict != NoPerson {
      t := Telling(Released(i.event.faces), false, false);
    } else {
      t := Telling(Silenced, false, false);
    }
  }

  lemma OtherTells(p: Policy, s: State, i: Input)
    requires !FromSensor(i.event) && !FromRecorder(i.event)
    ensures StoryOf(Dispatch(p, s, i)) == StoryOf(s)
  {
  }

  lemma DispatchTells(p: Policy, s: State, i: Input) returns (t: Telling)
    requires CameraInv(s.camera, s.panel.shuttingDown)
    ensures CanTell(p, StoryOf(s), t) && t == Plan(p, s, i.event)
    ensures StoryOf(Dispatch(p, s, i)) == Tell(p, StoryOf(s), t, i.now, i.id)
    ensures t.beat == Silenced ==>
      i.event.DetectionResult? && i.event.verdict == NoPerson && StoryOf(s).event.Some? && StoryOf(s).event.value.id == i.event.id
  {
    hide OnMotion, OnButton, OnRecordingFinished, OnDetection;
    hide OnViewer, OnCallEnded, OnUploadFinished, OnAlertResult, OnServerOnline, OnServerOffline, OnShutdown;
    match i.event
    case MotionDetected => t := MotionTells(p, s, i.now, i.id);
    case ButtonPressed => t := PressTells(p, s, i.now, i.id);
    case RecordingFinished(_, _, _, _, _) => t := FinishTells(p, s, i);
    case DetectionResult(_, _, _) => t := VerdictTells(p, s, i);
    case _ => OtherTells(p, s, i); t := Telling(Nothing, false, false);
  }

  /** A held alert's time is up. */
  predicate Late(s: Story, now: Time) { s.event.Some? && s.event.value.awaiting && now >= s.event.value.due }

  lemma CloseTells(p: Policy, s: State, now: Time, id: EventId) returns (t: Telling)
    ensures CanTell(p, StoryOf(s), t) && t.beat != Silenced && !Draws(t.beat)
    ensures t == Telling(if Late(StoryOf(s), now) then Released("") else Nothing, false, false)
    ensures StoryOf(Close(p, s, now)) == Tell(p, StoryOf(s), t, now, id)
  {
    hide Close;
    Closing(p, s, now);
    t := Telling(if Overdue(s.camera, now) then Released("") else Nothing, false, false);
  }

  // ---- The whole of one handling ----

  function Running(until: Option<Time>, now: Time): Option<Time> {
    if until.Some? && now < until.value then until else None
  }

  /** The timers that are over have run out. */
  function Awake(s: State, now: Time): State {
    s.(timers := Timers(Running(s.timers.motionCooldownUntil, now), Running(s.timers.pressWindowUntil, now),
                        Running(s.timers.ringLedUntil, now)))
  }

  /** One handling is two beats: the event's, and the one that lets a late alert go. */
  function Unfolded(p: Policy, s: State, i: Input): Story {
    var s1 := Awake(s, i.now);
    var mid := Tell(p, StoryOf(s1), Plan(p, s1, i.event), i.now, i.id);
    Tell(p, mid, Telling(if Late(mid, i.now) then Released("") else Nothing, false, false), i.now, i.id)
  }

  lemma HandleTells(p: Policy, s: State, i: Input)
    requires CameraInv(s.camera, s.panel.shuttingDown)
    ensures StoryOf(Handle(p, s, i)) == Unfolded(p, s, i)
  {
    hide Dispatch, Close, Tell, CanTell, Plan;
    var s1 := Lapse(s, i.now);
    AwakeIsLapsed(p, s, i.now, i.event);
    var t1 := DispatchTells(p, s1, i);
    var t2 := CloseTells(p, Dispatch(p, s1, i), i.now, i.id);
  }

  lemma AwakeIsLapsed(p: Policy, s: State, now: Time, e: Event)
    ensures StoryOf(Lapse(s, now)) == StoryOf(Awake(s, now)) && Plan(p, Lapse(s, now), e) == Plan(p, Awake(s, now), e)
  {}

  /** In every reachable state the next event tells exactly the story planned. */
  lemma TheStoryGoesOn(p: Policy, inputs: seq<Input>, i: Input)
    ensures StoryOf(Handle(p, Run(p, inputs), i)) == Unfolded(p, Run(p, inputs), i)
  {
    hide Run, Handle, Unfolded;
    CameraRun(p, inputs);
    HandleTells(p, Run(p, inputs), i);
  }
}
