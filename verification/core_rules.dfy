/** The decision engine as a function of its state (porchlightd/src/core/core.cpp).
    Cores.Core is the object that works in place and is proved equal to this. The
    fields called history are read by no rule; the theorems are about them. */
module CoreRules {
  import opened Types
  import opened BackoffRules
  import Q = AlertQueueRules

  // ---- The state, in the groups the rules use it in ----

  datatype RecordingState = NotRecording | Active | Stopping

  datatype ActiveEvent = ActiveEvent(
    id: EventId,
    kind: Kind,
    triggeredAt: Time,
    cutShort: bool,
    awaitingVerdict: bool,
    verdictDue: Time,
    alertAt: Time,
    faces: string,
    unwanted: bool)

  /** Who has the camera. */
  datatype Camera = Camera(
    viewers: set<PeerId>,
    recording: RecordingState,
    event: Option<ActiveEvent>,
    deferredCall: Option<PeerId>)

  datatype Timers = Timers(
    motionCooldownUntil: Option<Time>,
    pressWindowUntil: Option<Time>,
    ringLedUntil: Option<Time>)

  /** An alert put in the queue, and when. */
  datatype Enqueued = Enqueued(alert: Alert, at: Time)

  /** The alert queue. History: every alert ever queued, and when SendAlert went
      out since an alert was last settled. */
  datatype Desk = Desk(queue: Q.Queue, enqueued: seq<Enqueued>, attempts: seq<Time>)

  datatype PendingUpload = PendingUpload(clip: Clip, bytes: nat)

  /** History: every clip ever spooled, and those that left, by a confirmed upload
      or to honour the cap. */
  datatype SpoolHistory = SpoolHistory(accepted: seq<Clip>, confirmed: seq<Clip>, evicted: seq<Clip>)

  datatype Spool = Spool(
    uploads: seq<PendingUpload>,
    inFlight: bool,
    backoff: Delays,
    retryAfter: Option<Time>,
    history: SpoolHistory)

  datatype Panel = Panel(online: bool, fault: bool, led: LedPattern, shuttingDown: bool)

  /** A press that minted a ring or turned a motion into one. */
  datatype Press = Press(id: EventId, at: Time)

  /** History: the last handling time, every action ever emitted, every id drawn
      with its sensor time, the motions silenced while held, the rings. */
  datatype Log = Log(
    clock: Time,
    trace: seq<Action>,
    minted: map<EventId, Time>,
    silenced: set<EventId>,
    rings: seq<Press>)

  datatype State = State(camera: Camera, timers: Timers, desk: Desk, spool: Spool, panel: Panel, log: Log)

  /** One event, the steady time it is handled at, and the id the source would
      give out if one were asked for. */
  datatype Input = Input(event: Event, now: Time, id: EventId)

  function Init(p: Policy): State {
    State(Camera({}, NotRecording, None, None),
          Timers(None, None, None),
          Desk(Q.Empty(p.retryBackoffInitial, p.retryBackoffMax), [], []),
          Spool([], false, Fresh(p.retryBackoffInitial, p.retryBackoffMax), None, SpoolHistory([], [], [])),
          Panel(false, false, LedPattern.Off, false),
          Log(0, [], map[], {}, []))
  }

  // ---- Steps shared by the handlers ----

  function Emit(log: Log, a: Action): Log { log.(trace := log.trace + [a]) }

  function Mint(log: Log, id: EventId, now: Time): Log { log.(minted := log.minted[id := now]) }

  function NoteRing(log: Log, id: EventId, now: Time): Log { log.(rings := log.rings + [Press(id, now)]) }

  function Enqueue(p: Policy, d: Desk, a: Alert, now: Time): Desk {
    d.(queue := Q.Push(d.queue, p.maxQueuedAlerts, a), enqueued := d.enqueued + [Enqueued(a, now)])
  }

  /** The alert pump_alerts would send, once the too old have gone. */
  function NextAlert(p: Policy, d: Desk, online: bool, now: Time): Option<Alert> {
    Q.Ready(Q.Expire(d.queue, p.alertMaxAge, now), online, now)
  }

  function Pumped(p: Policy, d: Desk, online: bool, now: Time): Desk {
    var q := Q.Expire(d.queue, p.alertMaxAge, now);
    if NextAlert(p, d, online, now).None? then d.(queue := q)
    else d.(queue := Q.MarkSent(q), attempts := d.attempts + [now])
  }

  function EmitAlert(log: Log, next: Option<Alert>): Log {
    if next.None? then log else Emit(log, SendAlert(next.value))
  }

  function PumpAlerts(p: Policy, s: State, now: Time): State {
    if s.panel.shuttingDown then s
    else s.(desk := Pumped(p, s.desk, s.panel.online, now),
            log := EmitAlert(s.log, NextAlert(p, s.desk, s.panel.online, now)))
  }

  function AlertNow(p: Policy, s: State, a: Alert, now: Time): State {
    PumpAlerts(p, s.(desk := Enqueue(p, s.desk, a, now)), now)
  }

  function CutShort(c: Camera): Camera {
    c.(recording := Stopping,
       event := if c.event.Some? then Some(c.event.value.(cutShort := true)) else None)
  }

  /** Only a recording still running is asked to stop. */
  function StopIfActive(s: State): State {
    if s.camera.recording != Active then s
    else s.(camera := CutShort(s.camera), log := Emit(s.log, StopRecording))
  }

  function StartTheCall(s: State, peer: PeerId): State {
    s.(camera := s.camera.(viewers := s.camera.viewers + {peer}), log := Emit(s.log, StartCall(peer)))
  }

  predicate Holding(c: Camera) { c.event.Some? && c.event.value.awaitingVerdict }

  function LetGo(c: Camera): Camera
    requires c.event.Some?
  {
    c.(event := Some(c.event.value.(awaitingVerdict := false)))
  }

  function HeldAlert(c: Camera, faces: string): Alert
    requires c.event.Some?
  {
    Alert(c.event.value.id, c.event.value.kind, c.event.value.alertAt, faces)
  }

  function ReleaseHeldAlert(p: Policy, s: State, now: Time, faces: string): State
    requires s.camera.event.Some?
  {
    AlertNow(p, s.(camera := LetGo(s.camera)), HeldAlert(s.camera, faces), now)
  }

  function Record(c: Camera, e: ActiveEvent): Camera { c.(recording := Active, event := Some(e)) }

  function WatchForPerson(p: Policy, s: State, now: Time, id: EventId): State {
    s.(camera := Record(s.camera, ActiveEvent(id, Motion, now, false, true,
                          now + p.detectWindow + p.faceSearch + p.detectGrace, now, "", false)),
       log := Emit(Mint(s.log, id, now), StartRecording(id, p.clip, p.detectWindow, 0)))
  }

  function RingWithAName(p: Policy, s: State, now: Time, id: EventId): State {
    s.(camera := Record(s.camera, ActiveEvent(id, Ring, now, false, true,
                          now + p.ringFaceWait, now, "", false)),
       log := NoteRing(Emit(Mint(s.log, id, now), StartRecording(id, p.clip, 0, p.ringFaceWait)), id, now))
  }

  function AlertUnjudged(p: Policy, s: State, kind: Kind, now: Time, id: EventId): State {
    var log := Mint(s.log, id, now);
    AlertNow(p, s.(log := if kind == Ring then NoteRing(log, id, now) else log), Alert(id, kind, now, ""), now)
  }

  function RecordUnjudged(p: Policy, s: State, kind: Kind, now: Time, id: EventId): State {
    s.(camera := Record(s.camera, ActiveEvent(id, kind, now, false, false, 0, 0, "", false)),
       log := Emit(s.log, StartRecording(id, p.clip, 0, 0)))
  }

  function Trigger(p: Policy, s: State, kind: Kind, now: Time, withClip: bool, id: EventId): State {
    if kind == Ring && withClip && p.ringFaceWait > 0 then RingWithAName(p, s, now, id)
    else if withClip then RecordUnjudged(p, AlertUnjudged(p, s, kind, now, id), kind, now, id)
    else AlertUnjudged(p, s, kind, now, id)
  }

  // ---- One function per event ----

  function Unlapsed(until: Option<Time>, now: Time): Option<Time> {
    if Before(now, until) then until else None
  }

  function Lapse(s: State, now: Time): State {
    s.(timers := Timers(Unlapsed(s.timers.motionCooldownUntil, now),
                        Unlapsed(s.timers.pressWindowUntil, now),
                        Unlapsed(s.timers.ringLedUntil, now)),
       log := s.log.(clock := now))
  }

  function OnMotion(p: Policy, s: State, now: Time, id: EventId): State {
    if s.panel.shuttingDown || s.timers.motionCooldownUntil.Some? then s
    else
      var s1 := s.(timers := s.timers.(motionCooldownUntil := Some(now + p.motionCooldown)));
      if s1.camera.recording != NotRecording then s1
      else if p.personDetection && s1.camera.viewers == {} then WatchForPerson(p, s1, now, id)
      else Trigger(p, s1, Motion, now, s1.camera.viewers == {}, id)
  }

  predicate WaitsForAName(p: Policy, e: ActiveEvent) { e.awaitingVerdict && p.ringFaceWait > 0 }

  /** The recording's event turned into a ring by a press. */
  function AsRing(p: Policy, e: ActiveEvent, now: Time): ActiveEvent {
    e.(kind := Ring, unwanted := false, alertAt := now,
       verdictDue := if WaitsForAName(p, e) then Min(e.verdictDue, now + p.ringFaceWait) else e.verdictDue,
       awaitingVerdict := WaitsForAName(p, e))
  }

  /** A press on the running recording: its event is a ring from now on. */
  function Upgrade(p: Policy, s: State, now: Time): State
    requires s.camera.event.Some?
  {
    var e := s.camera.event.value;
    var s1 := s.(camera := s.camera.(event := Some(AsRing(p, e, now))), log := NoteRing(s.log, e.id, now));
    if WaitsForAName(p, e) then s1 else AlertNow(p, s1, Alert(e.id, Ring, now, e.faces), now)
  }

  /** The press belongs to the recording that is running, or to one being thrown
      away as nobody. */
  predicate JoinsRecording(c: Camera) {
    c.event.Some? && (c.recording == Active || c.event.value.unwanted)
  }

  /** A press outside the window the last one opened. */
  function OnNewPress(p: Policy, s: State, now: Time, id: EventId): State {
    if !JoinsRecording(s.camera) then
      Trigger(p, s, Ring, now, s.camera.viewers == {} && s.camera.recording == NotRecording, id)
    else if s.camera.event.value.kind == Motion then Upgrade(p, s, now)
    else s
  }

  function OnButton(p: Policy, s: State, now: Time, id: EventId): State {
    if s.panel.shuttingDown then s
    else
      var timers := s.timers.(ringLedUntil := Some(now + p.ringLed));
      if s.timers.pressWindowUntil.Some? then s.(timers := timers, log := Emit(s.log, PlayChime))
      else OnNewPress(p, s.(timers := timers.(pressWindowUntil := Some(now + p.pressDedupWindow)),
                            log := Emit(s.log, PlayChime)), now, id)
  }

  function Defer(s: State, peer: PeerId): State {
    s.(camera := s.camera.(deferredCall := Some(peer)))
  }

  function OnViewer(s: State, peer: PeerId): State {
    if s.panel.shuttingDown then s
    else if s.camera.recording == NotRecording then StartTheCall(s, peer)
    else Defer(StopIfActive(s), peer)
  }

  function OnCallEnded(s: State, peer: PeerId): State {
    s.(camera := s.camera.(
         viewers := s.camera.viewers - {peer},
         deferredCall := if s.camera.deferredCall == Some(peer) then None else s.camera.deferredCall))
  }

  function TotalBytes(uploads: seq<PendingUpload>): nat {
    if uploads == [] then 0 else uploads[0].bytes + TotalBytes(uploads[1..])
  }

  datatype Eviction = Eviction(kept: seq<PendingUpload>, victims: seq<Clip>)

  /** Drops, oldest first from the given place, until the rest fits or nothing
      droppable is left. */
  function Evict(uploads: seq<PendingUpload>, oldest: nat, cap: nat): Eviction
    decreases |uploads|
  {
    if TotalBytes(uploads) > cap && |uploads| > oldest then
      var rest := Evict(Q.Without(uploads, oldest), oldest, cap);
      Eviction(rest.kept, [uploads[oldest].clip] + rest.victims)
    else Eviction(uploads, [])
  }

  function Discards(victims: seq<Clip>): (r: seq<Action>)
    ensures |r| == |victims|
  {
    seq(|victims|, i requires 0 <= i < |victims| => DiscardClip(victims[i].id, victims[i].path))
  }

  lemma DiscardsGrow(trace: seq<Action>, victims: seq<Clip>, victim: Clip)
    ensures trace + Discards(victims) + [DiscardClip(victim.id, victim.path)] == trace + Discards(victims + [victim])
  {}

  lemma DiscardsNone(trace: seq<Action>)
    ensures trace + Discards([]) == trace
  {}

  /** An eviction that begins with the clips already dropped. */
  function After(dropped: seq<Clip>, rest: Eviction): Eviction { rest.(victims := dropped + rest.victims) }

  lemma EvictOne(uploads: seq<PendingUpload>, oldest: nat, cap: nat, dropped: seq<Clip>)
    requires TotalBytes(uploads) > cap && |uploads| > oldest
    ensures After(dropped, Evict(uploads, oldest, cap))
         == After(dropped + [uploads[oldest].clip], Evict(Q.Without(uploads, oldest), oldest, cap))
  {
    var rest := Evict(Q.Without(uploads, oldest), oldest, cap);
    assert dropped + ([uploads[oldest].clip] + rest.victims) == dropped + [uploads[oldest].clip] + rest.victims;
  }

  lemma EvictNone(uploads: seq<PendingUpload>, oldest: nat, cap: nat)
    ensures TotalBytes(uploads) <= cap || |uploads| <= oldest ==> Evict(uploads, oldest, cap) == Eviction(uploads, [])
  {}

  function Overflow(p: Policy, s: Spool): Eviction {
    Evict(s.uploads, if s.inFlight then 1 else 0, p.spoolMaxBytes)
  }

  /** The spool once the eviction is done, victims moved to the history. */
  function WithinCap(p: Policy, s: Spool): Spool {
    s.(uploads := Overflow(p, s).kept,
       history := s.history.(evicted := s.history.evicted + Overflow(p, s).victims))
  }

  function Accept(s: Spool, clip: Clip, bytes: nat): Spool {
    s.(uploads := s.uploads + [PendingUpload(clip, bytes)],
       history := s.history.(accepted := s.history.accepted + [clip]))
  }

  predicate WorthKeeping(p: Policy, described: Option<ActiveEvent>, id: EventId, ok: bool, duration: nat, bytes: nat) {
    && ok && bytes > 0 && duration >= p.minClip
    && described.Some? && described.value.id == id && !described.value.unwanted
  }

  function ClipOf(e: ActiveEvent, path: string, duration: nat): Clip {
    Clip(e.id, path, e.kind, e.triggeredAt, duration, e.cutShort)
  }

  function PutAway(p: Policy, s: State, described: Option<ActiveEvent>,
                   id: EventId, path: string, ok: bool, duration: nat, bytes: nat): State {
    if WorthKeeping(p, described, id, ok, duration, bytes) then
      var full := Accept(s.spool, ClipOf(described.value, path, duration), bytes);
      s.(spool := WithinCap(p, full),
         log := s.log.(trace := s.log.trace + Discards(Overflow(p, full).victims)))
    else if path != "" then s.(log := Emit(s.log, DiscardClip(id, path)))
    else s
  }

  function FreeCamera(s: State): State {
    s.(camera := s.camera.(recording := NotRecording, event := None))
  }

  /** The camera is free: the viewer who was kept waiting gets the call. */
  function StartDeferred(s: State): State {
    if s.camera.deferredCall.None? then s
    else
      var s1 := StartTheCall(s, s.camera.deferredCall.value);
      s1.(camera := s1.camera.(deferredCall := None))
  }

  function ReleaseIfHeld(p: Policy, s: State, now: Time): State {
    if Holding(s.camera) then ReleaseHeldAlert(p, s, now, "") else s
  }

  function OnRecordingFinished(p: Policy, s: State, now: Time,
                               id: EventId, path: string, ok: bool, duration: nat, bytes: nat): State {
    var s1 := ReleaseIfHeld(p, s, now);
    StartDeferred(PutAway(p, FreeCamera(s1), s1.camera.event, id, path, ok, duration, bytes))
  }

  /** The verdict was NoPerson and the motion's alert had not gone out. */
  function Silence(p: Policy, s: State, now: Time): State
    requires s.camera.event.Some?
  {
    var e := s.camera.event.value;
    StopIfActive(s.(camera := s.camera.(event := Some(e.(awaitingVerdict := false, unwanted := true))),
                    timers := s.timers.(motionCooldownUntil := Some(now + p.noPersonCooldown)),
                    log := s.log.(silenced := s.log.silenced + {e.id})))
  }

  function KeepFaces(c: Camera, verdict: Verdict, faces: string): Camera
    requires c.event.Some?
  {
    if verdict == NoPerson then c else c.(event := Some(c.event.value.(faces := faces)))
  }

  function OnDetection(p: Policy, s: State, now: Time, id: EventId, verdict: Verdict, faces: string): State {
    if s.camera.event.None? || s.camera.event.value.id != id then s
    else
      var s1 := s.(camera := KeepFaces(s.camera, verdict, faces));
      if !Holding(s1.camera) then s1
      else if s1.camera.event.value.kind == Ring || verdict != NoPerson then ReleaseHeldAlert(p, s1, now, faces)
      else Silence(p, s1, now)
  }

  function FailUpload(s: Spool, now: Time): Spool {
    s.(inFlight := false, backoff := Fail(s.backoff).1, retryAfter := Some(now + Fail(s.backoff).0))
  }

  predicate Confirms(s: Spool, id: EventId) { s.uploads != [] && s.uploads[0].clip.id == id }

  function ConfirmUpload(s: Spool, id: EventId): Spool {
    Spool(if Confirms(s, id) then s.uploads[1..] else s.uploads, false, Reset(s.backoff), None,
          if Confirms(s, id) then s.history.(confirmed := s.history.confirmed + [s.uploads[0].clip]) else s.history)
  }

  function OnUploadFinished(s: State, now: Time, id: EventId, ok: bool): State {
    s.(spool := if ok then ConfirmUpload(s.spool, id) else FailUpload(s.spool, now))
  }

  function OnAlertResult(s: State, now: Time, id: EventId, kind: Kind, outcome: AlertOutcome): State {
    s.(desk := s.desk.(
         queue := Q.OnResult(s.desk.queue, id, kind, outcome, now),
         attempts := if Q.Settles(s.desk.queue, id, kind, outcome) then [] else s.desk.attempts))
  }

  function OnServerOnline(s: State): State { s.(panel := s.panel.(online := true, fault := false)) }

  function OnServerOffline(s: State, now: Time, permanent: bool): State {
    s.(panel := s.panel.(online := false, fault := s.panel.fault || permanent),
       desk := s.desk.(queue := Q.LinkLost(s.desk.queue, now)),
       spool := if s.spool.inFlight then FailUpload(s.spool, now) else s.spool)
  }

  function HangUp(s: State): State {
    if s.camera.viewers == {} then s
    else s.(camera := s.camera.(viewers := {}), log := Emit(s.log, StopCall))
  }

  function OnShutdown(s: State): State {
    var s1 := HangUp(StopIfActive(s.(panel := s.panel.(shuttingDown := true))));
    s1.(camera := s1.camera.(deferredCall := None),
        panel := s1.panel.(led := LedPattern.Off),
        log := Emit(s1.log, SetLed(LedPattern.Off)))
  }

  function Dispatch(p: Policy, s: State, i: Input): State {
    match i.event
    case ButtonPressed => OnButton(p, s, i.now, i.id)
    case MotionDetected => OnMotion(p, s, i.now, i.id)
    case ViewerRequested(peer) => OnViewer(s, peer)
    case CallEnded(peer, _) => OnCallEnded(s, peer)
    case RecordingFinished(id, path, ok, duration, bytes) =>
      OnRecordingFinished(p, s, i.now, id, path, ok, duration, bytes)
    case DetectionResult(id, verdict, faces) => OnDetection(p, s, i.now, id, verdict, faces)
    case UploadFinished(id, ok) => OnUploadFinished(s, i.now, id, ok)
    case AlertResult(id, kind, outcome) => OnAlertResult(s, i.now, id, kind, outcome)
    case ServerOnline => OnServerOnline(s)
    case ServerOffline(permanent) => OnServerOffline(s, i.now, permanent)
    case Tick => s
    case Shutdown => OnShutdown(s)
  }

  // ---- What every event ends with ----

  predicate Overdue(c: Camera, now: Time) { Holding(c) && now >= c.event.value.verdictDue }

  function CheckVerdictDeadline(p: Policy, s: State, now: Time): State {
    if Overdue(s.camera, now)
    then ReleaseHeldAlert(p, s, now, "") else s
  }

  predicate UploadReady(s: State, now: Time) {
    && !s.panel.shuttingDown && !s.spool.inFlight && s.spool.uploads != [] && s.panel.online
    && s.camera.viewers == {}
    && !Before(now, s.spool.retryAfter)
  }

  function PumpUploads(s: State, now: Time): State {
    if !UploadReady(s, now) then s
    else s.(spool := s.spool.(inFlight := true), log := Emit(s.log, UploadClip(s.spool.uploads[0].clip)))
  }

  function DesiredLed(s: State): LedPattern {
    if s.panel.shuttingDown then LedPattern.Off
    else if s.timers.ringLedUntil.Some? then LedPattern.RingLed
    else if s.camera.viewers != {} then LedPattern.Live
    else if s.camera.recording != NotRecording then LedPattern.Recording
    else if s.panel.fault then LedPattern.Fault
    else if !s.panel.online then LedPattern.Offline
    else LedPattern.Idle
  }

  function UpdateLed(s: State): State {
    if DesiredLed(s) == s.panel.led then s
    else s.(panel := s.panel.(led := DesiredLed(s)), log := Emit(s.log, SetLed(DesiredLed(s))))
  }

  function Close(p: Policy, s: State, now: Time): State {
    UpdateLed(PumpUploads(PumpAlerts(p, CheckVerdictDeadline(p, s, now), now), now))
  }

  function Handle(p: Policy, s: State, i: Input): State {
    Close(p, Dispatch(p, Lapse(s, i.now), i), i.now)
  }

  function NextDeadline(p: Policy, s: State): Option<Time> {
    if s.panel.shuttingDown then None
    else
      var timers := Earlier(Earlier(s.timers.motionCooldownUntil, s.timers.pressWindowUntil), s.timers.ringLedUntil);
      var queues := Earlier(Earlier(timers, Q.NextDeadline(s.desk.queue, p.alertMaxAge)), s.spool.retryAfter);
      Earlier(queues, if Holding(s.camera) then Some(s.camera.event.value.verdictDue) else None)
  }

  // ---- Runs ----

  function Run(p: Policy, inputs: seq<Input>): State
    decreases |inputs|
  {
    if inputs == [] then Init(p)
    else Handle(p, Run(p, inputs[..|inputs| - 1]), inputs[|inputs| - 1])
  }

  /** Steady time never goes back and the id source never repeats itself. */
  ghost predicate Legal(inputs: seq<Input>) {
    && (forall i :: 0 <= i < |inputs| ==> 0 <= inputs[i].now)
    && (forall i, j :: 0 <= i < j < |inputs| ==> inputs[i].now <= inputs[j].now)
    && (forall i, j :: 0 <= i < j < |inputs| ==> inputs[i].id != inputs[j].id)
  }

  /** The same two assumptions, seen by one step. */
  ghost predicate LegalStep(s: State, i: Input) {
    s.log.clock <= i.now && i.id !in s.log.minted
  }
}
