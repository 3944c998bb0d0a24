/** Which clips the uploader is told to delete: exactly those that left the spool
    for want of room, and those that were never let in. */
module CoreDiscards {
  import opened Types
  import opened CoreRules
  import opened CoreRuns
  import opened CoreStories
  import opened CoreAlerting
  import opened CoreClips
  import opened CoreSpool

  /** Nothing was taken back, nothing that was added discards a clip, and every
      alert that was added is younger than the maximum age. */
  ghost predicate Spares(p: Policy, now: Time, before: seq<Action>, after: seq<Action>) {
    && before <= after
    && forall k :: |before| <= k < |after| ==>
         !after[k].DiscardClip? && (after[k].SendAlert? ==> now - after[k].alert.at < p.alertMaxAge)
  }

  lemma SparesTrans(p: Policy, now: Time, a: seq<Action>, b: seq<Action>, c: seq<Action>)
    requires Spares(p, now, a, b) && Spares(p, now, b, c)
    ensures Spares(p, now, a, c)
  {}

  /** The queue is aged before it is read, and what it offers is never in flight. */
  lemma NextAlertIsYoung(p: Policy, d: Desk, online: bool, now: Time)
    ensures NextAlert(p, d, online, now).Some? ==> now - NextAlert(p, d, online, now).value.at < p.alertMaxAge
  {}

  lemma AlertNowSpares(p: Policy, s: State, a: Alert, now: Time)
    ensures Spares(p, now, s.log.trace, AlertNow(p, s, a, now).log.trace)
  {
    hide Pumped, NextAlert;
    NextAlertIsYoung(p, Enqueue(p, s.desk, a, now), s.panel.online, now);
  }

  lemma TriggerSpares(p: Policy, s: State, kind: Kind, now: Time, withClip: bool, id: EventId)
    ensures Spares(p, now, s.log.trace, Trigger(p, s, kind, now, withClip, id).log.trace)
  {
    hide AlertNow;
    var log := Mint(s.log, id, now);
    AlertNowSpares(p, s.(log := if kind == Ring then NoteRing(log, id, now) else log), Alert(id, kind, now, ""), now);
  }

  lemma SensorSpares(p: Policy, s: State, i: Input)
    requires FromSensor(i.event)
    ensures Spares(p, i.now, s.log.trace, Dispatch(p, s, i).log.trace)
  {
    hide AlertNow, Trigger;
    var now := i.now;
    if i.event.MotionDetected? {
      TriggerSpares(p, s.(timers := s.timers.(motionCooldownUntil := Some(now + p.motionCooldown))),
                    Motion, now, s.camera.viewers == {}, i.id);
    } else {
      var timers := s.timers.(ringLedUntil := Some(now + p.ringLed), pressWindowUntil := Some(now + p.pressDedupWindow));
      var s1 := s.(timers := timers, log := Emit(s.log, PlayChime));
      if JoinsRecording(s1.camera) {
        var e := s1.camera.event.value;
        var s2 := s1.(camera := s1.camera.(event := Some(AsRing(p, e, now))), log := NoteRing(s1.log, e.id, now));
        AlertNowSpares(p, s2, Alert(e.id, Ring, now, e.faces), now);
      } else {
        TriggerSpares(p, s1, Ring, now, s1.camera.viewers == {} && s1.camera.recording == NotRecording, i.id);
      }
    }
  }

  lemma VerdictSpares(p: Policy, s: State, i: Input)
    requires i.event.DetectionResult?
    ensures Spares(p, i.now, s.log.trace, Dispatch(p, s, i).log.trace)
  {
    hide AlertNow;
    if s.camera.event.Some? {
      var s1 := s.(camera := KeepFaces(s.camera, i.event.verdict, i.event.faces));
      AlertNowSpares(p, s1.(camera := LetGo(s1.camera)), HeldAlert(s1.camera, i.event.faces), i.now);
    }
  }

  lemma OtherSpares(p: Policy, s: State, i: Input)
    requires !FromSensor(i.event) && !FromRecorder(i.event)
    ensures Spares(p, i.now, s.log.trace, Dispatch(p, s, i).log.trace)
  {
  }

  lemma CloseSpares(p: Policy, s: State, now: Time)
    ensures Spares(p, now, s.log.trace, Close(p, s, now).log.trace)
  {
    hide Pumped, NextAlert;
    var s1 := CheckVerdictDeadline(p, s, now);
    if Overdue(s.camera, now) {
      AlertNowSpares(p, s.(camera := LetGo(s.camera)), HeldAlert(s.camera, ""), now);
    }
    assert Spares(p, now, s.log.trace, s1.log.trace);
    var s2 := PumpAlerts(p, s1, now);
    NextAlertIsYoung(p, s1.desk, s1.panel.online, now);
    assert Spares(p, now, s1.log.trace, s2.log.trace);
    SparesTrans(p, now, s.log.trace, s1.log.trace, s2.log.trace);
    var s3 := PumpUploads(s2, now);
    assert Spares(p, now, s2.log.trace, s3.log.trace);
    SparesTrans(p, now, s.log.trace, s2.log.trace, s3.log.trace);
    assert Spares(p, now, s3.log.trace, UpdateLed(s3).log.trace);
    SparesTrans(p, now, s.log.trace, s3.log.trace, UpdateLed(s3).log.trace);
  }

  /** What the end of a recording discards. */
  function Dumped(p: Policy, s: State, e: Event): seq<Action>
    requires e.RecordingFinished?
  {
    if WorthKeeping(p, s.camera.event, e.id, e.ok, e.duration, e.bytes) then
      Discards(Overflow(p, Accept(s.spool, ClipOf(s.camera.event.value, e.path, e.duration), e.bytes)).victims)
    else if e.path != "" then [DiscardClip(e.id, e.path)]
    else []
  }

  /** Everything before those discards, and after them, discards nothing. */
  lemma FinishDumps(p: Policy, s: State, i: Input) returns (mid: seq<Action>)
    requires i.event.RecordingFinished?
    ensures Spares(p, i.now, s.log.trace, mid)
    ensures Spares(p, i.now, mid + Dumped(p, s, i.event), Dispatch(p, s, i).log.trace)
  {
    hide AlertNow, Overflow, WorthKeeping, Accept, WithinCap;
    if Holding(s.camera) {
      AlertNowSpares(p, s.(camera := LetGo(s.camera)), HeldAlert(s.camera, ""), i.now);
      AlertNowFilms(p, s.(camera := LetGo(s.camera)), HeldAlert(s.camera, ""), i.now);
    }
    var s1 := ReleaseIfHeld(p, s, i.now);
    mid := s1.log.trace;
    var e := i.event;
    WorthIsTheSame(p, s.camera.event, s1.camera.event, e);
    assert s1.spool == s.spool by {
      if Holding(s.camera) { AlertNowSpools(p, s.(camera := LetGo(s.camera)), HeldAlert(s.camera, ""), i.now); }
    }
  }

  lemma AlertNowSpools(p: Policy, s: State, a: Alert, now: Time)
    ensures AlertNow(p, s, a, now).spool == s.spool
  {}

  /** Letting the alert go changes nothing the clip depends on. */
  lemma WorthIsTheSame(p: Policy, a: Option<ActiveEvent>, b: Option<ActiveEvent>, e: Event)
    requires e.RecordingFinished?
    requires a == b || (a.Some? && b == Some(a.value.(awaitingVerdict := false)))
    ensures WorthKeeping(p, a, e.id, e.ok, e.duration, e.bytes) <==> WorthKeeping(p, b, e.id, e.ok, e.duration, e.bytes)
    ensures a.Some? ==> ClipOf(a.value, e.path, e.duration) == ClipOf(b.value, e.path, e.duration)
  {}

  /** No SendAlert ever leaves with an alert old enough to be dropped, whichever
      event it leaves on; and nothing the core did is ever undone. */
  lemma SendsAreYoung(p: Policy, s: State, i: Input, k: nat)
    requires |s.log.trace| <= k < |Handle(p, s, i).log.trace| && Handle(p, s, i).log.trace[k].SendAlert?
    ensures s.log.trace <= Handle(p, s, i).log.trace
    ensures i.now - Handle(p, s, i).log.trace[k].alert.at < p.alertMaxAge
  {
    hide Dispatch, Close;
    var s1 := Lapse(s, i.now);
    var s2 := Dispatch(p, s1, i);
    CloseSpares(p, s2, i.now);
    if i.event.RecordingFinished? {
      var mid := FinishDumps(p, s1, i);
      var dumped := Dumped(p, s1, i.event);
      assert forall a :: a in dumped ==> a.DiscardClip? by { DumpedDiscards(p, s1, i.event); }
      if k < |mid + dumped| {
        assert Handle(p, s, i).log.trace[k] == (mid + dumped)[k];
      }
    } else {
      DispatchSpares(p, s1, i);
    }
  }

  lemma DumpedDiscards(p: Policy, s: State, e: Event)
    requires e.RecordingFinished?
    ensures forall a :: a in Dumped(p, s, e) ==> a.DiscardClip?
  {
    hide Overflow, Accept;
  }

  // ---- The spool's books, against what the uploader was told ----

  ghost predicate Unique(accepted: seq<Clip>) {
    forall j, k :: 0 <= j < k < |accepted| ==> accepted[j].id != accepted[k].id
  }

  /** Every clip evicted was announced, path and all. */
  ghost predicate EvictedAreDiscarded(s: State) {
    forall c :: c in s.spool.history.evicted ==> DiscardClip(c.id, c.path) in s.log.trace
  }

  /** Whatever was announced is old business and no clip still kept, unless a stray
      answer named it. */
  ghost predicate Explained(s: State, strays: set<EventId>) {
    forall k :: 0 <= k < |s.log.trace| && s.log.trace[k].DiscardClip? ==>
      Gone(s, s.log.trace[k].id) || s.log.trace[k].id in strays
  }

  ghost predicate Discarded(trace: seq<Action>, id: EventId) {
    exists k :: 0 <= k < |trace| && trace[k].DiscardClip? && trace[k].id == id
  }

  ghost predicate Gone(s: State, id: EventId) {
    && id in s.log.minted
    && !IsCurrent(StoryOf(s), id)
    && (forall c :: c in s.spool.history.accepted && c.id == id ==> c in s.spool.history.evicted)
  }

  /** A recording with a file is reported over under an id that is not the running
      event's. */
  predicate Stray(s: State, e: Event) {
    e.RecordingFinished? && e.path != "" && !IsCurrent(StoryOf(s), e.id)
  }

  predicate StrayFor(s: State, e: Event, id: EventId) { Stray(s, e) && e.id == id }

  /** The id a stray answer names. */
  function StrayIn(s: State, e: Event): set<EventId> { if Stray(s, e) then {e.id} else {} }

  ghost predicate Books(p: Policy, s: State) {
    && CapInv(p, s.spool) && LedgerInv(s.spool)
    && Unique(s.spool.history.accepted)
    && EvictedAreDiscarded(s)
  }

  lemma UniqueDispatch(p: Policy, s: State, i: Input)
    requires CameraInv(s.camera, s.panel.shuttingDown) && Truthful(s) && Unique(s.spool.history.accepted)
    ensures Unique(Dispatch(p, s, i).spool.history.accepted)
  {
    hide Dispatch, Tape, CutIn, LastStarted;
    var c := DispatchFilms(p, s, i);
    NotCurrent(s);
    assert ReelOf(Dispatch(p, s, i)).accepted == Dispatch(p, s, i).spool.history.accepted;
  }

  lemma EvictedDispatch(p: Policy, s: State, i: Input)
    requires EvictedAreDiscarded(s)
    ensures EvictedAreDiscarded(Dispatch(p, s, i))
  {
    hide Dispatch, WorthKeeping;
    var t := Dispatch(p, s, i);
    if i.event.RecordingFinished? {
      var mid := FinishDumps(p, s, i);
      FinishSpools(p, s, i);
      InTrace(p, s, i, mid);
    } else {
      DispatchSpares(p, s, i);
      assert t.spool.history.evicted == s.spool.history.evicted by { EvictedOnlyAtEnd(p, s, i); }
    }
  }

  lemma EvictedOnlyAtEnd(p: Policy, s: State, i: Input)
    requires !i.event.RecordingFinished?
    ensures Dispatch(p, s, i).spool.history.evicted == s.spool.history.evicted
    ensures Dispatch(p, s, i).spool.history.accepted == s.spool.history.accepted
  {}

  lemma InTrace(p: Policy, s: State, i: Input, mid: seq<Action>)
    requires i.event.RecordingFinished? && EvictedAreDiscarded(s)
    requires Spares(p, i.now, s.log.trace, mid) && Spares(p, i.now, mid + Dumped(p, s, i.event), Dispatch(p, s, i).log.trace)
    ensures forall c :: c in s.spool.history.evicted ==> DiscardClip(c.id, c.path) in Dispatch(p, s, i).log.trace
    ensures var e := i.event;
      WorthKeeping(p, s.camera.event, e.id, e.ok, e.duration, e.bytes) ==>
        forall c :: c in Overflow(p, Accept(s.spool, ClipOf(s.camera.event.value, e.path, e.duration), e.bytes)).victims
          ==> DiscardClip(c.id, c.path) in Dispatch(p, s, i).log.trace
  {
    hide Dispatch, WorthKeeping, Overflow, Accept;
    var dumped := Dumped(p, s, i.event);
    var after := Dispatch(p, s, i).log.trace;
    assert forall a :: a in s.log.trace || a in dumped ==> a in after by {
      assert forall a :: a in s.log.trace ==> a in mid;
      assert forall a :: a in mid + dumped ==> a in after;
    }
    var e := i.event;
    if WorthKeeping(p, s.camera.event, e.id, e.ok, e.duration, e.bytes) {
      WorthKeepingIsDescribed(p, s.camera.event, e.id, e.ok, e.duration, e.bytes);
      DiscardsHold(Overflow(p, Accept(s.spool, ClipOf(s.camera.event.value, e.path, e.duration), e.bytes)).victims);
    }
  }

  lemma DiscardsHold(victims: seq<Clip>)
    ensures forall c :: c in victims ==> DiscardClip(c.id, c.path) in Discards(victims)
    ensures forall a :: a in Discards(victims) ==> a.DiscardClip? && exists c :: c in victims && c.id == a.id
  {
    forall c | c in victims ensures DiscardClip(c.id, c.path) in Discards(victims) {
      var k :| 0 <= k < |victims| && victims[k] == c;
      assert Discards(victims)[k] == DiscardClip(c.id, c.path);
    }
    forall a | a in Discards(victims) ensures a.DiscardClip? && exists c :: c in victims && c.id == a.id {
      var k :| 0 <= k < |victims| && Discards(victims)[k] == a;
      assert victims[k] in victims;
    }
  }

  lemma DispatchSpares(p: Policy, s: State, i: Input)
    requires !i.event.RecordingFinished?
    ensures Spares(p, i.now, s.log.trace, Dispatch(p, s, i).log.trace)
  {
    hide Dispatch;
    if FromSensor(i.event) { SensorSpares(p, s, i); }
    else if i.event.DetectionResult? { VerdictSpares(p, s, i); }
    else { OtherSpares(p, s, i); }
  }

  lemma GoneStays(p: Policy, s: State, i: Input, id: EventId)
    requires CameraInv(s.camera, s.panel.shuttingDown) && Gone(s, id) && i.id !in s.log.minted
    ensures Gone(Dispatch(p, s, i), id)
  {
    hide Dispatch, Tape, Tell, CanTell;
    var s1 := Dispatch(p, s, i);
    var t := DispatchTells(p, s, i);
    TellKeepsGone(p, StoryOf(s), t, i.now, i.id, id);
    var c := DispatchFilms(p, s, i);
    assert ReelOf(s1).accepted == s1.spool.history.accepted;
    EvictedGrows(p, s, i);
  }

  lemma TellKeepsGone(p: Policy, s: Story, t: Telling, now: Time, drawn: EventId, id: EventId)
    requires id in s.minted && !IsCurrent(s, id) && drawn !in s.minted
    ensures var s1 := Tell(p, s, t, now, drawn); id in s1.minted && !IsCurrent(s1, id)
  {}

  lemma EvictedGrows(p: Policy, s: State, i: Input)
    ensures forall c :: c in s.spool.history.evicted ==> c in Dispatch(p, s, i).spool.history.evicted
  {
    hide Dispatch;
    if i.event.RecordingFinished? { FinishSpools(p, s, i); } else { EvictedOnlyAtEnd(p, s, i); }
  }

  /** A clip evicted to make room is gone. */
  lemma EvictedIsGone(s: State, c: Clip)
    requires Truthful(s) && Unique(s.spool.history.accepted) && LedgerInv(s.spool)
    requires s.camera.event.None? && c in s.spool.history.evicted
    ensures Gone(s, c.id)
  {
    hide Truthful, Unique, ClipsOf;
    assert c in multiset(s.spool.history.accepted);
    AcceptedIsKnown(s, c);
    forall d | d in s.spool.history.accepted && d.id == c.id ensures d in s.spool.history.evicted {
      SameId(s.spool.history.accepted, c, d);
    }
  }

  /** A recording never let into the spool is gone once it has ended. */
  lemma NeverAcceptedIsGone(s: State, s1: State)
    requires Truthful(s) && Once(StoryOf(s)) && s.camera.event.Some?
    requires s1.camera.event.None? && s1.log.minted == s.log.minted
    requires s1.spool.history.accepted == s.spool.history.accepted
    ensures Gone(s1, s.camera.event.value.id)
  {
    hide Tape, CutIn, LastStarted, KindsOf, Told, ToldSoFar;
    NotCurrent(s);
  }

  /** What the end of the core's own recording discards is gone. */
  lemma DumpedAreGone(p: Policy, s: State, i: Input, a: Action)
    requires i.event.RecordingFinished? && !Stray(s, i.event) && a in Dumped(p, s, i.event)
    requires CameraInv(s.camera, s.panel.shuttingDown) && Truthful(s) && Once(StoryOf(s))
    requires Truthful(Dispatch(p, s, i)) && Unique(Dispatch(p, s, i).spool.history.accepted)
    requires LedgerInv(Dispatch(p, s, i).spool)
    ensures a.DiscardClip? && Gone(Dispatch(p, s, i), a.id)
  {
    hide Dispatch, WorthKeeping, Overflow, Truthful, Once, Unique, LedgerInv, Gone, CameraInv;
    var e := i.event;
    FinishSpools(p, s, i);
    EndIsQuiet(p, s, i);
    if WorthKeeping(p, s.camera.event, e.id, e.ok, e.duration, e.bytes) {
      WorthKeepingIsDescribed(p, s.camera.event, e.id, e.ok, e.duration, e.bytes);
      var victims := Overflow(p, Accept(s.spool, ClipOf(s.camera.event.value, e.path, e.duration), e.bytes)).victims;
      DiscardsHold(victims);
      var c :| c in victims && c.id == a.id;
      EvictedIsGone(Dispatch(p, s, i), c);
    } else {
      NeverAcceptedIsGone(s, Dispatch(p, s, i));
    }
  }

  /** What a stray answer discards is the file it names. */
  lemma StrayDumps(p: Policy, s: State, e: Event)
    requires Stray(s, e)
    ensures Dumped(p, s, e) == [DiscardClip(e.id, e.path)]
  {}

  lemma SameId(accepted: seq<Clip>, c: Clip, d: Clip)
    requires Unique(accepted) && c in accepted && d in accepted && c.id == d.id
    ensures c == d
  {}

  lemma AcceptedIsKnown(s: State, c: Clip)
    requires Truthful(s) && c in s.spool.history.accepted
    ensures c.id in s.log.minted
  {
    hide Tape, CutIn, LastStarted;
    var k :| 0 <= k < |s.spool.history.accepted| && s.spool.history.accepted[k] == c;
    assert Described(ReelOf(s).accepted[k], ReelOf(s), s.log.minted);
  }

  lemma ExplainedDispatch(p: Policy, s: State, i: Input, strays: set<EventId>)
    requires CameraInv(s.camera, s.panel.shuttingDown) && Truthful(s) && Once(StoryOf(s)) && i.id !in s.log.minted
    requires Explained(s, strays)
    requires Truthful(Dispatch(p, s, i)) && Unique(Dispatch(p, s, i).spool.history.accepted)
    requires LedgerInv(Dispatch(p, s, i).spool)
    ensures Explained(Dispatch(p, s, i), strays + StrayIn(s, i.event))
  {
    hide Dispatch, Truthful, Once, CameraInv, Gone, LedgerInv, Unique, Stray, Dumped;
    var s1 := Dispatch(p, s, i);
    var mid := s.log.trace;
    var dumped: seq<Action> := [];
    if i.event.RecordingFinished? {
      mid := FinishDumps(p, s, i);
      dumped := Dumped(p, s, i.event);
      EndIsQuiet(p, s, i);
    } else {
      DispatchSpares(p, s, i);
      assert mid + dumped == mid;
    }
    forall k | 0 <= k < |s1.log.trace| && s1.log.trace[k].DiscardClip?
      ensures Gone(s1, s1.log.trace[k].id) || s1.log.trace[k].id in strays + StrayIn(s, i.event)
    {
      assert k < |mid + dumped| && (mid + dumped)[k] == s1.log.trace[k];
      if k < |mid| {
        assert k < |s.log.trace| && s.log.trace[k] == s1.log.trace[k];
        if Gone(s, s.log.trace[k].id) { GoneStays(p, s, i, s.log.trace[k].id); }
      } else {
        assert s1.log.trace[k] == dumped[k - |mid|];
        if Stray(s, i.event) {
          StrayDumps(p, s, i.event);
        } else {
          DumpedAreGone(p, s, i, s1.log.trace[k]);
        }
      }
    }
  }

  lemma EndIsQuiet(p: Policy, s: State, i: Input)
    requires i.event.RecordingFinished? && CameraInv(s.camera, s.panel.shuttingDown)
    ensures Dispatch(p, s, i).log.minted == s.log.minted && Dispatch(p, s, i).camera.event.None?
  {
    hide Dispatch, Tape;
    var t := FinishTells(p, s, i);
    var c := FinishFilms(p, s, i);
    assert StoryOf(Dispatch(p, s, i)).minted == Dispatch(p, s, i).log.minted;
    assert ReelOf(Dispatch(p, s, i)).shot.None?;
  }

  lemma BooksStep(p: Policy, s: State, i: Input)
    requires CameraInv(s.camera, s.panel.shuttingDown) && Truthful(s) && Books(p, s)
    ensures Books(p, Handle(p, s, i))
  {
    hide Dispatch, Close, Truthful, CameraInv, CapInv, LedgerInv, Unique, EvictedAreDiscarded;
    var s1 := Lapse(s, i.now);
    LapseIsNoMatter(s, i.now);
    SpoolStep(p, s, i);
    UniqueDispatch(p, s1, i);
    EvictedDispatch(p, s1, i);
    var s2 := Dispatch(p, s1, i);
    CloseSpools(p, s2, i.now);
    CloseSpares(p, s2, i.now);
    EvictedSpared(s2, Close(p, s2, i.now));
  }

  lemma LapseIsNoMatter(s: State, now: Time)
    ensures var s1 := Lapse(s, now);
      && (Truthful(s) ==> Truthful(s1))
      && (EvictedAreDiscarded(s) ==> EvictedAreDiscarded(s1))
      && (Once(StoryOf(s)) ==> Once(StoryOf(s1)))
  {
    hide Tape, CutIn, LastStarted, KindsOf, Told, ToldSoFar;
    var s1 := Lapse(s, now);
    assert ReelOf(s1) == ReelOf(s);
    if Truthful(s) { TimersAreNoMatter(StoryOf(s), StoryOf(s1), s.spool.history.accepted); }
  }

  lemma LapseExplains(s: State, now: Time, strays: set<EventId>)
    requires Explained(s, strays)
    ensures Explained(Lapse(s, now), strays)
    ensures forall e :: Stray(Lapse(s, now), e) <==> Stray(s, e)
  {
    var s1 := Lapse(s, now);
    forall k | 0 <= k < |s1.log.trace| && s1.log.trace[k].DiscardClip? && s1.log.trace[k].id !in strays
      ensures Gone(s1, s1.log.trace[k].id)
    {
      assert Gone(s, s.log.trace[k].id);
    }
  }

  lemma EvictedSpared(s: State, t: State)
    requires EvictedAreDiscarded(s) && s.log.trace <= t.log.trace
    requires t.spool.history == s.spool.history
    ensures EvictedAreDiscarded(t)
  {}

  lemma ExplainedStep(p: Policy, s: State, i: Input, strays: set<EventId>)
    requires CameraInv(s.camera, s.panel.shuttingDown) && Truthful(s) && Once(StoryOf(s)) && Books(p, s)
    requires Explained(s, strays) && i.id !in s.log.minted
    ensures Explained(Handle(p, s, i), strays + StrayIn(s, i.event))
  {
    hide Dispatch, Close, Truthful, Once, CameraInv, CapInv, LedgerInv, Unique, EvictedAreDiscarded, Explained, Gone, Stray;
    var s1 := Lapse(s, i.now);
    LapseIsNoMatter(s, i.now);
    LapseExplains(s, i.now, strays);
    TruthfulDispatch(p, s1, i);
    UniqueDispatch(p, s1, i);
    SpoolDispatch(p, s1, i);
    ExplainedDispatch(p, s1, i, strays);
    var s2 := Dispatch(p, s1, i);
    ExplainedClose(p, s2, i.now, strays + StrayIn(s, i.event));
  }

  lemma ExplainedClose(p: Policy, s: State, now: Time, strays: set<EventId>)
    requires Explained(s, strays)
    ensures Explained(Close(p, s, now), strays)
  {
    hide Close;
    var t := Close(p, s, now);
    CloseSpools(p, s, now);
    CloseSpares(p, s, now);
    Closing(p, s, now);
    forall k | 0 <= k < |t.log.trace| && t.log.trace[k].DiscardClip? && t.log.trace[k].id !in strays
      ensures Gone(t, t.log.trace[k].id)
    {
      assert s.log.trace[k] == t.log.trace[k];
      assert Gone(s, s.log.trace[k].id);
    }
  }

  lemma {:induction false} BooksRun(p: Policy, inputs: seq<Input>)
    requires Legal(inputs)
    ensures Books(p, Run(p, inputs))
  {
    if inputs != [] {
      hide Handle, Books, Truthful, CameraInv;
      var n := |inputs| - 1;
      LegalRunStep(p, inputs);
      CameraRun(p, inputs[..n]);
      TruthfulRun(p, inputs[..n]);
      BooksRun(p, inputs[..n]);
      BooksStep(p, Run(p, inputs[..n]), inputs[n]);
    }
  }

  /** Every id a stray answer named in the run. */
  function Strays(p: Policy, inputs: seq<Input>): set<EventId>
    decreases |inputs|
  {
    if inputs == [] then {}
    else
      var n := |inputs| - 1;
      Strays(p, inputs[..n]) + StrayIn(Run(p, inputs[..n]), inputs[n].event)
  }

  ghost predicate StrayedFor(p: Policy, inputs: seq<Input>, id: EventId) {
    exists n :: 0 <= n < |inputs| && StrayFor(Run(p, inputs[..n]), inputs[n].event, id)
  }

  lemma {:induction false} StraysAre(p: Policy, inputs: seq<Input>, id: EventId)
    ensures id in Strays(p, inputs) <==> StrayedFor(p, inputs, id)
    decreases |inputs|
  {
    hide Run, StrayIn, StrayFor;
    if inputs != [] {
      var n := |inputs| - 1;
      var front := inputs[..n];
      StraysAre(p, front, id);
      StrayInIs(Run(p, front), inputs[n].event, id);
      assert forall k :: 0 <= k < n ==> front[..k] == inputs[..k] && front[k] == inputs[k];
      if StrayedFor(p, front, id) {
        var k :| 0 <= k < n && StrayFor(Run(p, front[..k]), front[k].event, id);
        assert StrayFor(Run(p, inputs[..k]), inputs[k].event, id);
      }
    }
  }

  lemma StrayInIs(s: State, e: Event, id: EventId)
    ensures id in StrayIn(s, e) <==> StrayFor(s, e, id)
  {}

  lemma {:induction false} ExplainedRun(p: Policy, inputs: seq<Input>)
    requires Legal(inputs)
    ensures Explained(Run(p, inputs), Strays(p, inputs))
    decreases |inputs|
  {
    hide Handle, Books, Truthful, Once, CameraInv, Explained, Legal, StrayIn;
    if inputs == [] {
      NothingDiscarded(p);
    } else {
      var front := inputs[..|inputs| - 1];
      LegalRunStep(p, inputs);
      CameraRun(p, front);
      OnceRun(p, front);
      TruthfulRun(p, front);
      BooksRun(p, front);
      ExplainedRun(p, front);
      ExplainedStep(p, Run(p, front), inputs[|inputs| - 1], Strays(p, front));
    }
  }

  lemma NothingDiscarded(p: Policy)
    ensures Explained(Init(p), {})
  {}

  lemma DiscardedStays(before: seq<Action>, after: seq<Action>, id: EventId)
    requires before <= after && Discarded(before, id)
    ensures Discarded(after, id)
  {
    var k :| 0 <= k < |before| && before[k].DiscardClip? && before[k].id == id;
    assert after[k] == before[k];
  }

  /** The trace is only ever added to. */
  lemma TraceGrows(p: Policy, s: State, i: Input)
    ensures s.log.trace <= Handle(p, s, i).log.trace
  {
    hide Dispatch, Close;
    var s1 := Lapse(s, i.now);
    CloseSpares(p, Dispatch(p, s1, i), i.now);
    if i.event.RecordingFinished? {
      var mid := FinishDumps(p, s1, i);
    } else {
      DispatchSpares(p, s1, i);
    }
  }

  /** A stray answer discards the file it names, and the spool's books stay as they
      are: a clip of that id that was queued still is. */
  lemma StrayDiscards(p: Policy, s: State, i: Input)
    requires Stray(s, i.event)
    ensures var t := Handle(p, s, i);
      DiscardClip(i.event.id, i.event.path) in t.log.trace && Discarded(t.log.trace, i.event.id)
      && t.spool.(inFlight := s.spool.inFlight) == s.spool
  {
    hide Dispatch, Close, Overflow, Dumped, WorthKeeping;
    var s1 := Lapse(s, i.now);
    var e := i.event;
    assert StoryOf(s1).event == StoryOf(s).event;
    StrayDumps(p, s1, e);
    assert !WorthKeeping(p, s1.camera.event, e.id, e.ok, e.duration, e.bytes) by { NotWorthIt(p, s1, e); }
    var mid := FinishDumps(p, s1, i);
    FinishSpools(p, s1, i);
    var s2 := Dispatch(p, s1, i);
    CloseSpools(p, s2, i.now);
    CloseSpares(p, s2, i.now);
    Closing(p, s2, i.now);
    assert (mid + [DiscardClip(e.id, e.path)])[|mid|] == DiscardClip(e.id, e.path);
    assert s2.log.trace[|mid|] == DiscardClip(e.id, e.path);
    assert Close(p, s2, i.now).log.trace[|mid|] == DiscardClip(e.id, e.path);
  }

  lemma NotWorthIt(p: Policy, s: State, e: Event)
    requires Stray(s, e)
    ensures !WorthKeeping(p, s.camera.event, e.id, e.ok, e.duration, e.bytes)
  {}

  lemma {:induction false} StraysAreDiscarded(p: Policy, inputs: seq<Input>, id: EventId)
    requires id in Strays(p, inputs)
    ensures Discarded(Run(p, inputs).log.trace, id)
    decreases |inputs|
  {
    hide Handle, Stray, Discarded;
    var n := |inputs| - 1;
    var s := Run(p, inputs[..n]);
    if id in Strays(p, inputs[..n]) {
      StraysAreDiscarded(p, inputs[..n], id);
      TraceGrows(p, s, inputs[n]);
      DiscardedStays(s.log.trace, Run(p, inputs).log.trace, id);
    } else {
      StrayDiscards(p, s, inputs[n]);
    }
  }

  lemma {:induction false} UniqueIsOnce(accepted: seq<Clip>, c: Clip)
    requires Unique(accepted) && c in accepted
    ensures multiset(accepted)[c] == 1
    decreases |accepted|
  {
    var n := |accepted| - 1;
    var front := accepted[..n];
    assert accepted == front + [accepted[n]];
    if accepted[n] == c {
      assert c !in front;
    } else {
      UniqueIsOnce(front, c);
    }
  }

  /** In every run: the queued clips fit the cap, whatever is in flight; and each
      clip ever spooled is, at every moment, in exactly one of three places. */
  lemma SpoolConserves(p: Policy, inputs: seq<Input>, c: Clip)
    requires Legal(inputs) && c in Run(p, inputs).spool.history.accepted
    ensures var s := Run(p, inputs).spool;
      && TotalBytes(s.uploads) <= p.spoolMaxBytes
      && multiset(ClipsOf(s.uploads))[c] + multiset(s.history.confirmed)[c] + multiset(s.history.evicted)[c] == 1
  {
    hide Run, TotalBytes, ClipsOf;
    BooksRun(p, inputs);
    UniqueIsOnce(Run(p, inputs).spool.history.accepted, c);
  }

  /** Of a clip ever spooled, exactly when its id was discarded: it was evicted, or
      some answer that was not for the running recording named it. */
  lemma DiscardedIffEvictedOrStray(p: Policy, inputs: seq<Input>, c: Clip)
    requires Legal(inputs) && c in Run(p, inputs).spool.history.accepted
    ensures var t := Run(p, inputs);
      Discarded(t.log.trace, c.id) <==> c in t.spool.history.evicted || StrayedFor(p, inputs, c.id)
  {
    hide Run, TotalBytes, ClipsOf, StrayedFor, Strays;
    var t := Run(p, inputs);
    BooksRun(p, inputs);
    ExplainedRun(p, inputs);
    StraysAre(p, inputs, c.id);
    if c in t.spool.history.evicted {
      var k :| 0 <= k < |t.log.trace| && t.log.trace[k] == DiscardClip(c.id, c.path);
    }
    if StrayedFor(p, inputs, c.id) { StraysAreDiscarded(p, inputs, c.id); }
    if Discarded(t.log.trace, c.id) {
      var k :| 0 <= k < |t.log.trace| && t.log.trace[k].DiscardClip? && t.log.trace[k].id == c.id;
      assert Gone(t, t.log.trace[k].id) || c.id in Strays(p, inputs);
    }
  }

  // ---- A run in which the two differ ----

  /** No detection, no face wait, plenty of room. */
  function Plain(): Policy { Policy(10, 1, 60, 5, 3, false, 5, 2, 20, 0, 0, 600, 10, 1, 8, 100) }

  function Over(): Event { RecordingFinished("a", "a.mp4", true, 5, 50) }

  /** A motion is recorded, its clip is spooled, and its end is reported once more. */
  function ReportedTwice(): seq<Input> {
    [Input(MotionDetected, 0, "a"), Input(Over(), 10, "b"), Input(Over(), 11, "c")]
  }

  lemma Recorded()
    ensures var s := Handle(Plain(), Init(Plain()), Input(MotionDetected, 0, "a"));
      && s.camera == Camera({}, Active, Some(ActiveEvent("a", Motion, 0, false, false, 0, 0, "", false)), None)
      && s.spool == Init(Plain()).spool && !s.panel.online && !s.panel.shuttingDown
  {
    hide Q.Expire, Q.Push;
  }

  lemma Spooled(s: State)
    requires s.camera == Camera({}, Active, Some(ActiveEvent("a", Motion, 0, false, false, 0, 0, "", false)), None)
    requires s.spool == Init(Plain()).spool && !s.panel.online && !s.panel.shuttingDown
    ensures var t := Handle(Plain(), s, Input(Over(), 10, "b")); var c := Clip("a", "a.mp4", Motion, 0, 5, false);
      && t.camera.event.None? && t.spool.uploads == [PendingUpload(c, 50)]
      && t.spool.history == SpoolHistory([c], [], [])
  {
    hide Dispatch, Close, WithinCap;
    var i := Input(Over(), 10, "b");
    var s1 := Lapse(s, i.now);
    FinishSpools(Plain(), s1, i);
    FinishFrees(Plain(), s1, i);
    RoomForOne(Clip("a", "a.mp4", Motion, 0, 5, false));
    var s2 := Dispatch(Plain(), s1, i);
    CloseSpools(Plain(), s2, i.now);
    Closing(Plain(), s2, i.now);
  }

  lemma FinishFrees(p: Policy, s: State, i: Input)
    requires i.event.RecordingFinished?
    ensures Dispatch(p, s, i).camera.event.None?
  {
    hide Pumped, NextAlert, Overflow;
  }

  lemma RoomForOne(c: Clip)
    ensures WithinCap(Plain(), Accept(Init(Plain()).spool, c, 50))
         == Init(Plain()).spool.(uploads := [PendingUpload(c, 50)], history := SpoolHistory([c], [], []))
  {
    var uploads := [PendingUpload(c, 50)];
    assert uploads[1..] == [];
    assert TotalBytes(uploads) == 50;
    assert [] + uploads == uploads && [] + [c] == [c];
    var nobody: seq<Clip> := [];
    assert nobody + nobody == nobody;
  }

  lemma RunOfThree(p: Policy, a: Input, b: Input, c: Input)
    ensures Run(p, [a, b, c]) == Handle(p, Handle(p, Handle(p, Init(p), a), b), c)
  {
    hide Handle;
    assert [a, b, c][..2] == [a, b] && [a, b][..1] == [a] && [a][..0] == [];
    assert Run(p, [a]) == Handle(p, Run(p, []), a);
    assert Run(p, [a, b]) == Handle(p, Run(p, [a]), b);
  }

  lemma ReportedTwiceIsLegal()
    ensures ValidPolicy(Plain()) && Legal(ReportedTwice())
  {}

  /** There the clip is still queued and was never evicted, and yet it was discarded. */
  lemma StrayAnswerDiscards()
    ensures var t := Run(Plain(), ReportedTwice()); var c := Clip("a", "a.mp4", Motion, 0, 5, false);
      && ValidPolicy(Plain()) && Legal(ReportedTwice())
      && c in ClipsOf(t.spool.uploads) && c !in t.spool.history.evicted
      && DiscardClip(c.id, c.path) in t.log.trace
  {
    hide Handle, Run, Legal;
    var p, inputs := Plain(), ReportedTwice();
    ReportedTwiceIsLegal();
    RunOfThree(p, inputs[0], inputs[1], inputs[2]);
    var s1 := Handle(p, Init(p), inputs[0]);
    var s2 := Handle(p, s1, inputs[1]);
    Recorded();
    Spooled(s1);
    StrayDiscards(p, s2, inputs[2]);
    var t := Run(p, inputs);
    assert t.spool.uploads == s2.spool.uploads && t.spool.history == s2.spool.history;
    assert ClipsOf(t.spool.uploads)[0] == Clip("a", "a.mp4", Motion, 0, 5, false);
  }

  /** The recorder only ever answers for the recording it was given. */
  ghost predicate HonestRecorder(p: Policy, inputs: seq<Input>) {
    forall n :: 0 <= n < |inputs| ==> !Stray(Run(p, inputs[..n]), inputs[n].event)
  }

  /** So with such a recorder a spooled clip was discarded exactly when evicted. */
  lemma DiscardedIffEvicted(p: Policy, inputs: seq<Input>, c: Clip)
    requires Legal(inputs) && HonestRecorder(p, inputs) && c in Run(p, inputs).spool.history.accepted
    ensures var t := Run(p, inputs); Discarded(t.log.trace, c.id) <==> c in t.spool.history.evicted
  {
    hide Run, Stray, Discarded;
    DiscardedIffEvictedOrStray(p, inputs, c);
  }

  predicate ConfirmedBy(e: Event, id: EventId) { e.UploadFinished? && e.ok && e.id == id }

  lemma ConfirmedStep(p: Policy, s: State, i: Input, c: Clip)
    requires c in Handle(p, s, i).spool.history.confirmed && c !in s.spool.history.confirmed
    ensures ConfirmedBy(i.event, c.id)
  {
    hide Close, WorthKeeping, Overflow, Accept;
    var s1 := Lapse(s, i.now);
    CloseSpools(p, Dispatch(p, s1, i), i.now);
    ConfirmedOnlyThen(p, s1, i);
  }

  lemma ConfirmedOnlyThen(p: Policy, s: State, i: Input)
    ensures (i.event.UploadFinished? && i.event.ok && Confirms(s.spool, i.event.id))
      || Dispatch(p, s, i).spool.history.confirmed == s.spool.history.confirmed
  {
    if i.event.RecordingFinished? {
      hide Dispatch, WorthKeeping;
      FinishSpools(p, s, i);
    } else if TouchesSpool(i.event) {
    } else {
      hide Dispatch;
      SpoolUntouched(p, s, i);
    }
  }

  /** A clip leaves by confirmation only on a successful upload of that very id. */
  lemma {:induction false} ConfirmedByItsOwnUpload(p: Policy, inputs: seq<Input>, c: Clip)
    requires c in Run(p, inputs).spool.history.confirmed
    ensures exists k :: 0 <= k < |inputs| && ConfirmedBy(inputs[k].event, c.id)
  {
    hide Handle, ConfirmedBy;
    var n := |inputs| - 1;
    assert inputs != [];
    if c in Run(p, inputs[..n]).spool.history.confirmed {
      ConfirmedByItsOwnUpload(p, inputs[..n], c);
      var k :| 0 <= k < n && ConfirmedBy(inputs[..n][k].event, c.id);
      assert ConfirmedBy(inputs[k].event, c.id);
    } else {
      ConfirmedStep(p, Run(p, inputs[..n]), inputs[n], c);
      assert ConfirmedBy(inputs[n].event, c.id);
    }
  }
}
