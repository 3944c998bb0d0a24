/** The decision engine as it runs: an object whose handlers update its fields and
    append to the actions of the event in hand (porchlightd/src/core/core.cpp). Each
    method is proved to do what the rule of the same name says. */
module Cores {
  import opened Types
  import opened AlertQueues
  import opened Backoffs
  import R = CoreRules
  import S = CoreSpool
  import Q = AlertQueueRules

  class Core {
    const policy: Policy
    const alerts: AlertQueue
    const uploadBackoff: Backoff

    var viewers: set<PeerId>
    var recording: R.RecordingState
    var recordingEvent: Option<R.ActiveEvent>
    var deferredCall: Option<PeerId>
    var motionCooldownUntil: Option<Time>
    var pressWindowUntil: Option<Time>
    var ringLedUntil: Option<Time>
    var serverOnline: bool
    var serverFault: bool
    var uploads: seq<R.PendingUpload>
    var uploadInFlight: bool
    var uploadRetryAfter: Option<Time>
    var led: LedPattern
    var shuttingDown: bool

    /** The actions of the event being handled. */
    var out: seq<Action>

    // History, and the actions of all earlier events.
    ghost var enqueued: seq<R.Enqueued>
    ghost var attempts: seq<Time>
    ghost var spooled: R.SpoolHistory
    ghost var log: R.Log
    ghost var earlier: seq<Action>

    ghost function Parts(): set<object> { {this, alerts, alerts.backoff, uploadBackoff} }

    ghost predicate Valid()
      reads this
    {
      && alerts.backoff != uploadBackoff
      && alerts.maxAge == policy.alertMaxAge && alerts.capacity == policy.maxQueuedAlerts
      && log.trace == earlier + out
    }

    ghost function View(): R.State
      reads this, alerts, alerts.backoff, uploadBackoff
    {
      R.State(R.Camera(viewers, recording, recordingEvent, deferredCall),
              R.Timers(motionCooldownUntil, pressWindowUntil, ringLedUntil),
              R.Desk(alerts.View(), enqueued, attempts),
              R.Spool(uploads, uploadInFlight, uploadBackoff.View(), uploadRetryAfter, spooled),
              R.Panel(serverOnline, serverFault, led, shuttingDown),
              log)
    }

    constructor (policy: Policy)
      ensures Valid() && View() == R.Init(policy) && this.policy == policy && out == []
      ensures fresh(alerts) && fresh(alerts.backoff) && fresh(uploadBackoff)
    {
      this.policy := policy;
      var queue := new AlertQueue(policy);
      var backoff := new Backoff(policy.retryBackoffInitial, policy.retryBackoffMax);
      alerts, uploadBackoff := queue, backoff;
      viewers, recording, recordingEvent, deferredCall := {}, R.NotRecording, None, None;
      motionCooldownUntil, pressWindowUntil, ringLedUntil := None, None, None;
      serverOnline, serverFault, led, shuttingDown := false, false, LedPattern.Off, false;
      uploads, uploadInFlight, uploadRetryAfter := [], false, None;
      out, earlier := [], [];
      enqueued, attempts, spooled := [], [], R.SpoolHistory([], [], []);
      log := R.Log(0, [], map[], {}, []);
    }

    method Emit(action: Action)
      requires Valid()
      modifies this`out, this`log
      ensures Valid() && log == R.Emit(old(log), action)
    {
      out := out + [action];
      log := R.Emit(log, action);
    }

    ghost method NoteId(id: EventId, now: Time)
      requires Valid()
      modifies this`log
      ensures Valid() && log == R.Mint(old(log), id, now)
    {
      log := R.Mint(log, id, now);
    }

    ghost method NoteRing(id: EventId, now: Time)
      requires Valid()
      modifies this`log
      ensures Valid() && log == R.NoteRing(old(log), id, now)
    {
      log := R.NoteRing(log, id, now);
    }

    /** The event in hand, and the actions it leads to. */
    method Handle(event: Event, now: Time, id: EventId) returns (actions: seq<Action>)
      requires Valid()
      modifies Parts()
      ensures Valid()
      ensures View() == R.Handle(policy, old(View()), R.Input(event, now, id))
      ensures log.trace == old(log.trace) + actions
    {
      hide R.Dispatch, R.CheckVerdictDeadline, R.PumpAlerts, R.PumpUploads, R.UpdateLed, R.Lapse;
      ghost var before := View();
      out, earlier := [], log.trace;
      assert View() == before;
      Lapse(now);
      Dispatch(event, now, id);
      CheckVerdictDeadline(now);
      PumpAlerts(now);
      PumpUploads(now);
      UpdateLed();
      actions := out;
    }

    method Dispatch(event: Event, now: Time, id: EventId)
      requires Valid()
      modifies Parts()
      ensures Valid() && earlier == old(earlier)
      ensures View() == R.Dispatch(policy, old(View()), R.Input(event, now, id))
    {
      hide R.OnButton, R.OnMotion, R.OnViewer, R.OnCallEnded, R.OnRecordingFinished, R.OnDetection;
      hide R.OnUploadFinished, R.OnAlertResult, R.OnServerOnline, R.OnServerOffline, R.OnShutdown;
      match event
      case ButtonPressed => OnButton(now, id);
      case MotionDetected => OnMotion(now, id);
      case ViewerRequested(peer) => OnViewer(peer);
      case CallEnded(peer, _) => OnCallEnded(peer);
      case RecordingFinished(rid, path, ok, duration, bytes) => OnRecordingFinished(now, rid, path, ok, duration, bytes);
      case DetectionResult(did, verdict, faces) => OnDetection(now, did, verdict, faces);
      case UploadFinished(uid, ok) => OnUploadFinished(now, uid, ok);
      case AlertResult(aid, kind, outcome) => OnAlertResult(now, aid, kind, outcome);
      case ServerOnline => OnServerOnline();
      case ServerOffline(permanent) => OnServerOffline(now, permanent);
      case Tick =>
      case Shutdown => OnShutdown();
    }

    static method Unlapsed(until: Option<Time>, now: Time) returns (r: Option<Time>)
      ensures r == R.Unlapsed(until, now)
    {
      r := if until.Some? && now >= until.value then None else until;
    }

    method Lapse(now: Time)
      requires Valid()
      modifies this`motionCooldownUntil, this`pressWindowUntil, this`ringLedUntil, this`log
      ensures Valid() && earlier == old(earlier)
      ensures View() == R.Lapse(old(View()), now)
    {
      hide R.Unlapsed;
      ghost var queue, backoff := alerts.View(), uploadBackoff.View();
      motionCooldownUntil := Unlapsed(motionCooldownUntil, now);
      pressWindowUntil := Unlapsed(pressWindowUntil, now);
      ringLedUntil := Unlapsed(ringLedUntil, now);
      log := log.(clock := now);
      assert alerts.View() == queue && uploadBackoff.View() == backoff;
    }

    method PushAlert(alert: Alert, now: Time)
      requires Valid()
      modifies Parts()
      ensures Valid() && earlier == old(earlier)
      ensures View() == old(View()).(desk := R.Enqueue(policy, old(View()).desk, alert, now))
    {
      hide Q.Push;
      alerts.Push(alert);
      enqueued := enqueued + [R.Enqueued(alert, now)];
    }

    method PumpAlerts(now: Time)
      requires Valid()
      modifies Parts()
      ensures Valid() && earlier == old(earlier)
      ensures View() == R.PumpAlerts(policy, old(View()), now)
    {
      hide Q.Expire, Q.Ready, R.Emit;
      if shuttingDown {
        return;
      }
      alerts.Expire(now);
      var entry := alerts.Ready(serverOnline, now);
      if entry.None? {
        return;
      }
      alerts.MarkSent();
      attempts := attempts + [now];
      Emit(SendAlert(entry.value));
    }

    method StartCall(peer: PeerId)
      requires Valid()
      modifies this`viewers, this`out, this`log
      ensures Valid() && earlier == old(earlier)
      ensures View() == R.StartTheCall(old(View()), peer)
    {
      hide R.Emit;
      viewers := viewers + {peer};
      Emit(Action.StartCall(peer));
    }

    method ReleaseHeldAlert(now: Time, faces: string)
      requires Valid()
      requires recordingEvent.Some?
      modifies Parts()
      ensures Valid() && earlier == old(earlier)
      ensures View() == R.ReleaseHeldAlert(policy, old(View()), now, faces)
    {
      hide R.PumpAlerts, R.Enqueue;
      var held := recordingEvent.value;
      recordingEvent := Some(held.(awaitingVerdict := false));
      PushAlert(Alert(held.id, held.kind, held.alertAt, faces), now);
      PumpAlerts(now);
    }

    method WatchForPerson(now: Time, id: EventId)
      requires Valid()
      modifies this`recording, this`recordingEvent, this`out, this`log
      ensures Valid() && earlier == old(earlier)
      ensures View() == R.WatchForPerson(policy, old(View()), now, id)
    {
      hide R.Emit, R.Mint, R.NoteRing;
      ghost var queue, backoff := alerts.View(), uploadBackoff.View();
      NoteId(id, now);
      Emit(StartRecording(id, policy.clip, policy.detectWindow, 0));
      recording := R.Active;
      var active := R.ActiveEvent(id, Motion, now, false, false, 0, 0, "", false);
      active := active.(awaitingVerdict := true);
      active := active.(verdictDue := now + policy.detectWindow + policy.faceSearch + policy.detectGrace);
      recordingEvent := Some(active.(alertAt := now));
      assert alerts.View() == queue && uploadBackoff.View() == backoff;
    }

    method RingWithAName(now: Time, id: EventId)
      requires Valid()
      modifies this`recording, this`recordingEvent, this`out, this`log
      ensures Valid() && earlier == old(earlier)
      ensures View() == R.RingWithAName(policy, old(View()), now, id)
    {
      hide R.Emit, R.Mint, R.NoteRing;
      ghost var queue, backoff := alerts.View(), uploadBackoff.View();
      NoteId(id, now);
      Emit(StartRecording(id, policy.clip, 0, policy.ringFaceWait));
      recording := R.Active;
      var active := R.ActiveEvent(id, Ring, now, false, false, 0, 0, "", false);
      active := active.(awaitingVerdict := true, verdictDue := now + policy.ringFaceWait);
      recordingEvent := Some(active.(alertAt := now));
      NoteRing(id, now);
      assert alerts.View() == queue && uploadBackoff.View() == backoff;
    }

    method AlertUnjudged(kind: Kind, now: Time, id: EventId)
      requires Valid()
      modifies Parts()
      ensures Valid() && earlier == old(earlier)
      ensures View() == R.AlertUnjudged(policy, old(View()), kind, now, id)
    {
      hide R.Emit, R.Mint, R.NoteRing, R.PumpAlerts, R.Enqueue;
      NoteId(id, now);
      if kind == Ring {
        NoteRing(id, now);
      }
      PushAlert(Alert(id, kind, now, ""), now);
      PumpAlerts(now);
    }

    method RecordUnjudged(kind: Kind, now: Time, id: EventId)
      requires Valid()
      modifies this`recording, this`recordingEvent, this`out, this`log
      ensures Valid() && earlier == old(earlier)
      ensures View() == R.RecordUnjudged(policy, old(View()), kind, now, id)
    {
      hide R.Emit;
      ghost var queue, backoff := alerts.View(), uploadBackoff.View();
      Emit(StartRecording(id, policy.clip, 0, 0));
      recording := R.Active;
      recordingEvent := Some(R.ActiveEvent(id, kind, now, false, false, 0, 0, "", false));
      assert alerts.View() == queue && uploadBackoff.View() == backoff;
    }

    method Trigger(kind: Kind, now: Time, withClip: bool, id: EventId)
      requires Valid()
      modifies Parts()
      ensures Valid() && earlier == old(earlier)
      ensures View() == R.Trigger(policy, old(View()), kind, now, withClip, id)
    {
      hide R.RingWithAName, R.AlertUnjudged, R.RecordUnjudged;
      if kind == Ring && withClip && policy.ringFaceWait > 0 {
        RingWithAName(now, id);
        return;
      }
      AlertUnjudged(kind, now, id);
      if withClip {
        RecordUnjudged(kind, now, id);
      }
    }

    method OnMotion(now: Time, id: EventId)
      requires Valid()
      modifies Parts()
      ensures Valid() && earlier == old(earlier)
      ensures View() == R.OnMotion(policy, old(View()), now, id)
    {
      hide R.Trigger, R.WatchForPerson;
      if shuttingDown || motionCooldownUntil.Some? {
        return;
      }
      motionCooldownUntil := Some(now + policy.motionCooldown);
      if recording != R.NotRecording {
        return;
      }
      if policy.personDetection && viewers == {} {
        WatchForPerson(now, id);
        return;
      }
      Trigger(Motion, now, viewers == {}, id);
    }

    /** Rewrites the running recording's event in place; its id stays. */
    method Upgrade(now: Time)
      requires Valid()
      requires recordingEvent.Some?
      modifies Parts()
      ensures Valid() && earlier == old(earlier)
      ensures View() == R.Upgrade(policy, old(View()), now)
    {
      hide R.PumpAlerts, R.Enqueue, R.Emit, R.Mint, R.NoteRing;
      var event := recordingEvent.value.(kind := Ring, unwanted := false, alertAt := now);
      NoteRing(event.id, now);
      if event.awaitingVerdict && policy.ringFaceWait > 0 {
        recordingEvent := Some(event.(verdictDue := Min(event.verdictDue, now + policy.ringFaceWait)));
        return;
      }
      event := event.(awaitingVerdict := false);
      recordingEvent := Some(event);
      PushAlert(Alert(event.id, Ring, now, event.faces), now);
      PumpAlerts(now);
    }

    /** A press outside the window the last one opened. */
    method OnNewPress(now: Time, id: EventId)
      requires Valid()
      modifies Parts()
      ensures Valid() && earlier == old(earlier)
      ensures View() == R.OnNewPress(policy, old(View()), now, id)
    {
      hide R.Trigger, R.Upgrade;
      var rescuable := recordingEvent.Some? && recordingEvent.value.unwanted;
      if (recording == R.Active || rescuable) && recordingEvent.Some? {
        if recordingEvent.value.kind == Motion {
          Upgrade(now);
        }
        return;
      }
      Trigger(Ring, now, viewers == {} && recording == R.NotRecording, id);
    }

    method OnButton(now: Time, id: EventId)
      requires Valid()
      modifies Parts()
      ensures Valid() && earlier == old(earlier)
      ensures View() == R.OnButton(policy, old(View()), now, id)
    {
      hide R.OnNewPress, R.Emit;
      if shuttingDown {
        return;
      }
      Emit(PlayChime);
      ringLedUntil := Some(now + policy.ringLed);
      if pressWindowUntil.Some? {
        return;
      }
      pressWindowUntil := Some(now + policy.pressDedupWindow);
      OnNewPress(now, id);
    }

    method StopIfActive()
      requires Valid()
      modifies this`recording, this`recordingEvent, this`out, this`log
      ensures Valid() && earlier == old(earlier)
      ensures View() == R.StopIfActive(old(View()))
    {
      hide R.Emit;
      if recording == R.Active {
        Emit(StopRecording);
        recording := R.Stopping;
        if recordingEvent.Some? {
          recordingEvent := Some(recordingEvent.value.(cutShort := true));
        }
      }
    }

    method OnViewer(peer: PeerId)
      requires Valid()
      modifies this`viewers, this`recording, this`recordingEvent, this`deferredCall, this`out, this`log
      ensures Valid() && earlier == old(earlier)
      ensures View() == R.OnViewer(old(View()), peer)
    {
      if shuttingDown {
        return;
      }
      if recording == R.Active {
        StopIfActive();
        deferredCall := Some(peer);
        return;
      }
      if recording == R.Stopping {
        deferredCall := Some(peer);
        return;
      }
      StartCall(peer);
    }

    method OnCallEnded(peer: PeerId)
      requires Valid()
      modifies this`viewers, this`deferredCall
      ensures Valid() && earlier == old(earlier)
      ensures View() == R.OnCallEnded(old(View()), peer)
    {
      viewers := viewers - {peer};
      if deferredCall == Some(peer) {
        deferredCall := None;
      }
    }

    method TotalSpooled() returns (total: nat)
      ensures total == R.TotalBytes(uploads)
    {
      total := 0;
      for k := 0 to |uploads|
        invariant total == R.TotalBytes(uploads[..k])
      {
        S.TotalGrows(uploads, k);
        total := total + uploads[k].bytes;
      }
      assert uploads[..|uploads|] == uploads;
    }

    /** The clip at that place leaves the spool, and the uploader hears of it. */
    method Drop(at: nat)
      requires Valid() && at < |uploads|
      modifies this`uploads, this`out, this`log, this`spooled
      ensures Valid() && uploads == Q.Without(old(uploads), at)
      ensures var victim := old(uploads)[at].clip;
        && spooled == old(spooled).(evicted := old(spooled).evicted + [victim])
        && log == R.Emit(old(log), DiscardClip(victim.id, victim.path))
    {
      var victim := uploads[at];
      Emit(DiscardClip(victim.clip.id, victim.clip.path));
      uploads := uploads[..at] + uploads[at + 1..];
      spooled := spooled.(evicted := spooled.evicted + [victim.clip]);
    }

    /** The loop keeps a running total; the invariant ties it to the sum of the
        clips left and the clips gone to a prefix of the eviction's victims. */
    method EnforceSpoolCap()
      requires Valid()
      modifies this`uploads, this`out, this`log, this`spooled
      ensures Valid() && earlier == old(earlier)
      ensures View() == old(View()).(spool := R.WithinCap(policy, old(View()).spool),
        log := old(log).(trace := old(log).trace + R.Discards(R.Overflow(policy, old(View()).spool).victims)))
    {
      hide R.Evict, R.TotalBytes, R.Discards;
      var total := TotalSpooled();
      var oldest := if uploadInFlight then 1 else 0;
      ghost var dropped: seq<Clip> := [];
      ghost var all := R.Evict(uploads, oldest, policy.spoolMaxBytes);
      R.DiscardsNone(log.trace);
      while total > policy.spoolMaxBytes && |uploads| > oldest
        modifies this`uploads, this`out, this`log, this`spooled
        invariant total == R.TotalBytes(uploads) && Valid()
        invariant all == R.After(dropped, R.Evict(uploads, oldest, policy.spoolMaxBytes))
        invariant spooled == old(spooled).(evicted := old(spooled).evicted + dropped)
        invariant log == old(log).(trace := old(log).trace + R.Discards(dropped))
        decreases |uploads|
      {
        var victim := uploads[oldest];
        S.TotalWithout(uploads, oldest);
        R.DiscardsGrow(old(log).trace, dropped, victim.clip);
        R.EvictOne(uploads, oldest, policy.spoolMaxBytes, dropped);
        total := total - victim.bytes;
        Drop(oldest);
        dropped := dropped + [victim.clip];
      }
      R.EvictNone(uploads, oldest, policy.spoolMaxBytes);
      assert dropped + [] == dropped;
    }

    method PutAway(described: Option<R.ActiveEvent>, id: EventId, path: string, ok: bool, duration: nat, bytes: nat)
      requires Valid()
      modifies this`uploads, this`spooled, this`out, this`log
      ensures Valid() && earlier == old(earlier)
      ensures View() == R.PutAway(policy, old(View()), described, id, path, ok, duration, bytes)
    {
      hide R.WithinCap, R.Overflow, R.Discards, R.Emit;
      var describable := described.Some? && described.value.id == id;
      var worthKeeping := ok && bytes > 0 && duration >= policy.minClip && describable && !described.value.unwanted;
      if worthKeeping {
        var clip := Clip(id, path, described.value.kind, described.value.triggeredAt, duration, described.value.cutShort);
        uploads := uploads + [R.PendingUpload(clip, bytes)];
        spooled := spooled.(accepted := spooled.accepted + [clip]);
        EnforceSpoolCap();
      } else if path != "" {
        Emit(DiscardClip(id, path));
      }
    }

    method StartDeferred()
      requires Valid()
      modifies this`viewers, this`deferredCall, this`out, this`log
      ensures Valid() && earlier == old(earlier)
      ensures View() == R.StartDeferred(old(View()))
    {
      if deferredCall.Some? {
        StartCall(deferredCall.value);
        deferredCall := None;
      }
    }

    method FreeCamera()
      requires Valid()
      modifies this`recording, this`recordingEvent
      ensures Valid() && View() == R.FreeCamera(old(View()))
    {
      recording := R.NotRecording;
      recordingEvent := None;
    }

    method OnRecordingFinished(now: Time, id: EventId, path: string, ok: bool, duration: nat, bytes: nat)
      requires Valid()
      modifies Parts()
      ensures Valid() && earlier == old(earlier)
      ensures View() == R.OnRecordingFinished(policy, old(View()), now, id, path, ok, duration, bytes)
    {
      hide R.ReleaseHeldAlert, R.PutAway, R.StartDeferred, R.FreeCamera;
      if recordingEvent.Some? && recordingEvent.value.awaitingVerdict {
        ReleaseHeldAlert(now, "");
      }
      var described := recordingEvent;
      FreeCamera();
      PutAway(described, id, path, ok, duration, bytes);
      StartDeferred();
    }

    /** The verdict was NoPerson and the motion's alert had not gone out. */
    method Silence(now: Time)
      requires Valid() && recordingEvent.Some?
      modifies this`recording, this`recordingEvent, this`motionCooldownUntil, this`out, this`log
      ensures Valid() && earlier == old(earlier)
      ensures View() == R.Silence(policy, old(View()), now)
    {
      hide R.StopIfActive;
      ghost var queue, backoff := alerts.View(), uploadBackoff.View();
      log := log.(silenced := log.silenced + {recordingEvent.value.id});
      recordingEvent := Some(recordingEvent.value.(awaitingVerdict := false, unwanted := true));
      motionCooldownUntil := Some(now + policy.noPersonCooldown);
      assert alerts.View() == queue && uploadBackoff.View() == backoff;
      StopIfActive();
    }

    method OnDetection(now: Time, id: EventId, verdict: Verdict, faces: string)
      requires Valid()
      modifies Parts()
      ensures Valid() && earlier == old(earlier)
      ensures View() == R.OnDetection(policy, old(View()), now, id, verdict, faces)
    {
      hide R.ReleaseHeldAlert, R.Silence;
      if recordingEvent.None? || recordingEvent.value.id != id {
        return;
      }
      if verdict != NoPerson {
        recordingEvent := Some(recordingEvent.value.(faces := faces));
      }
      if !recordingEvent.value.awaitingVerdict {
        return;
      }
      if recordingEvent.value.kind == Ring || verdict != NoPerson {
        ReleaseHeldAlert(now, faces);
        return;
      }
      Silence(now);
    }

    method FailUpload(now: Time)
      requires Valid()
      modifies this`uploadInFlight, this`uploadRetryAfter, uploadBackoff
      ensures Valid()
      ensures View() == old(View()).(spool := R.FailUpload(old(View()).spool, now))
    {
      ghost var queue := alerts.View();
      uploadInFlight := false;
      var at := uploadBackoff.Fail(now);
      uploadRetryAfter := Some(at);
      assert alerts.View() == queue;
    }

    /** The front clip is the server's now, if it is the one confirmed. */
    method ForgetFront(id: EventId)
      modifies this`uploads, this`spooled
      ensures (uploads, spooled) ==
        var was := old(View()).spool;
        if R.Confirms(was, id)
        then (was.uploads[1..], was.history.(confirmed := was.history.confirmed + [was.uploads[0].clip]))
        else (was.uploads, was.history)
    {
      if uploads != [] && uploads[0].clip.id == id {
        spooled := spooled.(confirmed := spooled.confirmed + [uploads[0].clip]);
        uploads := uploads[1..];
      }
    }

    method ConfirmUpload(id: EventId)
      requires Valid()
      modifies this`uploads, this`uploadInFlight, this`uploadRetryAfter, this`spooled, uploadBackoff
      ensures Valid()
      ensures View() == old(View()).(spool := R.ConfirmUpload(old(View()).spool, id))
    {
      hide R.Confirms;
      ghost var queue := alerts.View();
      ForgetFront(id);
      uploadInFlight := false;
      uploadBackoff.Reset();
      uploadRetryAfter := None;
      assert alerts.View() == queue;
    }

    method OnUploadFinished(now: Time, id: EventId, ok: bool)
      requires Valid()
      modifies Parts()
      ensures Valid() && earlier == old(earlier)
      ensures View() == R.OnUploadFinished(old(View()), now, id, ok)
    {
      hide R.FailUpload, R.ConfirmUpload;
      if !ok {
        FailUpload(now);
        return;
      }
      ConfirmUpload(id);
    }

    method OnAlertResult(now: Time, id: EventId, kind: Kind, outcome: AlertOutcome)
      requires Valid()
      modifies Parts()
      ensures Valid() && earlier == old(earlier)
      ensures View() == R.OnAlertResult(old(View()), now, id, kind, outcome)
    {
      hide Q.OnResult;
      attempts := if Q.Settles(alerts.View(), id, kind, outcome) then [] else attempts;
      alerts.OnResult(id, kind, outcome, now);
    }

    method OnServerOnline()
      requires Valid()
      modifies this`serverOnline, this`serverFault
      ensures Valid() && earlier == old(earlier)
      ensures View() == R.OnServerOnline(old(View()))
    {
      serverOnline := true;
      serverFault := false;
    }

    method OnServerOffline(now: Time, permanent: bool)
      requires Valid()
      modifies Parts()
      ensures Valid() && earlier == old(earlier)
      ensures View() == R.OnServerOffline(old(View()), now, permanent)
    {
      hide Q.LinkLost, R.FailUpload;
      serverOnline := false;
      serverFault := serverFault || permanent;
      alerts.LinkLost(now);
      if uploadInFlight {
        FailUpload(now);
      }
    }

    method HangUp()
      requires Valid()
      modifies this`viewers, this`out, this`log
      ensures Valid() && earlier == old(earlier)
      ensures View() == R.HangUp(old(View()))
    {
      hide R.Emit;
      if viewers != {} {
        Emit(StopCall);
        viewers := {};
      }
    }

    method OnShutdown()
      requires Valid()
      modifies this`viewers, this`recording, this`recordingEvent, this`deferredCall, this`led, this`shuttingDown, this`out, this`log
      ensures Valid() && earlier == old(earlier)
      ensures View() == R.OnShutdown(old(View()))
    {
      hide R.StopIfActive, R.HangUp, R.Emit;
      ghost var queue, backoff := alerts.View(), uploadBackoff.View();
      shuttingDown := true;
      StopIfActive();
      HangUp();
      deferredCall := None;
      Emit(SetLed(LedPattern.Off));
      led := LedPattern.Off;
      assert alerts.View() == queue && uploadBackoff.View() == backoff;
    }

    method CheckVerdictDeadline(now: Time)
      requires Valid()
      modifies Parts()
      ensures Valid() && earlier == old(earlier)
      ensures View() == R.CheckVerdictDeadline(policy, old(View()), now)
    {
      hide R.ReleaseHeldAlert;
      if recordingEvent.Some? && recordingEvent.value.awaitingVerdict && now >= recordingEvent.value.verdictDue {
        ReleaseHeldAlert(now, "");
      }
    }

    method PumpUploads(now: Time)
      requires Valid()
      modifies this`uploadInFlight, this`out, this`log
      ensures Valid() && earlier == old(earlier)
      ensures View() == R.PumpUploads(old(View()), now)
    {
      hide R.Emit;
      if shuttingDown || uploadInFlight || uploads == [] || !serverOnline {
        return;
      }
      if viewers != {} {
        return;
      }
      if uploadRetryAfter.Some? && now < uploadRetryAfter.value {
        return;
      }
      uploadInFlight := true;
      Emit(UploadClip(uploads[0].clip));
    }

    method DesiredLed() returns (pattern: LedPattern)
      ensures pattern == R.DesiredLed(View())
    {
      if shuttingDown { return LedPattern.Off; }
      if ringLedUntil.Some? { return LedPattern.RingLed; }
      if viewers != {} { return LedPattern.Live; }
      if recording != R.NotRecording { return LedPattern.Recording; }
      if serverFault { return LedPattern.Fault; }
      if !serverOnline { return LedPattern.Offline; }
      return LedPattern.Idle;
    }

    method UpdateLed()
      requires Valid()
      modifies this`led, this`out, this`log
      ensures Valid() && earlier == old(earlier)
      ensures View() == R.UpdateLed(old(View()))
    {
      hide R.Emit;
      var wanted := DesiredLed();
      if wanted == led {
        return;
      }
      led := wanted;
      Emit(SetLed(wanted));
    }

    static method Consider(earliest: Option<Time>, candidate: Option<Time>) returns (r: Option<Time>)
      ensures r == Earlier(earliest, candidate)
    {
      r := if candidate.Some? && (earliest.None? || candidate.value < earliest.value) then candidate else earliest;
    }

    /** The least of the instants that are set, or None. */
    method NextDeadline() returns (deadline: Option<Time>)
      requires Valid()
      ensures deadline == R.NextDeadline(policy, View())
    {
      hide Q.NextDeadline;
      if shuttingDown {
        return None;
      }
      var queue := alerts.NextDeadline();
      var earliest := Consider(None, motionCooldownUntil);
      earliest := Consider(earliest, pressWindowUntil);
      earliest := Consider(earliest, ringLedUntil);
      earliest := Consider(earliest, queue);
      earliest := Consider(earliest, uploadRetryAfter);
      if recordingEvent.Some? && recordingEvent.value.awaitingVerdict {
        earliest := Consider(earliest, Some(recordingEvent.value.verdictDue));
      }
      return earliest;
    }
  }
}
