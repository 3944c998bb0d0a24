/** What one handling orders the recorder and the call to do: exactly what the
    camera's state before and after says, and nothing else. */
module CoreOrders {
  import opened Types
  import opened CoreRules
  import opened CoreRuns

  datatype Order = Roll(id: EventId, seconds: nat, detectFor: nat, ringFaces: nat) | Cut | Dial(peer: PeerId) | Quit

  function OrderOf(a: Action): seq<Order> {
    match a
    case StartRecording(id, seconds, detectFor, ringFaces) => [Roll(id, seconds, detectFor, ringFaces)]
    case StopRecording => [Cut]
    case StartCall(peer) => [Dial(peer)]
    case StopCall => [Quit]
    case _ => []
  }

  function Orders(trace: seq<Action>): seq<Order>
    decreases |trace|
  {
    if trace == [] then [] else Orders(trace[..|trace| - 1]) + OrderOf(trace[|trace| - 1])
  }

  lemma OrdersGrow(trace: seq<Action>, a: Action)
    ensures Orders(trace + [a]) == Orders(trace) + OrderOf(a)
  {
    assert (trace + [a])[..|trace|] == trace;
  }

  lemma {:induction false} OrdersSplit(a: seq<Action>, b: seq<Action>)
    ensures Orders(a + b) == Orders(a) + Orders(b)
    decreases |b|
  {
    if b == [] {
      assert a + b == a && Orders(b) == [];
    } else {
      hide Orders, OrderOf;
      var n := |b| - 1;
      LastOff(a, b);
      OrdersSplit(a, b[..n]);
      OrdersGrow(a + b[..n], b[n]);
      OrdersGrow(b[..n], b[n]);
      Regroup(Orders(a), Orders(b[..n]), OrderOf(b[n]));
    }
  }

  lemma LastOff<T>(a: seq<T>, b: seq<T>)
    requires b != []
    ensures b == b[..|b| - 1] + [b[|b| - 1]] && a + b == (a + b[..|b| - 1]) + [b[|b| - 1]]
  {}

  lemma {:induction false} DiscardsOrderNothing(victims: seq<Clip>)
    ensures Orders(Discards(victims)) == []
    decreases |victims|
  {
    if victims != [] {
      var n := |victims| - 1;
      assert Discards(victims)[..n] == Discards(victims[..n]);
      DiscardsOrderNothing(victims[..n]);
    }
  }

  // ---- What is wanted ----

  /** A recording begins: for the whole clip, looking for a person if it is a motion
      and detection is on, for a face if it is a ring and faces are waited for. */
  function Rolls(p: Policy, c: Camera, d: Camera): seq<Order> {
    if c.recording == NotRecording && d.recording != NotRecording && d.event.Some? then
      var e := d.event.value;
      [Roll(e.id, p.clip, if e.kind == Motion && p.personDetection then p.detectWindow else 0,
            if e.kind == Ring then p.ringFaceWait else 0)]
    else []
  }

  function Cuts(c: Camera, d: Camera): seq<Order> {
    if c.recording == Active && d.recording == Stopping then [Cut] else []
  }

  function Dials(c: Camera, e: Event, shuttingDown: bool): seq<Order> {
    match e
    case ViewerRequested(peer) => if !shuttingDown && c.recording == NotRecording then [Dial(peer)] else []
    case RecordingFinished(_, _, _, _, _) => if c.deferredCall.Some? then [Dial(c.deferredCall.value)] else []
    case _ => []
  }

  function HangsUp(c: Camera, e: Event): seq<Order> {
    if e.Shutdown? && c.viewers != {} then [Quit] else []
  }

  /** One handling, from the camera's side. */
  function Wanted(p: Policy, c: Camera, d: Camera, e: Event, shuttingDown: bool): seq<Order> {
    Rolls(p, c, d) + Cuts(c, d) + Dials(c, e, shuttingDown) + HangsUp(c, e)
  }

  function Dialled(orders: seq<Order>): set<PeerId> { set o | o in orders && o.Dial? :: o.peer }

  function Watching(c: Camera, e: Event, shuttingDown: bool): set<PeerId> {
    if e.Shutdown? then {}
    else if e.CallEnded? then c.viewers - {e.peer}
    else c.viewers + Dialled(Dials(c, e, shuttingDown))
  }

  /** What cuts a running recording short: a viewer, being told to stop, or nobody
      there about a motion still held. */
  predicate CutsIn(c: Camera, e: Event, shuttingDown: bool) {
    || (e.ViewerRequested? && !shuttingDown)
    || e.Shutdown?
    || (e.DetectionResult? && e.verdict == NoPerson && c.event.Some? && c.event.value.id == e.id
        && c.event.value.awaitingVerdict && c.event.value.kind == Motion)
  }

  /** The camera only starts from rest, is only cut short by those, and only an end
      report frees it. */
  predicate Moves(c: Camera, d: Camera, e: Event, shuttingDown: bool) {
    && (e.RecordingFinished? ==> d.recording == NotRecording)
    && (c.recording == Active && !e.RecordingFinished? ==>
          d.recording == if CutsIn(c, e, shuttingDown) then Stopping else Active)
    && (c.recording == Stopping && !e.RecordingFinished? ==> d.recording == Stopping)
    && (c.recording == NotRecording && d.recording != NotRecording ==>
          FromSensor(e) && !shuttingDown && d.recording == Active && d.event.Some?)
    && (c.recording != NotRecording && d.recording != NotRecording && c.event.Some? ==>
          d.event.Some? && d.event.value.id == c.event.value.id)
    && d.viewers == Watching(c, e, shuttingDown)
  }

  /** t is s after those orders, and maybe other actions in between. */
  ghost predicate Emits(s: State, t: State, orders: seq<Order>) {
    s.log.trace <= t.log.trace && Orders(t.log.trace) == Orders(s.log.trace) + orders
  }

  lemma EmitsThen(s: State, t: State, u: State, a: seq<Order>, b: seq<Order>)
    requires Emits(s, t, a) && Emits(t, u, b)
    ensures Emits(s, u, a + b)
  {
    assert Orders(s.log.trace) + a + b == Orders(s.log.trace) + (a + b);
  }

  lemma AlertNowOrders(p: Policy, s: State, a: Alert, now: Time)
    ensures Emits(s, AlertNow(p, s, a, now), []) && AlertNow(p, s, a, now).camera == s.camera
    ensures AlertNow(p, s, a, now).panel == s.panel
  {
    hide Orders, Pumped, NextAlert;
    var d := Enqueue(p, s.desk, a, now);
    var next := NextAlert(p, d, s.panel.online, now);
    if next.Some? { OrdersGrow(s.log.trace, SendAlert(next.value)); }
  }

  lemma TriggerOrders(p: Policy, s: State, kind: Kind, now: Time, withClip: bool, id: EventId)
    ensures var t := Trigger(p, s, kind, now, withClip, id);
      && t.panel == s.panel && t.camera.viewers == s.camera.viewers
      && t.camera.recording == (if withClip then Active else s.camera.recording)
      && (if withClip then t.camera.event.Some? && t.camera.event.value.id == id else t.camera == s.camera)
      && (withClip ==> t.camera.event.value.kind == kind)
      && Emits(s, t, if withClip then [Roll(id, p.clip, 0, if kind == Ring then p.ringFaceWait else 0)] else [])
  {
    hide Orders, AlertNow;
    var log := Mint(s.log, id, now);
    var s1 := s.(log := if kind == Ring then NoteRing(log, id, now) else log);
    AlertNowOrders(p, s1, Alert(id, kind, now, ""), now);
    OrdersGrow(s.log.trace, StartRecording(id, p.clip, 0, p.ringFaceWait));
    OrdersGrow(AlertUnjudged(p, s, kind, now, id).log.trace, StartRecording(id, p.clip, 0, 0));
  }

  lemma MotionOrders(p: Policy, s: State, i: Input)
    requires i.event.MotionDetected?
    ensures var t := Dispatch(p, s, i);
      && Emits(s, t, Rolls(p, s.camera, t.camera)) && t.panel == s.panel
      && Moves(s.camera, t.camera, i.event, s.panel.shuttingDown)
  {
    hide Orders, AlertNow, Trigger;
    OrdersGrow(s.log.trace, StartRecording(i.id, p.clip, p.detectWindow, 0));
    TriggerOrders(p, s.(timers := s.timers.(motionCooldownUntil := Some(i.now + p.motionCooldown))),
                  Motion, i.now, s.camera.viewers == {}, i.id);
  }

  lemma ButtonOrders(p: Policy, s: State, i: Input)
    requires i.event.ButtonPressed?
    ensures var t := Dispatch(p, s, i);
      && Emits(s, t, Rolls(p, s.camera, t.camera)) && t.panel == s.panel
      && Moves(s.camera, t.camera, i.event, s.panel.shuttingDown)
  {
    hide Orders, AlertNow, Trigger;
    var now := i.now;
    OrdersGrow(s.log.trace, PlayChime);
    var timers := s.timers.(ringLedUntil := Some(now + p.ringLed), pressWindowUntil := Some(now + p.pressDedupWindow));
    var s1 := s.(timers := timers, log := Emit(s.log, PlayChime));
    if JoinsRecording(s1.camera) {
      var e := s1.camera.event.value;
      var s2 := s1.(camera := s1.camera.(event := Some(AsRing(p, e, now))), log := NoteRing(s1.log, e.id, now));
      AlertNowOrders(p, s2, Alert(e.id, Ring, now, e.faces), now);
    } else {
      TriggerOrders(p, s1, Ring, now, s1.camera.viewers == {} && s1.camera.recording == NotRecording, i.id);
    }
  }

  lemma PutAwayOrders(p: Policy, s: State, e: Option<ActiveEvent>, id: EventId, path: string,
                      ok: bool, duration: nat, bytes: nat)
    ensures var t := PutAway(p, s, e, id, path, ok, duration, bytes);
      Emits(s, t, []) && t.camera == s.camera && t.panel == s.panel
  {
    hide Orders, Overflow, WorthKeeping;
    OrdersGrow(s.log.trace, DiscardClip(id, path));
    if WorthKeeping(p, e, id, ok, duration, bytes) {
      assert e.Some? by { WorthKeepingIsDescribed(p, e, id, ok, duration, bytes); }
      var victims := Overflow(p, Accept(s.spool, ClipOf(e.value, path, duration), bytes)).victims;
      OrdersSplit(s.log.trace, Discards(victims));
      DiscardsOrderNothing(victims);
    }
  }

  lemma FinishOrders(p: Policy, s: State, i: Input)
    requires i.event.RecordingFinished?
    ensures var t := Dispatch(p, s, i);
      && Emits(s, t, Dials(s.camera, i.event, s.panel.shuttingDown)) && t.panel == s.panel
      && Moves(s.camera, t.camera, i.event, s.panel.shuttingDown)
  {
    hide Orders, AlertNow, PutAway;
    if s.camera.event.Some? {
      AlertNowOrders(p, s.(camera := LetGo(s.camera)), HeldAlert(s.camera, ""), i.now);
    }
    var e := i.event;
    var s1 := ReleaseIfHeld(p, s, i.now);
    PutAwayOrders(p, FreeCamera(s1), s1.camera.event, e.id, e.path, e.ok, e.duration, e.bytes);
    var s2 := PutAway(p, FreeCamera(s1), s1.camera.event, e.id, e.path, e.ok, e.duration, e.bytes);
    if s2.camera.deferredCall.Some? { OrdersGrow(s2.log.trace, StartCall(s2.camera.deferredCall.value)); }
  }

  lemma VerdictOrders(p: Policy, s: State, i: Input)
    requires i.event.DetectionResult?
    ensures var t := Dispatch(p, s, i);
      && Emits(s, t, Cuts(s.camera, t.camera)) && t.panel == s.panel
      && Moves(s.camera, t.camera, i.event, s.panel.shuttingDown)
  {
    hide Orders, AlertNow;
    OrdersGrow(s.log.trace, StopRecording);
    if s.camera.event.Some? {
      var s1 := s.(camera := KeepFaces(s.camera, i.event.verdict, i.event.faces));
      AlertNowOrders(p, s1.(camera := LetGo(s1.camera)), HeldAlert(s1.camera, i.event.faces), i.now);
    }
  }

  lemma ViewerOrders(p: Policy, s: State, i: Input)
    requires i.event.ViewerRequested?
    ensures var t := Dispatch(p, s, i);
      && Emits(s, t, Cuts(s.camera, t.camera) + Dials(s.camera, i.event, s.panel.shuttingDown)) && t.panel == s.panel
      && Moves(s.camera, t.camera, i.event, s.panel.shuttingDown)
  {
    hide Orders;
    OrdersGrow(s.log.trace, StopRecording);
    OrdersGrow(s.log.trace, StartCall(i.event.peer));
  }

  lemma ShutdownOrders(p: Policy, s: State, i: Input)
    requires i.event.Shutdown?
    ensures var t := Dispatch(p, s, i);
      && Emits(s, t, Cuts(s.camera, t.camera) + HangsUp(s.camera, i.event)) && t.panel.shuttingDown
      && Moves(s.camera, t.camera, i.event, s.panel.shuttingDown)
  {
    hide Orders;
    OrdersGrow(s.log.trace, StopRecording);
    var s1 := StopIfActive(s.(panel := s.panel.(shuttingDown := true)));
    OrdersGrow(s1.log.trace, StopCall);
    OrdersGrow(HangUp(s1).log.trace, SetLed(LedPattern.Off));
  }

  lemma OtherOrders(p: Policy, s: State, i: Input)
    requires !FromSensor(i.event) && !FromRecorder(i.event) && !i.event.ViewerRequested? && !i.event.Shutdown?
    ensures var t := Dispatch(p, s, i);
      && Emits(s, t, []) && t.panel.shuttingDown == s.panel.shuttingDown
      && Moves(s.camera, t.camera, i.event, s.panel.shuttingDown)
  {
    hide Orders;
  }

  lemma CloseOrders(p: Policy, s: State, now: Time)
    ensures Emits(s, Close(p, s, now), [])
  {
    hide Orders, AlertNow, Pumped, NextAlert;
    if Overdue(s.camera, now) {
      AlertNowOrders(p, s.(camera := LetGo(s.camera)), HeldAlert(s.camera, ""), now);
    }
    var s1 := CheckVerdictDeadline(p, s, now);
    var next := NextAlert(p, s1.desk, s1.panel.online, now);
    if next.Some? { OrdersGrow(s1.log.trace, SendAlert(next.value)); }
    var s2 := PumpAlerts(p, s1, now);
    if UploadReady(s2, now) { OrdersGrow(s2.log.trace, UploadClip(s2.spool.uploads[0].clip)); }
    var s3 := PumpUploads(s2, now);
    OrdersGrow(s3.log.trace, SetLed(DesiredLed(s3)));
  }

  lemma DispatchOrders(p: Policy, s: State, i: Input)
    ensures var t := Dispatch(p, s, i);
      && Emits(s, t, Wanted(p, s.camera, t.camera, i.event, s.panel.shuttingDown))
      && t.panel.shuttingDown == (s.panel.shuttingDown || i.event.Shutdown?)
      && Moves(s.camera, t.camera, i.event, s.panel.shuttingDown)
  {
    hide Dispatch, Watching, Orders;
    match i.event
    case MotionDetected => MotionOrders(p, s, i);
    case ButtonPressed => ButtonOrders(p, s, i);
    case RecordingFinished(_, _, _, _, _) => FinishOrders(p, s, i);
    case DetectionResult(_, _, _) => VerdictOrders(p, s, i);
    case ViewerRequested(_) => ViewerOrders(p, s, i);
    case Shutdown => ShutdownOrders(p, s, i);
    case _ => OtherOrders(p, s, i);
    var t := Dispatch(p, s, i);
    var orders := Wanted(p, s.camera, t.camera, i.event, s.panel.shuttingDown);
    var rolls, cuts := Rolls(p, s.camera, t.camera), Cuts(s.camera, t.camera);
    var dials, quits := Dials(s.camera, i.event, s.panel.shuttingDown), HangsUp(s.camera, i.event);
    assert FromSensor(i.event) ==> orders == rolls;
    assert i.event.RecordingFinished? ==> orders == dials;
    assert i.event.DetectionResult? ==> orders == cuts;
    assert i.event.ViewerRequested? ==> orders == cuts + dials;
    assert i.event.Shutdown? ==> orders == cuts + quits;
    assert !FromSensor(i.event) && !FromRecorder(i.event) && !i.event.ViewerRequested? && !i.event.Shutdown? ==> orders == [];
  }

  /** The recorder and the call are told what the camera's state says and no more. */
  lemma HandleOrders(p: Policy, s: State, i: Input)
    ensures var t := Handle(p, s, i);
      && Emits(s, t, Wanted(p, s.camera, t.camera, i.event, s.panel.shuttingDown))
      && t.panel.shuttingDown == (s.panel.shuttingDown || i.event.Shutdown?)
      && Moves(s.camera, t.camera, i.event, s.panel.shuttingDown)
  {
    hide Dispatch, Close, Emits, Watching, Dials;
    var s1 := Lapse(s, i.now);
    var d := Dispatch(p, s1, i);
    var t := Handle(p, s, i);
    DispatchOrders(p, s1, i);
    CloseOrders(p, d, i.now);
    Closing(p, d, i.now);
    var orders := Wanted(p, s.camera, d.camera, i.event, s.panel.shuttingDown);
    EmitsThen(s1, d, t, orders, []);
    assert orders + [] == orders;
    assert Wanted(p, s.camera, t.camera, i.event, s.panel.shuttingDown) == orders;
    SameTrace(s, s1, t, orders);
  }

  lemma SameTrace(s: State, s1: State, t: State, orders: seq<Order>)
    requires s1.log.trace == s.log.trace && Emits(s1, t, orders)
    ensures Emits(s, t, orders)
  {}

  lemma SameSuffix<T>(a: seq<T>, b: seq<T>, c: seq<T>)
    requires a + b == a + c
    ensures b == c
  {
    assert forall k :: 0 <= k < |b| && k < |c| ==> b[k] == (a + b)[|a| + k] == (a + c)[|a| + k];
    assert |a + b| == |a + c|;
  }

  /** The orders among the actions one handling adds. */
  lemma NewOrders(p: Policy, s: State, i: Input)
    ensures var t := Handle(p, s, i);
      && t.log.trace == s.log.trace + NewActions(s, t)
      && Orders(NewActions(s, t)) == Wanted(p, s.camera, t.camera, i.event, s.panel.shuttingDown)
  {
    hide Handle, Wanted;
    var t := Handle(p, s, i);
    HandleOrders(p, s, i);
    var news := NewActions(s, t);
    assert t.log.trace == s.log.trace + news;
    OrdersSplit(s.log.trace, news);
    SameSuffix(Orders(s.log.trace), Orders(news), Wanted(p, s.camera, t.camera, i.event, s.panel.shuttingDown));
  }

  /** An order listed is an action emitted, and the other way round. */
  lemma {:induction false} OrdersShow(actions: seq<Action>, o: Order)
    ensures o in Orders(actions) <==> exists k :: 0 <= k < |actions| && OrderOf(actions[k]) == [o]
    decreases |actions|
  {
    if actions != [] {
      var n := |actions| - 1;
      OrdersShow(actions[..n], o);
      assert forall k :: 0 <= k < n ==> actions[..n][k] == actions[k];
      assert o in OrderOf(actions[n]) <==> OrderOf(actions[n]) == [o];
    }
  }
}
