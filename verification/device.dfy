/** The device: decision engine, recorder and call, each doing one small step at a
    time, in whatever order children exit, timers fire, processes fail to start and
    people press buttons. One camera, so the two children must never both run. */
module DeviceRules {
  import opened Types
  import opened CoreRules
  import opened CoreRuns
  import R = RecorderRules
  import M = MediaRules

  /** What a callback still has to do once the daemon has drained. */
  datatype Rest =
    | Nothing
    | RecorderLeft(clean: bool, found: R.Found)        // on_child_exit, after the verdict
    | CallLeft(left: seq<PeerId>, reason: string)      // end_for_everyone, between two viewers

  datatype Device = Device(
    core: State,
    recorder: R.Recorder,
    media: M.Media,
    pending: seq<Event>,   // the daemon's queue
    todo: seq<Action>,     // actions of the event being handled, not yet carried out
    rest: Rest)

  datatype Setup = Setup(policy: Policy, raceWindow: nat, parse: R.Parser)

  function Boot(u: Setup): Device {
    Device(Init(u.policy), R.Fresh(), M.NoCall(), [], [], Nothing)
  }

  /** The reactor runs one callback at a time, and each drains before it returns. */
  predicate Calm(d: Device) { d.pending == [] && d.todo == [] && d.rest == Nothing }

  /** What a backend may answer to sending an alert or a clip. */
  predicate Answer(e: Event) { e.AlertResult? || e.UploadFinished? || e.ServerOffline? || e.ServerOnline? }

  predicate FromOutside(e: Event) {
    FromSensor(e) || e.ViewerRequested? || e.Tick? || e.Shutdown? || Answer(e)
  }

  datatype Move =
    | Arrive(event: Event)
    | Decide(now: Time, id: EventId)
    | Send(answers: seq<Event>)
    | Record(launch: R.Launch, found: R.Found)
    | CutRecording
    | Call(at: Time, spawns: bool, order: seq<PeerId>)
    | EndCall
    | Show
    | RecorderTimer
    | PipeReadable(chunk: string, closed: bool)
    | RecorderExits(chunk: string, closed: bool, clean: bool, found: R.Found)
    | CallExits(exit: M.Exit, at: Time, spawns: bool, order: seq<PeerId>)
    | GoOn

  ghost predicate Can(u: Setup, d: Device, m: Move) {
    match m
    case Arrive(event) => Calm(d) && FromOutside(event)
    case Decide(_, _) => d.todo == [] && d.pending != []
    case Send(answers) =>
      && d.todo != [] && (d.todo[0].SendAlert? || d.todo[0].UploadClip?)
      && forall k :: 0 <= k < |answers| ==> Answer(answers[k])
    case Record(_, _) => d.todo != [] && d.todo[0].StartRecording?
    case CutRecording => d.todo != [] && d.todo[0].StopRecording?
    case Call(now, spawns, order) =>
      && d.todo != [] && d.todo[0].StartCall?
      && M.Enumerates(order, M.StartCall(d.media, d.todo[0].peer, now, spawns).ending)
    case EndCall => d.todo != [] && d.todo[0].StopCall?
    case Show => d.todo != [] && (d.todo[0].SetLed? || d.todo[0].PlayChime? || d.todo[0].DiscardClip?)
    case RecorderTimer => Calm(d)
    case PipeReadable(_, _) => Calm(d)
    case RecorderExits(_, _, _, _) => Calm(d) && d.recorder.child
    case CallExits(exit, now, spawns, order) =>
      && Calm(d) && d.media.child
      && M.Enumerates(order, M.ChildExit(d.media, exit, now, u.raceWindow, spawns).ending)
    case GoOn => d.pending == [] && d.todo == [] && d.rest != Nothing
  }

  /** What the recorder reported on the way from one state to the other. */
  function Reported(r: R.Recorder, t: R.Recorder): seq<Event> {
    if |t.said| < |r.said| then []
    else seq(|t.said| - |r.said|, k requires 0 <= k < |t.said| - |r.said| => t.said[|r.said| + k].event)
  }

  function WithRecorder(d: Device, r: R.Recorder): Device {
    d.(recorder := r, pending := d.pending + Reported(d.recorder, r))
  }

  ghost function Do(u: Setup, d: Device, m: Move): Device
    requires Can(u, d, m)
  {
    match m
    case Arrive(event) => d.(pending := [event])
    case Decide(now, id) =>
      var t := Handle(u.policy, d.core, Input(d.pending[0], now, id));
      d.(core := t, pending := d.pending[1..], todo := NewActions(d.core, t))
    case Send(answers) => d.(pending := d.pending + answers, todo := d.todo[1..])
    case Record(launch, found) =>
      var a := d.todo[0];
      WithRecorder(d, R.Start(d.recorder, a.id, a.detectFor > 0 || a.ringFaces > 0, launch, found)).(todo := d.todo[1..])
    case CutRecording => d.(recorder := R.Stop(d.recorder), todo := d.todo[1..])
    case Call(now, spawns, order) =>
      d.(media := M.StartCall(d.media, d.todo[0].peer, now, spawns).media,
         pending := d.pending + M.Endings(order, "could not be started"), todo := d.todo[1..])
    case EndCall => d.(media := M.StopCall(d.media), todo := d.todo[1..])
    case Show => d.(todo := d.todo[1..])
    case RecorderTimer => d.(recorder := R.Timer(d.recorder))
    case PipeReadable(chunk, closed) => WithRecorder(d, R.Listen(d.recorder, u.parse, chunk, closed))
    case RecorderExits(chunk, closed, clean, found) =>
      WithRecorder(d, R.Reap(d.recorder, u.parse, chunk, closed)).(rest := RecorderLeft(clean, found))
    case CallExits(exit, now, spawns, order) =>
      d.(media := M.ChildExit(d.media, exit, now, u.raceWindow, spawns).media,
         rest := CallLeft(order, if exit == M.Clean then "ended" else "failed"))
    case GoOn =>
      match d.rest
      case RecorderLeft(clean, found) =>
        WithRecorder(d, R.Conclude(d.recorder, clean, found)).(rest := Nothing)
      case CallLeft(left, reason) =>
        if left == [] then d.(rest := Nothing)
        else d.(pending := [CallEnded(left[0], reason)], rest := CallLeft(left[1..], reason))
      case Nothing => d
  }

  ghost predicate Possible(u: Setup, d: Device, moves: seq<Move>)
    decreases |moves|
  {
    moves == [] || (Can(u, d, moves[0]) && Possible(u, Do(u, d, moves[0]), moves[1..]))
  }

  ghost function Reached(u: Setup, d: Device, moves: seq<Move>): Device
    requires Possible(u, d, moves)
    decreases |moves|
  {
    if moves == [] then d else Reached(u, Do(u, d, moves[0]), moves[1..])
  }
}

/** Why the two never meet: the core's idea of who has the camera, what it has
    ordered and not yet got, and what it is still to be told always add up. */
module DeviceSafety {
  import opened Types
  import opened CoreRules
  import opened CoreRuns
  import opened CoreOrders
  import opened DeviceRules
  import R = RecorderRules
  import L = LineRules
  import M = MediaRules

  // ---- What is on its way ----

  /** How many recordings the core is about to hear the end of. */
  function Overs(events: seq<Event>): nat {
    if events == [] then 0 else (if events[0].RecordingFinished? then 1 else 0) + Overs(events[1..])
  }

  /** Who the core is about to hear left. */
  function Leaving(events: seq<Event>): multiset<PeerId> {
    if events == [] then multiset{}
    else (if events[0].CallEnded? then multiset{events[0].peer} else multiset{}) + Leaving(events[1..])
  }

  lemma {:induction false} Joins(a: seq<Event>, b: seq<Event>)
    ensures Overs(a + b) == Overs(a) + Overs(b)
    ensures Leaving(a + b) == Leaving(a) + Leaving(b)
  {
    if a == [] {
      assert a + b == b;
    } else {
      assert (a + b)[1..] == a[1..] + b;
      Joins(a[1..], b);
    }
  }

  lemma {:induction false} Endless(events: seq<Event>)
    requires forall k :: 0 <= k < |events| ==> !events[k].RecordingFinished? && !events[k].CallEnded?
    ensures Overs(events) == 0 && Leaving(events) == multiset{}
  {
    if events != [] { Endless(events[1..]); }
  }

  lemma {:induction false} EndingsLeave(order: seq<PeerId>, reason: string)
    ensures Overs(M.Endings(order, reason)) == 0 && Leaving(M.Endings(order, reason)) == multiset(order)
  {
    if order != [] {
      assert M.Endings(order, reason)[1..] == M.Endings(order[1..], reason);
      EndingsLeave(order[1..], reason);
      assert order == [order[0]] + order[1..];
    }
  }

  predicate Rolling(orders: seq<Order>) { |orders| == 1 && orders[0].Roll? }

  function Dialling(orders: seq<Order>): set<PeerId> {
    if |orders| == 1 && orders[0].Dial? then {orders[0].peer} else {}
  }

  function Left(rest: Rest): multiset<PeerId> {
    if rest.CallLeft? then multiset(rest.left) else multiset{}
  }

  function One(b: bool): nat { if b then 1 else 0 }

  // ---- The invariant ----

  /** The recording the core counts on is ordered, running, or over and unreported. */
  predicate OneTicket(d: Device) {
    One(Rolling(Orders(d.todo))) + One(R.Busy(d.recorder)) + Overs(d.pending)
      == One(d.core.camera.recording != NotRecording)
  }

  /** Every viewer the core counts is in the call, about to be, or about to be
      reported gone: one of the three, once. */
  predicate EveryViewerPlaced(d: Device) {
    multiset(d.core.camera.viewers)
      == multiset(d.media.peers + Dialling(Orders(d.todo))) + Leaving(d.pending) + Left(d.rest)
  }

  ghost predicate RecorderFits(d: Device) {
    && R.Contract(d.recorder)
    && (d.rest.RecorderLeft? <==> d.recorder.reaped)
    && (d.core.camera.recording == Stopping ==> d.recorder.phase != R.Rolling || Orders(d.todo) == [Cut])
    && (Rolling(Orders(d.todo)) ==> d.core.camera.recording == Active)
  }

  predicate CallFits(d: Device) {
    && M.Serves(d.media)
    && (d.core.camera.recording != NotRecording ==> d.media.peers == {})
    && (!d.core.panel.shuttingDown ==> EveryViewerPlaced(d))
    && (d.core.panel.shuttingDown ==>
          !Rolling(Orders(d.todo)) && Dialling(Orders(d.todo)) == {}
          && (d.media.child ==> d.media.stopping || Orders(d.todo) == [Quit]))
  }

  predicate AskedAlone(d: Device) {
    forall k :: 0 <= k < |d.pending| && d.pending[k].ViewerRequested? ==>
      d.pending == [d.pending[k]] && d.todo == [] && d.rest == Nothing
  }

  predicate IsFor(c: Camera, id: EventId) { c.event.Some? && c.event.value.id == id }

  predicate Names(c: Camera, e: Event) { e.RecordingFinished? ==> IsFor(c, e.id) }

  /** Ordered, running or over: the recording is that of the core's own event. */
  predicate SameEvent(d: Device) {
    && (Rolling(Orders(d.todo)) ==> IsFor(d.core.camera, Orders(d.todo)[0].id))
    && (R.Busy(d.recorder) ==> IsFor(d.core.camera, d.recorder.id))
    && forall k :: 0 <= k < |d.pending| ==> Names(d.core.camera, d.pending[k])
  }

  ghost predicate Sound(d: Device) {
    && CameraInv(d.core.camera, d.core.panel.shuttingDown)
    && |Orders(d.todo)| <= 1
    && OneTicket(d) && RecorderFits(d) && CallFits(d) && AskedAlone(d) && SameEvent(d)
  }

  lemma BootSound(u: Setup)
    ensures Sound(Boot(u))
  {}

  // ---- The core's step ----

  lemma OneOrder(p: Policy, c: Camera, t: Camera, e: Event, shuttingDown: bool)
    requires CameraInv(c, shuttingDown) && Moves(c, t, e, shuttingDown)
    ensures |Wanted(p, c, t, e, shuttingDown)| <= 1
  {}

  lemma Decided(u: Setup, d: Device, now: Time, id: EventId)
    requires Sound(d) && Can(u, d, Decide(now, id))
    ensures var t := Do(u, d, Decide(now, id)); var e := d.pending[0];
      var c, before := d.core.camera, d.core.panel.shuttingDown;
      && CameraInv(t.core.camera, t.core.panel.shuttingDown)
      && Orders(t.todo) == Wanted(u.policy, c, t.core.camera, e, before) && |Orders(t.todo)| <= 1
      && t.core.panel.shuttingDown == (before || e.Shutdown?)
      && Moves(c, t.core.camera, e, before)
      && Orders(d.todo) == []
      && Overs(d.pending) == One(e.RecordingFinished?) + Overs(t.pending)
      && Leaving(d.pending) == (if e.CallEnded? then multiset{e.peer} else multiset{}) + Leaving(t.pending)
      && t.pending == d.pending[1..] && t.rest == d.rest && t.media == d.media && t.recorder == d.recorder
  {
    hide Handle, Orders, Wanted, Moves, CameraInv, RecorderFits, CallFits, OneTicket, AskedAlone, SameEvent;
    var i := Input(d.pending[0], now, id);
    var t := Handle(u.policy, d.core, i);
    CameraStep(u.policy, d.core, i);
    HandleOrders(u.policy, d.core, i);
    OneOrder(u.policy, d.core.camera, t.camera, i.event, d.core.panel.shuttingDown);
    var news := NewActions(d.core, t);
    assert t.log.trace == d.core.log.trace + news;
    OrdersSplit(d.core.log.trace, news);
    NoOrders();
    SameSuffix(Orders(d.core.log.trace), Orders(news), Wanted(u.policy, d.core.camera, t.camera, i.event, d.core.panel.shuttingDown));
  }

  lemma NoOrders()
    ensures Orders([]) == []
  {}

  lemma DecideTicket(u: Setup, d: Device, now: Time, id: EventId)
    requires Sound(d) && Can(u, d, Decide(now, id))
    ensures OneTicket(Do(u, d, Decide(now, id))) && RecorderFits(Do(u, d, Decide(now, id)))
  {
    hide Do, Handle, Orders, CallFits, AskedAlone, SameEvent, R.Contract, CameraInv, Overs, Leaving;
    Decided(u, d, now, id);
  }

  lemma Alone(d: Device)
    requires AskedAlone(d) && d.pending != [] && d.pending[0].ViewerRequested?
    ensures Leaving(d.pending) + Left(d.rest) == multiset{}
  {}

  lemma DialledIs(c: Camera, e: Event, shuttingDown: bool)
    ensures Dialled(Dials(c, e, shuttingDown)) == Dialling(Dials(c, e, shuttingDown))
  {}

  /** While the core is not shutting down, every viewer stays placed. */
  lemma DecidePlaces(u: Setup, d: Device, now: Time, id: EventId)
    requires Sound(d) && Can(u, d, Decide(now, id)) && !d.core.panel.shuttingDown && !d.pending[0].Shutdown?
    ensures EveryViewerPlaced(Do(u, d, Decide(now, id)))
  {
    hide Do, Handle, Orders, RecorderFits, Overs, Leaving, Dials, Dialled, Rolls, Cuts;
    Decided(u, d, now, id);
    var t, e := Do(u, d, Decide(now, id)), d.pending[0];
    var c := d.core.camera;
    DialledIs(c, e, false);
    DialsWhen(c, e);
    WantedDials(u.policy, c, t.core.camera, e);
    var leaving, left := Leaving(t.pending), Left(d.rest);
    assert multiset(c.viewers) == multiset(d.media.peers) + Leaving(d.pending) + left by {
      assert d.media.peers + Dialling(Orders(d.todo)) == d.media.peers;
    }
    if e.CallEnded? {
      OneLeaves(c.viewers, d.media.peers, e.peer, leaving, left);
      assert d.media.peers + {} == d.media.peers;
    } else if e.ViewerRequested? {
      Alone(d);
      NobodyLeaves(c.viewers, d.media.peers, Dialling(Dials(c, e, false)), leaving, left);
    } else if e.RecordingFinished? {
      assert c.viewers == {};
      NobodyLeaves(c.viewers, d.media.peers, Dialling(Dials(c, e, false)), leaving, left);
    } else {
      assert d.media.peers + {} == d.media.peers && c.viewers + {} == c.viewers;
    }
  }

  lemma OneLeaves(viewers: set<PeerId>, peers: set<PeerId>, q: PeerId, leaving: multiset<PeerId>, left: multiset<PeerId>)
    requires multiset(viewers) == multiset(peers) + (multiset{q} + leaving) + left
    ensures multiset(viewers - {q}) == multiset(peers) + leaving + left
  {
    forall v ensures multiset(viewers - {q})[v] == (multiset(peers) + leaving + left)[v] {
      assert multiset(viewers)[v] == (multiset(peers) + (multiset{q} + leaving) + left)[v];
    }
  }

  lemma NobodyLeaves(viewers: set<PeerId>, peers: set<PeerId>, q: set<PeerId>, leaving: multiset<PeerId>, left: multiset<PeerId>)
    requires multiset(viewers) == multiset(peers) + leaving + left && (leaving + left == multiset{} || viewers == {})
    ensures multiset(viewers + q) == multiset(peers + q) + leaving + left
  {
    forall v ensures (leaving + left)[v] == 0 && (v in viewers <==> v in peers) {
      assert multiset(viewers)[v] == (multiset(peers) + leaving + left)[v];
    }
    assert leaving + left == multiset{} && viewers == peers;
    assert multiset(peers + q) + leaving + left == multiset(peers + q) + (leaving + left);
  }

  lemma DialsWhen(c: Camera, e: Event)
    ensures Dials(c, e, false) != [] ==> e.ViewerRequested? || e.RecordingFinished?
    ensures |Dials(c, e, false)| <= 1
  {}

  lemma WantedDials(p: Policy, c: Camera, t: Camera, e: Event)
    requires Moves(c, t, e, false) && |Wanted(p, c, t, e, false)| <= 1
    ensures Dialling(Wanted(p, c, t, e, false)) == Dialling(Dials(c, e, false))
  {}

  /** Whoever is in the call, the core counts as watching. */
  lemma PeersWatch(d: Device)
    requires EveryViewerPlaced(d)
    ensures d.media.peers + Dialling(Orders(d.todo)) <= d.core.camera.viewers
  {
    hide Orders, Leaving;
    var all := d.media.peers + Dialling(Orders(d.todo));
    forall v | v in all ensures v in d.core.camera.viewers {
      assert multiset(d.core.camera.viewers)[v] == (multiset(all) + Leaving(d.pending) + Left(d.rest))[v];
    }
  }

  lemma QuitWanted(p: Policy, c: Camera, t: Camera, e: Event)
    requires |Wanted(p, c, t, e, false)| <= 1 && e.Shutdown? && c.viewers != {}
    ensures Wanted(p, c, t, e, false) == [Quit]
  {}

  lemma ShutStays(p: Policy, c: Camera, t: Camera, e: Event)
    requires Moves(c, t, e, true) && CameraInv(c, true)
    ensures Wanted(p, c, t, e, true) == [] || Wanted(p, c, t, e, true) == [Cut]
  {}

  lemma DecideCall(u: Setup, d: Device, now: Time, id: EventId)
    requires Sound(d) && Can(u, d, Decide(now, id))
    ensures CallFits(Do(u, d, Decide(now, id)))
  {
    hide Do, Handle, Orders, RecorderFits, Overs, Leaving, EveryViewerPlaced, Rolls, Cuts, Dials, HangsUp;
    Decided(u, d, now, id);
    var t, e := Do(u, d, Decide(now, id)), d.pending[0];
    if d.core.panel.shuttingDown {
      ShutStays(u.policy, d.core.camera, t.core.camera, e);
    } else {
      PeersWatch(d);
      if e.Shutdown? {
        ShutdownWants(u.policy, d.core.camera, t.core.camera, e);
        if d.media.child { QuitWanted(u.policy, d.core.camera, t.core.camera, e); }
      } else {
        DecidePlaces(u, d, now, id);
        PeersWatch(t);
      }
    }
  }

  lemma ShutdownWants(p: Policy, c: Camera, t: Camera, e: Event)
    requires e.Shutdown? && Moves(c, t, e, false)
    ensures forall k :: 0 <= k < |Wanted(p, c, t, e, false)| ==> Wanted(p, c, t, e, false)[k] in [Cut, Quit]
  {}

  lemma DecideAsks(u: Setup, d: Device, now: Time, id: EventId)
    requires Sound(d) && Can(u, d, Decide(now, id))
    ensures AskedAlone(Do(u, d, Decide(now, id)))
  {
    hide Handle, Orders, RecorderFits, CallFits, OneTicket, CameraInv;
    var t := Do(u, d, Decide(now, id));
    assert forall k :: 0 <= k < |t.pending| ==> t.pending[k] == d.pending[k + 1];
  }

  lemma {:induction false} NoneOver(events: seq<Event>)
    requires Overs(events) == 0
    ensures forall k :: 0 <= k < |events| ==> !events[k].RecordingFinished?
  {
    if events != [] { NoneOver(events[1..]); }
  }

  lemma DecideNames(u: Setup, d: Device, now: Time, id: EventId)
    requires Sound(d) && Can(u, d, Decide(now, id))
    ensures SameEvent(Do(u, d, Decide(now, id)))
  {
    hide Handle, Orders, CallFits, AskedAlone, R.Contract, Overs, Leaving, Dials, Cuts, HangsUp, Watching;
    Decided(u, d, now, id);
    var t, e := Do(u, d, Decide(now, id)), d.pending[0];
    var c := d.core.camera;
    assert forall k :: 0 <= k < |t.pending| ==> t.pending[k] == d.pending[k + 1];
    if c.recording == NotRecording || e.RecordingFinished? { NoneOver(t.pending); }
    if Rolling(Orders(t.todo)) { RollIs(u.policy, c, t.core.camera, e, d.core.panel.shuttingDown); }
  }

  lemma RollIs(p: Policy, c: Camera, t: Camera, e: Event, shuttingDown: bool)
    requires Rolling(Wanted(p, c, t, e, shuttingDown))
    ensures c.recording == NotRecording && IsFor(t, Wanted(p, c, t, e, shuttingDown)[0].id)
  {}

  lemma DecideKeeps(u: Setup, d: Device, now: Time, id: EventId)
    requires Sound(d) && Can(u, d, Decide(now, id))
    ensures Sound(Do(u, d, Decide(now, id)))
  {
    hide Handle, Orders, RecorderFits, CallFits, OneTicket, AskedAlone, SameEvent, CameraInv, Do;
    Decided(u, d, now, id);
    DecideTicket(u, d, now, id);
    DecideCall(u, d, now, id);
    DecideAsks(u, d, now, id);
    DecideNames(u, d, now, id);
  }

  // ---- Carrying the actions out ----

  lemma Pop(todo: seq<Action>)
    requires todo != [] && |Orders(todo)| <= 1
    ensures Orders(todo[1..]) == if OrderOf(todo[0]) == [] then Orders(todo) else []
    ensures OrderOf(todo[0]) != [] ==> Orders(todo) == OrderOf(todo[0])
  {
    assert todo == [todo[0]] + todo[1..];
    OrdersSplit([todo[0]], todo[1..]);
    OrdersGrow([], todo[0]);
    NoOrders();
    assert [] + [todo[0]] == [todo[0]];
    hide Orders;
    assert [] + OrderOf(todo[0]) == OrderOf(todo[0]);
    assert Orders(todo) == OrderOf(todo[0]) + Orders(todo[1..]);
    assert OrderOf(todo[0]) == [] ==> Orders(todo) == Orders(todo[1..]);
  }

  /** The recorder is still at the recording it was at, or at one of the core's. */
  predicate StillFor(d: Device, t: Device) {
    && t.core == d.core
    && (Rolling(Orders(t.todo)) ==> Orders(t.todo) == Orders(d.todo))
    && ((t.recorder.id == d.recorder.id && (R.Busy(t.recorder) ==> R.Busy(d.recorder)))
        || (R.Busy(t.recorder) ==> IsFor(d.core.camera, t.recorder.id)))
  }

  lemma Joined(d: Device, more: seq<Event>, t: Device)
    requires AskedAlone(d) && SameEvent(d) && StillFor(d, t)
    requires d.todo != [] || d.rest != Nothing || d.pending == []
    requires forall k :: 0 <= k < |more| ==> !more[k].ViewerRequested? && Names(d.core.camera, more[k])
    requires t.pending == d.pending + more
    ensures AskedAlone(t) && SameEvent(t)
  {
    hide Orders;
  }

  lemma StillAlone(d: Device, t: Device)
    requires AskedAlone(d) && SameEvent(d) && StillFor(d, t)
    requires d.todo != [] || d.rest != Nothing || d.pending == []
    requires t.pending == d.pending
    ensures AskedAlone(t) && SameEvent(t)
  {
    hide Orders;
  }

  lemma Coming(e: Event)
    ensures Overs([]) == 0 && Leaving([]) == multiset{}
    ensures Overs([e]) == One(e.RecordingFinished?)
    ensures Leaving([e]) == if e.CallEnded? then multiset{e.peer} else multiset{}
  {}

  lemma OnlyOne(d: Device, t: Device, e: Event)
    requires SameEvent(d) && StillFor(d, t)
    requires t.pending == [e] && !e.RecordingFinished? && (e.ViewerRequested? ==> t.todo == [] && t.rest == Nothing)
    ensures AskedAlone(t) && SameEvent(t)
  {
    hide Orders;
  }

  lemma SendKeeps(u: Setup, d: Device, answers: seq<Event>)
    requires Sound(d) && Can(u, d, Send(answers))
    ensures Sound(Do(u, d, Send(answers)))
  {
    hide Orders, Overs, Leaving, Handle, AskedAlone, SameEvent, R.Contract, CameraInv;
    Pop(d.todo);
    Joins(d.pending, answers);
    Endless(answers);
    Joined(d, answers, Do(u, d, Send(answers)));
  }

  lemma ShowKeeps(u: Setup, d: Device)
    requires Sound(d) && Can(u, d, Show)
    ensures Sound(Do(u, d, Show))
  {
    hide Orders, Overs, Leaving, Handle, AskedAlone, SameEvent, R.Contract, CameraInv;
    Pop(d.todo);
    StillAlone(d, Do(u, d, Show));
  }

  lemma StartReports(r: R.Recorder, id: EventId, answers: bool, launch: R.Launch, f: R.Found)
    requires R.Contract(r) && !R.Busy(r)
    ensures var t := R.Start(r, id, answers, launch, f); var news := Reported(r, t);
      && R.Contract(t) && R.Busy(t) == (launch == R.Running) && !t.reaped && !r.reaped
      && Overs(news) + One(R.Busy(t)) == 1 && Leaving(news) == multiset{} && (R.Busy(t) ==> t.id == id)
      && forall k :: 0 <= k < |news| ==> news[k].RecordingFinished? && news[k].id == id
  {
    R.StartKeeps(r, id, answers, launch, f);
    var t := R.Start(r, id, answers, launch, f);
    hide R.Contract;
    var news := Reported(r, t);
    assert launch == R.Running ==> news == [];
    assert launch != R.Running ==> |news| == 1 && news == [news[0]] && news[0].RecordingFinished?;
  }

  /** A start always finds the recorder at rest. */
  lemma StartFindsRest(d: Device)
    requires Sound(d) && d.todo != [] && d.todo[0].StartRecording?
    ensures !R.Busy(d.recorder) && Overs(d.pending) == 0 && Orders(d.todo) == OrderOf(d.todo[0])
    ensures IsFor(d.core.camera, d.todo[0].id)
  {
    Pop(d.todo);
  }

  lemma RecordKeeps(u: Setup, d: Device, launch: R.Launch, f: R.Found)
    requires Sound(d) && Can(u, d, Record(launch, f))
    ensures Sound(Do(u, d, Record(launch, f)))
  {
    hide Orders, Overs, Leaving, Handle, AskedAlone, SameEvent, R.Contract, CameraInv, R.Start, Reported;
    Pop(d.todo);
    StartFindsRest(d);
    var a := d.todo[0];
    var answers := a.detectFor > 0 || a.ringFaces > 0;
    StartReports(d.recorder, a.id, answers, launch, f);
    var news := Reported(d.recorder, R.Start(d.recorder, a.id, answers, launch, f));
    Joins(d.pending, news);
    Joined(d, news, Do(u, d, Record(launch, f)));
  }

  lemma CutKeeps(u: Setup, d: Device)
    requires Sound(d) && Can(u, d, CutRecording)
    ensures Sound(Do(u, d, CutRecording))
  {
    hide Orders, Overs, Leaving, Handle, AskedAlone, SameEvent, R.Contract, CameraInv;
    Pop(d.todo);
    R.StopKeeps(d.recorder);
    StillAlone(d, Do(u, d, CutRecording));
  }

  /** Nor does a call: nothing of a recording is left when one is asked for. */
  lemma CallFindsRoom(d: Device)
    requires Sound(d) && d.todo != [] && d.todo[0].StartCall?
    ensures d.core.camera.recording == NotRecording && !d.core.panel.shuttingDown
    ensures !R.Busy(d.recorder) && Overs(d.pending) == 0 && Orders(d.todo) == OrderOf(d.todo[0])
  {
    hide Orders, Overs, Leaving, R.Contract, AskedAlone, SameEvent;
    Pop(d.todo);
    assert d.todo[0].peer in Dialling(Orders(d.todo));
    PeersWatch(d);
    assert d.todo[0].peer in d.core.camera.viewers;
  }

  lemma StillPlaced(d: Device, t: Device, peer: PeerId, ending: multiset<PeerId>)
    requires EveryViewerPlaced(d) && Dialling(Orders(d.todo)) == {peer} && Dialling(Orders(t.todo)) == {}
    requires t.core == d.core && t.rest == d.rest && Leaving(t.pending) == Leaving(d.pending) + ending
    requires multiset(t.media.peers) + ending == multiset(d.media.peers + {peer})
    ensures EveryViewerPlaced(t)
  {
    hide Orders, Leaving, Dialling, Left;
    assert t.media.peers + {} == t.media.peers;
  }

  lemma CallPlaces(u: Setup, d: Device, now: Time, spawns: bool, order: seq<PeerId>)
    requires Sound(d) && Can(u, d, Call(now, spawns, order))
    ensures var t := Do(u, d, Call(now, spawns, order));
      && EveryViewerPlaced(t) && M.Serves(t.media) && AskedAlone(t) && SameEvent(t)
      && Overs(t.pending) == Overs(d.pending)
  {
    hide Orders, Overs, Leaving, Handle, AskedAlone, SameEvent, R.Contract, CameraInv;
    hide OneTicket, RecorderFits, EveryViewerPlaced, M.StartCall, M.Endings;
    Pop(d.todo);
    CallFindsRoom(d);
    var peer := d.todo[0].peer;
    M.CallKeepsServing(d.media, peer, now, spawns);
    var turn, news := M.StartCall(d.media, peer, now, spawns), M.Endings(order, "could not be started");
    EndingsLeave(order, "could not be started");
    Joins(d.pending, news);
    NoneAsks(order, "could not be started");
    Joined(d, news, Do(u, d, Call(now, spawns, order)));
    StillPlaced(d, Do(u, d, Call(now, spawns, order)), peer, multiset(turn.ending));
  }

  lemma NoneAsks(order: seq<PeerId>, reason: string)
    ensures forall k :: 0 <= k < |M.Endings(order, reason)| ==> M.Endings(order, reason)[k].CallEnded?
  {}

  lemma CallKeeps(u: Setup, d: Device, now: Time, spawns: bool, order: seq<PeerId>)
    requires Sound(d) && Can(u, d, Call(now, spawns, order))
    ensures Sound(Do(u, d, Call(now, spawns, order)))
  {
    hide Orders, Overs, Leaving, Handle, AskedAlone, SameEvent, R.Contract, CameraInv;
    hide EveryViewerPlaced, M.StartCall, M.Endings, M.Serves;
    Pop(d.todo);
    CallFindsRoom(d);
    CallPlaces(u, d, now, spawns, order);
  }

  lemma EndCallKeeps(u: Setup, d: Device)
    requires Sound(d) && Can(u, d, EndCall)
    ensures Sound(Do(u, d, EndCall))
  {
    hide Orders, Overs, Leaving, Handle, AskedAlone, SameEvent, R.Contract, CameraInv;
    Pop(d.todo);
    StillAlone(d, Do(u, d, EndCall));
  }

  // ---- Callbacks ----

  lemma {:induction false} HearingOnlyJudges(r: R.Recorder, parse: R.Parser, lines: seq<string>)
    ensures var t := R.HearLines(r, parse, lines);
      && r.said <= t.said && t.id == r.id && t.phase == r.phase
      && forall k :: |r.said| <= k < |t.said| ==> t.said[k].event.DetectionResult?
    decreases |lines|
  {
    if lines != [] {
      var heard := R.HearLine(r, parse, lines[0]);
      HearingOnlyJudges(heard, parse, lines[1..]);
      assert r.said <= heard.said;
    }
  }

  lemma ListenReports(r: R.Recorder, parse: R.Parser, chunk: string, closed: bool)
    ensures R.Listen(r, parse, chunk, closed).id == r.id
    ensures var news := Reported(r, R.Listen(r, parse, chunk, closed));
      && Overs(news) == 0 && Leaving(news) == multiset{}
      && forall k :: 0 <= k < |news| ==> news[k].DetectionResult?
  {
    hide R.HearLines, L.Lines, L.Tail;
    if r.piped {
      HearingOnlyJudges(r.(buffer := L.Tail(r.buffer + chunk), piped := !closed), parse, L.Lines(r.buffer + chunk));
    }
    Endless(Reported(r, R.Listen(r, parse, chunk, closed)));
  }

  lemma ListenKeeps(u: Setup, d: Device, chunk: string, closed: bool)
    requires Sound(d) && Can(u, d, PipeReadable(chunk, closed))
    ensures Sound(Do(u, d, PipeReadable(chunk, closed)))
  {
    hide Orders, Overs, Leaving, Handle, AskedAlone, SameEvent, R.Contract, CameraInv, R.Listen, Reported;
    R.ListenKeeps(d.recorder, u.parse, chunk, closed);
    ListenReports(d.recorder, u.parse, chunk, closed);
    var news := Reported(d.recorder, R.Listen(d.recorder, u.parse, chunk, closed));
    Joined(d, news, Do(u, d, PipeReadable(chunk, closed)));
    Joins(d.pending, news);
  }

  lemma ReapKeeps(u: Setup, d: Device, chunk: string, closed: bool, clean: bool, f: R.Found)
    requires Sound(d) && Can(u, d, RecorderExits(chunk, closed, clean, f))
    ensures Sound(Do(u, d, RecorderExits(chunk, closed, clean, f)))
  {
    hide Orders, Overs, Leaving, Handle, AskedAlone, SameEvent, CameraInv, R.Listen, Reported;
    var r := d.recorder.(reaped := true);
    assert R.Contract(r);
    hide R.Contract;
    R.ListenKeeps(r, u.parse, chunk, closed);
    ListenReports(r, u.parse, chunk, closed);
    var news := Reported(d.recorder, R.Reap(d.recorder, u.parse, chunk, closed));
    assert news == Reported(r, R.Listen(r, u.parse, chunk, closed)) by {
      ReportedSame(d.recorder, r, R.Listen(r, u.parse, chunk, closed));
    }
    Joined(d, news, Do(u, d, RecorderExits(chunk, closed, clean, f)));
    Joins(d.pending, news);
  }

  lemma ReportedSame(r: R.Recorder, r1: R.Recorder, t: R.Recorder)
    requires r.said == r1.said
    ensures Reported(r, t) == Reported(r1, t)
  {}

  lemma TimerKeeps(u: Setup, d: Device)
    requires Sound(d) && Can(u, d, RecorderTimer)
    ensures Sound(Do(u, d, RecorderTimer))
  {
    hide Orders, Overs, Leaving, Handle, AskedAlone, SameEvent, R.Contract, CameraInv;
    R.StopKeeps(d.recorder);
    StillAlone(d, Do(u, d, RecorderTimer));
  }

  lemma CallExitKeeps(u: Setup, d: Device, exit: M.Exit, now: Time, spawns: bool, order: seq<PeerId>)
    requires Sound(d) && Can(u, d, CallExits(exit, now, spawns, order))
    ensures Sound(Do(u, d, CallExits(exit, now, spawns, order)))
  {
    hide Orders, Overs, Leaving, Handle, AskedAlone, SameEvent, R.Contract, CameraInv;
    NoOrders();
    M.ExitKeepsServing(d.media, exit, now, u.raceWindow, spawns);
    var turn := M.ChildExit(d.media, exit, now, u.raceWindow, spawns);
    hide M.ChildExit;
    assert turn.media.peers + {} == turn.media.peers && d.media.peers + {} == d.media.peers;
    StillAlone(d, Do(u, d, CallExits(exit, now, spawns, order)));
  }

  lemma ItsOwn(d: Device)
    requires SameEvent(d) && R.Busy(d.recorder)
    ensures IsFor(d.core.camera, d.recorder.id)
  {}

  lemma ConcludeReports(r: R.Recorder, clean: bool, f: R.Found)
    requires R.Contract(r) && r.reaped
    ensures var t := R.Conclude(r, clean, f); var news := Reported(r, t);
      && R.Contract(t) && R.Busy(r) && !R.Busy(t) && !t.reaped
      && Overs(news) == 1 && Leaving(news) == multiset{}
      && forall k :: 0 <= k < |news| ==> news[k].RecordingFinished? && news[k].id == r.id
  {
    R.ConcludeKeeps(r, clean, f);
    hide R.Contract;
    var news := Reported(r, R.Conclude(r, clean, f));
    assert news == [news[0]] && news[0].RecordingFinished?;
  }

  lemma ConcludeKeeps(u: Setup, d: Device)
    requires Sound(d) && Can(u, d, GoOn) && d.rest.RecorderLeft?
    ensures Sound(Do(u, d, GoOn))
  {
    hide Orders, Overs, Leaving, Handle, AskedAlone, SameEvent, CameraInv, R.Contract, R.Conclude, Reported;
    ConcludeReports(d.recorder, d.rest.clean, d.rest.found);
    ItsOwn(d);
    var news := Reported(d.recorder, R.Conclude(d.recorder, d.rest.clean, d.rest.found));
    Joined(d, news, Do(u, d, GoOn));
    Joins(d.pending, news);
    NoOrders();
  }

  lemma NextViewerKeeps(u: Setup, d: Device)
    requires Sound(d) && Can(u, d, GoOn) && d.rest.CallLeft?
    ensures Sound(Do(u, d, GoOn))
  {
    hide Orders, Overs, Leaving, Handle, AskedAlone, SameEvent, R.Contract, CameraInv;
    NoOrders();
    var t := Do(u, d, GoOn);
    if d.rest.left == [] {
      StillAlone(d, t);
    } else {
      Coming(t.pending[0]);
      OnlyOne(d, t, t.pending[0]);
      assert d.rest.left == [d.rest.left[0]] + d.rest.left[1..];
    }
  }

  lemma ArriveKeeps(u: Setup, d: Device, event: Event)
    requires Sound(d) && Can(u, d, Arrive(event))
    ensures Sound(Do(u, d, Arrive(event)))
  {
    hide Orders, Overs, Leaving, Handle, AskedAlone, SameEvent, R.Contract, CameraInv;
    NoOrders();
    Coming(event);
    OnlyOne(d, Do(u, d, Arrive(event)), event);
  }

  lemma MoveKeeps(u: Setup, d: Device, m: Move)
    requires Sound(d) && Can(u, d, m)
    ensures Sound(Do(u, d, m))
  {
    hide Sound, Do;
    match m
    case Arrive(event) => ArriveKeeps(u, d, event);
    case Decide(now, id) => DecideKeeps(u, d, now, id);
    case Send(answers) => SendKeeps(u, d, answers);
    case Record(launch, f) => RecordKeeps(u, d, launch, f);
    case CutRecording => CutKeeps(u, d);
    case Call(now, spawns, order) => CallKeeps(u, d, now, spawns, order);
    case EndCall => EndCallKeeps(u, d);
    case Show => ShowKeeps(u, d);
    case RecorderTimer => TimerKeeps(u, d);
    case PipeReadable(chunk, closed) => ListenKeeps(u, d, chunk, closed);
    case RecorderExits(chunk, closed, clean, f) => ReapKeeps(u, d, chunk, closed, clean, f);
    case CallExits(exit, now, spawns, order) => CallExitKeeps(u, d, exit, now, spawns, order);
    case GoOn => if d.rest.RecorderLeft? { ConcludeKeeps(u, d); } else { NextViewerKeeps(u, d); }
  }

  lemma {:induction false} MovesKeep(u: Setup, d: Device, moves: seq<Move>)
    requires Sound(d) && Possible(u, d, moves)
    ensures Sound(Reached(u, d, moves))
    decreases |moves|
  {
    hide Sound, Do, Can;
    if moves != [] {
      MoveKeeps(u, d, moves[0]);
      MovesKeep(u, Do(u, d, moves[0]), moves[1..]);
    }
  }

  // ---- The theorems: any number of moves from boot ----

  /** One camera: the recorder's child and the call's are never both there. */
  lemma CameraExclusion(u: Setup, moves: seq<Move>)
    requires Possible(u, Boot(u), moves)
    ensures var d := Reached(u, Boot(u), moves); !(d.recorder.child && d.media.child)
  {
    hide Reached, Possible, Orders;
    BootSound(u);
    MovesKeep(u, Boot(u), moves);
  }

  /** The recorder is never asked to start while it is busy, and the call never
      while a recording is ordered, running or unreported. */
  lemma OrdersFindRoom(u: Setup, moves: seq<Move>)
    requires Possible(u, Boot(u), moves)
    ensures var d := Reached(u, Boot(u), moves);
      d.todo != [] ==>
        && (d.todo[0].StartRecording? ==> !R.Busy(d.recorder) && !d.media.child)
        && (d.todo[0].StartCall? ==> !R.Busy(d.recorder) && Overs(d.pending) == 0)
  {
    hide Reached, Possible, Orders;
    BootSound(u);
    MovesKeep(u, Boot(u), moves);
    var d := Reached(u, Boot(u), moves);
    if d.todo != [] && d.todo[0].StartRecording? { StartFindsRest(d); }
    if d.todo != [] && d.todo[0].StartCall? { CallFindsRoom(d); }
  }

  /** At rest the core believes what is so: it counts a recording exactly while the
      recorder has a child, and those in the call as its viewers. */
  lemma TheCoreIsRight(u: Setup, moves: seq<Move>)
    requires Possible(u, Boot(u), moves)
    ensures var d := Reached(u, Boot(u), moves);
      Calm(d) ==>
        && (d.core.camera.recording != NotRecording <==> d.recorder.child)
        && (d.core.camera.recording == Stopping ==> d.recorder.phase == R.Flushing)
        && (!d.core.panel.shuttingDown ==>
              d.core.camera.viewers == d.media.peers && (d.media.child <==> d.core.camera.viewers != {}))
  {
    hide Reached, Possible, Orders;
    BootSound(u);
    MovesKeep(u, Boot(u), moves);
    NoOrders();
    var d := Reached(u, Boot(u), moves);
    if Calm(d) && !d.core.panel.shuttingDown {
      NobodyLeaves(d.core.camera.viewers, d.media.peers, {}, multiset{}, multiset{});
      SameWatchers(d.core.camera.viewers, d.media.peers);
    }
  }

  lemma SameWatchers(a: set<PeerId>, b: set<PeerId>)
    requires multiset(a) == multiset(b)
    ensures a == b
  {
    forall v ensures v in a <==> v in b { assert multiset(a)[v] == multiset(b)[v]; }
  }

  /** After a shutdown nothing is started, and what still runs was told to end. */
  lemma ShutdownWindsDown(u: Setup, moves: seq<Move>)
    requires Possible(u, Boot(u), moves)
    ensures var d := Reached(u, Boot(u), moves);
      Calm(d) && d.core.panel.shuttingDown ==>
        (d.media.child ==> d.media.stopping) && (d.recorder.child ==> d.recorder.phase == R.Flushing)
  {
    hide Reached, Possible, Orders;
    BootSound(u);
    MovesKeep(u, Boot(u), moves);
    NoOrders();
  }
}

/** Everything proved of the core's runs holds of the core inside the device, and
    there its recorder is as honest as those proofs ask. */
module DeviceRuns {
  import opened Types
  import opened CoreRules
  import opened DeviceRules
  import opened DeviceSafety
  import D = CoreDiscards

  /** The events the core handled, in order, each with its time and id. */
  ghost function Decisions(u: Setup, d: Device, moves: seq<Move>): seq<Input>
    requires Possible(u, d, moves)
    decreases |moves|
  {
    if moves == [] then []
    else
      var m := moves[0];
      (if m.Decide? then [Input(d.pending[0], m.now, m.id)] else []) + Decisions(u, Do(u, d, m), moves[1..])
  }

  lemma RunOn(p: Policy, before: seq<Input>, i: Input)
    requires D.HonestRecorder(p, before) && !D.Stray(Run(p, before), i.event)
    ensures Run(p, before + [i]) == Handle(p, Run(p, before), i)
    ensures D.HonestRecorder(p, before + [i])
  {
    hide Handle, D.Stray;
    var all := before + [i];
    assert all[..|before|] == before;
    forall n | 0 <= n < |all| ensures !D.Stray(Run(p, all[..n]), all[n].event) {
      if n < |before| { assert all[..n] == before[..n]; }
    }
  }

  lemma OnlyDecisions(u: Setup, d: Device, m: Move)
    requires Can(u, d, m)
    ensures m.Decide? ==> Do(u, d, m).core == Handle(u.policy, d.core, Input(d.pending[0], m.now, m.id))
    ensures !m.Decide? ==> Do(u, d, m).core == d.core
  {}

  lemma AlwaysHonest(d: Device)
    requires Sound(d) && d.pending != []
    ensures !D.Stray(d.core, d.pending[0])
  {
    assert Names(d.core.camera, d.pending[0]);
  }

  lemma {:induction false} TheCoreRuns(u: Setup, d: Device, moves: seq<Move>, before: seq<Input>)
    requires Sound(d) && Possible(u, d, moves)
    requires d.core == Run(u.policy, before) && D.HonestRecorder(u.policy, before)
    ensures Reached(u, d, moves).core == Run(u.policy, before + Decisions(u, d, moves))
    ensures D.HonestRecorder(u.policy, before + Decisions(u, d, moves))
    decreases |moves|
  {
    hide Sound, Do, Can, Handle, Run, D.HonestRecorder, D.Stray;
    if moves == [] {
      assert before + [] == before;
    } else {
      var m := moves[0];
      var t := Do(u, d, m);
      MoveKeeps(u, d, m);
      OnlyDecisions(u, d, m);
      var rest := Decisions(u, t, moves[1..]);
      if m.Decide? {
        CanDecide(u, d, m);
        var i := Input(d.pending[0], m.now, m.id);
        AlwaysHonest(d);
        RunOn(u.policy, before, i);
        TheCoreRuns(u, t, moves[1..], before + [i]);
        assert (before + [i]) + rest == before + ([i] + rest);
      } else {
        TheCoreRuns(u, t, moves[1..], before);
        assert [] + rest == rest;
      }
    }
  }

  lemma CanDecide(u: Setup, d: Device, m: Move)
    requires Can(u, d, m) && m.Decide?
    ensures d.pending != []
  {}

  /** The core in the device is the core of its decisions, and no recording is ever
      reported under another event's id. */
  lemma DeviceIsARun(u: Setup, moves: seq<Move>)
    requires Possible(u, Boot(u), moves)
    ensures Reached(u, Boot(u), moves).core == Run(u.policy, Decisions(u, Boot(u), moves))
    ensures D.HonestRecorder(u.policy, Decisions(u, Boot(u), moves))
  {
    hide Possible, Reached, Decisions;
    BootSound(u);
    assert Boot(u).core == Run(u.policy, []);
    TheCoreRuns(u, Boot(u), moves, []);
    assert [] + Decisions(u, Boot(u), moves) == Decisions(u, Boot(u), moves);
  }

  /** So in the device a spooled clip was announced by DiscardClip exactly when it
      was evicted, with nothing assumed of the recorder. */
  lemma ClipsAreAccountedFor(u: Setup, moves: seq<Move>, c: Clip)
    requires Possible(u, Boot(u), moves) && Legal(Decisions(u, Boot(u), moves))
    requires c in Reached(u, Boot(u), moves).core.spool.history.accepted
    ensures var t := Reached(u, Boot(u), moves).core;
      D.Discarded(t.log.trace, c.id) <==> c in t.spool.history.evicted
  {
    hide Possible, Reached, Decisions, Run;
    DeviceIsARun(u, moves);
    D.DiscardedIffEvicted(u.policy, Decisions(u, Boot(u), moves), c);
  }
}
