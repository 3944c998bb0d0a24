/** What becomes of a request to watch: a call at once, or the call that follows the
    recording it cut short, unless it was replaced or withdrawn meanwhile. */
module CoreViewers {
  import opened Types
  import opened CoreRules
  import opened CoreRuns
  import O = CoreOrders
  import L = CoreLight

  /** One event's effect on who is kept waiting; recorded is whether a recording was
      there when it came. */
  function KeptNext(before: Option<PeerId>, recorded: bool, shut: bool, e: Event): Option<PeerId> {
    match e
    case ViewerRequested(peer) => if !shut && recorded then Some(peer) else before
    case CallEnded(peer, _) => if before == Some(peer) then None else before
    case RecordingFinished(_, _, _, _, _) => None
    case Shutdown => None
    case _ => before
  }

  /** The viewer kept waiting after a run: the last to ask while the present recording
      was there, if not since gone, and if the recording has not ended. */
  function KeptWaiting(p: Policy, inputs: seq<Input>): Option<PeerId>
    decreases |inputs|
  {
    if inputs == [] then None
    else
      var n := |inputs| - 1;
      KeptNext(KeptWaiting(p, inputs[..n]), Run(p, inputs[..n]).camera.recording != NotRecording,
               L.ShutDown(inputs[..n]), inputs[n].event)
  }

  lemma SensorKeepsWaiting(p: Policy, s: State, i: Input)
    requires FromSensor(i.event)
    ensures Dispatch(p, s, i).camera.deferredCall == s.camera.deferredCall
  {
    hide Pumped, NextAlert;
  }

  lemma RecorderKeepsWaiting(p: Policy, s: State, i: Input)
    requires FromRecorder(i.event)
    ensures Dispatch(p, s, i).camera.deferredCall
         == KeptNext(s.camera.deferredCall, s.camera.recording != NotRecording, s.panel.shuttingDown, i.event)
  {
    hide Pumped, NextAlert, Overflow;
  }

  lemma OtherKeepsWaiting(p: Policy, s: State, i: Input)
    requires !FromSensor(i.event) && !FromRecorder(i.event)
    ensures Dispatch(p, s, i).camera.deferredCall
         == KeptNext(s.camera.deferredCall, s.camera.recording != NotRecording, s.panel.shuttingDown, i.event)
  {}

  lemma HandleKeepsWaiting(p: Policy, s: State, i: Input)
    ensures Handle(p, s, i).camera.deferredCall
         == KeptNext(s.camera.deferredCall, s.camera.recording != NotRecording, s.panel.shuttingDown, i.event)
  {
    hide Dispatch, Close;
    var s1 := Lapse(s, i.now);
    if FromSensor(i.event) { SensorKeepsWaiting(p, s1, i); }
    else if FromRecorder(i.event) { RecorderKeepsWaiting(p, s1, i); }
    else { OtherKeepsWaiting(p, s1, i); }
    Closing(p, Dispatch(p, s1, i), i.now);
  }

  /** The kept call of every run is that viewer's. */
  lemma {:induction false} TheKeptCall(p: Policy, inputs: seq<Input>)
    ensures Run(p, inputs).camera.deferredCall == KeptWaiting(p, inputs)
    decreases |inputs|
  {
    if inputs != [] {
      hide Handle, L.ShutDown, KeptNext;
      var n := |inputs| - 1;
      TheKeptCall(p, inputs[..n]);
      L.PanelRun(p, inputs[..n]);
      HandleKeepsWaiting(p, Run(p, inputs[..n]), inputs[n]);
    }
  }

  /** Nothing in between ends the recording, replaces the request or withdraws it. */
  ghost predicate Undisturbed(inputs: seq<Input>, k: nat, m: nat, peer: PeerId) {
    forall j :: k < j < m < |inputs| ==>
      var e := inputs[j].event;
      !e.RecordingFinished? && !e.ViewerRequested? && !e.Shutdown? && !(e.CallEnded? && e.peer == peer)
  }

  lemma {:induction false} StillWaiting(p: Policy, inputs: seq<Input>, k: nat, m: nat, peer: PeerId)
    requires k < m < |inputs| && inputs[k].event == ViewerRequested(peer) && !L.ShutDown(inputs[..k])
    requires Run(p, inputs[..k]).camera.recording != NotRecording && Undisturbed(inputs, k, m, peer)
    ensures KeptWaiting(p, inputs[..m]) == Some(peer)
    decreases m
  {
    hide Run, L.ShutDown;
    assert inputs[..m][..m - 1] == inputs[..m - 1] && inputs[..m][m - 1] == inputs[m - 1];
    if m - 1 > k {
      StillWaiting(p, inputs, k, m - 1, peer);
    }
  }

  lemma RunSplits(p: Policy, inputs: seq<Input>, k: nat)
    requires k < |inputs|
    ensures Run(p, inputs[..k + 1]) == Handle(p, Run(p, inputs[..k]), inputs[k])
  {
    hide Handle;
    assert inputs[..k + 1][..k] == inputs[..k] && inputs[..k + 1][k] == inputs[k];
  }

  /** What event k of a run added to the trace. */
  function ActionsAt(p: Policy, inputs: seq<Input>, k: nat): seq<Action>
    requires k < |inputs|
  {
    NewActions(Run(p, inputs[..k]), Run(p, inputs[..k + 1]))
  }

  lemma DialIsCall(p: Policy, inputs: seq<Input>, k: nat, peer: PeerId)
    requires k < |inputs|
    ensures var s := Run(p, inputs[..k]); var t := Run(p, inputs[..k + 1]); var e := inputs[k].event;
      O.Dial(peer) in O.Dials(s.camera, e, s.panel.shuttingDown) <==> StartCall(peer) in ActionsAt(p, inputs, k)
  {
    hide Run, Handle, O.Orders, NewActions, O.Wanted;
    var s, i := Run(p, inputs[..k]), inputs[k];
    RunSplits(p, inputs, k);
    O.NewOrders(p, s, i);
    var t := Run(p, inputs[..k + 1]);
    var news := NewActions(s, t);
    O.OrdersShow(news, O.Dial(peer));
    if StartCall(peer) in news {
      var j :| 0 <= j < |news| && news[j] == StartCall(peer);
      assert O.OrderOf(news[j]) == [O.Dial(peer)];
    }
    DialIsWanted(p, s.camera, t.camera, i.event, s.panel.shuttingDown, peer);
  }

  lemma DialIsWanted(p: Policy, c: Camera, d: Camera, e: Event, shut: bool, peer: PeerId)
    ensures O.Dial(peer) in O.Wanted(p, c, d, e, shut) <==> O.Dial(peer) in O.Dials(c, e, shut)
  {}

  /** A request with the camera free is a call in its own handling. */
  lemma AskedWhileFree(p: Policy, inputs: seq<Input>, k: nat, peer: PeerId)
    requires k < |inputs| && inputs[k].event == ViewerRequested(peer) && !L.ShutDown(inputs[..k])
    requires Run(p, inputs[..k]).camera.recording == NotRecording
    ensures StartCall(peer) in ActionsAt(p, inputs, k) && peer in Run(p, inputs[..k + 1]).camera.viewers
  {
    hide Run, Handle, ActionsAt, L.ShutDown;
    L.PanelRun(p, inputs[..k]);
    DialIsCall(p, inputs, k, peer);
    RunSplits(p, inputs, k);
    O.HandleOrders(p, Run(p, inputs[..k]), inputs[k]);
    assert O.Dial(peer) in O.Dials(Run(p, inputs[..k]).camera, inputs[k].event, false);
  }

  /** One that finds a recording cuts it short, and is the call its end starts, unless
      another came after it, it was withdrawn, or the device was told to stop. */
  lemma AskedWhileRecording(p: Policy, inputs: seq<Input>, k: nat, m: nat, peer: PeerId)
    requires k < |inputs| && inputs[k].event == ViewerRequested(peer) && !L.ShutDown(inputs[..k])
    requires Run(p, inputs[..k]).camera.recording != NotRecording
    ensures Run(p, inputs[..k + 1]).camera.recording == Stopping
    ensures k < m < |inputs| && inputs[m].event.RecordingFinished? && Undisturbed(inputs, k, m, peer) ==>
      StartCall(peer) in ActionsAt(p, inputs, m) && peer in Run(p, inputs[..m + 1]).camera.viewers
  {
    hide Run, Handle, ActionsAt, L.ShutDown, KeptWaiting, Undisturbed;
    L.PanelRun(p, inputs[..k]);
    CameraRun(p, inputs[..k]);
    RunSplits(p, inputs, k);
    O.HandleOrders(p, Run(p, inputs[..k]), inputs[k]);
    if k < m < |inputs| && inputs[m].event.RecordingFinished? && Undisturbed(inputs, k, m, peer) {
      StillWaiting(p, inputs, k, m, peer);
      TheKeptCall(p, inputs[..m]);
      DialIsCall(p, inputs, m, peer);
      RunSplits(p, inputs, m);
      O.HandleOrders(p, Run(p, inputs[..m]), inputs[m]);
      assert O.Dial(peer) in O.Dials(Run(p, inputs[..m]).camera, inputs[m].event, Run(p, inputs[..m]).panel.shuttingDown);
    }
  }

  /** And nobody is called who did not ask: a call is the answer to this very request,
      or the end of the recording that viewer was kept waiting for. */
  lemma OnlyTheAskedAreCalled(p: Policy, inputs: seq<Input>, m: nat, peer: PeerId)
    requires m < |inputs| && StartCall(peer) in ActionsAt(p, inputs, m)
    ensures inputs[m].event == ViewerRequested(peer)
      || (inputs[m].event.RecordingFinished? && KeptWaiting(p, inputs[..m]) == Some(peer))
  {
    hide Run, ActionsAt, KeptWaiting;
    DialIsCall(p, inputs, m, peer);
    TheKeptCall(p, inputs[..m]);
  }
}
