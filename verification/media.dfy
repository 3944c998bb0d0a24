/** The call: one child process for every viewer at once, and who it owes an end to
    (porchlightd/src/io/script_media.cpp). */
module MediaRules {
  import opened Types

  datatype Media = Media(
    peers: set<PeerId>,
    child: bool,        // pid_ > 0
    stopping: bool,
    requestedAt: Time)

  datatype Exit = Clean | Misconfigured | Badly

  /** A call or an exit, and the viewers it ends for. */
  datatype Turn = Turn(media: Media, ending: set<PeerId>)

  function NoCall(): Media { Media({}, false, false, 0) }

  function EndForEveryone(m: Media): Turn { Turn(m.(peers := {}), m.peers) }

  function StartCall(m: Media, peer: PeerId, now: Time, spawns: bool): Turn {
    var asked := m.(peers := m.peers + {peer}, requestedAt := now);
    if m.stopping || m.child then Turn(asked, {})
    else if spawns then Turn(asked.(child := true), {})
    else EndForEveryone(asked)
  }

  function StopCall(m: Media): Media {
    if !m.child || m.stopping then m else m.(stopping := true)
  }

  /** The exit was not asked for and the latest request is younger than the window. */
  predicate Raced(m: Media, exit: Exit, now: Time, raceWindow: nat) {
    && !m.stopping && exit != Misconfigured
    && m.peers != {} && now - m.requestedAt < raceWindow
  }

  function ChildExit(m: Media, exit: Exit, now: Time, raceWindow: nat, spawns: bool): Turn {
    if Raced(m, exit, now, raceWindow) && spawns then Turn(m, {})
    else EndForEveryone(m.(child := false, stopping := false))
  }

  /** The process runs exactly while somebody is owed an end. */
  predicate Serves(m: Media) {
    (m.child <==> m.peers != {}) && (m.stopping ==> m.child)
  }

  /** order names each of them once. */
  ghost predicate Enumerates(order: seq<PeerId>, peers: set<PeerId>) {
    multiset(order) == multiset(peers)
  }

  function Endings(order: seq<PeerId>, reason: string): (r: seq<Event>)
    ensures |r| == |order|
  {
    seq(|order|, k requires 0 <= k < |order| => CallEnded(order[k], reason))
  }

  lemma CallKeepsServing(m: Media, peer: PeerId, now: Time, spawns: bool)
    requires Serves(m)
    ensures var t := StartCall(m, peer, now, spawns);
      && Serves(t.media)
      && multiset(t.media.peers) + multiset(t.ending) == multiset(m.peers + {peer})
      && t.ending <= {peer}
  {
    assert !m.child && !m.stopping ==> m.peers + {peer} == {peer};
  }

  lemma ExitKeepsServing(m: Media, exit: Exit, now: Time, raceWindow: nat, spawns: bool)
    requires Serves(m) && m.child
    ensures var t := ChildExit(m, exit, now, raceWindow, spawns);
      && Serves(t.media)
      && multiset(t.media.peers) + multiset(t.ending) == multiset(m.peers)
      && (m.stopping ==> !t.media.child && t.ending == m.peers)
  {}
}

/** What a request and an exit come to, over everything that happened before. */
module MediaRuns {
  import opened Types
  import opened MediaRules

  datatype Input =
    | Asked(peer: PeerId, now: Time, spawns: bool)
    | ToldToStop
    | Exits(exit: Exit, now: Time, spawns: bool)

  /** Only a process that runs can exit. */
  function Next(m: Media, i: Input, raceWindow: nat): Turn {
    match i
    case Asked(peer, now, spawns) => MediaRules.StartCall(m, peer, now, spawns)
    case ToldToStop => Turn(MediaRules.StopCall(m), {})
    case Exits(exit, now, spawns) => if m.child then ChildExit(m, exit, now, raceWindow, spawns) else Turn(m, {})
  }

  function Run(inputs: seq<Input>, raceWindow: nat): Media
    decreases |inputs|
  {
    if inputs == [] then NoCall()
    else Next(Run(inputs[..|inputs| - 1], raceWindow), inputs[|inputs| - 1], raceWindow).media
  }

  /** When a viewer last asked. */
  function LastAsked(inputs: seq<Input>): Time
    decreases |inputs|
  {
    if inputs == [] then 0
    else
      var last := inputs[|inputs| - 1];
      if last.Asked? then last.now else LastAsked(inputs[..|inputs| - 1])
  }

  /** The process that is running has been asked to end. */
  predicate AskedToEnd(inputs: seq<Input>, raceWindow: nat)
    decreases |inputs|
  {
    inputs != [] &&
    var before := inputs[..|inputs| - 1];
    match inputs[|inputs| - 1]
    case ToldToStop => Run(before, raceWindow).child || AskedToEnd(before, raceWindow)
    case Exits(_, _, _) => AskedToEnd(before, raceWindow) && !Run(before, raceWindow).child
    case Asked(_, _, _) => AskedToEnd(before, raceWindow)
  }

  lemma {:induction false} MediaRun(inputs: seq<Input>, raceWindow: nat)
    ensures var m := Run(inputs, raceWindow);
      Serves(m) && m.requestedAt == LastAsked(inputs) && m.stopping == AskedToEnd(inputs, raceWindow)
    decreases |inputs|
  {
    if inputs != [] {
      var before := inputs[..|inputs| - 1];
      MediaRun(before, raceWindow);
      match inputs[|inputs| - 1]
      case Asked(peer, now, spawns) => CallKeepsServing(Run(before, raceWindow), peer, now, spawns);
      case ToldToStop =>
      case Exits(exit, now, spawns) =>
        if Run(before, raceWindow).child { ExitKeepsServing(Run(before, raceWindow), exit, now, raceWindow, spawns); }
    }
  }

  /** A request joins the process that runs, starts one where none does, and is told at
      once that it ended only when that fails. */
  lemma RequestIsServed(inputs: seq<Input>, raceWindow: nat, peer: PeerId, now: Time, spawns: bool)
    ensures var m := Run(inputs, raceWindow); var t := Next(m, Asked(peer, now, spawns), raceWindow);
      && (t.media.child <==> m.child || spawns)
      && (t.media.child ==> t.media.peers == m.peers + {peer} && t.ending == {})
      && (!t.media.child ==> t.media.peers == {} && t.ending == {peer})
      && (m.child ==> t.media.stopping == m.stopping)
  {
    MediaRun(inputs, raceWindow);
    var m := Run(inputs, raceWindow);
    assert m.peers == {} ==> m.peers + {peer} == {peer};
  }

  /** An exit starts the process again, for everybody at once, exactly when nobody asked
      it to end, it was no misconfiguration, somebody asked for the call within the
      window, and it can be started; in every other case it ends for everybody. */
  lemma ExitRestartsIff(inputs: seq<Input>, raceWindow: nat, exit: Exit, now: Time, spawns: bool)
    requires Run(inputs, raceWindow).child
    ensures var m := Run(inputs, raceWindow); var t := Next(m, Exits(exit, now, spawns), raceWindow);
      && !t.media.stopping
      && if !AskedToEnd(inputs, raceWindow) && !exit.Misconfigured? && now < LastAsked(inputs) + raceWindow && spawns then
           t.media.child && t.media.peers == m.peers && t.ending == {}
         else
           !t.media.child && t.media.peers == {} && t.ending == m.peers
  {
    MediaRun(inputs, raceWindow);
  }
}

module Medias {
  import opened Types
  import opened MediaRules

  /** ScriptMedia. Whether a process could be started and how it ended are
      arguments; the sink is the list of what was told. */
  class ScriptMedia {
    const raceWindow: nat
    var peers: set<PeerId>
    var child: bool
    var stopping: bool
    var requestedAt: Time
    var told: seq<Event>

    ghost function View(): Media reads this { Media(peers, child, stopping, requestedAt) }

    /** One CallEnded for each of them and nothing else, in some order. */
    ghost predicate ToldSince(before: seq<Event>, ending: set<PeerId>, reason: string)
      reads this
    {
      exists order :: Enumerates(order, ending) && told == before + Endings(order, reason)
    }

    constructor (raceWindow: nat)
      ensures View() == NoCall() && Serves(View()) && told == [] && this.raceWindow == raceWindow
    {
      this.raceWindow := raceWindow;
      peers, child, stopping, requestedAt, told := {}, false, false, 0, [];
    }

    method StartCall(peer: PeerId, now: Time, spawns: bool)
      modifies this
      ensures var t := MediaRules.StartCall(old(View()), peer, now, spawns);
        View() == t.media && ToldSince(old(told), t.ending, "could not be started")
    {
      peers := peers + {peer};
      requestedAt := now;
      NobodyTold("could not be started");
      if stopping {
        return;
      }
      if child {
        return;
      }
      if spawns {
        child := true;
      } else {
        EndForEveryone("could not be started");
      }
    }

    method StopCall()
      modifies this`stopping
      ensures View() == MediaRules.StopCall(old(View()))
    {
      if !child || stopping {
        return;
      }
      stopping := true;
    }

    method OnChildExit(exit: Exit, now: Time, spawns: bool)
      modifies this
      ensures var t := MediaRules.ChildExit(old(View()), exit, now, raceWindow, spawns);
        old(child) ==>
          View() == t.media && ToldSince(old(told), t.ending, if exit == Clean then "ended" else "failed")
    {
      var reason := if exit == Clean then "ended" else "failed";
      child := false;
      var askedToStop := stopping;
      stopping := false;
      NobodyTold(reason);
      if !askedToStop && exit != Misconfigured && peers != {} && now - requestedAt < raceWindow {
        if spawns {
          child := true;
          return;
        }
      }
      EndForEveryone(reason);
    }

    lemma NobodyTold(reason: string)
      ensures ToldSince(told, {}, reason)
    {
      assert Enumerates([], {}) && told == told + Endings([], reason);
    }

    /** Forgets everybody, then tells each of them. */
    method EndForEveryone(reason: string)
      modifies this`peers, this`told
      ensures peers == {} && ToldSince(old(told), old(peers), reason)
    {
      var ending := peers;
      peers := {};
      ghost var order: seq<PeerId> := [];
      while ending != {}
        invariant peers == {}
        invariant multiset(order) + multiset(ending) == multiset(old(peers))
        invariant told == old(told) + Endings(order, reason)
        decreases |ending|
      {
        var peer :| peer in ending;
        assert Endings(order + [peer], reason) == Endings(order, reason) + [CallEnded(peer, reason)];
        ending := ending - {peer};
        order := order + [peer];
        told := told + [CallEnded(peer, reason)];
      }
      assert Enumerates(order, old(peers));
    }
  }
}
