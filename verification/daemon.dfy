/** Where every event enters: queued first, handled one at a time, each core step's
    actions carried out before the next (porchlightd/src/daemon.cpp). Any action the
    backends answer may be answered at once, with a failure, from inside itself. */
module Daemons {
  import opened Types
  import opened Cores
  import R = CoreRules
  import D = DrainRules
  import L = CoreLight
  import S = CoreActions

  function Events(inputs: seq<R.Input>): (r: seq<Event>)
    ensures |r| == |inputs|
  {
    seq(|inputs|, k requires 0 <= k < |inputs| => inputs[k].event)
  }

  /** Named so that what is said of a sequence is only looked at when it is asked for. */
  predicate AreThese(a: seq<R.Input>, b: seq<R.Input>) { a == b }

  /** The event with which a backend turns that action down on the spot. */
  predicate TurnsDown(e: Event, a: Action) {
    match a
    case SendAlert(alert) => e == AlertResult(alert.id, alert.kind, Failed)
    case StartRecording(id, _, _, _) => e.RecordingFinished? && e.id == id && !e.ok
    case UploadClip(clip) => e == UploadFinished(clip.id, false)
    case StartCall(peer) => e.CallEnded? && e.peer == peer
    case _ => false
  }

  lemma ShutdownWaits(before: seq<Event>, after: seq<Event>)
    requires before != [] && before[1..] <= after
    ensures Event.Shutdown in before ==> before[0].Shutdown? || Event.Shutdown in after
  {
    assert forall k :: 1 <= k < |before| ==> before[k] == before[1..][k - 1] == after[k - 1];
  }

  /** A core that has been told to stop, or is being told, starts no recording. */
  lemma StopsRecording(p: Policy, inputs: seq<R.Input>, i: R.Input, actions: seq<Action>)
    requires R.Run(p, inputs).panel.shuttingDown || i.event.Shutdown?
    requires R.Handle(p, R.Run(p, inputs), i).log.trace == R.Run(p, inputs).log.trace + actions
    ensures forall k :: 0 <= k < |actions| ==> !actions[k].StartRecording?
  {
    hide R.Run, R.Handle;
    S.NothingUncalledFor(p, inputs, i);
    var n := |R.Run(p, inputs).log.trace|;
    assert forall k :: 0 <= k < |actions| ==> R.Handle(p, R.Run(p, inputs), i).log.trace[n + k] == actions[k];
  }

  lemma RunOn(p: Policy, inputs: seq<R.Input>, i: R.Input)
    ensures R.Run(p, inputs + [i]) == R.Handle(p, R.Run(p, inputs), i)
    ensures Events(inputs + [i]) == Events(inputs) + [i.event]
    ensures R.Run(p, inputs + [i]).panel.shuttingDown == (R.Run(p, inputs).panel.shuttingDown || i.event.Shutdown?)
  {
    hide R.Handle;
    assert (inputs + [i])[..|inputs|] == inputs;
    L.HandlePanel(p, R.Run(p, inputs), i);
  }

  class Daemon {
    const core: Core
    var pending: seq<Event>
    var draining: bool
    var stopping: bool
    var reactorStopped: bool
    var wakeAt: Option<Time>
    var recorderBusy: bool  // what the recorder says when it is asked

    // History: events as delivered, events as handled and when, actions as carried out.
    ghost var delivered: seq<Event>
    ghost var handled: seq<R.Input>
    ghost var done: seq<Action>

    ghost function Parts(): set<object> { {this} + core.Parts() }

    ghost predicate Valid()
      reads this, core, core.alerts, core.alerts.backoff, core.uploadBackoff
    {
      && this !in core.Parts()
      && core.Valid() && ValidPolicy(core.policy)
      && delivered == Events(handled) + pending
      && (forall inputs {:trigger AreThese(inputs, handled)} :: AreThese(inputs, handled) ==>
            core.View() == R.Run(core.policy, inputs))
      && (!draining ==> AtRest())
    }

    /** The daemon is the core's run over the events it handled, so that whatever is
        proved of runs holds here. */
    lemma IsARun()
      requires Valid()
      ensures core.View() == R.Run(core.policy, handled)
    {
      hide R.Run;
      assert AreThese(handled, handled);
    }

    /** Between two events: every action the core ever asked for has been carried out,
        in that order, and the core knows it is to stop when the daemon does. */
    ghost predicate AtRest()
      reads this, core, core.alerts, core.alerts.backoff, core.uploadBackoff
    {
      done == core.View().log.trace && stopping == core.View().panel.shuttingDown
    }

    constructor (policy: Policy)
      requires ValidPolicy(policy)
      ensures Valid() && pending == [] && !draining && !stopping && !reactorStopped
      ensures delivered == [] && core.View() == R.Init(policy) && core.policy == policy
    {
      var decisions := new Core(policy);
      core := decisions;
      pending, draining, stopping, reactorStopped, wakeAt := [], false, false, false, None;
      recorderBusy := false;
      delivered, handled, done := [], [], [];
    }

    /** What the events waiting can still lead to before that time. */
    ghost function Ahead(until: Time): nat
      reads this, core, core.alerts, core.alerts.backoff, core.uploadBackoff
    {
      D.Weights(pending) + D.Tokens(core.View(), until)
    }

    /** After a drain: the loop has been stopped, or the timer set. */
    ghost predicate Parked(stopped: bool)
      reads this, core, core.alerts, core.alerts.backoff, core.uploadBackoff
    {
      && reactorStopped == (stopped || (stopping && !recorderBusy))
      && (!(stopping && !recorderBusy) ==> wakeAt == R.NextDeadline(core.policy, core.View()))
    }

    /** From outside, the queue is empty again on return, everything the core asked
        for has been carried out, and boundedly many core steps were taken, at times
        from now to until; from inside an action, the event only joins the queue. */
    method Deliver(event: Event, now: Time, until: Time)
      requires Valid() && D.Within(core.policy, now, until)
      modifies Parts()
      ensures Valid() && draining == old(draining)
      ensures old(draining) ==> unchanged(core.Parts()) && handled == old(handled) && pending == old(pending) + [event]
      ensures old(draining) ==>
        && delivered == old(delivered) + [event] && stopping == old(stopping) && reactorStopped == old(reactorStopped)
        && done == old(done) && recorderBusy == old(recorderBusy)
        && D.Weights(pending) == old(D.Weights(pending)) + D.Weight(event)
      ensures !old(draining) ==>
        && pending == []
        && old(handled) <= handled && old(delivered) + [event] <= delivered == Events(handled)
        && done == core.View().log.trace
        && |handled| <= |old(handled)| + old(Ahead(until)) + D.Weight(event)
        && (old(stopping) || event.Shutdown? ==> stopping)
        && Parked(old(reactorStopped))
      // Once it is stopping no recording starts, so the recorder can only come to rest.
      ensures old(stopping) || (old(pending) == [] && event.Shutdown?) ==> recorderBusy == old(recorderBusy)
      // Nothing was waiting: at most five core steps, whatever fails.
      ensures !old(draining) && old(pending) == [] ==> |handled| <= |old(handled)| + 5
      decreases if draining then 1 else 5
    {
      hide R.Run, R.NextDeadline;
      D.WeightsSplit(pending, [event]);
      pending := pending + [event];
      delivered := delivered + [event];
      D.WeightOfOne(event);
      assert Ahead(until) == old(Ahead(until)) + D.Weight(event);
      Drain(now, until);
    }

    /** The recorder reports an end once it is at rest itself; a daemon that only
        waited for that stops. */
    method RecorderEnds(event: Event, now: Time, until: Time)
      requires Valid() && D.Within(core.policy, now, until) && event.RecordingFinished? && !draining
      modifies Parts()
      ensures Valid() && !draining && pending == [] && done == core.View().log.trace
      ensures old(stopping) ==> stopping && reactorStopped
    {
      hide R.Run, D.Tokens, D.Weights, R.NextDeadline, Events;
      recorderBusy := false;
      Deliver(event, now, until);
    }

    /** A later reading of the clock is never an earlier time. */
    static method ReadClock(last: Time, until: Time) returns (now: Time)
      requires last <= until
      ensures last <= now <= until
    {
      now :| last <= now <= until;
    }

    method Drain(now: Time, until: Time)
      requires Valid() && D.Within(core.policy, now, until)
      modifies Parts()
      ensures Valid() && draining == old(draining)
      ensures old(draining) ==> unchanged(Parts())
      ensures !old(draining) ==>
        && pending == []
        && old(handled) <= handled && old(delivered) <= delivered == Events(handled)
        && done == core.View().log.trace
        && |handled| <= |old(handled)| + old(Ahead(until))
        && (old(stopping) ==> stopping)
        && (Event.Shutdown in old(pending) ==> stopping)
        && Parked(old(reactorStopped))
      ensures old(stopping) || (old(pending) != [] && old(pending)[0].Shutdown?) ==> recorderBusy == old(recorderBusy)
      decreases if draining then 0 else 4
    {
      hide R.Run, R.NextDeadline, D.Tokens, D.Weights, Events, Core.View, Core.Valid;
      if draining {
        return;
      }
      draining := true;
      RunDry(now, until);
      draining := false;

      if stopping && !recorderBusy {
        reactorStopped := true;
        return;
      }
      wakeAt := core.NextDeadline();
    }

    /** The loop of Drain. */
    method RunDry(now: Time, until: Time)
      requires Valid() && AtRest() && draining && D.Within(core.policy, now, until)
      modifies Parts()
      ensures Valid() && AtRest() && draining && pending == []
      ensures old(handled) <= handled && old(delivered) <= delivered
      ensures |handled| <= |old(handled)| + old(Ahead(until))
      ensures reactorStopped == old(reactorStopped)
      ensures old(stopping) || Event.Shutdown in old(pending) ==> stopping
      ensures old(stopping) || (old(pending) != [] && old(pending)[0].Shutdown?) ==> recorderBusy == old(recorderBusy)
      decreases 3
    {
      hide R.Run, R.NextDeadline, D.Tokens, D.Weights, Events;
      ghost var busy, ending := recorderBusy, stopping || (pending != [] && pending[0].Shutdown?);
      var clock := now;
      while pending != []
        invariant Valid() && AtRest() && draining && now <= clock <= until
        invariant old(delivered) <= delivered && old(handled) <= handled
        invariant |handled| + Ahead(until) <= |old(handled)| + old(Ahead(until))
        invariant old(stopping) || Event.Shutdown in old(pending) ==> stopping || Event.Shutdown in pending
        invariant reactorStopped == old(reactorStopped)
        invariant ending ==> recorderBusy == busy && (stopping || (pending != [] && pending[0].Shutdown?))
        decreases Ahead(until)
      {
        ghost var waiting := pending;
        var event := pending[0];
        clock := ReadClock(clock, until);
        Step(event, clock, until);
        ShutdownWaits(waiting, pending);
      }
    }

    /** One turn of the loop: the front event, and its actions in order. */
    method Step(event: Event, now: Time, until: Time)
      requires Valid() && AtRest() && draining && D.Within(core.policy, now, until)
      requires pending != [] && event == pending[0]
      modifies Parts()
      ensures Valid() && AtRest() && draining && reactorStopped == old(reactorStopped)
      ensures |handled| == |old(handled)| + 1 && old(handled) <= handled
      ensures handled[|old(handled)|].event == event && handled[|old(handled)|].now == now
      ensures old(delivered) <= delivered && old(pending)[1..] <= pending
      ensures Ahead(until) + 1 <= old(Ahead(until))
      ensures stopping == (old(stopping) || event.Shutdown?)
      ensures stopping ==> recorderBusy == old(recorderBusy)
      decreases 2, 2
    {
      hide R.Handle, R.Run, D.Load, D.Tokens, D.Weights, D.Weight, Events;
      IsARun();
      pending := pending[1..];
      if event.Shutdown? {
        stopping := true;
      }
      var id: EventId := *;
      ghost var before, input := core.View(), R.Input(event, now, id);
      var actions := core.Handle(event, now, id);
      RunOn(core.policy, handled, input);
      D.PacedRun(core.policy, handled);
      D.StepCosts(core.policy, before, input, actions, until);
      if stopping { StopsRecording(core.policy, handled, input, actions); }
      handled := handled + [input];
      assert Events(handled) + pending == delivered;

      D.WeightsSplit([event], pending);
      assert old(pending) == [event] + pending;
      D.WeightOfOne(event);
      CarryOut(actions, now, until);
    }

    /** Every action is carried out, once and in order. */
    method CarryOut(actions: seq<Action>, now: Time, until: Time)
      requires Valid() && draining && D.Within(core.policy, now, until)
      modifies Parts()
      ensures Valid() && draining && reactorStopped == old(reactorStopped) && stopping == old(stopping)
      ensures unchanged(core.Parts()) && handled == old(handled)
      ensures done == old(done) + actions
      ensures old(pending) <= pending && old(delivered) <= delivered
      ensures D.Weights(pending) <= old(D.Weights(pending)) + D.Load(actions)
      ensures (forall k :: 0 <= k < |actions| ==> !actions[k].StartRecording?) ==> recorderBusy == old(recorderBusy)
      decreases 2, 1
    {
      hide D.Load, D.Weights, R.Run, Events;
      D.LoadOfNone();
      for k := 0 to |actions|
        invariant Valid() && draining && reactorStopped == old(reactorStopped) && stopping == old(stopping)
        invariant unchanged(core.Parts()) && handled == old(handled)
        invariant done == old(done) + actions[..k]
        invariant old(pending) <= pending && old(delivered) <= delivered
        invariant D.Weights(pending) <= old(D.Weights(pending)) + D.Load(actions[..k])
        invariant (forall j :: 0 <= j < |actions| ==> !actions[j].StartRecording?) ==> recorderBusy == old(recorderBusy)
      {
        assert actions[..k + 1] == actions[..k] + [actions[k]];
        D.LoadGrows(actions[..k], actions[k]);
        Execute(actions[k], now, until);
      }
      assert actions[..|actions|] == actions;
    }

    /** Carries an action out. The four a backend answers may be turned down at once; a
        recording that is not keeps the recorder busy. */
    method Execute(action: Action, now: Time, until: Time)
      requires Valid() && draining && D.Within(core.policy, now, until)
      modifies Parts()
      ensures Valid() && draining && reactorStopped == old(reactorStopped) && stopping == old(stopping)
      ensures unchanged(core.Parts()) && handled == old(handled)
      ensures done == old(done) + [action]
      ensures pending == old(pending)
        || (old(pending) < pending && |pending| == |old(pending)| + 1 && TurnsDown(pending[|old(pending)|], action))
      ensures action.StartRecording? ==> recorderBusy || pending != old(pending)
      ensures !action.StartRecording? ==> recorderBusy == old(recorderBusy)
      ensures old(delivered) <= delivered
      ensures D.Weights(pending) <= old(D.Weights(pending)) + D.AnswerWeight(action)
      decreases 2, 0
    {
      hide R.Run, Events, D.Weights, Core.View, Core.Valid;
      done := done + [action];
      var atOnce: bool := *;
      if !atOnce {
        recorderBusy := recorderBusy || action.StartRecording?;
        return;
      }
      match action
      case SendAlert(a) => Deliver(AlertResult(a.id, a.kind, Failed), now, until);
      case StartRecording(id, _, _, _) =>
        var path: string, duration: nat, bytes: nat := *, *, *;
        Deliver(RecordingFinished(id, path, false, duration, bytes), now, until);
      case UploadClip(c) => Deliver(UploadFinished(c.id, false), now, until);
      case StartCall(peer) => Deliver(CallEnded(peer, "could not be started"), now, until);
      case _ =>
    }
  }
}
