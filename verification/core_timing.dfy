/** How often alerts may be queued, and how soon they must be, over whole runs. */
module CoreTiming {
  import opened Types
  import opened CoreRules
  import opened CoreRuns
  import opened CoreStories

  // ---- Rates ----

  predicate Apart(a: Time, b: Time, gap: nat) { a + gap <= b || b + gap <= a }

  /** The stamp is behind us by the gap, or the guard still keeps the next one away. */
  predicate Guarded(at: Time, guard: Option<Time>, gap: nat, clock: Time) {
    at <= clock && (at + gap <= clock || (guard.Some? && at + gap <= guard.value))
  }

  predicate IsOf(e: seq<Enqueued>, k: int, kind: Kind) {
    0 <= k < |e| && e[k].alert.kind == kind
  }

  ghost predicate AllGuarded(e: seq<Enqueued>, kind: Kind, guard: Option<Time>, gap: nat, clock: Time) {
    forall k :: IsOf(e, k, kind) ==> Guarded(e[k].alert.at, guard, gap, clock)
  }

  ghost predicate AllApart(e: seq<Enqueued>, kind: Kind, gap: nat) {
    forall j, k :: j < k && IsOf(e, j, kind) && IsOf(e, k, kind) ==> Apart(e[j].alert.at, e[k].alert.at, gap)
  }

  predicate HeldOf(s: Story, kind: Kind) { s.event.Some? && s.event.value.awaiting && s.event.value.kind == kind }

  ghost predicate RingsSpaced(p: Policy, s: Story, clock: Time) {
    var gap := p.pressDedupWindow;
    && AllGuarded(s.enqueued, Ring, s.window, gap, clock)
    && AllApart(s.enqueued, Ring, gap)
    && (HeldOf(s, Ring) ==>
          && Guarded(s.event.value.alertAt, s.window, gap, clock)
          && forall k :: IsOf(s.enqueued, k, Ring) ==> Apart(s.enqueued[k].alert.at, s.event.value.alertAt, gap))
  }

  /** A motion still held is later than every motion queued, so silencing it may
      shorten the cooldown without bringing two of those together. */
  ghost predicate MotionsSpaced(p: Policy, s: Story, clock: Time) {
    var gap := p.motionCooldown;
    && AllGuarded(s.enqueued, Motion, s.cooldown, gap, clock)
    && AllApart(s.enqueued, Motion, gap)
    && (HeldOf(s, Motion) ==>
          && Guarded(s.event.value.alertAt, s.cooldown, gap, clock)
          && forall k :: IsOf(s.enqueued, k, Motion) ==> s.enqueued[k].alert.at + gap <= s.event.value.alertAt)
  }

  lemma RingsTell(p: Policy, s: Story, t: Telling, now: Time, id: EventId)
    requires RingsSpaced(p, s, now) && CanTell(p, s, t)
    ensures RingsSpaced(p, Tell(p, s, t, now, id), now)
  {}

  lemma MotionsTell(p: Policy, s: Story, t: Telling, now: Time, id: EventId)
    requires MotionsSpaced(p, s, now) && CanTell(p, s, t)
    ensures MotionsSpaced(p, Tell(p, s, t, now, id), now)
  {}

  lemma SpacedLapse(p: Policy, s: State, now: Time)
    requires RingsSpaced(p, StoryOf(s), s.log.clock) && MotionsSpaced(p, StoryOf(s), s.log.clock)
    requires s.log.clock <= now
    ensures RingsSpaced(p, StoryOf(Lapse(s, now)), now) && MotionsSpaced(p, StoryOf(Lapse(s, now)), now)
  {}

  ghost predicate Spaced(p: Policy, s: State) {
    RingsSpaced(p, StoryOf(s), s.log.clock) && MotionsSpaced(p, StoryOf(s), s.log.clock)
  }

  lemma SpacedStep(p: Policy, s: State, i: Input)
    requires CameraInv(s.camera, s.panel.shuttingDown) && Spaced(p, s) && s.log.clock <= i.now
    ensures Spaced(p, Handle(p, s, i))
  {
    hide Dispatch, Close, Tell, CanTell, RingsSpaced, MotionsSpaced;
    HandleDraws(p, s, i);
    SpacedLapse(p, s, i.now);
    var s1 := Lapse(s, i.now);
    var t1 := DispatchTells(p, s1, i);
    RingsTell(p, StoryOf(s1), t1, i.now, i.id);
    MotionsTell(p, StoryOf(s1), t1, i.now, i.id);
    var s2 := Dispatch(p, s1, i);
    var t2 := CloseTells(p, s2, i.now, i.id);
    RingsTell(p, StoryOf(s2), t2, i.now, i.id);
    MotionsTell(p, StoryOf(s2), t2, i.now, i.id);
  }

  lemma {:induction false} SpacedRun(p: Policy, inputs: seq<Input>)
    requires Legal(inputs)
    ensures Spaced(p, Run(p, inputs))
  {
    if inputs != [] {
      hide Handle, Spaced;
      var n := |inputs| - 1;
      LegalRunStep(p, inputs);
      CameraRun(p, inputs[..n]);
      SpacedRun(p, inputs[..n]);
      SpacedStep(p, Run(p, inputs[..n]), inputs[n]);
    }
  }

  /** Any two rings queued carry stamps a press window apart, and any two motions
      a motion cooldown apart, though silenced motions shorten that cooldown. */
  lemma RateLimits(p: Policy, inputs: seq<Input>, j: nat, k: nat)
    requires Legal(inputs) && j < k < |Run(p, inputs).desk.enqueued|
    requires var e := Run(p, inputs).desk.enqueued; e[j].alert.kind == e[k].alert.kind
    ensures var e := Run(p, inputs).desk.enqueued;
      Apart(e[j].alert.at, e[k].alert.at, if e[j].alert.kind == Ring then p.pressDedupWindow else p.motionCooldown)
  {
    hide Run;
    SpacedRun(p, inputs);
    var e := Run(p, inputs).desk.enqueued;
    assert IsOf(e, j, e[j].alert.kind) && IsOf(e, k, e[j].alert.kind);
  }

  /** The stamps of one kind that fall in an interval. */
  function StampsIn(e: seq<Enqueued>, kind: Kind, a: Time, b: Time): seq<Time>
    decreases |e|
  {
    if e == [] then []
    else
      var last := e[|e| - 1].alert;
      StampsIn(e[..|e| - 1], kind, a, b) + (if last.kind == kind && a <= last.at <= b then [last.at] else [])
  }

  ghost predicate PairwiseApart(xs: seq<Time>, gap: nat) {
    forall j, k :: 0 <= j < k < |xs| ==> Apart(xs[j], xs[k], gap)
  }

  lemma {:induction false} StampsApart(e: seq<Enqueued>, kind: Kind, gap: nat, a: Time, b: Time)
    requires AllApart(e, kind, gap)
    ensures var xs := StampsIn(e, kind, a, b);
      && PairwiseApart(xs, gap)
      && (forall k :: 0 <= k < |xs| ==> a <= xs[k] <= b)
      && (forall k :: 0 <= k < |xs| ==> exists j :: IsOf(e, j, kind) && e[j].alert.at == xs[k])
    decreases |e|
  {
    if e != [] {
      var n := |e| - 1;
      var front := e[..n];
      assert forall j :: IsOf(front, j, kind) ==> IsOf(e, j, kind) && front[j] == e[j];
      StampsApart(front, kind, gap, a, b);
      var xs := StampsIn(front, kind, a, b);
      forall k | 0 <= k < |xs|
        ensures exists j :: IsOf(e, j, kind) && e[j].alert.at == xs[k]
        ensures IsOf(e, n, kind) ==> Apart(xs[k], e[n].alert.at, gap)
      {
        var j :| IsOf(front, j, kind) && front[j].alert.at == xs[k];
        assert IsOf(e, j, kind) && e[j].alert.at == xs[k];
      }
      if e[n].alert.kind == kind {
        assert IsOf(e, n, kind);
      }
    }
  }

  function Latest(xs: seq<Time>): (m: nat)
    requires xs != []
    ensures m < |xs| && forall k :: 0 <= k < |xs| ==> xs[k] <= xs[m]
  {
    if |xs| == 1 then 0
    else
      var m := Latest(xs[..|xs| - 1]);
      assert forall k :: 0 <= k < |xs| - 1 ==> xs[..|xs| - 1][k] == xs[k];
      if xs[m] < xs[|xs| - 1] then |xs| - 1 else m
  }

  function Others(xs: seq<Time>, m: nat): (r: seq<Time>)
    requires m < |xs|
    ensures |r| == |xs| - 1
  {
    xs[..m] + xs[m + 1..]
  }

  lemma OthersAreEarlier(xs: seq<Time>, gap: nat, a: Time, b: Time)
    requires xs != [] && PairwiseApart(xs, gap)
    requires forall k :: 0 <= k < |xs| ==> a <= xs[k] <= b
    ensures var m := Latest(xs); var rest := Others(xs, m);
      && PairwiseApart(rest, gap)
      && (forall k :: 0 <= k < |rest| ==> a <= rest[k] <= xs[m] - gap)
  {
    var m := Latest(xs);
    var rest := Others(xs, m);
    assert forall k :: 0 <= k < |rest| ==> rest[k] == xs[if k < m then k else k + 1];
    forall k | 0 <= k < |rest| ensures a <= rest[k] <= xs[m] - gap {
      if k < m { assert Apart(xs[k], xs[m], gap); } else { assert Apart(xs[m], xs[k + 1], gap); }
    }
  }

  /** Points a gap apart cannot crowd an interval. */
  lemma {:induction false} Packing(xs: seq<Time>, gap: nat, a: Time, b: Time)
    requires xs != [] && PairwiseApart(xs, gap)
    requires forall k :: 0 <= k < |xs| ==> a <= xs[k] <= b
    ensures (|xs| - 1) * gap <= b - a
    decreases |xs|
  {
    hide PairwiseApart;
    if |xs| > 1 {
      var m := Latest(xs);
      OthersAreEarlier(xs, gap, a, b);
      Packing(Others(xs, m), gap, a, xs[m] - gap);
      assert (|xs| - 1) * gap == (|xs| - 2) * gap + gap;
    }
  }

  /** In any interval, however the presses and the sensor behave: at most one
      alert of a kind for every whole gap that fits, plus one. */
  lemma AlertBudget(p: Policy, inputs: seq<Input>, kind: Kind, a: Time, b: Time)
    requires Legal(inputs) && a <= b
    ensures var gap := if kind == Ring then p.pressDedupWindow else p.motionCooldown;
      gap > 0 ==> |StampsIn(Run(p, inputs).desk.enqueued, kind, a, b)| <= (b - a) / gap + 1
  {
    hide Run;
    var gap := if kind == Ring then p.pressDedupWindow else p.motionCooldown;
    var e := Run(p, inputs).desk.enqueued;
    SpacedRun(p, inputs);
    StampsApart(e, kind, gap, a, b);
    var xs := StampsIn(e, kind, a, b);
    if gap > 0 && xs != [] {
      Packing(xs, gap, a, b);
      Quotient(|xs| - 1, gap, b - a);
    }
  }

  lemma Scaled(n: int, m: int, gap: nat)
    ensures n >= m ==> n * gap >= m * gap
  {}

  lemma Quotient(n: nat, gap: nat, span: nat)
    requires gap > 0 && n * gap <= span
    ensures n <= span / gap
  {
    Scaled(n, span / gap + 1, gap);
    assert span < (span / gap + 1) * gap;
  }
}
