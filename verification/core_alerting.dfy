/** Exactly-once alerting, over whole runs. */
module CoreAlerting {
  import opened Types
  import opened CoreRules
  import opened CoreRuns
  import opened CoreStories

  /** What was queued under an id, in order. */
  function KindsOf(enqueued: seq<Enqueued>, id: EventId): seq<Kind>
    decreases |enqueued|
  {
    if enqueued == [] then []
    else
      var last := enqueued[|enqueued| - 1].alert;
      KindsOf(enqueued[..|enqueued| - 1], id) + (if last.id == id then [last.kind] else [])
  }

  lemma KindsGrow(e: seq<Enqueued>, x: Enqueued)
    ensures forall id :: KindsOf(e + [x], id) == if x.alert.id == id then KindsOf(e, id) + [x.alert.kind] else KindsOf(e, id)
  {
    assert (e + [x])[..|e|] == e;
  }

  /** The story of an id told in full: a motion, a ring, or a motion that became a ring. */
  predicate Told(kinds: seq<Kind>) {
    kinds == [Motion] || kinds == [Ring] || kinds == [Motion, Ring]
  }

  /** The story of the id whose recording is running: nothing yet while the alert
      is held or the camera said nobody, otherwise it ends in the event's kind. */
  predicate ToldSoFar(e: Tale, kinds: seq<Kind>) {
    if e.awaiting || e.unwanted then kinds == []
    else if e.kind == Motion then kinds == [Motion]
    else kinds == [Ring] || kinds == [Motion, Ring]
  }

  predicate IsCurrent(s: Story, id: EventId) { s.event.Some? && s.event.value.id == id }

  ghost predicate Once(s: Story) {
    && s.silenced <= s.minted.Keys
    && (forall id :: id !in s.minted ==> KindsOf(s.enqueued, id) == [])
    && (s.event.Some? ==>
          && s.event.value.id in s.minted
          && ToldSoFar(s.event.value, KindsOf(s.enqueued, s.event.value.id))
          && (s.event.value.unwanted ==>
                s.event.value.id in s.silenced && s.event.value.kind == Motion && !s.event.value.awaiting))
    && (forall id :: id in s.minted && !IsCurrent(s, id) ==>
          Told(KindsOf(s.enqueued, id)) || (KindsOf(s.enqueued, id) == [] && id in s.silenced))
  }

  /** A beat that draws a new id. */
  lemma OnceDraw(p: Policy, s: Story, t: Telling, now: Time, id: EventId)
    requires Once(s) && CanTell(p, s, t) && Draws(t.beat) && id !in s.minted
    ensures Once(Tell(p, s, t, now, id))
  {
    hide KindsOf;
    if !t.beat.Held? {
      KindsGrow(s.enqueued, Enqueued(Alert(id, t.beat.kind, now, ""), now));
    }
  }

  function Longer(kinds: seq<Kind>, said: Option<Alert>): seq<Kind> {
    if said.None? then kinds else kinds + [said.value.kind]
  }

  /** What a beat about the running recording adds to its id's story. */
  lemma NextChapter(p: Policy, s: Story, t: Telling, now: Time, id: EventId, kinds: seq<Kind>)
    requires CanTell(p, s, t) && !Draws(t.beat) && s.event.Some? && ToldSoFar(s.event.value, kinds)
    requires s.event.value.unwanted ==> s.event.value.kind == Motion && !s.event.value.awaiting
    ensures var after := EventAfter(p, s, t.beat, now, id);
      var longer := Longer(kinds, Says(s, t.beat, now, id));
      if after.Some? then ToldSoFar(after.value, longer)
      else Told(longer) || (longer == [] && s.event.value.unwanted)
  {
    var said := Says(s, t.beat, now, id);
    if said.Some? {
      assert kinds == [] ==> Longer(kinds, said) == [said.value.kind];
      assert said.value.kind == Motion || said.value.kind == Ring;
    }
  }

  /** A beat about the recording that is running. */
  lemma OnceCurrent(p: Policy, s: Story, t: Telling, now: Time, id: EventId)
    requires Once(s) && CanTell(p, s, t) && !Draws(t.beat)
    ensures Once(Tell(p, s, t, now, id))
  {
    hide KindsOf, Told, ToldSoFar;
    if s.event.Some? {
      var e := s.event.value;
      NextChapter(p, s, t, now, id, KindsOf(s.enqueued, e.id));
      var said := Says(s, t.beat, now, id);
      if said.Some? {
        KindsGrow(s.enqueued, Enqueued(said.value, now));
      }
      assert KindsOf(Tell(p, s, t, now, id).enqueued, e.id) == Longer(KindsOf(s.enqueued, e.id), said);
    }
  }

  lemma OnceTell(p: Policy, s: Story, t: Telling, now: Time, id: EventId)
    requires Once(s) && CanTell(p, s, t)
    requires Draws(t.beat) ==> id !in s.minted
    ensures Once(Tell(p, s, t, now, id))
  {
    hide Once, Tell;
    if Draws(t.beat) {
      OnceDraw(p, s, t, now, id);
    } else {
      OnceCurrent(p, s, t, now, id);
    }
  }

  lemma OnceForgetsTimers(s: Story, s1: Story)
    requires Once(s) && s1 == s.(cooldown := s1.cooldown, window := s1.window)
    ensures Once(s1)
  {}

  lemma OnceStep(p: Policy, s: State, i: Input)
    requires CameraInv(s.camera, s.panel.shuttingDown) && Once(StoryOf(s)) && i.id !in s.log.minted
    ensures Once(StoryOf(Handle(p, s, i)))
  {
    hide Dispatch, Close, Once, Tell, CanTell;
    var s1 := Lapse(s, i.now);
    OnceForgetsTimers(StoryOf(s), StoryOf(s1));
    var t1 := DispatchTells(p, s1, i);
    OnceTell(p, StoryOf(s1), t1, i.now, i.id);
    var t2 := CloseTells(p, Dispatch(p, s1, i), i.now, i.id);
    OnceTell(p, StoryOf(Dispatch(p, s1, i)), t2, i.now, i.id);
  }

  lemma {:induction false} OnceRun(p: Policy, inputs: seq<Input>)
    requires Legal(inputs)
    ensures Once(StoryOf(Run(p, inputs)))
  {
    hide Handle, Once;
    if inputs == [] {
      OnceAtStart(p);
    } else {
      var n := |inputs| - 1;
      LegalRunStep(p, inputs);
      CameraRun(p, inputs[..n]);
      OnceRun(p, inputs[..n]);
      OnceStep(p, Run(p, inputs[..n]), inputs[n]);
    }
  }

  lemma OnceAtStart(p: Policy)
    ensures Once(StoryOf(Init(p)))
  {}

  /** The camera answered "nobody" about a motion whose alert was still held. */
  predicate Hushed(s: State, e: Event, id: EventId) {
    && e.DetectionResult? && e.verdict == NoPerson && e.id == id
    && s.camera.event.Some? && s.camera.event.value.awaitingVerdict
    && s.camera.event.value.id == id && s.camera.event.value.kind == Motion
  }

  lemma SilencedStep(p: Policy, s: State, i: Input, id: EventId)
    requires CameraInv(s.camera, s.panel.shuttingDown)
    requires id in Handle(p, s, i).log.silenced && id !in s.log.silenced
    ensures Hushed(s, i.event, id)
  {
    hide Dispatch, Close;
    var s1 := Lapse(s, i.now);
    var t1 := DispatchTells(p, s1, i);
    var t2 := CloseTells(p, Dispatch(p, s1, i), i.now, i.id);
    assert StoryOf(Handle(p, s, i)).silenced == StoryOf(Dispatch(p, s1, i)).silenced;
    assert StoryOf(s1).silenced == s.log.silenced;
  }

  lemma {:induction false} SilencedRun(p: Policy, inputs: seq<Input>, id: EventId)
    requires id in Run(p, inputs).log.silenced
    ensures exists k :: 0 <= k < |inputs| && Hushed(Run(p, inputs[..k]), inputs[k].event, id)
  {
    hide Handle, Hushed;
    assert inputs != [];
    var n := |inputs| - 1;
    if id in Run(p, inputs[..n]).log.silenced {
      SilencedRun(p, inputs[..n], id);
      var k :| 0 <= k < n && Hushed(Run(p, inputs[..n][..k]), inputs[..n][k].event, id);
      assert inputs[..n][..k] == inputs[..k];
      assert Hushed(Run(p, inputs[..k]), inputs[k].event, id);
    } else {
      CameraRun(p, inputs[..n]);
      SilencedStep(p, Run(p, inputs[..n]), inputs[n], id);
      assert Hushed(Run(p, inputs[..n]), inputs[n].event, id);
    }
  }

  lemma {:induction false} OneUnder(enqueued: seq<Enqueued>, id: EventId, i: nat)
    requires i < |enqueued| && enqueued[i].alert.id == id
    ensures |KindsOf(enqueued, id)| >= 1
    ensures |KindsOf(enqueued, id)| == 1 ==> KindsOf(enqueued, id) == [enqueued[i].alert.kind]
    decreases |enqueued|
  {
    if i < |enqueued| - 1 {
      OneUnder(enqueued[..|enqueued| - 1], id, i);
    }
  }

  lemma {:induction false} TwoUnder(enqueued: seq<Enqueued>, id: EventId, i: nat, j: nat)
    requires i < j < |enqueued| && enqueued[i].alert.id == enqueued[j].alert.id == id
    ensures |KindsOf(enqueued, id)| >= 2
    ensures |KindsOf(enqueued, id)| == 2 ==> KindsOf(enqueued, id) == [enqueued[i].alert.kind, enqueued[j].alert.kind]
    decreases |enqueued|
  {
    var front := enqueued[..|enqueued| - 1];
    if j < |enqueued| - 1 {
      TwoUnder(front, id, i, j);
    } else {
      OneUnder(front, id, i);
    }
  }

  /** For every id ever drawn, the alerts queued under it are, in order: a motion,
      a ring, or a motion then a ring; or none at all, and then the alert is still
      being held for the camera, or the camera answered "nobody" about that very
      motion while it was held. Nothing is queued for an alert still held. */
  lemma ExactlyOnce(p: Policy, inputs: seq<Input>, id: EventId)
    requires Legal(inputs) && id in Run(p, inputs).log.minted
    ensures var t := Run(p, inputs);
      var kinds := KindsOf(t.desk.enqueued, id);
      || kinds == [Motion] || kinds == [Ring] || kinds == [Motion, Ring]
      || (kinds == [] && Holding(t.camera) && t.camera.event.value.id == id)
      || (kinds == [] && exists k :: 0 <= k < |inputs| && Hushed(Run(p, inputs[..k]), inputs[k].event, id))
    ensures var t := Run(p, inputs);
      Holding(t.camera) && t.camera.event.value.id == id ==> KindsOf(t.desk.enqueued, id) == []
  {
    hide Run, KindsOf, Hushed;
    OnceRun(p, inputs);
    if id in Run(p, inputs).log.silenced {
      SilencedRun(p, inputs, id);
    }
  }

  /** Nothing is ever queued twice, and no motion follows its own ring. */
  lemma NeverTwice(p: Policy, inputs: seq<Input>, i: nat, j: nat)
    requires Legal(inputs)
    requires i < j < |Run(p, inputs).desk.enqueued|
    requires var e := Run(p, inputs).desk.enqueued; e[i].alert.id == e[j].alert.id
    ensures var e := Run(p, inputs).desk.enqueued; e[i].alert.kind == Motion && e[j].alert.kind == Ring
  {
    hide Run, KindsOf;
    var e := Run(p, inputs).desk.enqueued;
    OnceRun(p, inputs);
    TwoUnder(e, e[i].alert.id, i, j);
  }

  /** Nothing is queued under an id nobody drew. */
  lemma NoStrangers(p: Policy, inputs: seq<Input>, i: nat)
    requires Legal(inputs) && i < |Run(p, inputs).desk.enqueued|
    ensures Run(p, inputs).desk.enqueued[i].alert.id in Run(p, inputs).log.minted
  {
    hide Run, KindsOf;
    OnceRun(p, inputs);
    OneUnder(Run(p, inputs).desk.enqueued, Run(p, inputs).desk.enqueued[i].alert.id, i);
  }
}
