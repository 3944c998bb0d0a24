/** The worker for the face lists a server sends: a newer list replaces a waiting one
    (pi/server-bridge.py, start_faces and run_faces). Threads interleave freely
    between the two sections that hold the lock. */
module FacesRules {
  import opened Types

  /** A list, and when it was accepted. */
  datatype Sync = Sync(ticket: nat, people: string)

  /** Where a worker is: before its loop test, in faces_once, or after it. */
  datatype Worker = Top(next: Option<Sync>) | Busy(list: Sync) | Returned | Gone

  datatype Slot = Slot(running: bool, waiting: Option<Sync>)

  datatype Bridge = Bridge(
    slot: Slot,               // faces_running and faces_waiting, under the lock
    stop: bool,
    workers: seq<Worker>,     // every thread ever started
    accepted: seq<string>,    // history
    processed: seq<Sync>)     // history: what faces_once was called with

  /** The locked part of start_faces: whether a worker is to be started. */
  function Offer(s: Slot, list: Sync): (Slot, bool) {
    if s.running then (s.(waiting := Some(list)), false) else (s.(running := true), true)
  }

  /** The locked part of run_faces. */
  function TakeNext(s: Slot): (Slot, Option<Sync>) {
    (Slot(s.running && s.waiting.Some?, None), s.waiting)
  }

  datatype Step = Receive(people: string) | Test(worker: nat) | Process(worker: nat) | Swap(worker: nat) | Stop

  predicate Can(b: Bridge, s: Step) {
    match s
    case Test(w) => w < |b.workers| && b.workers[w].Top?
    case Process(w) => w < |b.workers| && b.workers[w].Busy?
    case Swap(w) => w < |b.workers| && b.workers[w].Returned?
    case _ => true
  }

  function Do(b: Bridge, s: Step): Bridge
    requires Can(b, s)
  {
    match s
    case Receive(people) =>
      var list := Sync(|b.accepted|, people);
      var (slot, start) := Offer(b.slot, list);
      b.(slot := slot, accepted := b.accepted + [people],
         workers := if start then b.workers + [Top(Some(list))] else b.workers)
    case Test(w) =>
      var next := b.workers[w].next;
      b.(workers := b.workers[w := if next.Some? && !b.stop then Busy(next.value) else Gone])
    case Process(w) => b.(processed := b.processed + [b.workers[w].list], workers := b.workers[w := Returned])
    case Swap(w) =>
      var (slot, next) := TakeNext(b.slot);
      b.(slot := slot, workers := b.workers[w := Top(next)])
    case Stop => b.(stop := true)
  }

  function Boot(): Bridge { Bridge(Slot(false, None), false, [], [], []) }

  function Play(steps: seq<Step>): Bridge
    decreases |steps|
  {
    if steps == [] then Boot()
    else
      var b := Play(steps[..|steps| - 1]);
      var s := steps[|steps| - 1];
      if Can(b, s) then Do(b, s) else b
  }

  /** It may still call faces_once. */
  predicate AtWork(w: Worker) { (w.Top? && w.next.Some?) || w.Busy? || w.Returned? }

  /** The list a worker has and has not processed yet. */
  function InHand(w: Worker): Option<Sync> {
    match w
    case Top(next) => next
    case Busy(list) => Some(list)
    case _ => None
  }

  predicate Genuine(list: Sync, accepted: seq<string>) {
    list.ticket < |accepted| && accepted[list.ticket] == list.people
  }

  ghost predicate OneWorker(b: Bridge) {
    && (b.slot.waiting.Some? ==> b.slot.running)
    && (forall v, w :: 0 <= v < w < |b.workers| ==> !(AtWork(b.workers[v]) && AtWork(b.workers[w])))
    && (!b.slot.running ==> forall w :: 0 <= w < |b.workers| ==> !AtWork(b.workers[w]))
    && (b.slot.running && !b.stop ==> exists w :: 0 <= w < |b.workers| && AtWork(b.workers[w]))
  }

  /** Processed, then in hand, then waiting: each a list that was accepted, and each
      accepted after the one before. */
  ghost predicate InOrder(b: Bridge) {
    && (forall k :: 0 <= k < |b.processed| ==> Genuine(b.processed[k], b.accepted))
    && (forall j, k :: 0 <= j < k < |b.processed| ==> b.processed[j].ticket < b.processed[k].ticket)
    && (forall w :: 0 <= w < |b.workers| && InHand(b.workers[w]).Some? ==>
          var list := InHand(b.workers[w]).value;
          && Genuine(list, b.accepted)
          && (b.processed != [] ==> b.processed[|b.processed| - 1].ticket < list.ticket)
          && (b.slot.waiting.Some? ==> list.ticket < b.slot.waiting.value.ticket))
    && (b.slot.waiting.Some? ==>
          && Genuine(b.slot.waiting.value, b.accepted)
          && (b.processed != [] ==> b.processed[|b.processed| - 1].ticket < b.slot.waiting.value.ticket))
  }

  /** The list accepted last is waiting, in hand, or the last one processed. */
  ghost predicate LastIsKept(b: Bridge) {
    b.accepted != [] && !b.stop ==>
      var last := |b.accepted| - 1;
      if b.slot.waiting.Some? then b.slot.waiting.value.ticket == last
      else
        || (exists w :: 0 <= w < |b.workers| && InHand(b.workers[w]).Some? && InHand(b.workers[w]).value.ticket == last)
        || (b.processed != [] && b.processed[|b.processed| - 1].ticket == last)
  }

  lemma OneWorkerStep(b: Bridge, s: Step)
    requires OneWorker(b) && Can(b, s)
    ensures OneWorker(Do(b, s))
  {
    var t := Do(b, s);
    match s
    case Receive(_) =>
      if !b.slot.running { assert AtWork(t.workers[|b.workers|]); }
      else if !b.stop {
        var w :| 0 <= w < |b.workers| && AtWork(b.workers[w]);
        assert AtWork(t.workers[w]);
      }
    case Test(w) =>
      if b.slot.running && !b.stop {
        var v :| 0 <= v < |b.workers| && AtWork(b.workers[v]);
        assert AtWork(t.workers[v]);
      }
    case Process(w) => assert AtWork(b.workers[w]) && AtWork(t.workers[w]);
    case Swap(w) => assert AtWork(b.workers[w]);
      if b.slot.waiting.Some? { assert AtWork(t.workers[w]); }
    case Stop =>
  }

  lemma Spare(b: Bridge, w: nat)
    requires OneWorker(b) && w < |b.workers| && AtWork(b.workers[w])
    ensures forall v :: 0 <= v < |b.workers| && v != w ==> InHand(b.workers[v]).None?
  {
    forall v | 0 <= v < |b.workers| && v != w ensures InHand(b.workers[v]).None? {
      assert !AtWork(b.workers[v]);
    }
  }

  lemma ReceiveInOrder(b: Bridge, people: string)
    requires OneWorker(b) && InOrder(b)
    ensures InOrder(Do(b, Receive(people)))
  {}

  lemma ProcessInOrder(b: Bridge, w: nat)
    requires OneWorker(b) && InOrder(b) && Can(b, Process(w))
    ensures InOrder(Do(b, Process(w)))
  {
    var t := Do(b, Process(w));
    Spare(b, w);
    assert InHand(b.workers[w]) == Some(b.workers[w].list);
    assert forall v :: 0 <= v < |t.workers| ==> InHand(t.workers[v]).None?;
    hide AtWork;
  }

  lemma SwapInOrder(b: Bridge, w: nat)
    requires OneWorker(b) && InOrder(b) && Can(b, Swap(w))
    ensures InOrder(Do(b, Swap(w)))
  {}

  lemma InOrderStep(b: Bridge, s: Step)
    requires OneWorker(b) && InOrder(b) && Can(b, s)
    ensures InOrder(Do(b, s))
  {
    match s
    case Receive(people) => ReceiveInOrder(b, people);
    case Test(w) =>
      assert forall v :: 0 <= v < |b.workers| && InHand(Do(b, s).workers[v]).Some? ==>
        InHand(Do(b, s).workers[v]) == InHand(b.workers[v]);
    case Process(w) => ProcessInOrder(b, w);
    case Swap(w) => SwapInOrder(b, w);
    case Stop =>
  }

  lemma LastStep(b: Bridge, s: Step)
    requires OneWorker(b) && InOrder(b) && LastIsKept(b) && Can(b, s)
    ensures LastIsKept(Do(b, s))
  {
    var t := Do(b, s);
    match s
    case Receive(_) =>
      if !b.slot.running { assert InHand(t.workers[|b.workers|]).Some?; }
    case Test(w) =>
      assert forall v :: 0 <= v < |b.workers| && v != w ==> InHand(t.workers[v]) == InHand(b.workers[v]);
      assert !b.stop ==> InHand(t.workers[w]) == InHand(b.workers[w]);
    case Process(w) =>
      assert AtWork(b.workers[w]);
      assert forall v :: 0 <= v < |b.workers| && v != w ==> (InHand(b.workers[v]).Some? ==> AtWork(b.workers[v]));
    case Swap(w) =>
      assert forall v :: 0 <= v < |b.workers| && v != w ==> InHand(t.workers[v]) == InHand(b.workers[v]);
      if b.slot.waiting.Some? { assert InHand(t.workers[w]) == b.slot.waiting; }
    case Stop =>
  }

  lemma {:induction false} Always(steps: seq<Step>)
    ensures OneWorker(Play(steps)) && InOrder(Play(steps)) && LastIsKept(Play(steps))
    decreases |steps|
  {
    if steps != [] {
      hide OneWorker, InOrder, LastIsKept, Do, Can;
      var b, s := Play(steps[..|steps| - 1]), steps[|steps| - 1];
      Always(steps[..|steps| - 1]);
      if Can(b, s) {
        OneWorkerStep(b, s);
        InOrderStep(b, s);
        LastStep(b, s);
      }
    }
  }

  /** Under every interleaving at most one thread is in, or can still reach,
      faces_once, and a waiting list has such a thread unless it is stopping. */
  lemma OneAtATime(steps: seq<Step>)
    ensures var b := Play(steps);
      && (forall v, w :: 0 <= v < w < |b.workers| ==> !(AtWork(b.workers[v]) && AtWork(b.workers[w])))
      && (b.slot.waiting.Some? && !b.stop ==> exists w :: 0 <= w < |b.workers| && AtWork(b.workers[w]))
  {
    hide Play;
    Always(steps);
  }

  /** What was processed is what was accepted, in that order, some left out; and
      once no thread is at work the last of each is the same. */
  lemma LatestWins(steps: seq<Step>)
    ensures var b := Play(steps);
      && (forall k :: 0 <= k < |b.processed| ==> Genuine(b.processed[k], b.accepted))
      && (forall j, k :: 0 <= j < k < |b.processed| ==> b.processed[j].ticket < b.processed[k].ticket)
      && (b.accepted != [] && !b.stop && (forall w :: 0 <= w < |b.workers| ==> !AtWork(b.workers[w])) ==>
            && b.processed != []
            && b.processed[|b.processed| - 1] == Sync(|b.accepted| - 1, b.accepted[|b.accepted| - 1]))
  {
    hide Play;
    Always(steps);
    var b := Play(steps);
    assert forall w :: 0 <= w < |b.workers| ==> (InHand(b.workers[w]).Some? ==> AtWork(b.workers[w]));
  }
}

module Faces {
  import opened Types
  import opened FacesRules

  /** The two fields behind faces_lock, and the two sections that hold it. */
  class FacesSlot {
    var facesRunning: bool
    var facesWaiting: Option<Sync>

    ghost function View(): Slot reads this { Slot(facesRunning, facesWaiting) }

    constructor ()
      ensures View() == Boot().slot
    {
      facesRunning, facesWaiting := false, None;
    }

    method Offer(list: Sync) returns (start: bool)
      modifies this
      ensures (View(), start) == FacesRules.Offer(old(View()), list)
    {
      if facesRunning {
        facesWaiting := Some(list);
        return false;
      }
      facesRunning := true;
      return true;
    }

    method TakeNext() returns (message: Option<Sync>)
      modifies this
      ensures (View(), message) == FacesRules.TakeNext(old(View()))
    {
      message, facesWaiting := facesWaiting, None;
      if message.None? {
        facesRunning := false;
      }
    }
  }
}
