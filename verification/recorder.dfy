/** The recorder's child process and what it owes the core: exactly one
    RecordingFinished for every start, and before it at most one verdict
    (porchlightd/src/io/gst_recorder.cpp). */
module RecorderRules {
  import opened Types
  import opened LineRules

  datatype Phase = AtRest | Rolling | Flushing

  /** What a detector line says, when it is a JSON object with a verdict string. */
  datatype Spoken = Spoken(word: string, faces: string)

  type Parser = string -> Option<Spoken>

  /** Every word but two is Unknown. */
  function VerdictOf(word: string): Verdict {
    if word == "person" then Person
    else if word == "no-person" then NoPerson
    else Verdict.Unknown
  }

  /** A report to the core, and which start it answers. */
  datatype Report = Report(start: nat, event: Event)

  datatype Recorder = Recorder(
    phase: Phase,
    id: EventId,
    child: bool,          // pid_ > 0
    reaped: bool,         // the process itself is gone, though not yet let go of
    piped: bool,          // the detector's pipe is open
    buffer: string,
    verdictSent: bool,
    killed: bool,
    starts: seq<EventId>, // history: every start, in order
    current: nat,         // which of them the child is for
    said: seq<Report>)    // history: every report

  /** How far a start gets. */
  datatype Launch = NoSpool | NoProcess | NoWatch | Running

  /** What is found on disk when a recording ends. */
  datatype Found = Found(path: string, bytes: nat, duration: nat)

  const MIN_PLAUSIBLE_BYTES: nat := 1024

  function Fresh(): Recorder {
    Recorder(AtRest, "", false, false, false, "", false, false, [], 0, [])
  }

  predicate Busy(r: Recorder) { r.phase != AtRest }

  predicate Alive(r: Recorder) { r.child && !r.reaped }

  function Say(r: Recorder, start: nat, e: Event): Recorder { r.(said := r.said + [Report(start, e)]) }

  function Finished(id: EventId, clean: bool, f: Found): Event {
    RecordingFinished(id, f.path, clean && f.bytes >= MIN_PLAUSIBLE_BYTES, f.duration, f.bytes)
  }

  function Conclusion(r: Recorder, clean: bool, f: Found): Recorder {
    Say(r.(phase := AtRest, id := ""), r.current, Finished(r.id, clean, f))
  }

  function Release(r: Recorder): Recorder { r.(child := false, reaped := false, piped := false, buffer := "") }

  function Refuse(r: Recorder, id: EventId): Recorder {
    Say(r.(starts := r.starts + [id]), |r.starts|, RecordingFinished(id, "", false, 0, 0))
  }

  function Begun(r: Recorder, id: EventId): Recorder {
    r.(starts := r.starts + [id], current := |r.starts|, id := id, killed := false, verdictSent := false, buffer := "")
  }

  function Launched(r: Recorder, answers: bool, launch: Launch, f: Found): Recorder {
    match launch
    case NoProcess => Conclusion(r, false, f)
    case NoWatch => Conclusion(Release(r.(child := true, piped := answers)), false, f)
    case _ => r.(phase := Rolling, child := true, piped := answers)
  }

  function Start(r: Recorder, id: EventId, answers: bool, launch: Launch, f: Found): Recorder {
    if Busy(r) || launch == NoSpool then Refuse(r, id) else Launched(Begun(r, id), answers, launch, f)
  }

  function Stop(r: Recorder): Recorder { if r.phase == Rolling then r.(phase := Flushing) else r }

  function Timer(r: Recorder): Recorder {
    if r.phase == Flushing then r.(killed := true) else Stop(r)
  }

  function HearLine(r: Recorder, parse: Parser, line: string): Recorder {
    var spoken := parse(line);
    if spoken.None? || r.verdictSent then r
    else Say(r.(verdictSent := true), r.current,
             DetectionResult(r.id, VerdictOf(spoken.value.word), spoken.value.faces))
  }

  function HearLines(r: Recorder, parse: Parser, lines: seq<string>): Recorder
    decreases |lines|
  {
    if lines == [] then r else HearLines(HearLine(r, parse, lines[0]), parse, lines[1..])
  }

  function Listen(r: Recorder, parse: Parser, chunk: string, closed: bool): Recorder {
    if !r.piped then r
    else HearLines(r.(buffer := Tail(r.buffer + chunk), piped := !closed), parse, Lines(r.buffer + chunk))
  }

  /** on_child_exit in two halves: the daemon runs in between, for the verdict. */
  function Reap(r: Recorder, parse: Parser, chunk: string, closed: bool): Recorder {
    Listen(r.(reaped := true), parse, chunk, closed)
  }

  function Conclude(r: Recorder, clean: bool, f: Found): Recorder {
    Conclusion(Release(r), clean && !r.killed, f)
  }

  // ---- The contract ----

  /** Two reports for one start can only be its verdict and then its end. */
  predicate InOrder(a: Report, b: Report) {
    a.start == b.start ==> a.event.DetectionResult? && b.event.RecordingFinished?
  }

  predicate Answers(r: Report, starts: seq<EventId>) {
    && r.start < |starts|
    && (r.event.RecordingFinished? || r.event.DetectionResult?) && r.event.id == starts[r.start]
  }

  ghost predicate Ended(said: seq<Report>, start: nat) {
    exists k :: 0 <= k < |said| && said[k].start == start && said[k].event.RecordingFinished?
  }

  ghost predicate Contract(r: Recorder) {
    && (r.child <==> Busy(r)) && (r.reaped ==> r.child) && (r.piped ==> r.child)
    && (Busy(r) ==> r.current < |r.starts| && r.starts[r.current] == r.id)
    && (forall k :: 0 <= k < |r.said| ==> Answers(r.said[k], r.starts))
    && (forall j, k :: 0 <= j < k < |r.said| ==> InOrder(r.said[j], r.said[k]))
    && (forall n :: 0 <= n < |r.starts| && !(Busy(r) && n == r.current) ==> Ended(r.said, n))
    && (Busy(r) ==> forall k :: 0 <= k < |r.said| && r.said[k].start == r.current ==>
                      r.said[k].event.DetectionResult? && r.verdictSent)
  }

  lemma SayEnds(said: seq<Report>, x: Report)
    ensures forall n :: Ended(said, n) ==> Ended(said + [x], n)
    ensures x.event.RecordingFinished? ==> Ended(said + [x], x.start)
  {
    forall n | Ended(said, n) ensures Ended(said + [x], n) {
      var k :| 0 <= k < |said| && said[k].start == n && said[k].event.RecordingFinished?;
      assert (said + [x])[k] == said[k];
    }
    if x.event.RecordingFinished? { assert (said + [x])[|said|] == x; }
  }

  lemma RefuseKeeps(r: Recorder, id: EventId)
    requires Contract(r)
    ensures Contract(Refuse(r, id))
  {
    SayEnds(r.said, Report(|r.starts|, RecordingFinished(id, "", false, 0, 0)));
  }

  /** The start whose report this is has no end yet, and gets it now. */
  lemma ConcludeKeeps(r: Recorder, clean: bool, f: Found)
    requires Contract(r) && Busy(r)
    ensures Contract(Conclude(r, clean, f)) && !Busy(Conclude(r, clean, f))
  {
    SayEnds(r.said, Report(r.current, Finished(r.id, clean && !r.killed, f)));
  }

  lemma StartKeeps(r: Recorder, id: EventId, answers: bool, launch: Launch, f: Found)
    requires Contract(r)
    ensures Contract(Start(r, id, answers, launch, f))
    ensures !Busy(r) ==> (Busy(Start(r, id, answers, launch, f)) <==> launch == Running)
  {
    if Busy(r) || launch == NoSpool {
      RefuseKeeps(r, id);
    } else {
      SayEnds(r.said, Report(|r.starts|, Finished(id, false, f)));
    }
  }

  lemma StopKeeps(r: Recorder)
    requires Contract(r)
    ensures Contract(Stop(r)) && Contract(Timer(r))
  {}

  lemma HearLineKeeps(r: Recorder, parse: Parser, line: string)
    requires Contract(r) && Busy(r)
    ensures Contract(HearLine(r, parse, line)) && Busy(HearLine(r, parse, line))
  {
    var spoken := parse(line);
    if spoken.Some? {
      SayEnds(r.said, Report(r.current, DetectionResult(r.id, VerdictOf(spoken.value.word), spoken.value.faces)));
    }
  }

  lemma {:induction false} HearLinesKeep(r: Recorder, parse: Parser, lines: seq<string>)
    requires Contract(r) && Busy(r)
    ensures var t := HearLines(r, parse, lines);
      Contract(t) && t.phase == r.phase && t.reaped == r.reaped && t.starts == r.starts && t.id == r.id && t.current == r.current
    decreases |lines|
  {
    hide Contract;
    if lines != [] {
      HearLineKeeps(r, parse, lines[0]);
      HearLinesKeep(HearLine(r, parse, lines[0]), parse, lines[1..]);
    }
  }

  lemma ListenKeeps(r: Recorder, parse: Parser, chunk: string, closed: bool)
    requires Contract(r)
    ensures Contract(Listen(r, parse, chunk, closed)) && Listen(r, parse, chunk, closed).phase == r.phase
    ensures Listen(r, parse, chunk, closed).reaped == r.reaped
  {
    hide Lines, Tail, HearLines;
    if r.piped {
      HearLinesKeep(r.(buffer := Tail(r.buffer + chunk), piped := !closed), parse, Lines(r.buffer + chunk));
    }
  }

  // ---- Over any interleaving ----

  datatype Step =
    | DoStart(id: EventId, answers: bool, launch: Launch, found: Found)
    | DoStop
    | DoTimer
    | DoRead(chunk: string, closed: bool)
    | DoReap(chunk: string, closed: bool)
    | DoConclude(clean: bool, found: Found)

  /** A child exits once, and is let go of after the verdict it left behind has been
      delivered; a start or a stop may come from inside that delivery. */
  predicate Possible(r: Recorder, step: Step) {
    match step
    case DoRead(_, _) => !r.reaped
    case DoReap(_, _) => Alive(r)
    case DoConclude(_, _) => r.reaped
    case _ => true
  }

  function Take(r: Recorder, parse: Parser, step: Step): Recorder {
    if !Possible(r, step) then r
    else
      match step
      case DoStart(id, answers, launch, f) => Start(r, id, answers, launch, f)
      case DoStop => Stop(r)
      case DoTimer => Timer(r)
      case DoRead(chunk, closed) => Listen(r, parse, chunk, closed)
      case DoReap(chunk, closed) => Reap(r, parse, chunk, closed)
      case DoConclude(clean, f) => Conclude(r, clean, f)
  }

  function Play(parse: Parser, steps: seq<Step>): Recorder
    decreases |steps|
  {
    if steps == [] then Fresh() else Take(Play(parse, steps[..|steps| - 1]), parse, steps[|steps| - 1])
  }

  lemma TakeKeeps(r: Recorder, parse: Parser, step: Step)
    requires Contract(r)
    ensures Contract(Take(r, parse, step))
  {
    hide Start, Listen, Conclude;
    match step
    case DoStart(id, answers, launch, f) => StartKeeps(r, id, answers, launch, f);
    case DoStop => StopKeeps(r);
    case DoTimer => StopKeeps(r);
    case DoRead(chunk, closed) => ListenKeeps(r, parse, chunk, closed);
    case DoReap(chunk, closed) => if Alive(r) { ListenKeeps(r.(reaped := true), parse, chunk, closed); }
    case DoConclude(clean, f) => if r.reaped { ConcludeKeeps(r, clean, f); }
  }

  lemma {:induction false} ContractHolds(parse: Parser, steps: seq<Step>)
    ensures Contract(Play(parse, steps))
    decreases |steps|
  {
    hide Take;
    if steps != [] {
      ContractHolds(parse, steps[..|steps| - 1]);
      TakeKeeps(Play(parse, steps[..|steps| - 1]), parse, steps[|steps| - 1]);
    }
  }

  /** Whatever the interleaving: a start that is over has exactly one end, the one
      still running has none, and before its end a start has at most one verdict. */
  lemma OneEndPerStart(parse: Parser, steps: seq<Step>, n: nat)
    requires n < |Play(parse, steps).starts|
    ensures var r := Play(parse, steps);
      && (Ended(r.said, n) <==> !(Busy(r) && n == r.current))
      && (forall j, k :: 0 <= j < k < |r.said| && r.said[j].start == r.said[k].start == n ==>
            r.said[j].event.DetectionResult? && r.said[k].event.RecordingFinished?)
  {
    hide Play;
    ContractHolds(parse, steps);
    var r := Play(parse, steps);
    assert forall j, k :: 0 <= j < k < |r.said| ==> InOrder(r.said[j], r.said[k]);
  }

  function Ends(said: seq<Report>): nat
    decreases |said|
  {
    if said == [] then 0
    else Ends(said[..|said| - 1]) + (if said[|said| - 1].event.RecordingFinished? then 1 else 0)
  }

  lemma EndsGrow(said: seq<Report>, x: Report)
    ensures Ends(said + [x]) == Ends(said) + (if x.event.RecordingFinished? then 1 else 0)
  {
    assert (said + [x])[..|said|] == said;
  }

  lemma {:induction false} HearingEndsNothing(r: Recorder, parse: Parser, lines: seq<string>)
    ensures Ends(HearLines(r, parse, lines).said) == Ends(r.said) && HearLines(r, parse, lines).starts == r.starts
    ensures HearLines(r, parse, lines).phase == r.phase
    decreases |lines|
  {
    hide Ends;
    if lines != [] {
      var spoken := parse(lines[0]);
      if spoken.Some? {
        EndsGrow(r.said, Report(r.current, DetectionResult(r.id, VerdictOf(spoken.value.word), spoken.value.faces)));
      }
      HearingEndsNothing(HearLine(r, parse, lines[0]), parse, lines[1..]);
    }
  }

  /** And counted: as many ends as starts, less one while a recording runs. */
  lemma {:induction false} EndsCountStarts(parse: Parser, steps: seq<Step>)
    ensures var r := Play(parse, steps); Ends(r.said) + (if Busy(r) then 1 else 0) == |r.starts|
    decreases |steps|
  {
    hide HearLines, Lines, Tail, Ends, Contract;
    if steps == [] {
      EndsOfNone();
    } else {
      var step := steps[|steps| - 1];
      var r := Play(parse, steps[..|steps| - 1]);
      EndsCountStarts(parse, steps[..|steps| - 1]);
      ContractHolds(parse, steps[..|steps| - 1]);
      EndsCountStep(r, parse, step);
    }
  }

  lemma EndsOfNone()
    ensures Ends([]) == 0
  {}

  lemma EndsCountStep(r: Recorder, parse: Parser, step: Step)
    requires Contract(r) && Ends(r.said) + (if Busy(r) then 1 else 0) == |r.starts|
    ensures var t := Take(r, parse, step); Ends(t.said) + (if Busy(t) then 1 else 0) == |t.starts|
  {
    hide HearLines, Lines, Tail, Ends;
    match step
    case DoStart(id, _, _, f) =>
      EndsGrow(r.said, Report(|r.starts|, RecordingFinished(id, "", false, 0, 0)));
      EndsGrow(r.said, Report(|r.starts|, Finished(id, false, f)));
    case DoRead(chunk, closed) =>
      HearingEndsNothing(r.(buffer := Tail(r.buffer + chunk), piped := !closed), parse, Lines(r.buffer + chunk));
    case DoReap(chunk, closed) =>
      var r1 := r.(reaped := true);
      HearingEndsNothing(r1.(buffer := Tail(r.buffer + chunk), piped := !closed), parse, Lines(r.buffer + chunk));
    case DoConclude(clean, f) =>
      EndsGrow(r.said, Report(r.current, Finished(r.id, clean && !r.killed, f)));
    case _ =>
  }
}

module Recorders {
  import opened Types
  import opened LineRules
  import opened RecorderRules

  /** Everything in the buffer that is a line is heard; the rest stays. */
  ghost function HearAll(r: Recorder, parse: Parser): Recorder {
    HearLines(r.(buffer := Tail(r.buffer)), parse, Lines(r.buffer))
  }

  lemma HearTurn(r: Recorder, parse: Parser)
    requires FirstNewline(r.buffer) < |r.buffer|
    ensures var k := FirstNewline(r.buffer);
      HearAll(r, parse) == HearAll(HearLine(r.(buffer := r.buffer[k + 1..]), parse, r.buffer[..k]), parse)
  {
    hide Lines, Tail, FirstNewline, HearLines;
    Unrolled(r.buffer);
    var k := FirstNewline(r.buffer);
    var line, rest, tail := r.buffer[..k], Lines(r.buffer[k + 1..]), Tail(r.buffer);
    HearFirst(r.(buffer := tail), parse, line, rest);
    assert HearLine(r.(buffer := tail), parse, line)
        == HearLine(r.(buffer := r.buffer[k + 1..]), parse, line).(buffer := tail);
  }

  lemma HearFirst(r: Recorder, parse: Parser, line: string, rest: seq<string>)
    ensures HearLines(r, parse, [line] + rest) == HearLines(HearLine(r, parse, line), parse, rest)
  {
    assert ([line] + rest)[1..] == rest;
  }

  lemma HearNone(r: Recorder, parse: Parser)
    requires FirstNewline(r.buffer) == |r.buffer|
    ensures HearAll(r, parse) == r
  {}

  function StopIf(stopped: bool, r: Recorder): Recorder { if stopped then Stop(r) else r }

  /** A stop from inside a verdict's delivery, and one after all lines are read,
      leave the same recorder. */
  lemma {:induction false} StopWhileHearing(r: Recorder, parse: Parser, lines: seq<string>)
    ensures HearLines(Stop(r), parse, lines) == Stop(HearLines(r, parse, lines))
    decreases |lines|
  {
    if lines != [] {
      assert HearLine(Stop(r), parse, lines[0]) == Stop(HearLine(r, parse, lines[0]));
      StopWhileHearing(HearLine(r, parse, lines[0]), parse, lines[1..]);
    }
  }

  /** GstRecorder. What the disk, the process table and the pipe answer is an
      argument; the sink is the daemon, which may call Stop before it returns. */
  class GstRecorder {
    const parse: Parser
    var phase: Phase
    var eventId: EventId
    var child: bool
    var detector: bool
    var detectorInput: string
    var verdictSent: bool
    var killed: bool
    ghost var reaped: bool
    ghost var starts: seq<EventId>
    ghost var current: nat
    ghost var said: seq<Report>

    ghost function View(): Recorder reads this {
      Recorder(phase, eventId, child, reaped, detector, detectorInput, verdictSent, killed, starts, current, said)
    }

    constructor (parse: Parser)
      ensures this.parse == parse && View() == Fresh()
    {
      this.parse := parse;
      phase, eventId, child, detector, detectorInput := AtRest, "", false, false, "";
      verdictSent, killed := false, false;
      reaped, starts, current, said := false, [], 0, [];
    }

    method Start(id: EventId, answers: bool, launch: Launch, found: Found)
      modifies this
      ensures View() == RecorderRules.Start(old(View()), id, answers, launch, found)
    {
      hide Launched, Begun, RecorderRules.Refuse;
      if phase != AtRest || launch == NoSpool {
        Refuse(id);
        return;
      }
      Begin(id);
      LaunchChild(answers, launch, found);
    }

    /** A start that goes nowhere still gets its end reported. */
    method Refuse(id: EventId)
      modifies this`starts, this`said
      ensures View() == RecorderRules.Refuse(old(View()), id)
    {
      said := said + [Report(|starts|, RecordingFinished(id, "", false, 0, 0))];
      starts := starts + [id];
    }

    method Begin(id: EventId)
      modifies this
      ensures View() == Begun(old(View()), id)
    {
      starts, current := starts + [id], |starts|;
      eventId, killed, verdictSent, detectorInput := id, false, false, "";
    }

    method LaunchChild(answers: bool, launch: Launch, found: Found)
      requires launch != NoSpool
      modifies this
      ensures View() == Launched(old(View()), answers, launch, found)
    {
      hide Conclusion;
      if launch == NoProcess {
        Conclude(false, found);
        return;
      }
      child, detector := true, answers;
      if launch == NoWatch {
        ReleaseChild();
        Conclude(false, found);
        return;
      }
      phase := Rolling;
    }

    method Stop()
      modifies this`phase
      ensures View() == RecorderRules.Stop(old(View()))
    {
      if phase != Rolling {
        return;
      }
      phase := Flushing;
    }

    method OnTimer()
      modifies this`phase, this`killed
      ensures View() == RecorderRules.Timer(old(View()))
    {
      if phase == Rolling {
        Stop();
      } else if phase == Flushing {
        killed := true;
      }
    }

    /** Whatever the pipe still holds is heard before the end is reported. */
    method OnChildExit(clean: bool, chunk: string, closed: bool, found: Found)
      modifies this
      ensures View() == RecorderRules.Conclude(RecorderRules.Reap(old(View()), parse, chunk, closed), clean, found)
    {
      hide Listen;
      reaped := true;
      ghost var stopped := ReadDetector(chunk, closed);
      ReleaseChild();
      Conclude(clean && !killed, found);
    }

    method ReleaseChild()
      modifies this`child, this`reaped, this`detector, this`detectorInput
      ensures View() == Release(old(View()))
    {
      child, reaped, detector, detectorInput := false, false, false, "";
    }

    method ReadDetector(chunk: string, closed: bool) returns (ghost stopped: bool)
      modifies this
      ensures View() == StopIf(stopped, Listen(old(View()), parse, chunk, closed))
    {
      stopped := false;
      if !detector {
        return;
      }
      detectorInput := detectorInput + chunk;
      detector := !closed;
      assert HearAll(View(), parse) == Listen(old(View()), parse, chunk, closed);
      hide Listen;
      stopped := SplitLines();
    }

    /** Takes each complete line off the buffer, and handles it. */
    method SplitLines() returns (ghost stopped: bool)
      modifies this
      ensures View() == StopIf(stopped, HearAll(old(View()), parse))
    {
      hide Lines, Tail, FirstNewline, HearLines, HearLine, HearAll;
      stopped := false;
      var newline := FirstNewline(detectorInput);
      while newline < |detectorInput|
        invariant newline == FirstNewline(detectorInput) <= |detectorInput|
        invariant HearAll(View(), parse) == StopIf(stopped, HearAll(old(View()), parse))
        decreases |detectorInput|
      {
        HearTurn(View(), parse);
        var line := detectorInput[..newline];
        detectorInput := detectorInput[newline + 1..];
        ghost var now := HandleLine(line);
        stopped := stopped || now;
        newline := FirstNewline(detectorInput);
      }
      HearNone(View(), parse);
    }

    /** Reports at most once for each start; verdictSent remembers that it did. */
    method HandleLine(line: string) returns (ghost stopped: bool)
      modifies this`verdictSent, this`said, this`phase
      ensures View() == StopIf(stopped, HearLine(old(View()), parse, line))
      ensures HearAll(View(), parse) == StopIf(stopped, HearAll(HearLine(old(View()), parse, line), parse))
    {
      stopped := false;
      var spoken := parse(line);
      if spoken.Some? && !verdictSent {
        verdictSent := true;
        said := said + [Report(current, DetectionResult(eventId, VerdictOf(spoken.value.word), spoken.value.faces))];
        var nobody: bool := *;
        if nobody {
          stopped := true;
          Stop();
        }
      }
      ghost var heard := HearLine(old(View()), parse, line);
      StopWhileHearing(heard.(buffer := Tail(heard.buffer)), parse, Lines(heard.buffer));
    }

    method Conclude(clean: bool, found: Found)
      modifies this`phase, this`eventId, this`said
      ensures View() == Conclusion(old(View()), clean, found)
    {
      var ok := clean && found.bytes >= MIN_PLAUSIBLE_BYTES;
      var finished := RecordingFinished(eventId, found.path, ok, found.duration, found.bytes);
      phase, eventId := AtRest, "";
      said := said + [Report(current, finished)];
    }
  }
}
