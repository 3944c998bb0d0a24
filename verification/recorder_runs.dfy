/** What the recorder reports, over any interleaving: the first word its child spoke,
    however the pipe cut it up, and an end that says whether the clip can be played. */
module RecorderRuns {
  import opened Types
  import opened LineRules
  import opened RecorderRules

  /** What the recording under way has been through: what its child wrote, whether it
      was told to stop, and whether the time it was given after that ran out. */
  datatype Life = Life(text: string, told: bool, late: bool)

  function LifeOf(parse: Parser, steps: seq<Step>): Life
    decreases |steps|
  {
    if steps == [] then Life("", false, false)
    else
      var before := steps[..|steps| - 1];
      var r, life := Play(parse, before), LifeOf(parse, before);
      match steps[|steps| - 1]
      case DoStart(_, _, launch, _) => if r.phase == AtRest && launch != NoSpool then Life("", false, false) else life
      case DoStop => life.(told := true)
      case DoTimer => life.(told := true, late := life.late || life.told)
      case DoRead(chunk, _) => if r.piped && !r.reaped then life.(text := life.text + chunk) else life
      case DoReap(chunk, _) => if r.piped && !r.reaped then life.(text := life.text + chunk) else life
      case DoConclude(_, _) => life
  }

  /** The first line that is a verdict at all. */
  function FirstWord(parse: Parser, lines: seq<string>): Option<Spoken>
    decreases |lines|
  {
    if lines == [] then None
    else if parse(lines[0]).Some? then parse(lines[0])
    else FirstWord(parse, lines[1..])
  }

  lemma {:induction false} FirstWordOfTwo(parse: Parser, a: seq<string>, b: seq<string>)
    ensures FirstWord(parse, a + b) == if FirstWord(parse, a).Some? then FirstWord(parse, a) else FirstWord(parse, b)
    decreases |a|
  {
    if a == [] {
      assert a + b == b;
    } else {
      assert (a + b)[1..] == a[1..] + b;
      FirstWordOfTwo(parse, a[1..], b);
    }
  }

  /** The report of a word; any the daemon does not know is an unknown. */
  function Reported(r: Recorder, spoken: Spoken): Report {
    var verdict := if spoken.word == "person" then Person
                   else if spoken.word == "no-person" then NoPerson
                   else Verdict.Unknown;
    Report(r.current, DetectionResult(r.id, verdict, spoken.faces))
  }

  lemma {:induction false} HearingIsTheFirstWord(r: Recorder, parse: Parser, lines: seq<string>)
    ensures var t := HearLines(r, parse, lines); var first := FirstWord(parse, lines);
      if r.verdictSent || first.None? then t == r
      else t == r.(verdictSent := true, said := r.said + [Reported(r, first.value)])
    decreases |lines|
  {
    if lines != [] { HearingIsTheFirstWord(HearLine(r, parse, lines[0]), parse, lines[1..]); }
  }

  /** What the recorder knows of the recording under way is its life. */
  ghost predicate Knows(r: Recorder, parse: Parser, life: Life) {
    Busy(r) ==>
      && (r.phase == Flushing <==> life.told) && r.killed == life.late
      && (r.piped ==> r.buffer == Tail(life.text))
      && var first := FirstWord(parse, Lines(life.text));
        r.verdictSent == first.Some? && (first.Some? ==> Reported(r, first.value) in r.said)
  }

  lemma ListenKnows(r: Recorder, parse: Parser, life: Life, chunk: string, closed: bool)
    requires Knows(r, parse, life) && Busy(r) && r.piped
    ensures Knows(Listen(r, parse, chunk, closed), parse, life.(text := life.text + chunk))
  {
    hide Lines, Tail, FirstWord, HearLines;
    ReadOn(life.text, chunk);
    FirstWordOfTwo(parse, Lines(life.text), Lines(r.buffer + chunk));
    HearingIsTheFirstWord(r.(buffer := Tail(r.buffer + chunk), piped := !closed), parse, Lines(r.buffer + chunk));
  }

  lemma NothingSaidYet(parse: Parser)
    ensures Lines("") == [] && FirstWord(parse, Lines("")) == None && Tail("") == ""
  {}

  lemma {:induction false} KnowsRun(parse: Parser, steps: seq<Step>)
    ensures Knows(Play(parse, steps), parse, LifeOf(parse, steps))
    decreases |steps|
  {
    if steps != [] {
      hide Take, Contract, Knows;
      var before := steps[..|steps| - 1];
      KnowsRun(parse, before);
      ContractHolds(parse, before);
      KnowsStep(parse, before, steps[|steps| - 1]);
      assert steps == before + [steps[|steps| - 1]];
    } else {
      hide Lines, FirstWord;
    }
  }

  lemma KnowsStep(parse: Parser, before: seq<Step>, step: Step)
    requires var r := Play(parse, before); Contract(r) && Knows(r, parse, LifeOf(parse, before))
    ensures Knows(Take(Play(parse, before), parse, step), parse, LifeOf(parse, before + [step]))
  {
    hide Lines, Tail, FirstWord, Listen;
    var steps := before + [step];
    assert steps[..|steps| - 1] == before && steps[|steps| - 1] == step;
    var r, life := Play(parse, before), LifeOf(parse, before);
    match step
    case DoStart(_, _, _, _) => NothingSaidYet(parse);
    case DoRead(chunk, closed) => PipeKnows(r, parse, life, chunk, closed);
    case DoReap(chunk, closed) => PipeKnows(r.(reaped := true), parse, life, chunk, closed);
    case _ =>
  }

  lemma PipeKnows(r: Recorder, parse: Parser, life: Life, chunk: string, closed: bool)
    requires Knows(r, parse, life) && (r.piped ==> Busy(r))
    ensures Knows(Listen(r, parse, chunk, closed), parse, if r.piped then life.(text := life.text + chunk) else life)
  {
    hide Knows;
    if r.piped { ListenKnows(r, parse, life, chunk, closed); }
  }

  lemma OnlyOneSoFar(r: Recorder, j: nat, k: nat)
    requires Contract(r) && Busy(r) && j < |r.said| && k < |r.said| && r.said[j].start == r.said[k].start == r.current
    ensures j == k
  {
    assert forall a, b :: 0 <= a < b < |r.said| ==> InOrder(r.said[a], r.said[b]);
  }

  /** While a recording runs, the one verdict reported for it is the first word in all
      its child has written so far, and none is exactly when there is no such word. */
  lemma TheFirstWordIsReported(parse: Parser, steps: seq<Step>)
    requires Busy(Play(parse, steps))
    ensures var r := Play(parse, steps); var first := FirstWord(parse, Lines(LifeOf(parse, steps).text));
      && (first.Some? <==> exists k :: 0 <= k < |r.said| && r.said[k].start == r.current)
      && forall k :: 0 <= k < |r.said| && r.said[k].start == r.current ==> r.said[k] == Reported(r, first.value)
  {
    hide Play, LifeOf, Lines, FirstWord, Tail;
    KnowsRun(parse, steps);
    ContractHolds(parse, steps);
    var r := Play(parse, steps);
    var first := FirstWord(parse, Lines(LifeOf(parse, steps).text));
    forall k | 0 <= k < |r.said| && r.said[k].start == r.current
      ensures first.Some? && r.said[k] == Reported(r, first.value)
    {
      var j :| 0 <= j < |r.said| && r.said[j] == Reported(r, first.value);
      OnlyOneSoFar(r, j, k);
    }
    if first.Some? {
      var j :| 0 <= j < |r.said| && r.said[j] == Reported(r, first.value);
    }
  }

  /** The end that is reported is about the recording under way and what is on disk; the
      clip can be played exactly when its process ended cleanly, with the time it was
      given to finish not run out, and left at least a kilobyte. */
  lemma TheEndIsHonest(parse: Parser, steps: seq<Step>, clean: bool, f: Found)
    requires Play(parse, steps).reaped
    ensures var r := Play(parse, steps); var t := Take(r, parse, DoConclude(clean, f));
      && t.phase == AtRest
      && t.said == r.said + [Report(r.current, RecordingFinished(r.id, f.path,
           clean && !LifeOf(parse, steps).late && f.bytes >= 1024, f.duration, f.bytes))]
  {
    hide Play, LifeOf, Lines, FirstWord, Tail;
    KnowsRun(parse, steps);
    ContractHolds(parse, steps);
  }

  /** A start gets the recorder rolling, with nothing said; or, when it is busy or
      anything goes wrong, it is answered there and then with an end that is no clip. */
  lemma AStartRollsOrEnds(parse: Parser, steps: seq<Step>, id: EventId, answers: bool, launch: Launch, f: Found)
    ensures var r := Play(parse, steps); var t := Take(r, parse, DoStart(id, answers, launch, f)); var n := |r.said|;
      && t.starts == r.starts + [id]
      && if r.phase == AtRest && launch == Running then
           && t.phase == Rolling && t.child && t.piped == answers
           && t.id == id && t.current == |r.starts| && t.said == r.said
         else
           && t.phase == r.phase && |t.said| == n + 1 && t.said[..n] == r.said && t.said[n].start == |r.starts|
           && t.said[n].event.RecordingFinished? && t.said[n].event.id == id && !t.said[n].event.ok
  {
    hide Play;
    ContractHolds(parse, steps);
  }
}
