/** The person detector's verdict (pi/record-clip.py): silence has to be earned, two hits
    in three are a person, and there is one answer however its three threads
    interleave. What the model makes of a frame is taken as given with the frame. */
module DetectorRules {
  import opened Types

  /** A frame as the detector's tests see it; fails is whether judging it raises. */
  datatype Frame = Frame(wellSized: bool, bright: bool, fails: bool, overThreshold: bool)

  /** A frame the detector took, when, and which of those offered it was. */
  datatype Taken = Taken(at: Time, frame: Frame, nr: nat)

  datatype Why =
    | RecordingEnded | Failed | NobodySaved | NoFrameInTime | OnlyWho
    | Score | Judged | NoFrames | TooDark | TooSlow

  datatype Line = Line(verdict: Verdict, why: Why)

  const SETTLE: nat := 500  // milliseconds
  const HITS_NEEDED: nat := 2
  const HITS_OF: nat := 3

  function Hits(s: seq<bool>): nat
    decreases |s|
  {
    if s == [] then 0 else Hits(s[..|s| - 1]) + (if s[|s| - 1] then 1 else 0)
  }

  /** What a bounded deque holds after s was appended to it. */
  function Window(s: seq<bool>): seq<bool> {
    if |s| <= HITS_OF then s else s[|s| - HITS_OF..]
  }

  /** Two frames over the threshold are at least three judged frames apart. */
  ghost predicate Sparse(s: seq<bool>) {
    forall i, j :: 0 <= i < j < |s| && s[i] && s[j] ==> j - i >= HITS_OF
  }

  /** The last frame is over the threshold and so is one of the two before it. */
  ghost predicate TwoInThree(s: seq<bool>) {
    exists i :: 0 <= i < |s| - 1 && |s| - 1 - i < HITS_OF && s[i] && s[|s| - 1]
  }

  /** Long enough after the first frame for the exposure to have settled. */
  predicate Settled(taken: seq<Taken>, k: nat)
    requires k < |taken|
  {
    taken[k].at - taken[0].at >= SETTLE
  }

  /** The scores of the frames that are judged: settled, of the right size, not too
      dark, and no trouble to the model. */
  function Scores(taken: seq<Taken>): seq<bool>
    decreases |taken|
  {
    if taken == [] then []
    else
      var n := |taken| - 1;
      var f := taken[n].frame;
      Scores(taken[..n])
        + (if Settled(taken, n) && f.wellSized && f.bright && !f.fails then [f.overThreshold] else [])
  }

  function Darks(taken: seq<Taken>): nat
    decreases |taken|
  {
    if taken == [] then 0
    else
      var n := |taken| - 1;
      Darks(taken[..n]) + (if Settled(taken, n) && taken[n].frame.wellSized && !taken[n].frame.bright then 1 else 0)
  }

  /** Looking at it raises: a wrong size always, the model only where it is asked. */
  predicate Breaks(f: Frame, ring: bool) { !f.wellSized || (f.fails && (ring || f.bright)) }

  lemma TakenOneMore(taken: seq<Taken>, next: Taken)
    ensures var t := taken + [next]; var f := next.frame; var settled := taken != [] && next.at - taken[0].at >= SETTLE;
      && Scores(t)
         == (if settled && f.wellSized && f.bright && !f.fails then Scores(taken) + [f.overThreshold] else Scores(taken))
      && Darks(t) == Darks(taken) + (if settled && f.wellSized && !f.bright then 1 else 0)
  {
    assert (taken + [next])[..|taken|] == taken;
  }

  lemma HitsGrow(s: seq<bool>, hit: bool)
    ensures Hits(s + [hit]) == Hits(s) + (if hit then 1 else 0)
  {
    assert (s + [hit])[..|s|] == s;
  }

  lemma HitsOfFew(a: bool, b: bool, c: bool)
    ensures Hits([]) == 0
    ensures Hits([a]) == (if a then 1 else 0)
    ensures Hits([a, b]) == (if a then 1 else 0) + (if b then 1 else 0)
    ensures Hits([a, b, c]) == (if a then 1 else 0) + (if b then 1 else 0) + (if c then 1 else 0)
  {
    hide Hits;
    assert [] + [a] == [a] && [a] + [b] == [a, b] && [a, b] + [c] == [a, b, c];
    NoHits();
    HitsGrow([], a);
    HitsGrow([a], b);
    HitsGrow([a, b], c);
  }

  lemma NoHits()
    ensures Hits([]) == 0
  {}

  /** The sliding window decides the spacing, one frame at a time, exactly. */
  lemma WindowDecides(s: seq<bool>, hit: bool)
    requires Sparse(s)
    ensures Hits(Window(s + [hit])) < HITS_NEEDED <==> Sparse(s + [hit])
    ensures Hits(Window(s + [hit])) >= HITS_NEEDED <==> TwoInThree(s + [hit])
  {
    hide Hits;
    var t := s + [hit];
    var n := |t|;
    NoHits();
    if n == 1 {
      assert Window(t) == [hit];
      HitsOfFew(hit, false, false);
    } else if n == 2 {
      assert Window(t) == [t[0], hit];
      HitsOfFew(t[0], hit, false);
      assert t[0] && hit ==> TwoInThree(t);
    } else {
      assert Window(t) == [t[n - 3], t[n - 2], hit];
      HitsOfFew(t[n - 3], t[n - 2], hit);
      assert t[n - 3] == s[n - 3] && t[n - 2] == s[n - 2];
      assert t[n - 3] && hit ==> TwoInThree(t);
      assert t[n - 2] && hit ==> TwoInThree(t);
    }
  }

  lemma FewAreFew(s: seq<bool>)
    requires |s| < 3
    ensures |s| == 0 ==> Hits(s) == 0
    ensures |s| == 1 ==> Hits(s) <= 1
    ensures |s| == 2 ==> Hits(s) == (if s[0] then 1 else 0) + (if s[1] then 1 else 0)
  {
    hide Hits;
    if |s| == 0 {
      NoHits();
    } else if |s| == 1 {
      HitsOfFew(s[0], false, false);
      assert s == [s[0]];
    } else {
      HitsOfFew(s[0], s[1], false);
      assert s == [s[0], s[1]];
    }
  }

  lemma ThreeMore(s: seq<bool>)
    requires |s| >= 3
    ensures var n := |s|;
      Hits(s) == Hits(s[..n - 3]) + (if s[n - 3] then 1 else 0) + (if s[n - 2] then 1 else 0) + (if s[n - 1] then 1 else 0)
  {
    hide Hits;
    var n := |s|;
    assert s[..n - 2] == s[..n - 3] + [s[n - 3]];
    assert s[..n - 1] == s[..n - 2] + [s[n - 2]];
    assert s == s[..n - 1] + [s[n - 1]];
    HitsGrow(s[..n - 3], s[n - 3]);
    HitsGrow(s[..n - 2], s[n - 2]);
    HitsGrow(s[..n - 1], s[n - 1]);
  }

  /** Hence a silence has at most one hit for every three frames judged. */
  lemma {:induction false} SparseHitsAreFew(s: seq<bool>)
    requires Sparse(s)
    ensures HITS_OF * Hits(s) <= |s| + 2
    decreases |s|
  {
    hide Hits;
    if |s| < 3 {
      FewAreFew(s);
    } else {
      SparseHitsAreFew(s[..|s| - 3]);
      ThreeMore(s);
    }
  }
}

module Detectors {
  import opened Types
  import opened DetectorRules

  class Detector {
    const ring: bool
    const savedFaces: bool   // there is somebody a ring could be named after
    const loads: bool        // the model can be loaded
    const minFrames: nat
    const deadline: Time
    var frame: Option<Frame>
    var stopping: bool
    var finished: bool
    var offered: nat
    var settling: nat
    var dark: nat
    var judged: nat
    var lines: seq<Line>           // what was printed for the daemon
    ghost var taken: seq<Taken>    // every frame the detector has been through

    /** What each reason means, and the only verdict it comes with. */
    ghost predicate Fits(l: Line) reads this {
      match l.why
      case RecordingEnded => l.verdict.Unknown? && stopping
      case Failed => l.verdict.Unknown? && (!loads || (taken != [] && Breaks(taken[|taken| - 1].frame, ring)))
      case NobodySaved => l.verdict.Person? && ring && !savedFaces
      case NoFrameInTime => l.verdict.Unknown? && ring
      case OnlyWho => l.verdict.Person? && ring && taken != []
      case Score => l.verdict.Person? && !ring && TwoInThree(Scores(taken))
      case Judged => l.verdict.NoPerson? && !ring && Sparse(Scores(taken)) && |Scores(taken)| >= minFrames
      case NoFrames => l.verdict.Unknown? && !ring && |Scores(taken)| < minFrames && offered == 0
      case TooDark =>
        l.verdict.Unknown? && !ring && |Scores(taken)| < minFrames && offered > 0 && Darks(taken) > |Scores(taken)|
      case TooSlow =>
        l.verdict.Unknown? && !ring && |Scores(taken)| < minFrames && offered > 0 && Darks(taken) <= |Scores(taken)|
    }

    ghost predicate Counted() reads this {
      !ring ==> judged == |Scores(taken)| && dark == Darks(taken)
    }

    /** No frame is taken twice, and each was the newest of its time. */
    ghost predicate Fresh() reads this {
      && (forall j, k :: 0 <= j < k < |taken| ==> taken[j].nr < taken[k].nr)
      && (taken != [] ==> taken[|taken| - 1].nr <= offered)
      && (frame.Some? ==> offered > 0 && (taken != [] ==> taken[|taken| - 1].nr < offered))
    }

    ghost predicate Valid() reads this {
      && |lines| <= 1 && (finished <==> lines != [])
      && Counted() && Fresh() && (lines != [] ==> Fits(lines[0]))
    }

    constructor (ring: bool, savedFaces: bool, loads: bool, minFrames: nat, deadline: Time)
      ensures Valid() && !finished && lines == [] && taken == []
    {
      this.ring, this.savedFaces, this.loads := ring, savedFaces, loads;
      this.minFrames, this.deadline := minFrames, deadline;
      frame, stopping, finished, offered, settling, dark, judged := None, false, false, 0, 0, 0, 0;
      lines, taken := [], [];
    }

    /** The streaming thread: the newest frame wins. */
    method Offer(data: Frame)
      requires Valid()
      modifies this`offered, this`frame
      ensures Valid()
      ensures if finished then offered == old(offered) && frame == old(frame)
              else offered == old(offered) + 1 && frame == Some(data)
    {
      if finished {
        return;
      }
      offered := offered + 1;
      frame := Some(data);
    }

    /** The first word stands, whoever says it. */
    method Say(verdict: Verdict, why: Why)
      requires Valid() && Fits(Line(verdict, why))
      modifies this`finished, this`lines
      ensures Valid() && finished
      ensures lines == if old(finished) then old(lines) else [Line(verdict, why)]
    {
      if finished {
        return;
      }
      finished := true;
      lines := lines + [Line(verdict, why)];
    }

    /** The main thread, at the recording's end: it asks the detector to stop, and
        then waits a while. */
    method BeginFinish()
      requires Valid()
      modifies this`stopping
      ensures Valid() && stopping
    {
      stopping := true;
    }

    /** The wait is over; by now the detector may have answered. */
    method EndFinish()
      requires Valid() && stopping
      modifies this`finished, this`lines
      ensures Valid() && finished
      ensures lines == if old(finished) then old(lines) else [Line(Verdict.Unknown, RecordingEnded)]
    {
      Say(Verdict.Unknown, RecordingEnded);
    }

    /** What the other two threads may do between two steps of this one: any frames
        offered, and none, either or both halves of the end. */
    method Elsewhere()
      requires Valid()
      modifies this`offered, this`frame, this`stopping, this`finished, this`lines
      ensures Valid() && (old(stopping) ==> stopping)
      ensures offered > old(offered) || (offered == old(offered) && frame == old(frame))
      ensures old(finished) ==> finished && lines == old(lines)
      ensures !old(finished) && finished ==> lines == [Line(Verdict.Unknown, RecordingEnded)]
    {
      var offers: nat, begins: bool, ends: bool := *, *, *;
      for k := 0 to offers
        invariant Valid() && finished == old(finished) && lines == old(lines) && stopping == old(stopping)
        invariant offered > old(offered) || (offered == old(offered) && frame == old(frame))
      {
        var data: Frame := *;
        Offer(data);
      }
      if begins {
        BeginFinish();
      }
      if stopping && ends {
        EndFinish();
      }
    }

    /** Nothing seen so far, and nobody else has said more than unknown. */
    ghost predicate Undecided(hits: seq<bool>) reads this {
      && Sparse(Scores(taken)) && hits == Window(Scores(taken))
      && (ring ==> taken == [])
      && (finished ==> lines == [Line(Verdict.Unknown, RecordingEnded)])
    }

    ghost function FirstAt(): Option<Time> reads this {
      if taken == [] then None else Some(taken[0].at)
    }

    /** The detector's own thread, for as long as it is let run: the times it wakes
        up at are given. */
    method Detect(wakes: seq<Time>)
      requires Valid() && taken == [] && Undecided([])
      modifies this
      ensures Valid()
      // By the deadline there is an answer.
      ensures (exists k :: 0 <= k < |wakes| && wakes[k] >= deadline) ==> finished
      // Two hits in three judged frames are a person, unless the recording ended first.
      ensures !Sparse(Scores(taken)) && !ring ==>
        finished && (lines[0] == Line(Person, Score) || lines[0] == Line(Verdict.Unknown, RecordingEnded))
    {
      hide Scores, Sparse, Window, Darks, TwoInThree;
      var ready := Prepare();
      if !ready {
        return;
      }
      var hits: seq<bool>, firstFrameAt: Option<Time>, over: bool := [], None, false;
      for turn := 0 to |wakes|
        invariant Valid() && Undecided(hits) && firstFrameAt == FirstAt() && loads
        invariant forall k :: 0 <= k < turn ==> wakes[k] < deadline
      {
        Elsewhere();
        hits, firstFrameAt, over := Turn(wakes[turn], hits, firstFrameAt);
        if over {
          return;
        }
      }
    }

    /** One turn of its loop: the frame that is waiting, if there is still time. */
    method Turn(now: Time, before: seq<bool>, since: Option<Time>)
      returns (hits: seq<bool>, firstFrameAt: Option<Time>, over: bool)
      requires Valid() && Undecided(before) && since == FirstAt() && loads
      modifies this
      ensures Valid() && (if over then finished else Undecided(hits) && firstFrameAt == FirstAt() && now < deadline)
      ensures taken == if old(stopping) || now >= deadline || old(frame).None? then old(taken)
                       else old(taken) + [Taken(now, old(frame).value, old(offered))]
      ensures old(stopping) || now >= deadline ==> over
      ensures !ring && !Sparse(Scores(taken)) ==>
        over && (lines[0] == Line(Person, Score) || lines[0] == Line(Verdict.Unknown, RecordingEnded))
    {
      hide Scores, Sparse, Window, Darks, TwoInThree;
      hits, firstFrameAt, over := before, since, true;
      var data, nr := frame, offered;
      frame := None;
      if stopping {
        Elsewhere();
        Say(Verdict.Unknown, RecordingEnded);
        return;
      }
      if now >= deadline {
        Elsewhere();
        TimeIsUp();
        return;
      }
      if data.None? {
        over := false;
        return;
      }
      if ring {
        OnlyLookForWho(data.value, now, nr);
        return;
      }
      if firstFrameAt.None? {
        firstFrameAt := Some(now);
      }
      if now - firstFrameAt.value < SETTLE {
        TakenOneMore(taken, Taken(now, data.value, nr));
        settling := settling + 1;
        taken := taken + [Taken(now, data.value, nr)];
        over := false;
        return;
      }
      hits, over := Look(data.value, now, nr, hits);
    }

    /** A ring with nobody to look for is answered at once; otherwise the model has
        to load. */
    method Prepare() returns (ready: bool)
      requires Valid() && taken == [] && Undecided([])
      modifies this`finished, this`lines, this`stopping, this`offered, this`frame
      ensures Valid() && ready == (loads && !(ring && !savedFaces))
      ensures if ready then Undecided([]) else finished
      ensures !ready ==>
        lines[0].why.RecordingEnded? || lines[0].why == if ring && !savedFaces then NobodySaved else Why.Failed
    {
      Elsewhere();
      if ring && !savedFaces {
        Say(Person, NobodySaved);
        return false;
      }
      if !loads {
        Say(Verdict.Unknown, Why.Failed);
        return false;
      }
      return true;
    }

    method TimeIsUp()
      requires Valid() && Sparse(Scores(taken))
      modifies this`finished, this`lines
      ensures Valid() && finished
      ensures ring && !old(finished) ==> lines == [Line(Verdict.Unknown, NoFrameInTime)]
    {
      if ring {
        Say(Verdict.Unknown, NoFrameInTime);
      } else {
        Conclude();
      }
    }

    /** In ring mode the first frame answers, whatever its score. */
    method OnlyLookForWho(f: Frame, now: Time, nr: nat)
      requires Valid() && ring && taken == [] && frame.None? && 0 < nr <= offered
      requires finished ==> lines[0].why.RecordingEnded?
      modifies this`finished, this`lines, this`stopping, this`offered, this`frame, this`taken
      ensures Valid() && finished && taken == [Taken(now, f, nr)]
      ensures lines[0].why.RecordingEnded? || lines[0].why == if Breaks(f, true) then Why.Failed else OnlyWho
    {
      hide Scores, Darks;
      Elsewhere();
      taken := [Taken(now, f, nr)];
      if f.wellSized && !f.fails {
        Say(Person, OnlyWho);
      } else {
        Say(Verdict.Unknown, Why.Failed);
      }
    }

    /** One settled frame: judged if it can be, and the answer if it is the second
        hit in three. */
    method Look(f: Frame, now: Time, nr: nat, before: seq<bool>) returns (hits: seq<bool>, decided: bool)
      requires Valid() && !ring && Undecided(before) && frame.None? && nr <= offered
      requires taken != [] && now - taken[0].at >= SETTLE && taken[|taken| - 1].nr < nr
      modifies this`finished, this`lines, this`stopping, this`offered, this`frame
      modifies this`dark, this`judged, this`taken
      ensures Valid() && taken == old(taken) + [Taken(now, f, nr)]
      ensures if decided then finished else Undecided(hits)
      ensures decided <==> Breaks(f, false) || !Sparse(Scores(taken))
      ensures !Sparse(Scores(taken)) ==>
        lines[0] == Line(Person, Score) || lines[0] == Line(Verdict.Unknown, RecordingEnded)
    {
      hide Hits, Scores, Darks, Sparse, TwoInThree, Window;
      hits, decided := before, false;
      Elsewhere();
      ghost var scores := Scores(taken);
      Count(f, now, nr);
      if !f.wellSized || (f.bright && f.fails) {
        Say(Verdict.Unknown, Why.Failed);
        decided := true;
        return;
      }
      if !f.bright {
        return;
      }
      WindowDecides(scores, f.overThreshold);
      hits := Appended(before, f.overThreshold);
      if Hits(hits) >= HITS_NEEDED {
        Elsewhere();
        Say(Person, Score);
        decided := true;
      }
    }

    /** A settled frame is dark, judged, or neither. */
    method Count(f: Frame, now: Time, nr: nat)
      requires Valid() && !ring && (finished ==> lines[0].why.RecordingEnded?)
      requires taken != [] && now - taken[0].at >= SETTLE && taken[|taken| - 1].nr < nr <= offered
      requires frame.Some? ==> nr < offered
      modifies this`dark, this`judged, this`taken
      ensures Valid() && taken == old(taken) + [Taken(now, f, nr)]
      ensures Scores(taken) == if !f.wellSized || !f.bright || f.fails then Scores(old(taken))
                               else Scores(old(taken)) + [f.overThreshold]
    {
      hide Scores, Darks, Sparse, TwoInThree;
      TakenOneMore(taken, Taken(now, f, nr));
      taken := taken + [Taken(now, f, nr)];
      if f.wellSized && !f.bright {
        dark := dark + 1;
      } else if f.wellSized && !f.fails {
        judged := judged + 1;
      }
    }

    /** A deque of bounded length. */
    function Appended(hits: seq<bool>, hit: bool): (r: seq<bool>)
      ensures forall s: seq<bool> :: hits == Window(s) ==> r == Window(s + [hit])
    {
      if |hits| < HITS_OF then hits + [hit] else hits[|hits| - HITS_OF + 1..] + [hit]
    }

    /** Chooses between a silence and the three ways of not knowing. */
    method Conclude()
      requires Valid() && !ring && Sparse(Scores(taken))
      modifies this`finished, this`lines
      ensures Valid() && finished
      ensures !old(finished) ==> lines[0].why in {Judged, NoFrames, TooDark, TooSlow}
    {
      if judged >= minFrames {
        Say(NoPerson, Judged);
      } else if offered == 0 {
        Say(Verdict.Unknown, NoFrames);
      } else if dark > judged {
        Say(Verdict.Unknown, TooDark);
      } else {
        Say(Verdict.Unknown, TooSlow);
      }
    }
  }
}
