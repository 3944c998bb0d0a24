/** The spool over whole runs, from what comes in: which clips are kept, which go to
    make room, when the oldest is uploaded, and when a failed upload is tried again. */
module CoreSpooling {
  import opened Types
  import opened CoreRules
  import opened CoreRuns
  import opened CoreSpool
  import opened CoreDeadlines
  import B = BackoffRules
  import C = CoreDiscards
  import L = CoreLight
  import O = CoreOrders
  import S = CoreActions

  // ---- Which clips are kept ----

  /** The DiscardClips among some actions, in order. */
  function Dumps(actions: seq<Action>): seq<Action>
    decreases |actions|
  {
    if actions == [] then []
    else
      var last := actions[|actions| - 1];
      Dumps(actions[..|actions| - 1]) + (if last.DiscardClip? then [last] else [])
  }

  lemma {:induction false} DumpsSplit(a: seq<Action>, b: seq<Action>)
    ensures Dumps(a + b) == Dumps(a) + Dumps(b)
    decreases |b|
  {
    if b == [] {
      assert a + b == a;
    } else {
      assert (a + b)[..|a + b| - 1] == a + b[..|b| - 1];
      DumpsSplit(a, b[..|b| - 1]);
    }
  }

  lemma {:induction false} DumpsNone(a: seq<Action>)
    requires forall k :: 0 <= k < |a| ==> !a[k].DiscardClip?
    ensures Dumps(a) == []
    decreases |a|
  {
    if a != [] { DumpsNone(a[..|a| - 1]); }
  }

  lemma {:induction false} DumpsAll(a: seq<Action>)
    requires forall k :: 0 <= k < |a| ==> a[k].DiscardClip?
    ensures Dumps(a) == a
    decreases |a|
  {
    if a != [] { DumpsAll(a[..|a| - 1]); }
  }

  lemma DumpsSpared(p: Policy, now: Time, a: seq<Action>, b: seq<Action>)
    requires C.Spares(p, now, a, b)
    ensures Dumps(b) == Dumps(a)
  {
    hide Dumps;
    assert b == a + b[|a|..];
    DumpsSplit(a, b[|a|..]);
    DumpsNone(b[|a|..]);
  }

  /** The recording the report is about was running under that id, is worth a clip,
      and was not of nobody. */
  predicate KeepsClip(p: Policy, c: Camera, e: Event)
    requires e.RecordingFinished?
  {
    && e.ok && e.bytes > 0 && e.duration >= p.minClip
    && c.event.Some? && c.event.value.id == e.id && !c.event.value.unwanted
  }

  /** The spool with the clip of that recording queued last. */
  function WithNewest(s: State, e: Event): seq<PendingUpload>
    requires e.RecordingFinished? && s.camera.event.Some?
  {
    var a := s.camera.event.value;
    s.spool.uploads + [PendingUpload(Clip(a.id, e.path, a.kind, a.triggeredAt, e.duration, a.cutShort), e.bytes)]
  }

  /** The fewest of the oldest clips, sparing the one being uploaded, without which
      the rest fits; all of them when nothing less will do. */
  ghost predicate MakesRoom(p: Policy, uploads: seq<PendingUpload>, spared: nat, k: nat) {
    && spared + k <= |uploads|
    && (TotalBytes(Dropping(uploads, spared, k)) <= p.spoolMaxBytes || spared + k == |uploads|)
    && forall j :: 0 <= j < k ==> TotalBytes(Dropping(uploads, spared, j)) > p.spoolMaxBytes
  }

  lemma FinishDumps(p: Policy, s: State, i: Input)
    requires i.event.RecordingFinished?
    ensures Dumps(Dispatch(p, s, i).log.trace) == Dumps(s.log.trace) + C.Dumped(p, s, i.event)
  {
    hide Dispatch, C.Dumped, Dumps, C.Spares;
    var mid := C.FinishDumps(p, s, i);
    DumpsSpared(p, i.now, s.log.trace, mid);
    DumpsSpared(p, i.now, mid + C.Dumped(p, s, i.event), Dispatch(p, s, i).log.trace);
    DumpsSplit(mid, C.Dumped(p, s, i.event));
    C.DumpedDiscards(p, s, i.event);
    DumpsAll(C.Dumped(p, s, i.event));
  }

  lemma HandleDumps(p: Policy, s: State, i: Input)
    requires i.event.RecordingFinished?
    ensures Dumps(Handle(p, s, i).log.trace) == Dumps(s.log.trace) + C.Dumped(p, s, i.event)
    ensures var t := Handle(p, s, i).spool; t.(inFlight := Dispatch(p, s, i).spool.inFlight) == Dispatch(p, s, i).spool
  {
    hide Dispatch, Close, Dumps, C.Dumped;
    var s1 := Lapse(s, i.now);
    FinishDumps(p, s1, i);
    C.CloseSpares(p, Dispatch(p, s1, i), i.now);
    DumpsSpared(p, i.now, Dispatch(p, s1, i).log.trace, Handle(p, s, i).log.trace);
    Closing(p, Dispatch(p, s1, i), i.now);
    SameDumped(p, s, i);
    assert Dispatch(p, s1, i).spool == Dispatch(p, s, i).spool by { FinishSpools(p, s, i); FinishSpools(p, s1, i); }
  }

  lemma SameDumped(p: Policy, s: State, i: Input)
    requires i.event.RecordingFinished?
    ensures C.Dumped(p, Lapse(s, i.now), i.event) == C.Dumped(p, s, i.event)
  {}

  lemma {:induction false} InFlightIsQueued(p: Policy, inputs: seq<Input>)
    ensures var s := Run(p, inputs).spool; CapInv(p, s) && LedgerInv(s)
    decreases |inputs|
  {
    if inputs != [] {
      hide Handle, CapInv, LedgerInv;
      var n := |inputs| - 1;
      InFlightIsQueued(p, inputs[..n]);
      SpoolStep(p, Run(p, inputs[..n]), inputs[n]);
    }
  }

  lemma NewDumps(p: Policy, s: State, i: Input)
    requires i.event.RecordingFinished?
    ensures Dumps(NewActions(s, Handle(p, s, i))) == C.Dumped(p, s, i.event)
  {
    hide Handle, Dumps, C.Dumped, O.Wanted, O.Orders;
    var t := Handle(p, s, i);
    HandleDumps(p, s, i);
    O.NewOrders(p, s, i);
    DumpsSplit(s.log.trace, NewActions(s, t));
    O.SameSuffix(Dumps(s.log.trace), Dumps(NewActions(s, t)), C.Dumped(p, s, i.event));
  }
  /** In every reachable state the end of a recording queues its clip exactly when
      there is one to keep, makes room by dropping the oldest and no more of them than
      it must, and has exactly those files deleted; otherwise the spool stays as it is
      and the file, if there is one, goes. */
  lemma ClipIsKeptIff(p: Policy, inputs: seq<Input>, i: Input) returns (k: nat)
    requires i.event.RecordingFinished?
    ensures var s := Run(p, inputs); var t := Handle(p, s, i); var e := i.event;
      if KeepsClip(p, s.camera, e) then
        var full, spared := WithNewest(s, e), if s.spool.inFlight then 1 else 0;
        && MakesRoom(p, full, spared, k)
        && t.spool.uploads == full[..spared] + full[spared + k..]
        && Dumps(NewActions(s, t)) == Discards(ClipsOf(full[spared..spared + k]))
        && t.spool.history.accepted == s.spool.history.accepted + [full[|full| - 1].clip]
        && t.spool.history.evicted == s.spool.history.evicted + ClipsOf(full[spared..spared + k])
      else
        && t.spool.uploads == s.spool.uploads && t.spool.history == s.spool.history
        && Dumps(NewActions(s, t)) == if e.path == "" then [] else [DiscardClip(e.id, e.path)]
  {
    hide Run, Dispatch, Handle, Dumps, TotalBytes, ClipsOf, Evict, Discards, NewActions, LedgerInv;
    k := 0;
    var s := Run(p, inputs);
    InFlightIsQueued(p, inputs);
    NewDumps(p, s, i);
    HandleDumps(p, s, i);
    FinishSpools(p, s, i);
    if KeepsClip(p, s.camera, i.event) {
      var full, spared := WithNewest(s, i.event), if s.spool.inFlight then 1 else 0;
      k := EvictKeepsLongestFit(full, spared, p.spoolMaxBytes);
      assert MakesRoom(p, full, spared, k);
    }
  }

  // ---- First come, first gone ----

  /** Where in the order of acceptance each of these clips stands. */
  ghost predicate Standing(uploads: seq<PendingUpload>, accepted: seq<Clip>, at: seq<nat>) {
    && |at| == |uploads|
    && (forall k :: 0 <= k < |at| ==> at[k] < |accepted| && accepted[at[k]] == uploads[k].clip)
    && forall j, k :: 0 <= j < k < |at| ==> at[j] < at[k]
  }

  ghost predicate InOrder(s: Spool, at: seq<nat>) { Standing(s.uploads, s.history.accepted, at) }

  lemma StandingOneMore(uploads: seq<PendingUpload>, accepted: seq<Clip>, at: seq<nat>, x: PendingUpload)
    requires Standing(uploads, accepted, at)
    ensures Standing(uploads + [x], accepted + [x.clip], at + [|accepted|])
  {}

  lemma StandingLess(uploads: seq<PendingUpload>, accepted: seq<Clip>, at: seq<nat>, spared: nat, k: nat)
    requires Standing(uploads, accepted, at) && spared + k <= |uploads|
    ensures Standing(uploads[..spared] + uploads[spared + k..], accepted, at[..spared] + at[spared + k..])
  {
    var few, less := uploads[..spared] + uploads[spared + k..], at[..spared] + at[spared + k..];
    forall j | 0 <= j < |less| ensures less[j] < |accepted| && accepted[less[j]] == few[j].clip {
      var from := if j < spared then j else j + k;
      assert less[j] == at[from] && few[j] == uploads[from];
    }
  }

  /** Only three events reach the queue of clips, and the end of a handling none. */
  lemma UploadsStay(p: Policy, s: State, i: Input)
    requires !i.event.RecordingFinished?
    ensures var t := Handle(p, s, i).spool;
      && t.history.accepted == s.spool.history.accepted && t.history.evicted == s.spool.history.evicted
      && t.uploads
         == if i.event.UploadFinished? && i.event.ok && s.spool.uploads != [] && s.spool.uploads[0].clip.id == i.event.id
            then s.spool.uploads[1..] else s.spool.uploads
  {
    hide Close;
    var s1 := Lapse(s, i.now);
    CloseSpools(p, Dispatch(p, s1, i), i.now);
    if !TouchesSpool(i.event) {
      hide Dispatch;
      SpoolUntouched(p, s1, i);
    }
  }

  /** In every reachable state the clips wait in the order in which they were accepted. */
  lemma {:induction false} OldestFirst(p: Policy, inputs: seq<Input>) returns (at: seq<nat>)
    ensures InOrder(Run(p, inputs).spool, at)
    decreases |inputs|
  {
    if inputs == [] {
      at := [];
    } else {
      hide Handle, InOrder, MakesRoom;
      var n := |inputs| - 1;
      var s, i := Run(p, inputs[..n]), inputs[n];
      var before := OldestFirst(p, inputs[..n]);
      if i.event.RecordingFinished? {
        var k := ClipIsKeptIff(p, inputs[..n], i);
        at := OrderAtEnd(p, s, i, k, before);
      } else {
        UploadsStay(p, s, i);
        at := OrderElsewhere(s.spool, Run(p, inputs).spool, before);
      }
    }
  }

  lemma OrderAtEnd(p: Policy, s: State, i: Input, k: nat, before: seq<nat>) returns (at: seq<nat>)
    requires i.event.RecordingFinished? && InOrder(s.spool, before)
    requires var t := Handle(p, s, i).spool; var e := i.event;
      if KeepsClip(p, s.camera, e) then
        var full, spared := WithNewest(s, e), if s.spool.inFlight then 1 else 0;
        && spared + k <= |full|
        && t.uploads == full[..spared] + full[spared + k..]
        && t.history.accepted == s.spool.history.accepted + [full[|full| - 1].clip]
      else t.uploads == s.spool.uploads && t.history == s.spool.history
    ensures InOrder(Handle(p, s, i).spool, at)
  {
    hide Handle, Standing, WithNewest;
    at := before;
    if KeepsClip(p, s.camera, i.event) {
      var full, spared := WithNewest(s, i.event), if s.spool.inFlight then 1 else 0;
      var all := before + [|s.spool.history.accepted|];
      NewestIsLast(s, i.event);
      StandingOneMore(s.spool.uploads, s.spool.history.accepted, before, full[|full| - 1]);
      StandingLess(full, s.spool.history.accepted + [full[|full| - 1].clip], all, spared, k);
      at := all[..spared] + all[spared + k..];
    }
  }

  lemma NewestIsLast(s: State, e: Event)
    requires e.RecordingFinished? && s.camera.event.Some?
    ensures var full := WithNewest(s, e); full != [] && full == s.spool.uploads + [full[|full| - 1]]
  {}

  lemma OrderElsewhere(s: Spool, t: Spool, before: seq<nat>) returns (at: seq<nat>)
    requires InOrder(s, before) && t.history.accepted == s.history.accepted
    requires t.uploads == s.uploads || (s.uploads != [] && t.uploads == s.uploads[1..])
    ensures InOrder(t, at)
  {
    at := if t.uploads == s.uploads then before else before[1..];
  }

  /** A clip that makes room was accepted before every clip that stays, other than the
      one being uploaded; and that one stays, at the front. */
  lemma OldestGoFirst(p: Policy, inputs: seq<Input>, i: Input, v: nat, c: nat)
    requires var s := Run(p, inputs).spool; var t := Handle(p, Run(p, inputs), i).spool;
      && |s.history.evicted| <= v < |t.history.evicted|
      && (if s.inFlight then 1 else 0) <= c < |t.uploads|
    ensures var s := Run(p, inputs).spool; var t := Handle(p, Run(p, inputs), i).spool;
      && (exists a, b :: 0 <= a < b < |t.history.accepted|
            && t.history.accepted[a] == t.history.evicted[v] && t.history.accepted[b] == t.uploads[c].clip)
      && (s.inFlight ==> t.uploads != [] && s.uploads != [] && t.uploads[0] == s.uploads[0])
  {
    hide Run, Handle, MakesRoom, TotalBytes, NewActions, Dumps;
    var s := Run(p, inputs);
    if !i.event.RecordingFinished? { UploadsStay(p, s, i); }
    var at := OldestFirst(p, inputs);
    var k := ClipIsKeptIff(p, inputs, i);
    InFlightIsQueued(p, inputs);
    var full, spared := WithNewest(s, i.event), if s.spool.inFlight then 1 else 0;
    assert spared + k <= |full| by { RoomIsWithin(p, full, spared, k); }
    var all := at + [|s.spool.history.accepted|];
    var t := Handle(p, s, i).spool;
    var n := v - |s.spool.history.evicted|;
    assert t.history.evicted[v] == full[spared..spared + k][n].clip;
    assert t.history.accepted[all[spared + n]] == full[spared + n].clip;
    assert t.uploads[c] == full[c + k];
    assert t.history.accepted[all[c + k]] == full[c + k].clip;
  }

  lemma RoomIsWithin(p: Policy, uploads: seq<PendingUpload>, spared: nat, k: nat)
    requires MakesRoom(p, uploads, spared, k)
    ensures spared + k <= |uploads|
  {}

  // ---- The oldest is uploaded, when nothing stands in the way ----

  /** An UploadClip only ever leaves for the oldest clip queued, with the link up,
      nobody watching, no other on its way, and the time to try again come. */
  lemma TheOldestIsUploaded(p: Policy, inputs: seq<Input>, k: nat)
    requires inputs != []
    requires var s := Run(p, inputs[..|inputs| - 1]); var t := Run(p, inputs);
      |s.log.trace| <= k < |t.log.trace| && t.log.trace[k].UploadClip?
    ensures var s := Run(p, inputs[..|inputs| - 1]); var t := Run(p, inputs); var i := inputs[|inputs| - 1];
      && t.spool.uploads != [] && t.log.trace[k] == UploadClip(t.spool.uploads[0].clip) && t.spool.inFlight
      && L.Online(inputs) && !L.ShutDown(inputs) && t.camera.viewers == {}
      && (t.spool.retryAfter.None? || t.spool.retryAfter.value <= i.now)
      && (s.spool.inFlight ==> i.event.UploadFinished?)
      && forall j :: |s.log.trace| <= j < |t.log.trace| && t.log.trace[j].UploadClip? ==> j == k
  {
    hide Handle, L.Online, L.ShutDown;
    var n := |inputs| - 1;
    CameraRun(p, inputs[..n]);
    L.PanelRun(p, inputs);
    UploadsLeave(p, Run(p, inputs[..n]), inputs[n], k);
  }

  lemma UploadsLeave(p: Policy, s: State, i: Input, k: nat)
    requires CameraInv(s.camera, s.panel.shuttingDown)
    requires |s.log.trace| <= k < |Handle(p, s, i).log.trace| && Handle(p, s, i).log.trace[k].UploadClip?
    ensures var t := Handle(p, s, i);
      && t.spool.uploads != [] && t.log.trace[k] == UploadClip(t.spool.uploads[0].clip) && t.spool.inFlight
      && t.panel.online && !t.panel.shuttingDown && t.camera.viewers == {}
      && (t.spool.retryAfter.None? || t.spool.retryAfter.value <= i.now)
      && (s.spool.inFlight ==> i.event.UploadFinished?)
      && forall j :: |s.log.trace| <= j < |t.log.trace| && t.log.trace[j].UploadClip? ==> j == k
  {
    hide Dispatch, Close, S.Allowed, CameraInv;
    var s1 := Lapse(s, i.now);
    var s2 := Dispatch(p, s1, i);
    S.DispatchKeeps(p, s1, i);
    var mid := S.CloseAdds(p, s2, i.now);
    var up := if UploadReady(s2, i.now) then [UploadClip(s2.spool.uploads[0].clip)] else [];
    OnlyOneUpload(s.log.trace, s2.log.trace, mid, up, Handle(p, s, i).log.trace, k);
    CloseUploads(p, s2, i.now);
    if s.spool.inFlight && !i.event.UploadFinished? { StillOnItsWay(p, s1, i); }
  }

  lemma OnlyOneUpload(a: seq<Action>, b: seq<Action>, mid: seq<Action>, up: seq<Action>, c: seq<Action>, k: nat)
    requires a <= b <= mid && mid + up <= c && |up| <= 1 && |a| <= k < |c| && c[k].UploadClip?
    requires forall j :: |a| <= j < |mid| ==> !mid[j].UploadClip?
    requires forall j :: |mid + up| <= j < |c| ==> !c[j].UploadClip?
    ensures |up| == 1 && k == |mid| && c[k] == up[0]
    ensures forall j :: |a| <= j < |c| && c[j].UploadClip? ==> j == k
  {
    assert forall j :: 0 <= j < |mid| ==> c[j] == mid[j];
    assert c[k] == (mid + up)[k];
  }

  lemma CloseUploads(p: Policy, s: State, now: Time)
    requires UploadReady(s, now)
    ensures var t := Close(p, s, now);
      && t.spool == s.spool.(inFlight := true) && t.spool.uploads != []
      && t.panel.online && !t.panel.shuttingDown && t.camera.viewers == {}
      && (t.spool.retryAfter.None? || t.spool.retryAfter.value <= now)
  {
    hide PumpAlerts, CheckVerdictDeadline;
    var s1 := CheckVerdictDeadline(p, s, now);
    S.DeadlineKeeps(p, s, now);
    S.PumpsKeep(p, s1, now);
  }

  /** An upload on its way stays so until its result, or the link goes. */
  lemma StillOnItsWay(p: Policy, s: State, i: Input)
    requires s.spool.inFlight && !i.event.UploadFinished?
    ensures !UploadReady(Dispatch(p, s, i), i.now)
  {
    if i.event.RecordingFinished? {
      hide Dispatch, WorthKeeping, Overflow;
      FinishSpools(p, s, i);
    } else if !i.event.ServerOffline? {
      hide Dispatch;
      SpoolUntouched(p, s, i);
    }
  }

  /** After every event before a shutdown, with the link up and nobody watching: a clip
      is on its way, or none is waiting, or the time to try again is still ahead. */
  lemma NoClipWaitsInVain(p: Policy, inputs: seq<Input>)
    requires inputs != [] && L.Online(inputs) && !L.ShutDown(inputs) && Run(p, inputs).camera.viewers == {}
    ensures var s := Run(p, inputs).spool;
      || s.inFlight || s.uploads == []
      || (s.retryAfter.Some? && inputs[|inputs| - 1].now < s.retryAfter.value)
  {
    hide Handle, L.Online, L.ShutDown;
    var n := |inputs| - 1;
    L.PanelRun(p, inputs);
    SettledAfter(p, Run(p, inputs[..n]), inputs[n]);
  }

  // ---- When a failed upload is tried again ----

  /** How many uploads have failed, by their result or with the link, since one last
      succeeded. */
  function UploadFailures(p: Policy, inputs: seq<Input>): nat
    decreases |inputs|
  {
    if inputs == [] then 0
    else
      var n := |inputs| - 1;
      match inputs[n].event
      case UploadFinished(_, ok) => if ok then 0 else UploadFailures(p, inputs[..n]) + 1
      case ServerOffline(_) => UploadFailures(p, inputs[..n]) + (if Run(p, inputs[..n]).spool.inFlight then 1 else 0)
      case _ => UploadFailures(p, inputs[..n])
  }

  /** Every upload result and every lost link does to the spool what this says, and no
      other event touches the time to try again. */
  lemma HandleRetries(p: Policy, s: State, i: Input)
    ensures var t := Handle(p, s, i).spool;
      match i.event
      case UploadFinished(_, ok) =>
        if ok then t.backoff == B.Reset(s.spool.backoff) && t.retryAfter.None?
        else t.backoff == B.Fail(s.spool.backoff).1 && t.retryAfter == Some(i.now + B.Fail(s.spool.backoff).0)
      case ServerOffline(_) =>
        if s.spool.inFlight
        then t.backoff == B.Fail(s.spool.backoff).1 && t.retryAfter == Some(i.now + B.Fail(s.spool.backoff).0)
        else t.backoff == s.spool.backoff && t.retryAfter == s.spool.retryAfter
      case _ => t.backoff == s.spool.backoff && t.retryAfter == s.spool.retryAfter
  {
    hide Close, B.Fail, B.Reset;
    var s1 := Lapse(s, i.now);
    CloseSpools(p, Dispatch(p, s1, i), i.now);
    if i.event.RecordingFinished? {
      hide Dispatch, WorthKeeping, Overflow;
      FinishSpools(p, s1, i);
    } else if !TouchesSpool(i.event) {
      hide Dispatch;
      SpoolUntouched(p, s1, i);
    }
  }

  lemma {:induction false} BackoffRun(p: Policy, inputs: seq<Input>)
    requires ValidPolicy(p)
    ensures Run(p, inputs).spool.backoff
         == B.Delays(p.retryBackoffInitial, p.retryBackoffMax,
                     B.Delay(p.retryBackoffInitial, p.retryBackoffMax, UploadFailures(p, inputs)))
    decreases |inputs|
  {
    if inputs == [] {
      B.DelayStep(p.retryBackoffInitial, p.retryBackoffMax, 0);
    } else {
      hide Handle, B.Delay;
      var n := |inputs| - 1;
      BackoffRun(p, inputs[..n]);
      HandleRetries(p, Run(p, inputs[..n]), inputs[n]);
      B.DelayStep(p.retryBackoffInitial, p.retryBackoffMax, UploadFailures(p, inputs[..n]));
    }
  }

  /** A failed upload is tried again exactly min(initial * 2^k, cap) later, k being the
      failures before it since the last success; its clip stays where it is. */
  lemma UploadRetryIsDue(p: Policy, inputs: seq<Input>, i: Input)
    requires ValidPolicy(p)
    requires (i.event.UploadFinished? && !i.event.ok) || (i.event.ServerOffline? && Run(p, inputs).spool.inFlight)
    ensures var s := Run(p, inputs).spool; var t := Handle(p, Run(p, inputs), i).spool;
      && t.retryAfter == Some(i.now + Min(p.retryBackoffInitial * B.Pow2(UploadFailures(p, inputs)), p.retryBackoffMax))
      && t.uploads == s.uploads && !t.inFlight
  {
    hide Run, Handle, UploadFailures;
    var s := Run(p, inputs);
    BackoffRun(p, inputs);
    HandleRetries(p, s, i);
    B.DelayStep(p.retryBackoffInitial, p.retryBackoffMax, UploadFailures(p, inputs));
    UploadsStay(p, s, i);
    B.DelayBounds(p.retryBackoffInitial, p.retryBackoffMax, UploadFailures(p, inputs));
    FailedIsNotUp(p, s, i);
  }

  lemma FailedIsNotUp(p: Policy, s: State, i: Input)
    requires (i.event.UploadFinished? && !i.event.ok) || (i.event.ServerOffline? && s.spool.inFlight)
    requires B.Fail(s.spool.backoff).0 > 0
    ensures !Handle(p, s, i).spool.inFlight
  {
    hide Close;
    CloseStill(p, Dispatch(p, Lapse(s, i.now), i), i.now);
  }

  lemma CloseStill(p: Policy, s: State, now: Time)
    requires !UploadReady(s, now)
    ensures Close(p, s, now).spool == s.spool
  {
    hide PumpAlerts, CheckVerdictDeadline;
    S.DeadlineKeeps(p, s, now);
    S.PumpsKeep(p, CheckVerdictDeadline(p, s, now), now);
  }

  /** A successful upload takes its own clip off the front, whichever way the last
      attempts went, and the next may leave at once. */
  lemma UploadConfirms(p: Policy, inputs: seq<Input>, i: Input)
    requires i.event.UploadFinished? && i.event.ok
    ensures var s := Run(p, inputs).spool; var t := Handle(p, Run(p, inputs), i).spool;
      && t.retryAfter.None?
      && t.uploads == if s.uploads != [] && s.uploads[0].clip.id == i.event.id then s.uploads[1..] else s.uploads
  {
    hide Run, Handle;
    HandleRetries(p, Run(p, inputs), i);
    UploadsStay(p, Run(p, inputs), i);
  }
}
