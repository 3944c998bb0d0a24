/** The clip spool: capped in every reachable state, and no clip lost track of. */
module CoreSpool {
  import opened Types
  import opened CoreRules
  import opened CoreRuns

  function ClipsOf(uploads: seq<PendingUpload>): (r: seq<Clip>)
    ensures |r| == |uploads|
  {
    seq(|uploads|, i requires 0 <= i < |uploads| => uploads[i].clip)
  }

  lemma {:induction false} TotalSplits(a: seq<PendingUpload>, b: seq<PendingUpload>)
    ensures TotalBytes(a + b) == TotalBytes(a) + TotalBytes(b)
  {
    if a == [] {
      assert a + b == b;
    } else {
      assert (a + b)[1..] == a[1..] + b;
      TotalSplits(a[1..], b);
    }
  }

  lemma TotalGrows(uploads: seq<PendingUpload>, k: nat)
    requires k < |uploads|
    ensures TotalBytes(uploads[..k + 1]) == TotalBytes(uploads[..k]) + uploads[k].bytes
  {
    assert uploads[..k + 1] == uploads[..k] + [uploads[k]];
    TotalSplits(uploads[..k], [uploads[k]]);
  }

  lemma TotalWithout(uploads: seq<PendingUpload>, k: nat)
    requires k < |uploads|
    ensures TotalBytes(Q.Without(uploads, k)) == TotalBytes(uploads) - uploads[k].bytes
  {
    assert uploads == uploads[..k] + ([uploads[k]] + uploads[k + 1..]);
    TotalSplits(uploads[..k], [uploads[k]] + uploads[k + 1..]);
    TotalSplits(uploads[..k], uploads[k + 1..]);
  }

  /** What is left when the k oldest droppable clips have gone. */
  function Dropping(uploads: seq<PendingUpload>, oldest: nat, k: nat): seq<PendingUpload>
    requires oldest + k <= |uploads|
  {
    uploads[..oldest] + uploads[oldest + k..]
  }

  lemma ClipsSplit(a: seq<PendingUpload>, b: seq<PendingUpload>)
    ensures ClipsOf(a + b) == ClipsOf(a) + ClipsOf(b)
  {}

  lemma DroppingOneMore(uploads: seq<PendingUpload>, oldest: nat, j: nat)
    requires oldest + j < |uploads|
    ensures Dropping(Q.Without(uploads, oldest), oldest, j) == Dropping(uploads, oldest, j + 1)
    ensures [uploads[oldest].clip] + ClipsOf(Q.Without(uploads, oldest)[oldest..oldest + j])
         == ClipsOf(uploads[oldest..oldest + j + 1])
  {
    var rest := Q.Without(uploads, oldest);
    assert rest[..oldest] == uploads[..oldest] && rest[oldest + j..] == uploads[oldest + j + 1..];
    assert rest[oldest..oldest + j] == uploads[oldest + 1..oldest + j + 1];
    assert uploads[oldest..oldest + j + 1] == [uploads[oldest]] + uploads[oldest + 1..oldest + j + 1];
  }

  /** Eviction keeps the clip in flight and the longest run of newest clips that
      fits with it; what goes is the clips in between, oldest first. */
  lemma {:induction false} EvictKeepsLongestFit(uploads: seq<PendingUpload>, oldest: nat, cap: nat) returns (k: nat)
    requires oldest <= |uploads|
    ensures oldest + k <= |uploads|
    ensures Evict(uploads, oldest, cap).kept == Dropping(uploads, oldest, k)
    ensures Evict(uploads, oldest, cap).victims == ClipsOf(uploads[oldest..oldest + k])
    ensures TotalBytes(Dropping(uploads, oldest, k)) <= cap || oldest + k == |uploads|
    ensures forall j :: 0 <= j < k ==> TotalBytes(Dropping(uploads, oldest, j)) > cap
    decreases |uploads|
  {
    hide TotalBytes, ClipsOf, Dropping;
    assert Dropping(uploads, oldest, 0) == uploads by { DroppingNone(uploads, oldest); }
    if TotalBytes(uploads) > cap && |uploads| > oldest {
      var rest := Q.Without(uploads, oldest);
      var k' := EvictKeepsLongestFit(rest, oldest, cap);
      k := k' + 1;
      DroppingOneMore(uploads, oldest, k');
      forall j | 0 <= j < k ensures TotalBytes(Dropping(uploads, oldest, j)) > cap {
        if j > 0 { DroppingOneMore(uploads, oldest, j - 1); }
      }
    } else {
      k := 0;
      assert uploads[oldest..oldest] == [];
      ClipsOfNone();
    }
  }

  lemma ClipsOfNone()
    ensures ClipsOf([]) == []
  {}

  lemma DroppingNone(uploads: seq<PendingUpload>, oldest: nat)
    requires oldest <= |uploads|
    ensures Dropping(uploads, oldest, 0) == uploads
  {}

  predicate CapInv(p: Policy, s: Spool) {
    && TotalBytes(s.uploads) <= p.spoolMaxBytes
    && (s.inFlight ==> s.uploads != [])
  }

  /** Every clip ever spooled is queued, confirmed or evicted, and only one of them. */
  predicate LedgerInv(s: Spool) {
    multiset(s.history.accepted)
      == multiset(ClipsOf(s.uploads)) + multiset(s.history.confirmed) + multiset(s.history.evicted)
  }

  lemma CapKept(p: Policy, s: Spool, clip: Clip, bytes: nat)
    requires CapInv(p, s)
    ensures CapInv(p, WithinCap(p, Accept(s, clip, bytes)))
  {
    var full := Accept(s, clip, bytes);
    var oldest := if s.inFlight then 1 else 0;
    var k := EvictKeepsLongestFit(full.uploads, oldest, p.spoolMaxBytes);
    var kept := Dropping(full.uploads, oldest, k);
    if oldest + k == |full.uploads| {
      assert kept == s.uploads[..oldest];
      TotalSplits(s.uploads[..oldest], s.uploads[oldest..]);
      assert s.uploads == s.uploads[..oldest] + s.uploads[oldest..];
    }
  }

  lemma LedgerKept(p: Policy, s: Spool, clip: Clip, bytes: nat)
    requires CapInv(p, s) && LedgerInv(s)
    ensures LedgerInv(WithinCap(p, Accept(s, clip, bytes)))
  {
    hide ClipsOf, TotalBytes, Evict;
    var full := Accept(s, clip, bytes);
    var oldest := if s.inFlight then 1 else 0;
    var k := EvictKeepsLongestFit(full.uploads, oldest, p.spoolMaxBytes);
    var u := full.uploads;
    var a, b, c := u[..oldest], u[oldest..oldest + k], u[oldest + k..];
    assert u == (a + b) + c && Dropping(u, oldest, k) == a + c;
    ClipsSplit(a + b, c);
    ClipsSplit(a, b);
    ClipsSplit(a, c);
    ClipsSplit(s.uploads, [PendingUpload(clip, bytes)]);
    ClipsOfOne(PendingUpload(clip, bytes));
    LedgerSums(s, full, ClipsOf(a), ClipsOf(b), ClipsOf(c), clip);
  }

  lemma ClipsOfOne(u: PendingUpload)
    ensures ClipsOf([u]) == [u.clip]
  {}

  lemma LedgerSums(s: Spool, full: Spool, a: seq<Clip>, b: seq<Clip>, c: seq<Clip>, clip: Clip)
    requires LedgerInv(s) && ClipsOf(s.uploads) + [clip] == a + b + c
    ensures multiset(s.history.accepted + [clip])
         == multiset(a + c) + multiset(s.history.confirmed) + multiset(s.history.evicted + b)
  {
    hide ClipsOf;
    var h := s.history;
    calc {
      multiset(h.accepted + [clip]);
      multiset(h.accepted) + multiset([clip]);
      multiset(ClipsOf(s.uploads)) + multiset([clip]) + multiset(h.confirmed) + multiset(h.evicted);
      { assert multiset(ClipsOf(s.uploads) + [clip]) == multiset(ClipsOf(s.uploads)) + multiset([clip]); }
      multiset(a + b + c) + multiset(h.confirmed) + multiset(h.evicted);
      multiset(a) + multiset(b) + multiset(c) + multiset(h.confirmed) + multiset(h.evicted);
      { assert multiset(a + c) == multiset(a) + multiset(c) && multiset(h.evicted + b) == multiset(h.evicted) + multiset(b); }
      multiset(a + c) + multiset(h.confirmed) + multiset(h.evicted + b);
    }
  }

  lemma ConfirmKept(p: Policy, s: Spool, id: EventId)
    requires CapInv(p, s) && LedgerInv(s)
    ensures CapInv(p, ConfirmUpload(s, id)) && LedgerInv(ConfirmUpload(s, id))
  {
    if Confirms(s, id) {
      assert ClipsOf(s.uploads) == [s.uploads[0].clip] + ClipsOf(s.uploads[1..]);
    }
  }

  /** Only three events reach the spool. */
  predicate TouchesSpool(e: Event) { e.RecordingFinished? || e.UploadFinished? || e.ServerOffline? }

  lemma SpoolUntouched(p: Policy, s: State, i: Input)
    requires !TouchesSpool(i.event)
    ensures Dispatch(p, s, i).spool == s.spool
  {
    hide Pumped, NextAlert;
    if FromSensor(i.event) {
    } else {
    }
  }

  lemma FinishSpools(p: Policy, s: State, i: Input)
    requires i.event.RecordingFinished?
    ensures var e := i.event; var was := s.camera.event;
      Dispatch(p, s, i).spool
        == if WorthKeeping(p, was, e.id, e.ok, e.duration, e.bytes)
           then WithinCap(p, Accept(s.spool, ClipOf(was.value, e.path, e.duration), e.bytes))
           else s.spool
  {
    hide Pumped, NextAlert, Overflow, WithinCap, Accept;
  }

  lemma CloseSpools(p: Policy, s: State, now: Time)
    ensures Close(p, s, now).spool == s.spool
         || (s.spool.uploads != [] && Close(p, s, now).spool == s.spool.(inFlight := true))
  {
    hide Pumped, NextAlert;
    assert CheckVerdictDeadline(p, s, now).spool == s.spool;
  }

  lemma SpoolStep(p: Policy, s: State, i: Input)
    requires CapInv(p, s.spool) && LedgerInv(s.spool)
    ensures CapInv(p, Handle(p, s, i).spool) && LedgerInv(Handle(p, s, i).spool)
  {
    hide Close, CapInv, LedgerInv, WithinCap, Accept;
    var s1 := Lapse(s, i.now);
    var s2 := Dispatch(p, s1, i);
    SpoolDispatch(p, s1, i);
    CloseSpools(p, s2, i.now);
    InFlightKept(p, s2.spool);
  }

  lemma InFlightKept(p: Policy, s: Spool)
    ensures s.uploads != [] && CapInv(p, s) && LedgerInv(s) ==> CapInv(p, s.(inFlight := true)) && LedgerInv(s.(inFlight := true))
  {}

  lemma SpoolDispatch(p: Policy, s: State, i: Input)
    requires CapInv(p, s.spool) && LedgerInv(s.spool)
    ensures CapInv(p, Dispatch(p, s, i).spool) && LedgerInv(Dispatch(p, s, i).spool)
  {
    match i.event
    case RecordingFinished(id, path, ok, duration, bytes) =>
      hide Dispatch, WorthKeeping, CapInv, LedgerInv;
      FinishSpools(p, s, i);
      if WorthKeeping(p, s.camera.event, id, ok, duration, bytes) {
        WorthKeepingIsDescribed(p, s.camera.event, id, ok, duration, bytes);
        CapKept(p, s.spool, ClipOf(s.camera.event.value, path, duration), bytes);
        LedgerKept(p, s.spool, ClipOf(s.camera.event.value, path, duration), bytes);
      }
    case UploadFinished(id, ok) => ConfirmKept(p, s.spool, id);
    case ServerOffline(_) =>
    case _ =>
      hide Dispatch;
      SpoolUntouched(p, s, i);
  }
}
