/** What becomes of the files of a single control request over later calls, crashes included. */
module ControlRecords {
  import opened Wrappers
  import opened WaitPolicy
  import opened ControlRequests
  import opened ControlRequestRuns

  // -------------------------------------------------------------------------- one call

  // An observation a call writes: the next step of the automaton, on a request that can be read.
  predicate Observes(s: Store, op: Op, now: int, p: Progress) {
    && op.Observe? && op.id in s.requests && Look(s, op.id, op.session, op.expected, now).Ok?
    && PutObservation(op.id, p) in ObservePlan(s, op, now).0
    && var next := Advance(ObservationOf(s, op.id), op.event, now);
       next.Ok? && next.value.progress == p && !next.value.idempotentReplay
  }

  // What the writes of a call may do: only pending requests are marked or renewed, only pruned ones dropped.
  predicate Fits(s: Store, op: Op, now: int, w: Write) {
    match w
    case PutRequest(r) => r.id !in s.requests
    case PutMarker(id, _) => StatusOf(s, id, now) == Pending
    case PutRenewal(id, at) => StatusOf(s, id, now) == Pending && at > ExpiresAt(s, s.requests[id])
    case PutObservation(id, p) => op.Observe? && op.id == id && Observes(s, op, now, p)
    case DropRequest(id) => op.Prune? && op.id == id
    case DropObservation(id) => op.Prune? && op.id == id
    case DropMarker(id) => op.Prune? && op.id == id
    case DropRenewal(id) => op.Prune? && op.id == id
    case _ => true
  }

  lemma PlanFits(s: Store, op: Op, now: int)
    requires Sound(s, now)
    ensures forall i | 0 <= i < |PlanFor(s, op, now).0| :: Fits(s, op, now, PlanFor(s, op, now).0[i])
  {
    match op
    case Observe(_, _, _, _, _) => ObserveFits(s, op, now);
    case Retire(session) => RetireFits(s, op, session, now, FirstUnreadable(s, session, s.next));
    case Open(session, _, _, _) =>
      if session in s.active {
        assert PointerOk(s, session);
      }
    case _ =>
  }

  lemma ObserveFits(s: Store, op: Op, now: int)
    requires op.Observe?
    ensures forall i | 0 <= i < |ObservePlan(s, op, now).0| :: Fits(s, op, now, ObservePlan(s, op, now).0[i])
  {
    hide Advance, RecordsReadable;
  }

  lemma {:induction false} RetireFits(s: Store, op: Op, session: SessionId, now: int, n: nat)
    ensures forall i | 0 <= i < |RetireMarks(s, session, now, n)| :: Fits(s, op, now, RetireMarks(s, session, now, n)[i])
  {
    if n > 0 {
      RetireFits(s, op, session, now, n - 1);
    }
  }

  /** The request is still on file: its marker stays, its expiry only grows, its observation follows the automaton. */
  predicate Tracks(s: Store, t: Store, op: Op, now: int, id: RequestId)
    requires id in s.requests
  {
    && id in t.requests && t.requests[id] == s.requests[id]
    && (id in s.markers ==> id in t.markers && t.markers[id] == s.markers[id])
    && (id in t.markers && id !in s.markers ==> StatusOf(s, id, now) == Pending)
    && ExpiresAt(t, t.requests[id]) >= ExpiresAt(s, s.requests[id])
    && (StatusOf(s, id, now) != Pending ==> ExpiresAt(t, t.requests[id]) == ExpiresAt(s, s.requests[id]))
    && (|| ObservationOf(t, id) == ObservationOf(s, id)
        || (op.Observe? && op.id == id && ObservationOf(t, id).Some? && Observes(s, op, now, ObservationOf(t, id).value)))
  }

  predicate Prunes(op: Op, id: RequestId) { op.Prune? && op.id == id }

  lemma WriteTracks(s: Store, t: Store, op: Op, now: int, w: Write, id: RequestId)
    requires FilesOk(s) && id in s.requests && !Prunes(op, id) && Tracks(s, t, op, now, id) && Fits(s, op, now, w)
    ensures Tracks(s, Apply(t, w), op, now, id)
  {
    hide Observes, PointerOk;
  }

  lemma {:induction false} WritesTrack(s: Store, t: Store, op: Op, now: int, writes: seq<Write>, id: RequestId)
    requires FilesOk(s) && id in s.requests && !Prunes(op, id) && Tracks(s, t, op, now, id)
    requires forall i | 0 <= i < |writes| :: Fits(s, op, now, writes[i])
    ensures Tracks(s, ApplyAll(t, writes), op, now, id)
    decreases |writes|
  {
    hide Tracks, Fits, FilesOk, Apply;
    if writes != [] {
      assert Fits(s, op, now, writes[0]);
      WriteTracks(s, t, op, now, writes[0], id);
      WritesTrack(s, Apply(t, writes[0]), op, now, writes[1..], id);
    }
  }

  lemma TracksItself(s: Store, op: Op, now: int, id: RequestId)
    requires id in s.requests
    ensures Tracks(s, s, op, now, id)
  {}

  /** A call, cut after any of its writes, that does not prune the request keeps track of it. */
  lemma CallTracks(s: Store, call: Call, id: RequestId)
    requires Sound(s, call.now) && id in s.requests && !Prunes(call.op, id)
    ensures Tracks(s, ApplyAll(s, Writes(s, call)), call.op, call.now, id)
  {
    hide Tracks, Fits, PlanFor, Named;
    PlanFits(s, call.op, call.now);
    TracksItself(s, call.op, call.now, id);
    WritesTrack(s, s, call.op, call.now, Writes(s, call), id);
  }

  // A prune of the request leaves its files alone, or the request is gone.
  lemma PruneTracks(s: Store, call: Call, id: RequestId)
    requires Sound(s, call.now) && id in s.requests && Prunes(call.op, id)
    ensures var t := ApplyAll(s, Writes(s, call));
      Gone(t, id) || (id in t.requests && t.requests[id] == s.requests[id] && ObservationOf(t, id) == ObservationOf(s, id)
                      && t.markers == s.markers && t.renewals == s.renewals)
  {
    PlanOk(s, call.op, call.now);
    var plan, writes := PlanFor(s, call.op, call.now).0, Writes(s, call);
    var clearing := Clearing(s, s.requests[id].session, id);
    if plan != [] {
      assert plan == clearing + [DropRequest(id), DropObservation(id), DropMarker(id), DropRenewal(id)];
      var n := |clearing|;
      if |writes| <= n {
        if writes != [] {
          assert writes == [ClearActive(s.requests[id].session)];
          ApplyOne(s, writes[0]);
        }
      } else {
        DropsGone(s, plan, call.now, |writes|, id);
      }
    }
  }

  lemma DropsGone(s: Store, plan: seq<Write>, now: int, n: nat, id: RequestId)
    requires Sound(s, now) && WritesOk(s, plan, now) && id in s.requests && n <= |plan|
    requires plan == Clearing(s, s.requests[id].session, id) + [DropRequest(id), DropObservation(id), DropMarker(id), DropRenewal(id)]
    requires n > |Clearing(s, s.requests[id].session, id)|
    ensures Gone(ApplyAll(s, plan[..n]), id)
  {
    var clearing := Clearing(s, s.requests[id].session, id);
    var c := |clearing|;
    var t := ApplyAll(s, clearing);
    WritesOkTail(s, plan, now, c);
    WritesStaySound(s, plan, now, c);
    var drops := plan[c..];
    assert plan[..c] == clearing && drops[0] == DropRequest(id);
    assert drops[..n - c][0] == drops[0] && drops[..n - c][1..] == drops[1..][..n - c - 1];
    var d := Apply(t, DropRequest(id));
    assert WriteOk(t, DropRequest(id), now);
    assert Gone(d, id) by {
      assert FilesOk(s) && s.requests[id].id == id;
      ClearingKeepsNext(s, s.requests[id].session, id);
    }
    hide Gone, Sound, WriteOk, Named, FilesOk, Clearing, Apply;
    WriteStaysSound(t, DropRequest(id), now);
    WritesKeepMarkers(d, drops[1..], now, n - c - 1);
    assert plan[..n] == clearing + drops[..n - c];
    ApplyAllAppend(s, clearing, drops[..n - c]);
  }

  lemma ClearingKeepsNext(s: Store, session: SessionId, id: RequestId)
    ensures ApplyAll(s, Clearing(s, session, id)).next == s.next
  {
    if Clearing(s, session, id) != [] {
      ApplyOne(s, ClearActive(session));
    }
  }

  lemma {:induction false} WritesOkTail(s: Store, writes: seq<Write>, now: int, n: nat)
    requires WritesOk(s, writes, now) && n <= |writes|
    ensures WritesOk(ApplyAll(s, writes[..n]), writes[n..], now)
    decreases n
  {
    hide WriteOk;
    if n == 0 {
      assert writes[..0] == [] && writes[0..] == writes;
    } else {
      WritesOkTail(Apply(s, writes[0]), writes[1..], now, n - 1);
      assert writes[..n][1..] == writes[1..][..n - 1] && writes[1..][n - 1..] == writes[n..];
    }
  }

  // -------------------------------------------------------------------------- one call keeps the store in order

  lemma CallSound(s: Store, call: Call, later: int)
    requires Sound(s, call.now) && call.now <= later
    ensures Sound(ApplyAll(s, Writes(s, call)), later)
  {
    hide Sound, WritesOk;
    PlanOk(s, call.op, call.now);
    WritesStaySound(s, PlanFor(s, call.op, call.now).0, call.now, |Writes(s, call)|);
    SoundLater(ApplyAll(s, Writes(s, call)), call.now, later);
  }

  // -------------------------------------------------------------------------- settled requests

  /** An ended request whose observation no replay can complete any more. */
  predicate Settled(s: Store, id: RequestId, now: int) {
    && id in s.requests && !Unfinished(s, s.requests[id], now)
    && (id in s.markers ==>
          var m := s.markers[id];
          && (m.failure.Some? ==> id in s.observations && s.observations[id].latest == m.failure.value)
          && (m.result.Some? ==> ResultBacked(m.result.value, ObservationOf(s, id))))
  }

  lemma SettledPlan(s: Store, op: Op, now: int)
    requires op.Observe? && Settled(s, op.id, now) && s.requests[op.id].id == op.id
    ensures forall p :: PutObservation(op.id, p) !in ObservePlan(s, op, now).0
  {
    if op.id in s.markers && Look(s, op.id, op.session, op.expected, now).Ok? {
      var v := Look(s, op.id, op.session, op.expected, now).value;
      if v.failure.Some? || v.result.Some? {
        ReplayWrites(s, op.id, op.session, op.event, now, v.failure, v.result);
        if v.failure.None? && Advance(ObservationOf(s, op.id), op.event, now).Ok? {
          FinalIsLast(s.observations[op.id], op.event, now);
        }
        hide ReplayPlan, Advance;
      }
    }
  }

  /** A settled request stays settled, and its observation stays as it is. */
  lemma SettledStays(s: Store, call: Call, id: RequestId, later: int)
    requires Sound(s, call.now) && call.now <= later && Settled(s, id, call.now) && !Prunes(call.op, id)
    ensures var t := ApplyAll(s, Writes(s, call)); Settled(t, id, later) && ObservationOf(t, id) == ObservationOf(s, id)
  {
    assert s.requests[id].id == id;
    CallTracks(s, call, id);
    if call.op.Observe? && call.op.id == id {
      SettledPlan(s, call.op, call.now);
    }
    hide Sound, Writes, ApplyAll, ObservePlan, Look, Advance;
  }

  // -------------------------------------------------------------------------- unreadable for good

  /** The request is pruned away, or its records cannot be read. */
  ghost predicate Broken(s: Store, id: RequestId) { Gone(s, id) || (id in s.requests && !RecordsReadable(s, id)) }

  lemma BrokenStays(s: Store, call: Call, id: RequestId)
    requires Sound(s, call.now) && Broken(s, id)
    ensures Broken(ApplyAll(s, Writes(s, call)), id)
  {
    if Gone(s, id) {
      hide Gone, Sound, WritesOk;
      PlanOk(s, call.op, call.now);
      WritesKeepMarkers(s, PlanFor(s, call.op, call.now).0, call.now, |Writes(s, call)|);
    } else if Prunes(call.op, id) {
      PruneTracks(s, call, id);
      hide Gone, Sound, Writes, ApplyAll, ProgressReadable, MarkerReadable;
    } else {
      CallTracks(s, call, id);
      hide Gone, Sound, Writes, ApplyAll, ProgressReadable, MarkerReadable;
    }
  }

  lemma {:induction false} BrokenForGood(calls: seq<Call>, i: nat, id: RequestId)
    requires Timed(calls) && i <= |calls| && Broken(StoreAfter(calls[..i]), id)
    ensures Broken(StoreAfter(calls), id)
  {
    hide Broken, Sound, StoreAfter;
    if i == |calls| {
      assert calls[..i] == calls;
    } else {
      var n := |calls| - 1;
      assert calls[..n][..i] == calls[..i];
      BrokenForGood(calls[..n], i, id);
      RunSound(calls[..n], calls[n].now);
      BrokenStays(StoreAfter(calls[..n]), calls[n], id);
      StoreStep(calls);
    }
  }

  // Whatever event of another page a pending request takes, it is what the request's record then holds.
  lemma UncheckedEventIsStored(s: Store, op: Op, now: int)
    requires op.Observe? && op.id in s.requests && StatusOf(s, op.id, now) == Pending
    requires ObservePlan(s, op, now).1 == Reported && !OnSurface(op.event, s.requests[op.id])
    ensures var t := ApplyAll(s, ObservePlan(s, op, now).0);
      t.requests == s.requests && op.id in t.observations && t.observations[op.id].latest == op.event
  {
    var next := Advance(ObservationOf(s, op.id), op.event, now).value;
    assert !next.idempotentReplay;
    var w := PutObservation(op.id, next.progress);
    var before := if ObservePlan(s, op, now).0[0] == w then [] else [ObservePlan(s, op, now).0[0]];
    var behind := if next.terminal.Some? then Clearing(s, op.session, op.id) else [];
    assert next.progress.latest == op.event;
    assert ObservePlan(s, op, now).0 == before + [w] + behind;
    ApplyAllAppend(s, before + [w], behind);
    ApplyAllAppend(s, before, [w]);
    if before != [] {
      ApplyOne(s, before[0]);
    }
    ApplyOne(ApplyAll(s, before), w);
    if behind != [] {
      ApplyOne(ApplyAll(s, before + [w]), behind[0]);
    }
  }

  /**
   Without the gateway's check, one event of another page that a pending request takes makes the
   request unreadable in every later store, whatever is called meanwhile, until it is pruned away.
   */
  lemma {:induction false} UncheckedEventBreaksRequest(calls: seq<Call>, i: nat, session: SessionId, expected: Option<Correlation>, later: int)
    requires Timed(calls) && i < |calls| && calls[i].op.Observe?
    requires var s, call := StoreAfter(calls[..i]), calls[i];
      var (writes, verdict) := PlanFor(s, call.op, call.now);
      && call.op.id in s.requests && StatusOf(s, call.op.id, call.now) == Pending
      && verdict == Reported && call.kept >= |writes| && !OnSurface(call.op.event, s.requests[call.op.id])
    ensures Look(StoreAfter(calls), calls[i].op.id, session, expected, later).Ok? ==>
      Look(StoreAfter(calls), calls[i].op.id, session, expected, later).value.status == NotFound
    ensures var t, id := StoreAfter(calls), calls[i].op.id;
      id in t.requests ==> Look(t, id, t.requests[id].session, None, later) == Err(Integrity)
  {
    var s, call := StoreAfter(calls[..i]), calls[i];
    UncheckedEventIsStored(s, call.op, call.now);
    assert Writes(s, call) == PlanFor(s, call.op, call.now).0;
    StoreStep(calls[..i + 1]);
    assert calls[..i + 1][..i] == calls[..i];
    assert Broken(StoreAfter(calls[..i + 1]), call.op.id);
    hide StoreAfter;
    BrokenForGood(calls, i + 1, call.op.id);
  }
}
