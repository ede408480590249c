/** What holds of the control-request store over whole runs with crashes. */
module ControlRequestRuns {
  import opened Wrappers
  import opened WaitPolicy
  import opened ControlRequests

  // -------------------------------------------------------------------------- invariant

  ghost predicate PointerOk(s: Store, session: SessionId)
    requires session in s.active
  {
    var a := s.active[session];
    && a.session == session && a.id < s.next
    && (if a.id in s.requests then s.requests[a.id] == a
        else a.id !in s.markers && a.id !in s.renewals && a.id !in s.observations)
  }

  /** How the files fit together, whatever the time. */
  ghost predicate FilesOk(s: Store) {
    && (forall id | id in s.requests :: s.requests[id].id == id < s.next)
    && (forall session | session in s.active :: PointerOk(s, session))
    && (forall a, b | a in s.active && b in s.active :: s.active[a].id == s.active[b].id ==> a == b)
    && (forall id | id in s.markers || id in s.renewals || id in s.observations :: id < s.next)
  }

  /** The active pointer of a session names every unfinished request of it. */
  ghost predicate Named(s: Store, now: int) {
    forall id | id in s.requests && Unfinished(s, s.requests[id], now) ::
      var session := s.requests[id].session;
      session in s.active && s.active[session] == s.requests[id]
  }

  ghost predicate Sound(s: Store, now: int) { FilesOk(s) && Named(s, now) }

  lemma SoundLater(s: Store, now: int, later: int)
    requires Sound(s, now) && now <= later
    ensures Sound(s, later)
  {}

  // -------------------------------------------------------------------------- one write

  predicate Pointed(s: Store, id: RequestId) { exists session | session in s.active :: s.active[session].id == id }

  // When a single write keeps the invariant.
  ghost predicate WriteOk(s: Store, w: Write, now: int) {
    match w
    case ClaimActive(r) => r.session !in s.active && r.id == s.next
    case ClearActive(session) =>
      session in s.active && (s.active[session].id in s.requests ==> !Unfinished(s, s.requests[s.active[session].id], now))
    case PutRequest(r) => r.session in s.active && s.active[r.session] == r && r.id !in s.requests
    case PutMarker(id, _) => id in s.requests
    case PutObservation(id, _) => id in s.requests
    case PutRenewal(id, at) => id in s.requests && Unfinished(s, s.requests[id], now)
    case DropRequest(id) => !Pointed(s, id)
    case DropObservation(id) => !Pointed(s, id)
    case DropMarker(id) => id !in s.requests && !Pointed(s, id)
    case DropRenewal(id) => id !in s.requests && !Pointed(s, id)
  }

  lemma WriteKeepsPointer(s: Store, w: Write, now: int, session: SessionId)
    requires FilesOk(s) && WriteOk(s, w, now) && session in Apply(s, w).active
    ensures PointerOk(Apply(s, w), session)
  {
    if session in s.active {
      assert PointerOk(s, session);
    }
  }

  lemma WriteKeepsNumbers(s: Store, w: Write, now: int)
    requires FilesOk(s) && WriteOk(s, w, now)
    ensures var s' := Apply(s, w);
      && (forall id | id in s'.requests :: s'.requests[id].id == id < s'.next)
      && (forall id | id in s'.markers || id in s'.renewals || id in s'.observations :: id < s'.next)
  {
    if w.PutRequest? {
      assert PointerOk(s, w.request.session);
    }
    hide PointerOk;
  }

  lemma WriteKeepsDistinct(s: Store, w: Write, now: int)
    requires FilesOk(s) && WriteOk(s, w, now)
    ensures var active := Apply(s, w).active;
      forall a, b | a in active && b in active :: active[a].id == active[b].id ==> a == b
  {
    assert forall a | a in s.active :: PointerOk(s, a);
    assert forall a | a in s.active :: s.active[a].id < s.next;
    hide PointerOk;
  }

  lemma WriteKeepsFiles(s: Store, w: Write, now: int)
    requires FilesOk(s) && WriteOk(s, w, now)
    ensures FilesOk(Apply(s, w))
  {
    var s' := Apply(s, w);
    forall session | session in s'.active ensures PointerOk(s', session) {
      WriteKeepsPointer(s, w, now, session);
    }
    WriteKeepsNumbers(s, w, now);
    WriteKeepsDistinct(s, w, now);
    hide PointerOk, WriteOk, Apply;
  }

  lemma WriteKeepsNamed(s: Store, w: Write, now: int)
    requires Sound(s, now) && WriteOk(s, w, now)
    ensures Named(Apply(s, w), now)
  {
    var s' := Apply(s, w);
    forall id | id in s'.requests && Unfinished(s', s'.requests[id], now)
      ensures var session := s'.requests[id].session; session in s'.active && s'.active[session] == s'.requests[id]
    {
      NamedAfter(s, w, now, id);
    }
  }

  lemma NamedAfter(s: Store, w: Write, now: int, id: RequestId)
    requires Sound(s, now) && WriteOk(s, w, now)
    requires var s' := Apply(s, w); id in s'.requests && Unfinished(s', s'.requests[id], now)
    ensures var s' := Apply(s, w); var session := s'.requests[id].session; session in s'.active && s'.active[session] == s'.requests[id]
  {
    var s' := Apply(s, w);
    if id in s.requests {
      assert Unfinished(s, s.requests[id], now);
      assert PointerOk(s, s.requests[id].session);
    }
  }

  // Each write of a list is fine where it comes.
  ghost predicate WritesOk(s: Store, writes: seq<Write>, now: int)
    decreases |writes|
  {
    writes == [] || (WriteOk(s, writes[0], now) && WritesOk(Apply(s, writes[0]), writes[1..], now))
  }

  lemma {:induction false} WritesStaySound(s: Store, writes: seq<Write>, now: int, n: nat)
    requires Sound(s, now) && WritesOk(s, writes, now) && n <= |writes|
    ensures Sound(ApplyAll(s, writes[..n]), now)
    decreases n
  {
    if n > 0 {
      hide Sound, FilesOk, Named, WriteOk;
      var w := writes[0];
      WriteStaysSound(s, w, now);
      assert writes[..n][0] == w && writes[..n][1..] == writes[1..][..n - 1];
      WritesStaySound(Apply(s, w), writes[1..], now, n - 1);
    }
  }

  lemma WriteStaysSound(s: Store, w: Write, now: int)
    requires Sound(s, now) && WriteOk(s, w, now)
    ensures Sound(Apply(s, w), now)
  {
    WriteKeepsFiles(s, w, now);
    WriteKeepsNamed(s, w, now);
  }

  lemma WritesOkOne(s: Store, a: Write, now: int)
    requires WriteOk(s, a, now)
    ensures WritesOk(s, [a], now)
  {
    assert [a][1..] == [];
  }

  lemma WritesOkTwo(s: Store, a: Write, b: Write, now: int)
    requires WriteOk(s, a, now) && WriteOk(Apply(s, a), b, now)
    ensures WritesOk(s, [a, b], now)
  {
    assert [a, b][1..] == [b];
    WritesOkOne(Apply(s, a), b, now);
  }

  lemma WritesOkCons(s: Store, a: Write, rest: seq<Write>, now: int)
    requires WriteOk(s, a, now) && WritesOk(Apply(s, a), rest, now)
    ensures WritesOk(s, [a] + rest, now)
  {
    assert ([a] + rest)[1..] == rest;
  }

  lemma {:induction false} WritesOkAppend(s: Store, a: seq<Write>, b: seq<Write>, now: int)
    requires WritesOk(s, a, now) && WritesOk(ApplyAll(s, a), b, now)
    ensures WritesOk(s, a + b, now)
    decreases |a|
  {
    if a == [] {
      assert a + b == b;
    } else {
      WritesOkAppend(Apply(s, a[0]), a[1..], b, now);
      assert a + b == [a[0]] + (a[1..] + b);
      WritesOkCons(s, a[0], a[1..] + b, now);
    }
  }

  // -------------------------------------------------------------------------- plans are fine

  // Clearing the pointer of a request that is finished, or has no file, is fine.
  lemma ClearingOk(s: Store, session: SessionId, id: RequestId, now: int)
    requires FilesOk(s) && (id in s.requests ==> !Unfinished(s, s.requests[id], now))
    ensures WritesOk(s, Clearing(s, session, id), now)
  {
    if Clearing(s, session, id) != [] {
      WritesOkOne(s, ClearActive(session), now);
    }
  }

  lemma OpenOk(s: Store, op: Op, now: int)
    requires Sound(s, now) && op.Open?
    ensures WritesOk(s, OpenPlan(s, op, now).0, now)
  {
    var r := NewRequest(s, op, now);
    if op.session in s.active {
      assert PointerOk(s, op.session);
      var a := s.active[op.session];
      if !Unfinished(s, a, now) {
        var cleared := Apply(s, ClearActive(op.session));
        WritesOkTwo(cleared, ClaimActive(r), PutRequest(r), now);
        WritesOkCons(s, ClearActive(op.session), [ClaimActive(r), PutRequest(r)], now);
        assert [ClearActive(op.session)] + [ClaimActive(r), PutRequest(r)] == [ClearActive(op.session), ClaimActive(r), PutRequest(r)];
      } else if a.id !in s.requests {
        assert a.(expiresAt := ExpiresAt(s, a)) == a;
        WritesOkOne(s, PutRequest(a), now);
      }
    } else {
      WritesOkTwo(s, ClaimActive(r), PutRequest(r), now);
    }
  }

  lemma CancelOk(s: Store, op: Op, now: int)
    requires Sound(s, now) && op.Cancel?
    ensures WritesOk(s, CancelPlan(s, op, now).0, now)
  {
    if op.id in s.requests {
      var m := PutMarker(op.id, Marker(now, None, None));
      WriteStaysSound(s, m, now);
      ClearingOk(Apply(s, m), op.session, op.id, now);
      WritesOkCons(s, m, Clearing(Apply(s, m), op.session, op.id), now);
      if op.id in s.markers {
        ClearingOk(s, op.session, op.id, now);
      }
    }
  }

  lemma RenewOk(s: Store, op: Op, now: int)
    requires Sound(s, now) && op.Renew?
    ensures WritesOk(s, RenewPlan(s, op, now).0, now)
  {
    if RenewPlan(s, op, now).0 != [] {
      WritesOkOne(s, PutRenewal(op.id, op.expiresAt), now);
    }
  }

  lemma ReplayOk(s: Store, id: RequestId, session: SessionId, o: Observation, now: int,
                 failure: Option<Observation>, result: Option<HostResult>)
    requires Sound(s, now) && id in s.requests && id in s.markers
    ensures WritesOk(s, ReplayPlan(s, id, session, o, now, failure, result).0, now)
  {
    ClearingOk(s, session, id, now);
    var next := Advance(ObservationOf(s, id), o, now);
    if next.Ok? {
      var w := PutObservation(id, next.value.progress);
      WriteStaysSound(s, w, now);
      ClearingOk(Apply(s, w), session, id, now);
      WritesOkCons(s, w, Clearing(s, session, id), now);
      assert [] + Clearing(s, session, id) == Clearing(s, session, id);
    }
  }

  lemma PendingOk(s: Store, op: Op, now: int)
    requires Sound(s, now) && op.Observe? && op.id in s.requests && StatusOf(s, op.id, now) == Pending
    ensures WritesOk(s, ObservePending(s, op, now).0, now)
  {
    var next := Advance(ObservationOf(s, op.id), op.event, now);
    if next.Ok? {
      var observed := PutObservation(op.id, next.value.progress);
      WritesOkOne(s, observed, now);
      if op.event.body.Generating? && op.renewal.Some? {
        var w := PutRenewal(op.id, op.renewal.value);
        WritesOkTwo(s, w, observed, now);
        assert [w] + [observed] == [w, observed] && [] + [observed] == [observed];
      } else if next.value.terminal.Some? {
        MarkedOk(s, op, now, PutMarker(op.id, MarkerFor(next.value.terminal.value, now)), observed);
      }
    }
  }

  lemma MarkedOk(s: Store, op: Op, now: int, marker: Write, observed: Write)
    requires Sound(s, now) && op.Observe? && op.id in s.requests
    requires marker.PutMarker? && marker.id == op.id && observed.PutObservation? && observed.id == op.id
    ensures WritesOk(s, [marker] + [observed] + Clearing(s, op.session, op.id), now)
  {
    var marked := Apply(s, marker);
    WriteStaysSound(s, marker, now);
    var seen := Apply(marked, observed);
    WriteStaysSound(marked, observed, now);
    ClearingOk(seen, op.session, op.id, now);
    WritesOkCons(marked, observed, Clearing(s, op.session, op.id), now);
    WritesOkCons(s, marker, [observed] + Clearing(s, op.session, op.id), now);
    assert [marker] + ([observed] + Clearing(s, op.session, op.id)) == [marker] + [observed] + Clearing(s, op.session, op.id);
  }

  lemma ObserveOk(s: Store, op: Op, now: int)
    requires Sound(s, now) && op.Observe?
    ensures WritesOk(s, ObservePlan(s, op, now).0, now)
  {
    match Look(s, op.id, op.session, op.expected, now)
    case Err(_) =>
    case Ok(v) =>
      if v.status == Cancelled {
        ClearingOk(s, op.session, op.id, now);
        ReplayOk(s, op.id, op.session, op.event, now, None, s.markers[op.id].result);
        ReplayOk(s, op.id, op.session, op.event, now, v.failure, v.result);
      } else if v.status == Pending {
        PendingOk(s, op, now);
      }
  }

  lemma {:induction false} ApplyAllAppend(s: Store, a: seq<Write>, b: seq<Write>)
    ensures ApplyAll(s, a + b) == ApplyAll(ApplyAll(s, a), b)
    decreases |a|
  {
    if a == [] {
      assert a + b == b;
    } else {
      assert (a + b)[1..] == a[1..] + b;
      ApplyAllAppend(Apply(s, a[0]), a[1..], b);
    }
  }

  predicate Retirable(s: Store, session: SessionId, now: int, id: RequestId) {
    id in s.requests && s.requests[id].session == session && StatusOf(s, id, now) == Pending
  }

  // The pending requests of the session among the first n have been marked, and nothing else changed.
  ghost predicate MarkedBelow(s: Store, after: Store, session: SessionId, now: int, n: nat) {
    && after == s.(markers := after.markers)
    && (forall id: RequestId :: id in after.markers <==> id in s.markers || (id < n && Retirable(s, session, now, id)))
    && (forall id | id in s.markers :: after.markers[id] == s.markers[id])
  }

  lemma MarkedBelowStep(s: Store, after: Store, session: SessionId, now: int, id: RequestId)
    requires MarkedBelow(s, after, session, now, id)
    ensures var w := PutMarker(id, Marker(now, None, None));
      && (Retirable(s, session, now, id) ==> MarkedBelow(s, Apply(after, w), session, now, id + 1) && WriteOk(after, w, now))
      && (!Retirable(s, session, now, id) ==> MarkedBelow(s, after, session, now, id + 1))
  {}

  lemma {:induction false} RetireMarksOk(s: Store, session: SessionId, now: int, n: nat)
    requires Sound(s, now)
    ensures var after := ApplyAll(s, RetireMarks(s, session, now, n));
      WritesOk(s, RetireMarks(s, session, now, n), now) && Sound(after, now) && MarkedBelow(s, after, session, now, n)
  {
    if n > 0 {
      hide Sound, WritesOk, WriteOk, MarkedBelow, Apply;
      var id := n - 1;
      RetireMarksOk(s, session, now, id);
      var earlier := RetireMarks(s, session, now, id);
      MarkedBelowStep(s, ApplyAll(s, earlier), session, now, id);
      if Retirable(s, session, now, id) {
        var w := PutMarker(id, Marker(now, None, None));
        WritesOkOne(ApplyAll(s, earlier), w, now);
        WriteStaysSound(ApplyAll(s, earlier), w, now);
        WritesOkAppend(s, earlier, [w], now);
        ApplyAllAppend(s, earlier, [w]);
        ApplyOne(ApplyAll(s, earlier), w);
      }
    }
  }

  lemma ApplyOne(s: Store, w: Write)
    ensures ApplyAll(s, [w]) == Apply(s, w)
  {
    assert [w][1..] == [];
    assert ApplyAll(Apply(s, w), []) == Apply(s, w);
  }

  lemma RetireOk(s: Store, op: Op, now: int)
    requires Sound(s, now) && op.Retire?
    ensures WritesOk(s, RetirePlan(s, op, now).0, now)
  {
    var k := FirstUnreadable(s, op.session, s.next);
    var marks := RetireMarks(s, op.session, now, k);
    RetireMarksOk(s, op.session, now, k);
    if k == s.next && op.session in s.active {
      var after := ApplyAll(s, marks);
      assert PointerOk(s, op.session);
      WritesOkOne(after, ClearActive(op.session), now);
      WritesOkAppend(s, marks, [ClearActive(op.session)], now);
    } else if k == s.next {
      assert marks + [] == marks;
    }
  }

  lemma PruneOk(s: Store, op: Op, now: int)
    requires Sound(s, now) && op.Prune?
    ensures WritesOk(s, PrunePlan(s, op, now).0, now)
  {
    if PrunePlan(s, op, now).0 != [] {
      var session := s.requests[op.id].session;
      var clear := Clearing(s, session, op.id);
      ClearingOk(s, session, op.id, now);
      WritesStaySound(s, clear, now, |clear|);
      assert clear[..|clear|] == clear;
      var cleared := ApplyAll(s, clear);
      ClearedPointer(s, session, op.id);
      DropsOk(cleared, op.id, now);
      WritesOkAppend(s, clear, [DropRequest(op.id), DropObservation(op.id), DropMarker(op.id), DropRenewal(op.id)], now);
    }
  }

  lemma ClearedPointer(s: Store, session: SessionId, id: RequestId)
    requires FilesOk(s) && id in s.requests && s.requests[id].session == session
    ensures !Pointed(ApplyAll(s, Clearing(s, session, id)), id)
    ensures ApplyAll(s, Clearing(s, session, id)).requests == s.requests
  {
    forall other | other in s.active && s.active[other].id == id ensures other == session {
      assert PointerOk(s, other);
    }
    if Clearing(s, session, id) != [] {
      ApplyOne(s, ClearActive(session));
    }
  }

  lemma DropsOk(s: Store, id: RequestId, now: int)
    requires Sound(s, now) && !Pointed(s, id)
    ensures WritesOk(s, [DropRequest(id), DropObservation(id), DropMarker(id), DropRenewal(id)], now)
  {
    var a := Apply(s, DropRequest(id));
    var b := Apply(a, DropObservation(id));
    WritesOkTwo(b, DropMarker(id), DropRenewal(id), now);
    WritesOkCons(a, DropObservation(id), [DropMarker(id), DropRenewal(id)], now);
    WritesOkCons(s, DropRequest(id), [DropObservation(id)] + [DropMarker(id), DropRenewal(id)], now);
    assert [DropRequest(id)] + ([DropObservation(id)] + [DropMarker(id), DropRenewal(id)])
        == [DropRequest(id), DropObservation(id), DropMarker(id), DropRenewal(id)];
  }

  lemma PlanOk(s: Store, op: Op, now: int)
    requires Sound(s, now)
    ensures WritesOk(s, PlanFor(s, op, now).0, now)
  {
    match op
    case Open(_, _, _, _) => OpenOk(s, op, now);
    case Observe(_, _, _, _, _) => ObserveOk(s, op, now);
    case Cancel(_, _, _) => CancelOk(s, op, now);
    case Renew(_, _, _, _) => RenewOk(s, op, now);
    case Retire(_) => RetireOk(s, op, now);
    case Prune(_, _) => PruneOk(s, op, now);
  }

  // -------------------------------------------------------------------------- runs with crashes

  /** One locked call, of whose writes a crash may keep only the first few. */
  datatype Call = Call(op: Op, now: int, kept: nat)

  function Writes(s: Store, call: Call): seq<Write> {
    var plan := PlanFor(s, call.op, call.now).0;
    plan[..if call.kept < |plan| then call.kept else |plan|]
  }

  /** The store after the given calls, started empty. */
  function StoreAfter(calls: seq<Call>): Store {
    if calls == [] then EMPTY_STORE
    else
      var s := StoreAfter(calls[..|calls| - 1]);
      ApplyAll(s, Writes(s, calls[|calls| - 1]))
  }

  predicate Timed(calls: seq<Call>) { forall i, j | 0 <= i < j < |calls| :: calls[i].now <= calls[j].now }

  lemma {:induction false} RunSound(calls: seq<Call>, now: int)
    requires Timed(calls) && (calls != [] ==> calls[|calls| - 1].now <= now)
    ensures Sound(StoreAfter(calls), now)
  {
    if calls != [] {
      var n := |calls| - 1;
      var s, call := StoreAfter(calls[..n]), calls[n];
      RunSound(calls[..n], call.now);
      hide Sound, WritesOk;
      PlanOk(s, call.op, call.now);
      WritesStaySound(s, PlanFor(s, call.op, call.now).0, call.now, |Writes(s, call)|);
      SoundLater(StoreAfter(calls), call.now, now);
    }
  }

  /** A request on file, or one whose opener died between claiming the pointer and writing the file. */
  predicate Exists(s: Store, r: Request) {
    (r.id in s.requests && s.requests[r.id] == r) || (r.session in s.active && s.active[r.session] == r)
  }

  /**
   In every reachable store, crashes included, the active pointer of a session names each unfinished
   request of it; so there is one at most.
   */
  lemma {:induction false} OneUnfinishedPerSession(calls: seq<Call>, now: int, r: Request, other: Request)
    requires Timed(calls) && (calls != [] ==> calls[|calls| - 1].now <= now)
    requires var s := StoreAfter(calls);
      && Exists(s, r) && Unfinished(s, r, now) && Exists(s, other) && Unfinished(s, other, now) && r.session == other.session
    ensures var s := StoreAfter(calls);
      r == other && r.session in s.active && s.active[r.session] == r
  {
    RunSound(calls, now);
    var s := StoreAfter(calls);
    if r.session in s.active {
      assert PointerOk(s, r.session);
    }
  }

  // -------------------------------------------------------------------------- markers

  // A number that was drawn and whose request is neither on file nor pointed at: it will never come back.
  predicate Gone(s: Store, id: RequestId) { id < s.next && id !in s.requests && !Pointed(s, id) }

  ghost predicate MarkersKept(s: Store, s': Store) {
    && s.next <= s'.next
    && (forall id | id in s.markers :: if id in s'.markers then s'.markers[id] == s.markers[id] else Gone(s', id))
    && (forall id | Gone(s, id) :: Gone(s', id) && (id in s'.markers ==> id in s.markers))
  }

  lemma WriteKeepsMarkers(s: Store, w: Write, now: int)
    requires FilesOk(s) && WriteOk(s, w, now)
    ensures MarkersKept(s, Apply(s, w))
  {
    var s' := Apply(s, w);
    assert w.PutRequest? ==> Pointed(s, w.request.id);
    forall id | Gone(s, id) ensures Gone(s', id) {
      forall session | session in s'.active ensures s'.active[session].id != id {
        assert session in s.active ==> s.active[session].id != id;
      }
    }
    if w.DropMarker? && w.id in s.markers {
      assert Gone(s', w.id);
    }
  }

  lemma MarkersKeptTransitive(a: Store, b: Store, c: Store)
    requires MarkersKept(a, b) && MarkersKept(b, c)
    ensures MarkersKept(a, c)
  {}

  lemma {:induction false} WritesKeepMarkers(s: Store, writes: seq<Write>, now: int, n: nat)
    requires Sound(s, now) && WritesOk(s, writes, now) && n <= |writes|
    ensures MarkersKept(s, ApplyAll(s, writes[..n]))
    decreases n
  {
    if n > 0 {
      var w := writes[0];
      WriteKeepsMarkers(s, w, now);
      hide MarkersKept, Sound, FilesOk, Named, WriteOk;
      WriteStaysSound(s, w, now);
      assert writes[..n][0] == w && writes[..n][1..] == writes[1..][..n - 1];
      WritesKeepMarkers(Apply(s, w), writes[1..], now, n - 1);
      MarkersKeptTransitive(s, Apply(s, w), ApplyAll(s, writes[..n]));
    }
  }

  lemma MarkersKeptReflexive(s: Store)
    ensures MarkersKept(s, s)
  {}

  lemma {:induction false} RunKeepsMarkers(calls: seq<Call>, i: nat)
    requires Timed(calls) && i <= |calls|
    ensures MarkersKept(StoreAfter(calls[..i]), StoreAfter(calls))
  {
    hide MarkersKept, Sound, WritesOk;
    if i == |calls| {
      assert calls[..i] == calls;
      MarkersKeptReflexive(StoreAfter(calls));
    } else {
      var n := |calls| - 1;
      var s, call := StoreAfter(calls[..n]), calls[n];
      RunKeepsMarkers(calls[..n], i);
      assert calls[..n][..i] == calls[..i];
      RunSound(calls[..n], call.now);
      PlanOk(s, call.op, call.now);
      WritesKeepMarkers(s, PlanFor(s, call.op, call.now).0, call.now, |Writes(s, call)|);
      MarkersKeptTransitive(StoreAfter(calls[..i]), s, StoreAfter(calls));
    }
  }

  /** A written marker never changes: it goes only with its whole request, and nothing writes it again. */
  lemma {:induction false} MarkerNeverChanges(calls: seq<Call>, i: nat, id: RequestId)
    requires Timed(calls) && i <= |calls| && id in StoreAfter(calls[..i]).markers
    ensures var s, s' := StoreAfter(calls[..i]), StoreAfter(calls);
      if id in s'.markers then s'.markers[id] == s.markers[id] else id !in s'.requests
  {
    hide StoreAfter;
    RunKeepsMarkers(calls, i);
  }

  // -------------------------------------------------------------------------- stored observations

  ghost predicate FromHistory(p: Progress) { exists history: seq<Arrival> :: WaitPolicy.After(history) == Ok(Some(p)) }

  ghost predicate HistoriesOk(s: Store) { forall id | id in s.observations :: FromHistory(s.observations[id]) }

  lemma AdvancedFromHistory(s: Store, id: RequestId, o: Observation, now: int)
    requires HistoriesOk(s) && Advance(ObservationOf(s, id), o, now).Ok?
    ensures FromHistory(Advance(ObservationOf(s, id), o, now).value.progress)
  {
    var history: seq<Arrival> := [];
    if id in s.observations {
      assert FromHistory(s.observations[id]);
      history :| WaitPolicy.After(history) == Ok(Some(s.observations[id]));
    }
    Extended(history, Arrival(o, now));
    assert WaitPolicy.After(history + [Arrival(o, now)]) == Ok(Some(Advance(ObservationOf(s, id), o, now).value.progress));
  }

  // Every observation a plan writes is the next step of the automaton on the one that was on file.
  ghost predicate Advancing(s: Store, op: Op, now: int, w: Write) {
    w.PutObservation? ==>
      && op.Observe? && w.id == op.id && op.id in s.requests
      && var next := Advance(ObservationOf(s, op.id), op.event, now); next.Ok? && next.value.progress == w.progress
  }

  lemma PlanAdvances(s: Store, op: Op, now: int)
    ensures forall i | 0 <= i < |PlanFor(s, op, now).0| :: Advancing(s, op, now, PlanFor(s, op, now).0[i])
  {
    match op
    case Retire(session) => MarksAreMarkers(s, session, now, FirstUnreadable(s, session, s.next));
    case _ =>
  }

  lemma {:induction false} MarksAreMarkers(s: Store, session: SessionId, now: int, n: nat)
    ensures forall i | 0 <= i < |RetireMarks(s, session, now, n)| ::
      RetireMarks(s, session, now, n)[i].PutMarker? && RetireMarks(s, session, now, n)[i].marker == Marker(now, None, None)
  {
    if n > 0 {
      MarksAreMarkers(s, session, now, n - 1);
    }
  }

  lemma WriteKeepsHistories(s: Store, t: Store, op: Op, now: int, w: Write)
    requires HistoriesOk(s) && HistoriesOk(t) && Advancing(s, op, now, w)
    ensures HistoriesOk(Apply(t, w))
  {
    if w.PutObservation? {
      AdvancedFromHistory(s, op.id, op.event, now);
    }
    hide FromHistory;
  }

  lemma {:induction false} WritesKeepHistories(s: Store, t: Store, op: Op, now: int, writes: seq<Write>)
    requires HistoriesOk(s) && HistoriesOk(t) && forall i | 0 <= i < |writes| :: Advancing(s, op, now, writes[i])
    ensures HistoriesOk(ApplyAll(t, writes))
    decreases |writes|
  {
    hide HistoriesOk, Advancing, Apply;
    if writes != [] {
      assert Advancing(s, op, now, writes[0]);
      WriteKeepsHistories(s, t, op, now, writes[0]);
      WritesKeepHistories(s, Apply(t, writes[0]), op, now, writes[1..]);
    }
  }

  lemma {:induction false} RunHistories(calls: seq<Call>)
    ensures HistoriesOk(StoreAfter(calls))
  {
    if calls != [] {
      var n := |calls| - 1;
      var s, call := StoreAfter(calls[..n]), calls[n];
      RunHistories(calls[..n]);
      hide HistoriesOk, Advancing;
      PlanAdvances(s, call.op, call.now);
      WritesKeepHistories(s, s, call.op, call.now, Writes(s, call));
    }
  }

  // The event in an accepted history that the last definitive event is.
  lemma {:induction false} LastDefinitiveArrival(history: seq<Arrival>) returns (k: nat)
    requires Accepted(history) && Definitive(history) != []
    ensures k < |history| && history[k].observation == Last(Definitive(history)).value
    ensures Accepted(history[..k] + [history[k]]) && (k > 0 ==> history[k].observation != history[k - 1].observation)
  {
    var n := |history| - 1;
    if Definitive(history) == Definitive(history[..n]) {
      k := LastDefinitiveArrival(history[..n]);
      assert history[..n][..k] == history[..k];
    } else {
      k := n;
      assert history[..n] + [history[n]] == history;
    }
  }

  /**
   Any result the store ever shows was delivered by a final event that the automaton accepted: the
   same response offered exactly that payload, unchanged, for at least 1500 ms before.
   */
  lemma {:induction false} VisibleResultWasStable(calls: seq<Call>, id: RequestId, session: SessionId, expected: Option<Correlation>, now: int)
    returns (history: seq<Arrival>, final: Arrival, j: nat)
    requires var v := Look(StoreAfter(calls), id, session, expected, now); v.Ok? && v.value.result.Some?
    ensures var result := Look(StoreAfter(calls), id, session, expected, now).value.result.value;
      var d := Definitive(history);
      && Accepted(history + [final]) && Delivers(final.observation) && ResultOf(final.observation) == result
      && 2 <= j < |d| && OneResponse(d, final.observation.body.response)
      && final.acceptedAt - d[j].acceptedAt >= CONTROL_RESULT_FINAL_STABILITY_MS
      && (forall i | j <= i < |d| :: d[i].observation.body == Candidate(final.observation.body.response, final.observation.body.payload))
  {
    var s := StoreAfter(calls);
    RunHistories(calls);
    hide StoreAfter;
    assert FromHistory(s.observations[id]);
    var whole: seq<Arrival> :| WaitPolicy.After(whole) == Ok(Some(s.observations[id]));
    ProgressSummarises(whole);
    var k := LastDefinitiveArrival(whole);
    history, final := whole[..k], whole[k];
    assert history != [] ==> history[|history| - 1] == whole[k - 1];
    j := FinalRestsOnStableCandidates(history, final.observation, final.acceptedAt);
  }

  // -------------------------------------------------------------------------- crash and redelivery

  // An accepted event is accepted later as well, with the same effect but for the acceptance times.
  lemma AdvanceLater(p: Option<Progress>, o: Observation, now: int, later: int)
    requires now <= later && Advance(p, o, now).Ok?
    ensures var a, b := Advance(p, o, now), Advance(p, o, later);
      && b.Ok? && SameSight(a.value.progress, b.value.progress)
      && b.value.idempotentReplay == a.value.idempotentReplay && b.value.terminal == a.value.terminal
  {}

  predicate SameSight(p: Progress, q: Progress) { p.latest == q.latest && p.lastDefinitive == q.lastDefinitive }

  /** Two stores that differ at most in when the final event of one request was accepted. */
  predicate SameUpToTimes(s: Store, s': Store, id: RequestId) {
    && s'.requests == s.requests && s'.renewals == s.renewals && s'.active == s.active && s'.next == s.next
    && id in s.markers && id in s'.markers && id in s.observations && id in s'.observations
    && s'.markers == s.markers[id := s'.markers[id]] && s'.observations == s.observations[id := s'.observations[id]]
    && s'.markers[id].failure == s.markers[id].failure && s'.markers[id].result == s.markers[id].result
    && SameSight(s.observations[id], s'.observations[id])
  }

  // The three files a terminal event of a pending request leaves, or a prefix of them.
  function Marked(s: Store, op: Op, o: Observation, now: int): Store
    requires op.Observe?
  {
    s.(markers := s.markers[op.id := MarkerFor(o, now)])
  }

  function Finished(s: Store, op: Op, o: Observation, now: int, p: Progress): Store
    requires op.Observe?
  {
    Marked(s, op, o, now).(observations := s.observations[op.id := p])
  }

  function Cleared(s: Store, op: Op): Store
    requires op.Observe?
  {
    if Clearing(s, op.session, op.id) == [] then s else s.(active := s.active - {op.session})
  }

  // A terminal event of a pending request on its own page, as the gateway lets it through.
  predicate Ends(s: Store, op: Op, now: int) {
    && op.Observe? && op.id in s.requests && RecordsReadable(s, op.id) && OnSurface(op.event, s.requests[op.id])
    && StatusOf(s, op.id, now) == Pending
    && ObservePlan(s, op, now).1 == Reported
    && var next := Advance(ObservationOf(s, op.id), op.event, now);
       next.Ok? && !next.value.idempotentReplay && next.value.terminal == Some(op.event)
  }

  lemma EndingWrites(s: Store, op: Op, now: int)
    requires Ends(s, op, now)
    ensures var p := Advance(ObservationOf(s, op.id), op.event, now).value.progress;
      && PlanFor(s, op, now).0 == [PutMarker(op.id, MarkerFor(op.event, now)), PutObservation(op.id, p)] + Clearing(s, op.session, op.id)
      && p.latest == op.event && p.lastDefinitive == Some(op.event)
  {
    assert [PutMarker(op.id, MarkerFor(op.event, now))] + [PutObservation(op.id, Advance(ObservationOf(s, op.id), op.event, now).value.progress)]
        == [PutMarker(op.id, MarkerFor(op.event, now)), PutObservation(op.id, Advance(ObservationOf(s, op.id), op.event, now).value.progress)];
  }

  // What a crash after i of those writes leaves.
  lemma EndingPrefix(s: Store, op: Op, now: int, i: nat)
    requires Ends(s, op, now) && i <= |PlanFor(s, op, now).0|
    ensures var writes := PlanFor(s, op, now).0;
      var p := Advance(ObservationOf(s, op.id), op.event, now).value.progress;
      var crashed := ApplyAll(s, writes[..i]);
      && (i == 0 ==> crashed == s)
      && (i == 1 ==> crashed == Marked(s, op, op.event, now))
      && (i == 2 ==> crashed == Finished(s, op, op.event, now, p))
      && (i == 3 ==> crashed == Cleared(Finished(s, op, op.event, now, p), op))
      && (i == |writes| ==> crashed == Cleared(Finished(s, op, op.event, now, p), op))
  {
    EndingWrites(s, op, now);
    var writes := PlanFor(s, op, now).0;
    var p := Advance(ObservationOf(s, op.id), op.event, now).value.progress;
    var a, b := PutMarker(op.id, MarkerFor(op.event, now)), PutObservation(op.id, p);
    assert op.id !in s.markers;
    if i == 1 {
      assert writes[..1] == [a];
      ApplyOne(s, a);
    } else if i >= 2 {
      assert writes[..i] == [a] + writes[1..i];
      ApplyAllAppend(s, [a], writes[1..i]);
      ApplyOne(s, a);
      assert writes[1..i] == [b] + writes[2..i];
      ApplyAllAppend(Apply(s, a), [b], writes[2..i]);
      ApplyOne(Apply(s, a), b);
      if i == 3 {
        assert writes[2..3] == [ClearActive(op.session)];
        ApplyOne(Apply(Apply(s, a), b), ClearActive(op.session));
      } else {
        assert writes[2..i] == [];
      }
    }
  }

  // The marker the event leaves can be read back, and shows its failure at once but its result only once backed.
  lemma LookMarked(s: Store, op: Op, now: int, later: int)
    requires Ends(s, op, now)
    ensures var o := op.event;
      Look(Marked(s, op, o, now), op.id, op.session, op.expected, later) == Ok(Snapshot(Cancelled,
        Some(s.requests[op.id].(expiresAt := ExpiresAt(s, s.requests[op.id]))), ObservationOf(s, op.id), FailureOf(o), None))
  {
    var p := ObservationOf(s, op.id);
    assert op.event.body.Final? ==> p.Some? && p.value.lastDefinitive.Some? && p.value.lastDefinitive.value.body.Candidate?;
  }

  lemma LookFinished(s: Store, op: Op, now: int, later: int, p: Progress, c: Store)
    requires Ends(s, op, now) && p.latest == op.event && p.lastDefinitive == Some(op.event)
    requires var f := Finished(s, op, op.event, now, p); c == f || c == Cleared(f, op)
    ensures var o := op.event;
      Look(c, op.id, op.session, op.expected, later) == Ok(Snapshot(Cancelled,
        Some(s.requests[op.id].(expiresAt := ExpiresAt(s, s.requests[op.id]))), Some(p), FailureOf(o), HostResultOf(o)))
  {}

  lemma ReplayMarked(s: Store, op: Op, now: int, later: int)
    requires Ends(s, op, now) && now <= later
    ensures var c := Marked(s, op, op.event, now);
      PlanFor(c, op, later) ==
        ([PutObservation(op.id, Advance(ObservationOf(s, op.id), op.event, later).value.progress)] + Clearing(s, op.session, op.id), Reported)
  {
    LookMarked(s, op, now, later);
    AdvanceLater(ObservationOf(s, op.id), op.event, now, later);
  }

  lemma ReplayFinished(s: Store, op: Op, now: int, later: int, p: Progress, c: Store)
    requires Ends(s, op, now) && p.latest == op.event && p.lastDefinitive == Some(op.event)
    requires var f := Finished(s, op, op.event, now, p); c == f || c == Cleared(f, op)
    ensures PlanFor(c, op, later) == (Clearing(c, op.session, op.id), Reported)
  {
    LookFinished(s, op, now, later, p, c);
    assert [] + Clearing(c, op.session, op.id) == Clearing(c, op.session, op.id);
  }

  // The event's outcome is what the store shows.
  predicate ShowsOutcome(s: Store, op: Op, now: int)
    requires op.Observe?
  {
    var v := Look(s, op.id, op.session, op.expected, now);
    v.Ok? && v.value.status == Cancelled && v.value.failure == FailureOf(op.event) && v.value.result == HostResultOf(op.event)
  }

  // Redelivering the event to a store completes what the uninterrupted call would have left.
  predicate Completes(done: Store, crashed: Store, op: Op, later: int)
    requires op.Observe?
  {
    var (more, verdict) := PlanFor(crashed, op, later);
    var after := ApplyAll(crashed, more);
    verdict == Reported && SameUpToTimes(done, after, op.id) && ShowsOutcome(after, op, later)
  }

  function ProgressAt(s: Store, op: Op, now: int): Progress
    requires op.Observe? && Advance(ObservationOf(s, op.id), op.event, now).Ok?
  {
    Advance(ObservationOf(s, op.id), op.event, now).value.progress
  }

  // What the uninterrupted call leaves.
  lemma Uninterrupted(s: Store, op: Op, now: int)
    requires Ends(s, op, now)
    ensures ApplyAll(s, PlanFor(s, op, now).0) == Cleared(Finished(s, op, op.event, now, ProgressAt(s, op, now)), op)
    ensures ShowsOutcome(ApplyAll(s, PlanFor(s, op, now).0), op, now)
  {
    var writes := PlanFor(s, op, now).0;
    EndingWrites(s, op, now);
    EndingPrefix(s, op, now, |writes|);
    assert writes[..|writes|] == writes;
    LookFinished(s, op, now, now, ProgressAt(s, op, now), Cleared(Finished(s, op, op.event, now, ProgressAt(s, op, now)), op));
  }

  lemma EndsLater(s: Store, op: Op, now: int, later: int)
    requires Ends(s, op, now) && now <= later <= ExpiresAt(s, s.requests[op.id])
    ensures Ends(s, op, later)
  {
    AdvanceLater(ObservationOf(s, op.id), op.event, now, later);
  }

  lemma SameFinish(s: Store, op: Op, now: int, at: int, later: int)
    requires Ends(s, op, now) && now <= later && at <= later
    ensures Advance(ObservationOf(s, op.id), op.event, later).Ok?
    ensures SameUpToTimes(Cleared(Finished(s, op, op.event, now, ProgressAt(s, op, now)), op),
                          Cleared(Finished(s, op, op.event, at, ProgressAt(s, op, later)), op), op.id)
  {
    AdvanceLater(ObservationOf(s, op.id), op.event, now, later);
    var p, q := ProgressAt(s, op, now), ProgressAt(s, op, later);
    hide Ends, Advance, ProgressAt, Finished, Cleared, SameUpToTimes;
    FinishedSame(s, op, now, at, p, q);
    ClearedSame(Finished(s, op, op.event, now, p), Finished(s, op, op.event, at, q), op);
  }

  lemma FinishedSame(s: Store, op: Op, now: int, at: int, p: Progress, q: Progress)
    requires op.Observe? && SameSight(p, q)
    ensures SameUpToTimes(Finished(s, op, op.event, now, p), Finished(s, op, op.event, at, q), op.id)
  {}

  lemma ClearedSame(f: Store, g: Store, op: Op)
    requires op.Observe? && SameUpToTimes(f, g, op.id)
    ensures SameUpToTimes(Cleared(f, op), Cleared(g, op), op.id)
  {}

  lemma CompletesFromStart(s: Store, op: Op, now: int, later: int)
    requires Ends(s, op, now) && now <= later <= ExpiresAt(s, s.requests[op.id])
    ensures Completes(ApplyAll(s, PlanFor(s, op, now).0), s, op, later)
  {
    EndsLater(s, op, now, later);
    EndingWrites(s, op, later);
    hide PlanFor, Ends, Look, Advance, Finished, Cleared;
    Uninterrupted(s, op, now);
    Uninterrupted(s, op, later);
    SameFinish(s, op, now, later, later);
    assert PlanFor(s, op, later).1 == Reported by {
      VerdictReported(s, op, later);
    }
  }

  lemma VerdictReported(s: Store, op: Op, now: int)
    requires Ends(s, op, now)
    ensures PlanFor(s, op, now).1 == Reported
  {}

  lemma CompletesMarked(s: Store, op: Op, now: int, later: int)
    requires Ends(s, op, now) && now <= later
    ensures Completes(ApplyAll(s, PlanFor(s, op, now).0), Marked(s, op, op.event, now), op, later)
  {
    AdvanceLater(ObservationOf(s, op.id), op.event, now, later);
    ReplayMarked(s, op, now, later);
    ProgressEnds(s, op, later);
    hide PlanFor, Ends, Look, Advance;
    Uninterrupted(s, op, now);
    SameFinish(s, op, now, now, later);
    RedeliveredMarked(s, op, now, later, ProgressAt(s, op, later));
  }

  lemma ProgressEnds(s: Store, op: Op, now: int)
    requires op.Observe? && op.id in s.requests && Advance(ObservationOf(s, op.id), op.event, now).Ok?
    requires var a := Advance(ObservationOf(s, op.id), op.event, now).value; !a.idempotentReplay && a.terminal == Some(op.event)
    ensures ProgressAt(s, op, now).latest == op.event && ProgressAt(s, op, now).lastDefinitive == Some(op.event)
  {}

  lemma CompletesFinished(s: Store, op: Op, now: int, later: int, c: Store)
    requires Ends(s, op, now) && now <= later
    requires var f := Finished(s, op, op.event, now, ProgressAt(s, op, now)); c == f || c == Cleared(f, op)
    ensures Completes(ApplyAll(s, PlanFor(s, op, now).0), c, op, later)
  {
    ProgressEnds(s, op, now);
    var p := ProgressAt(s, op, now);
    var f := Finished(s, op, op.event, now, p);
    ReplayFinished(s, op, now, later, p, c);
    LookFinished(s, op, now, later, p, Cleared(f, op));
    hide PlanFor, Ends, Look, Advance;
    Uninterrupted(s, op, now);
    RedeliveredFinished(s, op, f, c);
    SameFinish(s, op, now, now, now);
  }

  /**
   After a crash at any point between the marker, the observation and the active pointer, delivering
   the same terminal event again reaches what the uninterrupted call would have left, but for the
   acceptance times, and shows the same failure or result.
   */
  lemma RedeliveryCompletes(s: Store, op: Op, now: int, i: nat, later: int)
    requires Ends(s, op, now) && i <= |PlanFor(s, op, now).0| && now <= later
    requires i == 0 ==> later <= ExpiresAt(s, s.requests[op.id])
    ensures var writes := PlanFor(s, op, now).0;
      Completes(ApplyAll(s, writes), ApplyAll(s, writes[..i]), op, later)
  {
    EndingPrefix(s, op, now, i);
    EndingWrites(s, op, now);
    hide Completes;
    if i == 0 {
      CompletesFromStart(s, op, now, later);
    } else if i == 1 {
      CompletesMarked(s, op, now, later);
    } else {
      CompletesFinished(s, op, now, later, ApplyAll(s, PlanFor(s, op, now).0[..i]));
    }
  }

  lemma RedeliveredMarked(s: Store, op: Op, now: int, later: int, q: Progress)
    requires Ends(s, op, now) && q.latest == op.event && q.lastDefinitive == Some(op.event)
    ensures var after := ApplyAll(Marked(s, op, op.event, now), [PutObservation(op.id, q)] + Clearing(s, op.session, op.id));
      after == Cleared(Finished(s, op, op.event, now, q), op) && ShowsOutcome(after, op, later)
  {
    var m, w := Marked(s, op, op.event, now), PutObservation(op.id, q);
    ApplyAllAppend(m, [w], Clearing(s, op.session, op.id));
    ApplyOne(m, w);
    if Clearing(s, op.session, op.id) != [] {
      ApplyOne(Apply(m, w), ClearActive(op.session));
    }
    LookFinished(s, op, now, later, q, Cleared(Finished(s, op, op.event, now, q), op));
  }

  lemma RedeliveredFinished(s: Store, op: Op, f: Store, c: Store)
    requires op.Observe? && (c == f || c == Cleared(f, op)) && f.active == s.active
    ensures ApplyAll(c, Clearing(c, op.session, op.id)) == Cleared(f, op)
  {
    if Clearing(c, op.session, op.id) != [] {
      ApplyOne(c, ClearActive(op.session));
    }
  }

  // -------------------------------------------------------------------------- readable records

  /** The gateway hands on an event for a pending request only if it names the page the request was opened on. */
  predicate Checked(s: Store, op: Op, now: int) {
    op.Observe? && StatusOf(s, op.id, now) == Pending ==> OnSurface(op.event, s.requests[op.id])
  }

  ghost predicate AllReadable(s: Store) { forall id | id in s.requests :: RecordsReadable(s, id) }

  // A write of the plan for a checked event leaves readable records, whatever other requests did meanwhile.
  ghost predicate ReadableWrite(s: Store, w: Write) {
    match w
    case PutObservation(id, p) => id in s.requests && ProgressReadable(p, s.requests[id])
    case PutMarker(id, m) => id in s.requests && MarkerReadable(m, s.requests[id])
    case PutRequest(r) => r.id !in s.observations && r.id !in s.markers
    case _ => true
  }

  lemma PlanReadable(s: Store, op: Op, now: int)
    requires Sound(s, now) && AllReadable(s) && Checked(s, op, now)
    ensures forall i | 0 <= i < |PlanFor(s, op, now).0| :: ReadableWrite(s, PlanFor(s, op, now).0[i])
  {
    match op
    case Observe(id, _, _, _, _) => ObserveReadable(s, op, now);
    case Retire(session) => RetireReadable(s, session, now, FirstUnreadable(s, session, s.next));
    case Open(_, _, _, _) => OpenReadable(s, op, now);
    case _ =>
  }

  lemma OpenReadable(s: Store, op: Op, now: int)
    requires Sound(s, now) && op.Open?
    ensures forall i | 0 <= i < |OpenPlan(s, op, now).0| :: ReadableWrite(s, OpenPlan(s, op, now).0[i])
  {
    if op.session in s.active {
      assert PointerOk(s, op.session);
    }
  }

  lemma ObserveReadable(s: Store, op: Op, now: int)
    requires AllReadable(s) && Checked(s, op, now) && op.Observe?
    ensures forall i | 0 <= i < |ObservePlan(s, op, now).0| :: ReadableWrite(s, ObservePlan(s, op, now).0[i])
  {
    if op.id in s.requests {
      assert RecordsReadable(s, op.id);
      if StatusOf(s, op.id, now) == Pending {
        AdvancedReadable(s, op, now);
      } else if op.id in s.markers && Look(s, op.id, op.session, op.expected, now).Ok? {
        MarkedReadable(s, op, now);
        hide ReadableWrite, ObserveMarked;
      }
    }
  }

  // The event of a replay that writes an observation.
  lemma ReplayWrites(s: Store, id: RequestId, session: SessionId, o: Observation, now: int,
                     failure: Option<Observation>, result: Option<HostResult>)
    ensures var writes := ReplayPlan(s, id, session, o, now, failure, result).0;
      forall i | 0 <= i < |writes| ::
        writes[i] == ClearActive(session) ||
        (writes[i].PutObservation? && writes[i].id == id && Advance(ObservationOf(s, id), o, now).Ok?
         && writes[i].progress == Advance(ObservationOf(s, id), o, now).value.progress
         && !Advance(ObservationOf(s, id), o, now).value.idempotentReplay
         && Advance(ObservationOf(s, id), o, now).value.terminal == Some(o) && FailureOf(o) == failure && HostResultOf(o) == result)
  {}

  // Behind a final event nothing delivers a result again.
  lemma FinalIsLast(p: Progress, o: Observation, now: int)
    requires p.lastDefinitive.Some? && p.lastDefinitive.value.body.Final? && Advance(Some(p), o, now).Ok?
    ensures var a := Advance(Some(p), o, now).value; a.idempotentReplay || a.terminal.None? || FailureOf(a.terminal.value).Some?
  {}

  // A replay onto a marked request writes only the event the marker holds, or the final that backs its result.
  lemma MarkedReadable(s: Store, op: Op, now: int)
    requires op.Observe? && op.id in s.requests && op.id in s.markers && RecordsReadable(s, op.id)
    requires Look(s, op.id, op.session, op.expected, now).Ok?
    ensures var v := Look(s, op.id, op.session, op.expected, now).value;
      var writes := ObserveMarked(s, v, op, now).0;
      forall i | 0 <= i < |writes| :: ReadableWrite(s, writes[i])
  {
    var v := Look(s, op.id, op.session, op.expected, now).value;
    if Interrupted(s, op.id, v) {
      hide Advance;
      if OnSurface(op.event, s.requests[op.id]) {
        ReplayWrites(s, op.id, op.session, op.event, now, None, s.markers[op.id].result);
        hide ReplayPlan;
        AdvancedReadable(s, op, now);
      }
    } else if v.failure.Some? || v.result.Some? {
      ReplayWrites(s, op.id, op.session, op.event, now, v.failure, v.result);
      if OnSurface(op.event, s.requests[op.id]) {
        AdvancedReadable(s, op, now);
      } else if v.failure.None? && Advance(ObservationOf(s, op.id), op.event, now).Ok? {
        FinalIsLast(s.observations[op.id], op.event, now);
      }
      hide ReplayPlan, Advance;
    }
  }

  lemma AdvancedReadable(s: Store, op: Op, now: int)
    requires op.Observe? && op.id in s.requests && RecordsReadable(s, op.id) && OnSurface(op.event, s.requests[op.id])
    ensures var next := Advance(ObservationOf(s, op.id), op.event, now);
      next.Ok? ==>
        && ProgressReadable(next.value.progress, s.requests[op.id])
        && (next.value.terminal.Some? ==> next.value.terminal.value == op.event)
  {}

  lemma {:induction false} RetireReadable(s: Store, session: SessionId, now: int, n: nat)
    ensures forall i | 0 <= i < |RetireMarks(s, session, now, n)| :: ReadableWrite(s, RetireMarks(s, session, now, n)[i])
  {
    if n > 0 {
      RetireReadable(s, session, now, n - 1);
    }
  }

  // The requests of t are those of s, or new ones that have no records yet.
  ghost predicate Follows(s: Store, t: Store) {
    forall id | id in t.requests :: if id in s.requests then t.requests[id] == s.requests[id] else id !in t.observations && id !in t.markers
  }

  lemma WriteStaysReadable(s: Store, t: Store, w: Write)
    requires AllReadable(t) && Follows(s, t) && ReadableWrite(s, w) && (w.PutRequest? ==> ReadableWrite(t, w) && w.request.id !in s.requests)
    ensures AllReadable(Apply(t, w)) && Follows(s, Apply(t, w))
  {
    forall id | id in Apply(t, w).requests ensures RecordsReadable(Apply(t, w), id) {
      assert id in t.requests ==> RecordsReadable(t, id);
    }
  }

  lemma PointedHasNoRecords(t: Store, w: Write, now: int)
    requires Sound(t, now) && WriteOk(t, w, now) && w.PutRequest?
    ensures ReadableWrite(t, w)
  {
    assert PointerOk(t, w.request.session);
  }

  lemma {:induction false} WritesStayReadable(s: Store, t: Store, writes: seq<Write>, now: int, n: nat)
    requires Sound(t, now) && WritesOk(t, writes, now) && n <= |writes| && AllReadable(t) && Follows(s, t)
    requires forall i | 0 <= i < |writes| :: ReadableWrite(s, writes[i]) && (writes[i].PutRequest? ==> writes[i].request.id !in s.requests)
    ensures AllReadable(ApplyAll(t, writes[..n]))
    decreases n
  {
    hide Sound, AllReadable, Follows, ReadableWrite, WriteOk;
    if n > 0 {
      var w := writes[0];
      if w.PutRequest? {
        PointedHasNoRecords(t, w, now);
      }
      WriteStaysReadable(s, t, w);
      WriteStaysSound(t, w, now);
      assert writes[..n][0] == w && writes[..n][1..] == writes[1..][..n - 1];
      WritesStayReadable(s, Apply(t, w), writes[1..], now, n - 1);
    }
  }

  lemma OnlyOpenPutsRequests(s: Store, op: Op, now: int)
    requires !op.Open?
    ensures forall i | 0 <= i < |PlanFor(s, op, now).0| :: !PlanFor(s, op, now).0[i].PutRequest?
  {
    hide Advance, Look, ExpiresAt, Interrupted;
    if op.Retire? {
      MarksAreMarkers(s, op.session, now, FirstUnreadable(s, op.session, s.next));
    }
  }

  lemma NewRequestsAreNew(s: Store, op: Op, now: int)
    requires Sound(s, now)
    ensures forall i | 0 <= i < |PlanFor(s, op, now).0| ::
      PlanFor(s, op, now).0[i].PutRequest? ==> PlanFor(s, op, now).0[i].request.id !in s.requests
  {
    if op.Open? {
      if op.session in s.active {
        assert PointerOk(s, op.session);
      }
    } else {
      OnlyOpenPutsRequests(s, op, now);
      hide PlanFor;
    }
  }

  lemma CallReadable(s: Store, call: Call)
    requires Sound(s, call.now) && AllReadable(s) && Checked(s, call.op, call.now)
    ensures AllReadable(ApplyAll(s, Writes(s, call)))
  {
    hide Sound, AllReadable, WritesOk, Checked, ReadableWrite;
    PlanOk(s, call.op, call.now);
    PlanReadable(s, call.op, call.now);
    NewRequestsAreNew(s, call.op, call.now);
    FollowsItself(s);
    WritesStayReadable(s, s, PlanFor(s, call.op, call.now).0, call.now, |Writes(s, call)|);
  }

  predicate CheckedRun(calls: seq<Call>) {
    forall i | 0 <= i < |calls| :: Checked(StoreAfter(calls[..i]), calls[i].op, calls[i].now)
  }

  lemma {:induction false} RunReadable(calls: seq<Call>)
    requires Timed(calls) && CheckedRun(calls)
    ensures AllReadable(StoreAfter(calls))
  {
    if calls != [] {
      var n := |calls| - 1;
      var s, call := StoreAfter(calls[..n]), calls[n];
      assert forall i | 0 <= i < n :: calls[..n][..i] == calls[..i];
      RunReadable(calls[..n]);
      hide StoreAfter, Sound, AllReadable, Checked;
      RunSound(calls[..n], call.now);
      CallReadable(s, call);
      StoreStep(calls);
    }
  }

  lemma FollowsItself(s: Store)
    ensures Follows(s, s)
  {}

  lemma StoreStep(calls: seq<Call>)
    requires calls != []
    ensures var s := StoreAfter(calls[..|calls| - 1]); StoreAfter(calls) == ApplyAll(s, Writes(s, calls[|calls| - 1]))
  {}

  /** With events checked by the gateway, no record of any reachable store is ever unreadable. */
  lemma {:induction false} CheckedStoresStayReadable(calls: seq<Call>, id: RequestId, session: SessionId, expected: Option<Correlation>, now: int)
    requires Timed(calls) && CheckedRun(calls)
    ensures Look(StoreAfter(calls), id, session, expected, now) != Err(Integrity)
  {
    RunReadable(calls);
  }
}
