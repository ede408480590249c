/**
 The request store of src/control/requests.ts as a class over its files, each operation writing them
 one by one in the source's order, proved to make exactly the planned writes.
 */
module ControlRequestStores {
  import opened Wrappers
  import opened WaitPolicy
  import opened ControlRequests
  import opened ControlRequestRuns

  /** The store after one request after another, among the first n numbers, has had its turn in a prune, until one refuses. */
  function PrunedBelow(s: Store, protected: set<RequestId>, now: int, n: nat): (Store, Verdict) {
    if n == 0 then (s, Reported)
    else
      var (before, verdict) := PrunedBelow(s, protected, now, n - 1);
      if verdict != Reported then (before, verdict)
      else
        var (writes, last) := PlanFor(before, Op.Prune(n - 1, protected), now);
        (ApplyAll(before, writes), last)
  }

  lemma {:induction false} PruneStopped(s: Store, protected: set<RequestId>, now: int, k: nat, n: nat)
    requires k <= n && PrunedBelow(s, protected, now, k).1 != Reported
    ensures PrunedBelow(s, protected, now, n) == PrunedBelow(s, protected, now, k)
  {
    if k < n {
      PruneStopped(s, protected, now, k, n - 1);
    }
  }

  lemma FirstIs(s: Store, session: SessionId, k: nat)
    requires k <= s.next && (k < s.next ==> Unreadable(s, session, k))
    requires forall id: RequestId | id < k :: !Unreadable(s, session, id)
    ensures FirstUnreadable(s, session, s.next) == k
  {}

  lemma ApplyTwo(s: Store, a: Write, b: Write)
    ensures ApplyAll(s, [a, b]) == Apply(Apply(s, a), b)
  {
    ApplyAllAppend(s, [a], [b]);
    assert [a] + [b] == [a, b];
    ApplyOne(s, a);
    ApplyOne(Apply(s, a), b);
  }

  class RequestStore {
    var requests: map<RequestId, Request>
    var renewals: map<RequestId, int>
    var markers: map<RequestId, Marker>
    var observations: map<RequestId, Progress>
    var active: map<SessionId, Request>
    var next: RequestId

    function Model(): Store
      reads this
    {
      Store(requests, renewals, markers, observations, active, next)
    }

    constructor ()
      ensures Model() == EMPTY_STORE
    {
      requests, renewals, markers, observations, active, next := map[], map[], map[], map[], map[], 0;
    }

    // ------------------------------------------------------------------------ single files

    /** Exclusive: false when the session has a pointer already. */
    method ClaimActiveRequest(r: Request) returns (claimed: bool)
      requires r.id == next
      modifies this
      ensures claimed <==> r.session !in old(active)
      ensures Model() == if claimed then Apply(old(Model()), ClaimActive(r)) else old(Model())
    {
      claimed := r.session !in active;
      if claimed {
        active := active[r.session := r];
        next := r.id + 1;
      }
    }

    method ClearActiveRequest(session: SessionId, id: RequestId)
      modifies this
      ensures Model() == ApplyAll(old(Model()), Clearing(old(Model()), session, id))
    {
      if session in active && active[session].id == id {
        ApplyOne(Model(), ClearActive(session));
        active := active - {session};
      }
    }

    method EnsureRequestFile(r: Request)
      modifies this
      ensures Model() == if r.id in old(requests) then old(Model()) else Apply(old(Model()), PutRequest(r))
    {
      if r.id !in requests {
        requests := requests[r.id := r];
      }
    }

    /** Exclusive: a marker that is there stays. */
    method WriteTerminalMarker(id: RequestId, m: Marker)
      modifies this
      ensures Model() == Apply(old(Model()), PutMarker(id, m))
    {
      if id !in markers {
        markers := markers[id := m];
      }
    }

    method WritePageObservation(id: RequestId, p: Progress)
      modifies this
      ensures Model() == Apply(old(Model()), PutObservation(id, p))
    {
      observations := observations[id := p];
    }

    method WriteRenewal(id: RequestId, expiresAt: int)
      modifies this
      ensures Model() == Apply(old(Model()), PutRenewal(id, expiresAt))
    {
      renewals := renewals[id := expiresAt];
    }

    // ------------------------------------------------------------------------ operations

    ghost predicate Did(before: Store, op: Op, now: int, verdict: Verdict)
      reads this
    {
      Model() == ApplyAll(before, PlanFor(before, op, now).0) && verdict == PlanFor(before, op, now).1
    }

    method Open(session: SessionId, correlation: Correlation, surface: Option<Surface>, ttlMs: int, now: int) returns (verdict: Verdict)
      requires Sound(Model(), now)
      modifies this
      ensures Did(old(Model()), Op.Open(session, correlation, surface, ttlMs), now, verdict)
    {
      hide MarkerReadable, Sound, PointerOk, ApplyAll;
      ghost var before := Model();
      NextIsFree(before, now);
      ApplyNone(before);
      if !(MIN_REQUEST_TTL_MS <= ttlMs <= MAX_REQUEST_TTL_MS) {
        return Refused(InvalidResult);
      }
      if session in active {
        PointsRight(before, now, session);
        var a := active[session];
        var current := a.(expiresAt := ExpiresAt(Model(), a));
        if !EndReadable(Model(), a) {
          return Refused(Integrity);
        }
        if Unfinished(Model(), a, now) {
          if a.correlation != correlation {
            return Refused(TurnInProgress);
          }
          ApplyOne(before, PutRequest(current));
          EnsureRequestFile(current);
          return Opened(current, false);
        }
        ClearsThen(before, session, NewRequest(before, Op.Open(session, correlation, surface, ttlMs), now));
        ClearActiveRequest(session, a.id);
      }
      verdict := OpenNew(session, correlation, surface, ttlMs, now);
    }

    method OpenNew(session: SessionId, correlation: Correlation, surface: Option<Surface>, ttlMs: int, now: int) returns (verdict: Verdict)
      requires session !in active && next !in requests
      modifies this
      ensures var r := Request(old(next), session, correlation, surface, now, now + ttlMs);
        Model() == ApplyAll(old(Model()), [ClaimActive(r), PutRequest(r)]) && verdict == Opened(r, true)
    {
      var r := Request(next, session, correlation, surface, now, now + ttlMs);
      ApplyTwo(Model(), ClaimActive(r), PutRequest(r));
      var _ := ClaimActiveRequest(r);
      EnsureRequestFile(r);
      return Opened(r, true);
    }

    method Cancel(id: RequestId, session: SessionId, correlation: Correlation, now: int) returns (verdict: Verdict)
      modifies this
      ensures Did(old(Model()), Op.Cancel(id, session, correlation), now, verdict)
    {
      ghost var before := Model();
      var v := Look(Model(), id, session, Some(correlation), now);
      if v.Err? {
        return Refused(v.error);
      }
      match v.value.status
      case NotFound => return Refused(RequestNotFound);
      case Expired => return Refused(NotPending);
      case Cancelled =>
        ClearActiveRequest(session, id);
        return Reported;
      case Pending =>
        ghost var mark := PutMarker(id, Marker(now, None, None));
        WriteTerminalMarker(id, Marker(now, None, None));
        ApplyOne(before, mark);
        ApplyAllAppend(before, [mark], Clearing(before, session, id));
        ClearActiveRequest(session, id);
        return Reported;
    }

    method Renew(id: RequestId, session: SessionId, correlation: Correlation, expiresAt: int, now: int) returns (verdict: Verdict)
      modifies this
      ensures Did(old(Model()), Op.Renew(id, session, correlation, expiresAt), now, verdict)
    {
      var v := Look(Model(), id, session, Some(correlation), now);
      if v.Err? {
        return Refused(v.error);
      }
      if v.value.status != Pending {
        return Reported;
      }
      if !(now < expiresAt <= now + MAX_REQUEST_TTL_MS) {
        return Refused(InvalidResult);
      }
      if expiresAt > v.value.request.value.expiresAt {
        ApplyOne(Model(), PutRenewal(id, expiresAt));
        WriteRenewal(id, expiresAt);
      }
      return Reported;
    }

    /** Takes a terminal event for a request that is marked already. */
    method ReplayTerminal(id: RequestId, session: SessionId, o: Observation, now: int,
                          failure: Option<Observation>, result: Option<HostResult>) returns (verdict: Verdict)
      modifies this
      ensures var (writes, answer) := ReplayPlan(old(Model()), id, session, o, now, failure, result);
        Model() == ApplyAll(old(Model()), writes) && verdict == answer
    {
      ghost var before := Model();
      var replay := Advance(ObservationOf(Model(), id), o, now);
      if replay.Err? {
        return Refused(EventRefused(replay.error));
      }
      var a := replay.value;
      if a.terminal.None? || FailureOf(a.terminal.value) != failure || HostResultOf(a.terminal.value) != result {
        return Refused(WrongCorrelation);
      }
      if !a.idempotentReplay {
        WritePageObservation(id, a.progress);
        ApplyOne(before, PutObservation(id, a.progress));
        ApplyAllAppend(before, [PutObservation(id, a.progress)], Clearing(before, session, id));
      } else {
        assert [] + Clearing(before, session, id) == Clearing(before, session, id);
      }
      ClearActiveRequest(session, id);
      return Reported;
    }

    /** Takes an event for a pending request. */
    method Advancing(id: RequestId, session: SessionId, expected: Option<Correlation>, o: Observation, renewal: Option<int>, now: int)
      returns (verdict: Verdict)
      requires id in requests
      modifies this
      ensures var (writes, answer) := ObservePending(old(Model()), Op.Observe(id, session, expected, o, renewal), now);
        Model() == ApplyAll(old(Model()), writes) && verdict == answer
    {
      hide Advance;
      ghost var before := Model();
      var advanced := Advance(ObservationOf(Model(), id), o, now);
      if advanced.Err? {
        return Refused(EventRefused(advanced.error));
      }
      var a := advanced.value;
      ghost var observed := PutObservation(id, a.progress);
      if a.idempotentReplay {
        return Reported;
      }
      if o.body.Generating? {
        if renewal.None? || !(now < renewal.value <= now + MAX_REQUEST_TTL_MS) {
          return Refused(InvalidResult);
        }
        if renewal.value > ExpiresAt(Model(), requests[id]) {
          WriteRenewal(id, renewal.value);
          ApplyTwo(before, PutRenewal(id, renewal.value), observed);
          assert [PutRenewal(id, renewal.value)] + [observed] == [PutRenewal(id, renewal.value), observed];
        } else {
          ApplyOne(before, observed);
          assert [] + [observed] == [observed];
        }
        WritePageObservation(id, a.progress);
        return Reported;
      }
      if a.terminal.None? {
        ApplyOne(before, observed);
        WritePageObservation(id, a.progress);
        return Reported;
      }
      ghost var mark := PutMarker(id, MarkerFor(a.terminal.value, now));
      WriteTerminalMarker(id, MarkerFor(a.terminal.value, now));
      WritePageObservation(id, a.progress);
      ApplyTwo(before, mark, observed);
      ApplyAllAppend(before, [mark, observed], Clearing(before, session, id));
      assert [mark] + [observed] == [mark, observed];
      ClearActiveRequest(session, id);
      return Reported;
    }

    method Observe(id: RequestId, session: SessionId, expected: Option<Correlation>, o: Observation, renewal: Option<int>, now: int)
      returns (verdict: Verdict)
      modifies this
      ensures Did(old(Model()), Op.Observe(id, session, expected, o, renewal), now, verdict)
    {
      hide Advance, RecordsReadable, ReplayPlan, ObservePending;
      var looked := Look(Model(), id, session, expected, now);
      if looked.Err? {
        return Refused(looked.error);
      }
      var v, kind := looked.value, EventKind(o);
      if o.identity.requestId != id {
        return Refused(WrongCorrelation);
      }
      if kind.Some? && (v.request.None? || kind.value !in AllowedKinds(v.request.value.correlation.phase)) {
        return Refused(KindNotAllowed);
      }
      if v.status == Cancelled {
        if Interrupted(Model(), id, v) {
          if !OnSurface(o, requests[id]) {
            return Refused(WrongCorrelation);
          }
          verdict := ReplayTerminal(id, session, o, now, None, markers[id].result);
        } else if v.failure.None? && v.result.None? {
          ClearActiveRequest(session, id);
          verdict := Reported;
        } else {
          verdict := ReplayTerminal(id, session, o, now, v.failure, v.result);
        }
      } else if v.status == Pending {
        verdict := Advancing(id, session, expected, o, renewal, now);
      } else {
        verdict := Reported;
      }
    }

    /** Marks the pending requests of the session one by one; the first one that cannot be read ends it. */
    method Retire(session: SessionId, now: int) returns (pendingCancelled: nat, verdict: Verdict)
      requires Sound(Model(), now)
      modifies this
      ensures Did(old(Model()), Op.Retire(session), now, verdict)
      ensures verdict == Reported ==> pendingCancelled == |RetireMarks(old(Model()), session, now, old(next))|
    {
      hide Sound, MarkedBelow, WritesOk, StatusOf, RecordsReadable, FirstUnreadable;
      verdict := Reported;
      ghost var before := Model();
      pendingCancelled := 0;
      for id := 0 to next
        invariant next == before.next
        invariant Model() == ApplyAll(before, RetireMarks(before, session, now, id))
        invariant pendingCancelled == |RetireMarks(before, session, now, id)|
        invariant forall k: RequestId | k < id :: !Unreadable(before, session, k)
      {
        RetireMarksOk(before, session, now, id);
        StillRetirable(before, Model(), session, now, id);
        if id in requests && requests[id].session == session && !RecordsReadable(Model(), id) {
          FirstIs(before, session, id);
          return pendingCancelled, Refused(Integrity);
        }
        if id in requests && requests[id].session == session && StatusOf(Model(), id, now) == Pending {
          ghost var mark := PutMarker(id, Marker(now, None, None));
          ApplyAllAppend(before, RetireMarks(before, session, now, id), [mark]);
          ApplyOne(Model(), mark);
          WriteTerminalMarker(id, Marker(now, None, None));
          pendingCancelled := pendingCancelled + 1;
        }
      }
      FirstIs(before, session, before.next);
      ghost var marks := RetireMarks(before, session, now, before.next);
      RetireMarksOk(before, session, now, before.next);
      StillRetirable(before, Model(), session, now, before.next);
      if session in active {
        ApplyAllAppend(before, marks, [ClearActive(session)]);
        ApplyOne(Model(), ClearActive(session));
        ClearActiveRequest(session, active[session].id);
      } else {
        assert marks + [] == marks;
      }
    }

    method PruneOne(id: RequestId, protected: set<RequestId>, now: int) returns (removed: nat, verdict: Verdict)
      modifies this
      ensures Did(old(Model()), Op.Prune(id, protected), now, verdict)
      ensures next == old(next)
    {
      ghost var before := Model();
      if id !in requests || id in protected {
        return 0, Reported;
      }
      if !EndReadable(Model(), requests[id]) {
        return 0, Refused(Integrity);
      }
      var at := TerminalAt(Model(), id, now);
      if at.None? || now - at.value <= RETAIN_TERMINAL_MS {
        return 0, Reported;
      }
      var session := requests[id].session;
      ClearActiveRequest(session, id);
      RemoveFiles(id);
      ApplyAllAppend(before, Clearing(before, session, id),
                     [DropRequest(id), DropObservation(id), DropMarker(id), DropRenewal(id)]);
      ClearingKeepsNext(before, session, id);
      return 1, Reported;
    }

    method RemoveFiles(id: RequestId)
      modifies this
      ensures Model() == ApplyAll(old(Model()), [DropRequest(id), DropObservation(id), DropMarker(id), DropRenewal(id)])
      ensures next == old(next)
    {
      ghost var s := Model();
      ApplyTwo(s, DropRequest(id), DropObservation(id));
      ApplyTwo(Apply(Apply(s, DropRequest(id)), DropObservation(id)), DropMarker(id), DropRenewal(id));
      ApplyAllAppend(s, [DropRequest(id), DropObservation(id)], [DropMarker(id), DropRenewal(id)]);
      assert [DropRequest(id), DropObservation(id)] + [DropMarker(id), DropRenewal(id)]
          == [DropRequest(id), DropObservation(id), DropMarker(id), DropRenewal(id)];
      requests := requests - {id};
      observations := observations - {id};
      markers := markers - {id};
      renewals := renewals - {id};
    }

    /** Every stored request that the legacy clean-up does not still need to check gets its turn, up to one that cannot be read. */
    method Prune(protected: set<RequestId>, now: int) returns (removed: nat, verdict: Verdict)
      modifies this
      ensures (Model(), verdict) == PrunedBelow(old(Model()), protected, now, old(next))
    {
      ghost var before := Model();
      removed, verdict := 0, Reported;
      for id := 0 to next
        invariant next == before.next && (Model(), verdict) == PrunedBelow(before, protected, now, id) && verdict == Reported
      {
        var one: nat;
        one, verdict := PruneOne(id, protected, now);
        removed := removed + one;
        if verdict != Reported {
          PruneStopped(before, protected, now, id + 1, next);
          return;
        }
      }
    }
  }

  lemma PointsRight(s: Store, now: int, session: SessionId)
    requires Sound(s, now) && session in s.active
    ensures s.active[session].session == session && (s.active[session].id !in s.requests ==> s.active[session].id !in s.renewals)
    ensures s.active[session].id in s.requests ==> s.requests[s.active[session].id] == s.active[session]
  {
    assert PointerOk(s, session);
  }

  lemma ApplyNone(s: Store)
    ensures ApplyAll(s, []) == s
  {}

  lemma NextIsFree(s: Store, now: int)
    requires Sound(s, now)
    ensures s.next !in s.requests
  {}

  lemma ClearsThen(s: Store, session: SessionId, r: Request)
    requires session in s.active
    ensures ApplyAll(s, Clearing(s, session, s.active[session].id)) == Apply(s, ClearActive(session))
    ensures ApplyAll(s, [ClearActive(session), ClaimActive(r), PutRequest(r)])
         == ApplyAll(Apply(s, ClearActive(session)), [ClaimActive(r), PutRequest(r)])
  {
    ApplyOne(s, ClearActive(session));
    ApplyAllAppend(s, [ClearActive(session)], [ClaimActive(r), PutRequest(r)]);
    assert [ClearActive(session)] + [ClaimActive(r), PutRequest(r)] == [ClearActive(session), ClaimActive(r), PutRequest(r)];
  }

  // Marking other requests of the session does not change whether this one is pending.
  lemma StillRetirable(s: Store, after: Store, session: SessionId, now: int, id: RequestId)
    requires MarkedBelow(s, after, session, now, id)
    ensures Retirable(s, session, now, id) <==> Retirable(after, session, now, id)
    ensures after.requests == s.requests && (Unreadable(s, session, id) <==> Unreadable(after, session, id))
    ensures after.active == s.active && after.next == s.next
  {}

  lemma ClearingKeepsNext(s: Store, session: SessionId, id: RequestId)
    ensures ApplyAll(s, Clearing(s, session, id)).next == s.next
  {
    if Clearing(s, session, id) != [] {
      ApplyOne(s, ClearActive(session));
    }
  }
}
