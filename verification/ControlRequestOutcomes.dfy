/**
 What the operations of the request store achieve, and when: in terms of what a look at the store shows,
 of the active pointers and of what opening answers, over every later call and crash.
 */
module ControlRequestOutcomes {
  import opened Wrappers
  import opened WaitPolicy
  import opened ControlRequests
  import opened ControlRequestRuns
  import opened ControlRecords

  // The store behind a call that was not cut.
  function Behind(s: Store, op: Op, now: int): Store { ApplyAll(s, PlanFor(s, op, now).0) }

  function Answer(s: Store, op: Op, now: int): Verdict { PlanFor(s, op, now).1 }

  predicate Uncut(s: Store, call: Call) { call.kept >= |PlanFor(s, call.op, call.now).0| }

  lemma UncutWrites(s: Store, call: Call)
    requires Uncut(s, call)
    ensures ApplyAll(s, Writes(s, call)) == Behind(s, call.op, call.now)
  {
    var plan := PlanFor(s, call.op, call.now).0;
    assert plan[..|plan|] == plan;
  }

  // -------------------------------------------------------------------------- what never comes back

  lemma WriteKeepsUnpointed(s: Store, w: Write, now: int, id: RequestId)
    requires WriteOk(s, w, now) && id < s.next && !Pointed(s, id)
    ensures !Pointed(Apply(s, w), id) && s.next <= Apply(s, w).next
  {
    forall session | session in Apply(s, w).active ensures Apply(s, w).active[session].id != id {
      assert session in s.active ==> s.active[session].id != id;
    }
  }

  lemma {:induction false} WritesKeepUnpointed(s: Store, writes: seq<Write>, now: int, n: nat, id: RequestId)
    requires WritesOk(s, writes, now) && n <= |writes| && id < s.next && !Pointed(s, id)
    ensures !Pointed(ApplyAll(s, writes[..n]), id)
    decreases n
  {
    hide WriteOk, Pointed, Apply;
    if n > 0 {
      WriteKeepsUnpointed(s, writes[0], now, id);
      assert writes[..n][0] == writes[0] && writes[..n][1..] == writes[1..][..n - 1];
      WritesKeepUnpointed(Apply(s, writes[0]), writes[1..], now, n - 1, id);
    }
  }

  /** Over at a time: gone, or on file and marked or expired by then. */
  ghost predicate Over(s: Store, id: RequestId, now: int) {
    Gone(s, id) || (id in s.requests && s.requests[id].id == id && !Unfinished(s, s.requests[id], now))
  }

  lemma OverStays(s: Store, call: Call, id: RequestId, later: int)
    requires Sound(s, call.now) && Over(s, id, call.now) && call.now <= later
    ensures Over(ApplyAll(s, Writes(s, call)), id, later)
  {
    if Gone(s, id) {
      hide Gone, Sound, WritesOk;
      PlanOk(s, call.op, call.now);
      WritesKeepMarkers(s, PlanFor(s, call.op, call.now).0, call.now, |Writes(s, call)|);
    } else if Prunes(call.op, id) {
      PruneTracks(s, call, id);
      hide Gone, Sound, Writes, ApplyAll;
    } else {
      CallTracks(s, call, id);
      hide Gone, Sound, Writes, ApplyAll, Observes;
    }
  }

  lemma {:induction false} OverForGood(calls: seq<Call>, i: nat, id: RequestId, from: int, now: int)
    requires Timed(calls) && i <= |calls| && Over(StoreAfter(calls[..i]), id, from)
    requires (i < |calls| ==> from <= calls[i].now) && (if calls != [] && i < |calls| then calls[|calls| - 1].now <= now else from <= now)
    ensures Over(StoreAfter(calls), id, now)
  {
    hide Sound, StoreAfter, Gone;
    if i == |calls| {
      assert calls[..i] == calls;
    } else {
      var n := |calls| - 1;
      assert calls[..n][..i] == calls[..i];
      OverForGood(calls[..n], i, id, from, calls[n].now);
      RunSound(calls[..n], calls[n].now);
      OverStays(StoreAfter(calls[..n]), calls[n], id, now);
      StoreStep(calls);
    }
  }

  // Unpointed as well, and once marked always marked.
  ghost predicate Ended(s: Store, id: RequestId) { Gone(s, id) || (id in s.requests && id in s.markers && !Pointed(s, id)) }

  lemma EndedStays(s: Store, call: Call, id: RequestId)
    requires Sound(s, call.now) && Ended(s, id)
    ensures Ended(ApplyAll(s, Writes(s, call)), id)
  {
    assert id < s.next;
    PlanOk(s, call.op, call.now);
    if Gone(s, id) {
      hide Gone, Sound, WritesOk;
      WritesKeepMarkers(s, PlanFor(s, call.op, call.now).0, call.now, |Writes(s, call)|);
    } else {
      WritesKeepUnpointed(s, PlanFor(s, call.op, call.now).0, call.now, |Writes(s, call)|, id);
      if Prunes(call.op, id) {
        PruneTracks(s, call, id);
      } else {
        CallTracks(s, call, id);
      }
      hide Gone, Sound, Pointed, PlanFor, ApplyAll, Observes;
    }
  }

  lemma {:induction false} EndedForGood(calls: seq<Call>, i: nat, id: RequestId)
    requires Timed(calls) && i <= |calls| && Ended(StoreAfter(calls[..i]), id)
    ensures Ended(StoreAfter(calls), id)
  {
    hide Ended, Sound, StoreAfter;
    if i == |calls| {
      assert calls[..i] == calls;
    } else {
      var n := |calls| - 1;
      assert calls[..n][..i] == calls[..i];
      EndedForGood(calls[..n], i, id);
      RunSound(calls[..n], calls[n].now);
      EndedStays(StoreAfter(calls[..n]), calls[n], id);
      StoreStep(calls);
    }
  }

  // What an ended request looks like from outside.
  ghost predicate LooksEnded(s: Store, id: RequestId, now: int) {
    && StatusOf(s, id, now) in {Cancelled, NotFound}
    && (forall session | session in s.active :: s.active[session].id != id)
    && (forall session, expected ::
          Look(s, id, session, expected, now).Ok? ==> Look(s, id, session, expected, now).value.status in {Cancelled, NotFound})
    && (forall session, correlation, surface, ttl ::
          Answer(s, Open(session, correlation, surface, ttl), now).Opened? && Sound(s, now) ==>
            Answer(s, Open(session, correlation, surface, ttl), now).request.id != id)
  }

  lemma EndedLooksEnded(s: Store, id: RequestId, now: int)
    requires Ended(s, id)
    ensures LooksEnded(s, id, now)
  {
    assert id < s.next || id in s.requests;
    forall session, correlation, surface, ttl |
      Answer(s, Open(session, correlation, surface, ttl), now).Opened? && Sound(s, now)
      ensures Answer(s, Open(session, correlation, surface, ttl), now).request.id != id
    {
      assert session in s.active ==> s.active[session].id != id;
    }
    hide RecordsReadable;
  }

  // -------------------------------------------------------------------------- cancelling

  /** A cancel is answered with success exactly if the store shows the caller a request that is pending or already cancelled. */
  lemma CancelAnswers(s: Store, op: Op, now: int)
    requires op.Cancel?
    ensures var v := Look(s, op.id, op.session, Some(op.correlation), now);
      && (Answer(s, op, now) == Reported <==> v.Ok? && v.value.status in {Pending, Cancelled})
      && (v.Err? ==> Answer(s, op, now) == Refused(v.error))
      && (v.Ok? && v.value.status == Expired ==> Answer(s, op, now) == Refused(NotPending))
      && (v.Ok? && v.value.status == NotFound ==> Answer(s, op, now) == Refused(RequestNotFound))
  {
    hide RecordsReadable;
  }

  lemma CancelledNow(s: Store, op: Op, now: int)
    requires Sound(s, now) && op.Cancel? && Answer(s, op, now) == Reported
    ensures Ended(Behind(s, op, now), op.id)
    ensures Behind(s, op, now).requests == s.requests
    ensures StatusOf(s, op.id, now) == Pending ==> op.session !in Behind(s, op, now).active
  {
    CancelAnswers(s, op, now);
    var marked := if op.id in s.markers then s else Apply(s, PutMarker(op.id, Marker(now, None, None)));
    var clearing := Clearing(s, op.session, op.id);
    if op.id !in s.markers {
      WriteStaysSound(s, PutMarker(op.id, Marker(now, None, None)), now);
      ApplyAllAppend(s, [PutMarker(op.id, Marker(now, None, None))], clearing);
      ApplyOne(s, PutMarker(op.id, Marker(now, None, None)));
      assert Unfinished(s, s.requests[op.id], now);
    }
    assert Behind(s, op, now) == ApplyAll(marked, clearing) && clearing == Clearing(marked, op.session, op.id);
    ClearedPointer(marked, op.session, op.id);
    ClearingOnly(marked, op.session, op.id);
  }

  lemma ClearingOnly(s: Store, session: SessionId, id: RequestId)
    ensures var t := ApplyAll(s, Clearing(s, session, id));
      && t == s.(active := t.active) && (forall k | k in t.active :: k in s.active && t.active[k] == s.active[k])
      && (session in s.active && s.active[session].id == id ==> session !in t.active)
  {
    if Clearing(s, session, id) != [] {
      ApplyOne(s, ClearActive(session));
    }
  }

  /**
   A cancel that answered with success and was not cut holds for good: at every later time, whatever is
   called and crashes in between, the request is shown as cancelled until it is pruned, no pointer names
   it, and no opening answers with it.
   */
  lemma {:induction false} CancelHolds(calls: seq<Call>, i: nat, now: int)
    requires Timed(calls) && i < |calls| && calls[i].op.Cancel?
    requires var s := StoreAfter(calls[..i]); Answer(s, calls[i].op, calls[i].now) == Reported && Uncut(s, calls[i])
    ensures LooksEnded(StoreAfter(calls), calls[i].op.id, now)
    ensures var t := StoreAfter(calls); calls[i].op.id in t.requests ==> StatusOf(t, calls[i].op.id, now) == Cancelled
  {
    var s := StoreAfter(calls[..i]);
    RunSound(calls[..i], calls[i].now);
    CancelledNow(s, calls[i].op, calls[i].now);
    UncutWrites(s, calls[i]);
    StoreStep(calls[..i + 1]);
    assert calls[..i + 1][..i] == calls[..i];
    hide StoreAfter, LooksEnded, Answer, Uncut, Sound;
    EndedForGood(calls, i + 1, calls[i].op.id);
    EndedLooksEnded(StoreAfter(calls), calls[i].op.id, now);
  }

  /** ... and it frees the session: the next opening, whatever its correlation, gets a new request. */
  lemma CancelFrees(s: Store, op: Op, now: int, opening: Op, later: int)
    requires Sound(s, now) && op.Cancel? && Answer(s, op, now) == Reported && StatusOf(s, op.id, now) == Pending
    requires opening.Open? && opening.session == op.session && MIN_REQUEST_TTL_MS <= opening.ttlMs <= MAX_REQUEST_TTL_MS
    ensures var t := Behind(s, op, now);
      Answer(t, opening, later) == Opened(NewRequest(t, opening, later), true) && NewRequest(t, opening, later).id !in s.requests
  {
    CancelledNow(s, op, now);
    CancelOk(s, op, now);
    BehindNext(s, op, now);
    hide Behind;
  }

  lemma BehindNext(s: Store, op: Op, now: int)
    requires Sound(s, now)
    ensures s.next <= Behind(s, op, now).next
  {
    hide Sound, WritesOk;
    PlanOk(s, op, now);
    var plan := PlanFor(s, op, now).0;
    WritesKeepMarkers(s, plan, now, |plan|);
    assert plan[..|plan|] == plan;
  }

  // -------------------------------------------------------------------------- retiring a session

  /** Retiring answers with success exactly if every record of the session can be read. */
  lemma RetireAnswers(s: Store, op: Op, now: int)
    requires op.Retire? && FilesOk(s)
    ensures Answer(s, op, now) == Reported <==>
      forall id | id in s.requests && s.requests[id].session == op.session :: RecordsReadable(s, id)
  {
    var k := FirstUnreadable(s, op.session, s.next);
    hide RecordsReadable, PointerOk;
    if k == s.next {
      forall id | id in s.requests && s.requests[id].session == op.session ensures RecordsReadable(s, id) {
        assert !Unreadable(s, op.session, id);
      }
    }
  }

  /** What it does then: exactly the pending requests of the session are marked, and its pointer is gone. */
  lemma RetiredNow(s: Store, op: Op, now: int)
    requires Sound(s, now) && op.Retire? && Answer(s, op, now) == Reported
    ensures var t := Behind(s, op, now);
      && t == s.(markers := t.markers, active := s.active - {op.session})
      && (forall id: RequestId :: id in t.markers <==>
            id in s.markers || (id in s.requests && s.requests[id].session == op.session && StatusOf(s, id, now) == Pending))
      && (forall id | id in s.markers :: t.markers[id] == s.markers[id])
      && (forall id | id in s.requests && s.requests[id].session == op.session :: Over(t, id, now))
  {
    var marks := RetireMarks(s, op.session, now, s.next);
    RetireMarksOk(s, op.session, now, s.next);
    var after := ApplyAll(s, marks);
    assert FirstUnreadable(s, op.session, s.next) == s.next;
    if op.session in s.active {
      ApplyAllAppend(s, marks, [ClearActive(op.session)]);
      ApplyOne(after, ClearActive(op.session));
    } else {
      assert marks + [] == marks;
      assert s.active - {op.session} == s.active;
    }
    assert forall id | id in s.requests :: s.requests[id].id == id < s.next;
    hide RetireMarks, FirstUnreadable, Sound, WritesOk, Apply;
  }

  /** A retirement that answered with success and was not cut holds for good: no request the session had is ever pending again. */
  lemma {:induction false} RetireHolds(calls: seq<Call>, i: nat, id: RequestId, now: int)
    requires Timed(calls) && i < |calls| && calls[i].op.Retire? && calls[|calls| - 1].now <= now
    requires var s := StoreAfter(calls[..i]);
      && Answer(s, calls[i].op, calls[i].now) == Reported && Uncut(s, calls[i])
      && id in s.requests && s.requests[id].session == calls[i].op.session
    ensures StatusOf(StoreAfter(calls), id, now) != Pending
  {
    var s := StoreAfter(calls[..i]);
    RunSound(calls[..i], calls[i].now);
    RetiredNow(s, calls[i].op, calls[i].now);
    UncutWrites(s, calls[i]);
    StoreStep(calls[..i + 1]);
    assert calls[..i + 1][..i] == calls[..i];
    hide StoreAfter, Answer, Uncut, Sound, Behind;
    OverForGood(calls, i + 1, id, calls[i].now, now);
  }

  /** ... and the next opening of the session gets a new request. */
  lemma RetireFrees(s: Store, op: Op, now: int, opening: Op, later: int)
    requires Sound(s, now) && op.Retire? && Answer(s, op, now) == Reported
    requires opening.Open? && opening.session == op.session && MIN_REQUEST_TTL_MS <= opening.ttlMs <= MAX_REQUEST_TTL_MS
    ensures var t := Behind(s, op, now);
      Answer(t, opening, later) == Opened(NewRequest(t, opening, later), true) && NewRequest(t, opening, later).id !in s.requests
  {
    RetiredNow(s, op, now);
    hide Behind;
  }

  // -------------------------------------------------------------------------- renewing

  /** A renewal is refused only if the store does not show the request, or a pending one is to live for no or too long a time. */
  lemma RenewAnswers(s: Store, op: Op, now: int)
    requires op.Renew?
    ensures var v := Look(s, op.id, op.session, Some(op.correlation), now);
      Answer(s, op, now) == Reported <==>
        v.Ok? && (v.value.status == Pending ==> now < op.expiresAt <= now + MAX_REQUEST_TTL_MS)
  {
    hide RecordsReadable;
  }

  /** It gives a pending request the later of its two expiries, and changes nothing else. */
  lemma RenewedNow(s: Store, op: Op, now: int)
    requires Sound(s, now) && op.Renew? && Answer(s, op, now) == Reported
    ensures var t := Behind(s, op, now);
      && t == s.(renewals := t.renewals)
      && (op.id in s.requests ==>
            ExpiresAt(t, s.requests[op.id]) ==
            if StatusOf(s, op.id, now) == Pending && op.expiresAt > ExpiresAt(s, s.requests[op.id]) then op.expiresAt
            else ExpiresAt(s, s.requests[op.id]))
      && (forall r: Request | r.id != op.id :: ExpiresAt(t, r) == ExpiresAt(s, r))
  {
    ApplyOne(s, PutRenewal(op.id, op.expiresAt));
    hide RecordsReadable, PointerOk;
  }

  // Alive until a time unless it is marked or pruned.
  ghost predicate LastsUntil(s: Store, id: RequestId, until: int) {
    Gone(s, id) || (id in s.requests && s.requests[id].id == id && ExpiresAt(s, s.requests[id]) >= until)
  }

  lemma LastsOn(s: Store, call: Call, id: RequestId, until: int)
    requires Sound(s, call.now) && LastsUntil(s, id, until)
    ensures LastsUntil(ApplyAll(s, Writes(s, call)), id, until)
  {
    if Gone(s, id) {
      hide Gone, Sound, WritesOk;
      PlanOk(s, call.op, call.now);
      WritesKeepMarkers(s, PlanFor(s, call.op, call.now).0, call.now, |Writes(s, call)|);
    } else if Prunes(call.op, id) {
      PruneTracks(s, call, id);
      hide Gone, Sound, Writes, ApplyAll;
    } else {
      CallTracks(s, call, id);
      hide Gone, Sound, Writes, ApplyAll, Observes;
    }
  }

  lemma {:induction false} LastsForGood(calls: seq<Call>, i: nat, id: RequestId, until: int)
    requires Timed(calls) && i <= |calls| && LastsUntil(StoreAfter(calls[..i]), id, until)
    ensures LastsUntil(StoreAfter(calls), id, until)
  {
    hide LastsUntil, Sound, StoreAfter;
    if i == |calls| {
      assert calls[..i] == calls;
    } else {
      var n := |calls| - 1;
      assert calls[..n][..i] == calls[..i];
      LastsForGood(calls[..n], i, id, until);
      RunSound(calls[..n], calls[n].now);
      LastsOn(StoreAfter(calls[..n]), calls[n], id, until);
      StoreStep(calls);
    }
  }

  /** A renewal of a pending request holds: until the time it named the request never expires, whatever is called meanwhile. */
  lemma {:induction false} RenewalHolds(calls: seq<Call>, i: nat, now: int)
    requires Timed(calls) && i < |calls| && calls[i].op.Renew? && now <= calls[i].op.expiresAt
    requires var s := StoreAfter(calls[..i]);
      && Answer(s, calls[i].op, calls[i].now) == Reported && Uncut(s, calls[i]) && StatusOf(s, calls[i].op.id, calls[i].now) == Pending
    ensures StatusOf(StoreAfter(calls), calls[i].op.id, now) != Expired
  {
    var s := StoreAfter(calls[..i]);
    RunSound(calls[..i], calls[i].now);
    RenewedNow(s, calls[i].op, calls[i].now);
    assert s.requests[calls[i].op.id].id == calls[i].op.id;
    UncutWrites(s, calls[i]);
    StoreStep(calls[..i + 1]);
    assert calls[..i + 1][..i] == calls[..i];
    hide StoreAfter, Answer, Uncut, Sound, Behind;
    LastsForGood(calls, i + 1, calls[i].op.id, calls[i].op.expiresAt);
  }

  // -------------------------------------------------------------------------- opening

  // The request that keeps a session busy: on file, or with its opener dead between pointer and file.
  predicate Busy(s: Store, session: SessionId, now: int) {
    session in s.active && Unfinished(s, s.active[session], now)
  }

  /**
   An opening with an accepted lifetime gets a new request exactly if the session has no unfinished one
   (and it can be told), is given the unfinished one if that has the same correlation, and is refused
   otherwise.
   */
  lemma OpenAnswers(s: Store, op: Op, now: int)
    requires Sound(s, now) && op.Open?
    ensures var a := Answer(s, op, now);
      if op.ttlMs < 1_000 || op.ttlMs > 3_600_000 then a == Refused(InvalidResult)
      else if Busy(s, op.session, now) then
        var u := s.active[op.session];
        if u.correlation == op.correlation then a == Opened(u.(expiresAt := ExpiresAt(s, u)), false) else a == Refused(TurnInProgress)
      else if op.session in s.active && !EndReadable(s, s.active[op.session]) then a == Refused(Integrity)
      else
        && a.Opened? && a.created && a.request.id !in s.requests
        && a.request == Request(a.request.id, op.session, op.correlation, op.surface, now, now + op.ttlMs)
  {
    hide MarkerReadable, PointerOk;
  }

  /** The request an opening answers with is on file and pending behind it, and the session's pointer names it. */
  lemma OpenedNow(s: Store, op: Op, now: int)
    requires Sound(s, now) && op.Open? && Answer(s, op, now).Opened?
    ensures var t, r := Behind(s, op, now), Answer(s, op, now).request;
      && r.id in t.requests && t.requests[r.id].session == op.session && t.requests[r.id].correlation == op.correlation
      && op.session in t.active && t.active[op.session].id == r.id
      && StatusOf(t, r.id, now) == Pending
      && (Answer(s, op, now).created ==>
            t.requests[r.id] == r && Look(t, r.id, op.session, Some(op.correlation), now).Ok?
            && Look(t, r.id, op.session, Some(op.correlation), now).value.status == Pending)
  {
    var r := NewRequest(s, op, now);
    if op.session in s.active {
      assert PointerOk(s, op.session);
      var a := s.active[op.session];
      if Unfinished(s, a, now) {
        ApplyOne(s, PutRequest(a.(expiresAt := ExpiresAt(s, a))));
      } else {
        ApplyAllAppend(s, [ClearActive(op.session)], [ClaimActive(r), PutRequest(r)]);
        assert [ClearActive(op.session)] + [ClaimActive(r), PutRequest(r)] == [ClearActive(op.session), ClaimActive(r), PutRequest(r)];
        ApplyOne(s, ClearActive(op.session));
        TwoWrites(Apply(s, ClearActive(op.session)), ClaimActive(r), PutRequest(r));
      }
    } else {
      TwoWrites(s, ClaimActive(r), PutRequest(r));
    }
    hide MarkerReadable, PointerOk;
  }

  lemma TwoWrites(s: Store, a: Write, b: Write)
    ensures ApplyAll(s, [a, b]) == Apply(Apply(s, a), b)
  {
    ApplyAllAppend(s, [a], [b]);
    assert [a] + [b] == [a, b];
    ApplyOne(s, a);
    ApplyOne(Apply(s, a), b);
  }

  // -------------------------------------------------------------------------- observing

  // What the caller must have right besides the event itself.
  predicate Addressed(r: Request, op: Op)
    requires op.Observe?
  {
    op.event.identity.requestId == op.id && (EventKind(op.event).Some? ==> EventKind(op.event).value in AllowedKinds(r.correlation.phase))
  }

  /**
   An event for a pending request is taken exactly if it names the request, delivers nothing its phase
   does not allow, is the automaton's next one or the latest again, and, when it shows new progress,
   comes with a new expiry within the hour.
   */
  lemma ObserveAnswers(s: Store, op: Op, now: int)
    requires op.Observe? && Look(s, op.id, op.session, op.expected, now).Ok? && StatusOf(s, op.id, now) == Pending
    ensures var next := Advance(ObservationOf(s, op.id), op.event, now);
      Answer(s, op, now) == Reported <==>
        && Addressed(s.requests[op.id], op) && next.Ok?
        && (op.event.body.Generating? && !next.value.idempotentReplay ==>
              op.renewal.Some? && now < op.renewal.value <= now + 3_600_000)
  {
    hide RecordsReadable, Advance;
  }

  // The event is new and taken for a pending request.
  predicate Takes(s: Store, op: Op, now: int) {
    && op.Observe? && Look(s, op.id, op.session, op.expected, now).Ok? && StatusOf(s, op.id, now) == Pending
    && Answer(s, op, now) == Reported && Advance(ObservationOf(s, op.id), op.event, now).Ok?
    && !Advance(ObservationOf(s, op.id), op.event, now).value.idempotentReplay
  }

  // A marker and an observation, with the pointer cleared.
  lemma EndedBehind(s: Store, op: Op, now: int, m: Marker, p: Progress)
    requires FilesOk(s) && op.Observe? && op.id in s.requests && op.id !in s.markers
    ensures var t := ApplyAll(s, [PutMarker(op.id, m)] + [PutObservation(op.id, p)] + Clearing(s, op.session, op.id));
      && t == s.(markers := s.markers[op.id := m], observations := s.observations[op.id := p], active := t.active)
      && (op.session in s.active && s.active[op.session].id == op.id ==> op.session !in t.active)
  {
    var put, seen := PutMarker(op.id, m), PutObservation(op.id, p);
    assert [put] + [seen] == [put, seen];
    ApplyAllAppend(s, [put, seen], Clearing(s, op.session, op.id));
    TwoWrites(s, put, seen);
    ClearingOnly(Apply(Apply(s, put), seen), op.session, op.id);
    hide FilesOk;
  }

  // The writes for a new event of a pending request.
  lemma TakenWrites(s: Store, op: Op, now: int)
    requires Takes(s, op, now)
    ensures var a := Advance(ObservationOf(s, op.id), op.event, now).value;
      && a.progress.latest == op.event && (a.terminal.Some? ==> a.terminal == Some(op.event) && !op.event.body.Generating?)
      && (op.event.body.Generating? ==> op.renewal.Some?)
      && PlanFor(s, op, now).0 ==
           if a.terminal.Some? then
             [PutMarker(op.id, Marker(now, FailureOf(op.event), HostResultOf(op.event)))] + [PutObservation(op.id, a.progress)]
             + Clearing(s, op.session, op.id)
           else if op.event.body.Generating? && op.renewal.value > ExpiresAt(s, s.requests[op.id]) then
             [PutRenewal(op.id, op.renewal.value), PutObservation(op.id, a.progress)]
           else [PutObservation(op.id, a.progress)]
  {
    var a := Advance(ObservationOf(s, op.id), op.event, now).value;
    assert a.terminal.Some? ==> a.terminal == Some(op.event) && !op.event.body.Generating?;
    assert a.progress.latest == op.event;
    hide Advance, RecordsReadable;
    if op.event.body.Generating? {
      assert [PutRenewal(op.id, op.renewal.value)] + [PutObservation(op.id, a.progress)]
          == [PutRenewal(op.id, op.renewal.value), PutObservation(op.id, a.progress)];
    }
    assert [] + [PutObservation(op.id, a.progress)] == [PutObservation(op.id, a.progress)];
  }

  /** What a new event does: it is the latest one on record, progress moves the expiry forward, and only a terminal event ends the request. */
  lemma ObservedNow(s: Store, op: Op, now: int)
    requires Sound(s, now) && Takes(s, op, now)
    ensures var t, a := Behind(s, op, now), Advance(ObservationOf(s, op.id), op.event, now).value;
      && t.requests == s.requests && ObservationOf(t, op.id) == Some(a.progress) && a.progress.latest == op.event
      && (op.event.body.Generating? ==> op.renewal.Some?)
      && ExpiresAt(t, s.requests[op.id]) ==
           (if op.event.body.Generating? && op.renewal.value > ExpiresAt(s, s.requests[op.id]) then op.renewal.value
            else ExpiresAt(s, s.requests[op.id]))
      && (if a.terminal.None? then t.markers == s.markers && t.active == s.active
          else
            && t.markers == s.markers[op.id := Marker(now, FailureOf(op.event), HostResultOf(op.event))]
            && op.session !in t.active)
  {
    TakenWrites(s, op, now);
    assert s.requests[op.id].id == op.id && op.id !in s.markers;
    assert s.requests[op.id].session == op.session && Unfinished(s, s.requests[op.id], now);
    assert op.session in s.active && s.active[op.session].id == op.id;
    var a := Advance(ObservationOf(s, op.id), op.event, now).value;
    assert FilesOk(s);
    hide Advance, RecordsReadable, Sound, FilesOk, Named, PlanFor, Takes, Clearing;
    if a.terminal.Some? {
      EndedBehind(s, op, now, Marker(now, FailureOf(op.event), HostResultOf(op.event)), a.progress);
    } else if op.event.body.Generating? && op.renewal.value > ExpiresAt(s, s.requests[op.id]) {
      TwoWrites(s, PutRenewal(op.id, op.renewal.value), PutObservation(op.id, a.progress));
    } else {
      ApplyOne(s, PutObservation(op.id, a.progress));
    }
  }

  /** A terminal event that was taken and not cut ends its request for good. */
  lemma {:induction false} TerminalEventHolds(calls: seq<Call>, i: nat, now: int)
    requires Timed(calls) && i < |calls| && Takes(StoreAfter(calls[..i]), calls[i].op, calls[i].now) && Uncut(StoreAfter(calls[..i]), calls[i])
    requires Terminal(calls[i].op.event.body)
    ensures LooksEnded(StoreAfter(calls), calls[i].op.id, now)
  {
    var s, op := StoreAfter(calls[..i]), calls[i].op;
    RunSound(calls[..i], calls[i].now);
    ObservedNow(s, op, calls[i].now);
    NotPointedBehind(s, op, calls[i].now);
    UncutWrites(s, calls[i]);
    StoreStep(calls[..i + 1]);
    assert calls[..i + 1][..i] == calls[..i];
    assert Ended(StoreAfter(calls[..i + 1]), op.id);
    hide StoreAfter, LooksEnded, Ended, Answer, Uncut, Sound, Takes;
    EndedForGood(calls, i + 1, op.id);
    EndedLooksEnded(StoreAfter(calls), op.id, now);
  }

  lemma NotPointedBehind(s: Store, op: Op, now: int)
    requires Sound(s, now) && Takes(s, op, now) && Terminal(op.event.body)
    ensures !Pointed(Behind(s, op, now), op.id)
  {
    ObservedNow(s, op, now);
    PlanOk(s, op, now);
    var t, plan := Behind(s, op, now), PlanFor(s, op, now).0;
    WritesStaySound(s, plan, now, |plan|);
    assert plan[..|plan|] == plan;
    forall session | session in t.active ensures t.active[session].id != op.id {
      assert PointerOk(t, session);
    }
  }

  /** Any event that is answered with success for a request that has ended leaves no pointer to it, and the request ended. */
  lemma EndedEventFrees(s: Store, op: Op, now: int)
    requires Sound(s, now) && op.Observe? && op.id in s.requests && op.id in s.markers && Answer(s, op, now) == Reported
    ensures Ended(Behind(s, op, now), op.id) && Behind(s, op, now).markers == s.markers
  {
    hide FilesOk, RecordsReadable, Advance, Pointed, FailureOf, HostResultOf;
    var t := SeenBehind(s, op, now);
    assert t.active == s.active && t.markers == s.markers && t.requests == s.requests;
    ClearingOnly(t, op.session, op.id);
    EndedPlan(s, op, now);
    OwnPointer(s, op.session, op.id, Behind(s, op, now));
  }

  // The store once the event has been written, if it is.
  function SeenBehind(s: Store, op: Op, now: int): Store
    requires op.Observe?
  {
    var plan := PlanFor(s, op, now).0;
    if plan != [] && plan[0].PutObservation? then Apply(s, plan[0]) else s
  }

  lemma EndedPlan(s: Store, op: Op, now: int)
    requires op.Observe? && op.id in s.requests && op.id in s.markers && Answer(s, op, now) == Reported
    ensures s.requests[op.id].session == op.session
    ensures Behind(s, op, now) == ApplyAll(SeenBehind(s, op, now), Clearing(SeenBehind(s, op, now), op.session, op.id))
  {
    hide RecordsReadable, Advance, FailureOf, HostResultOf, ApplyAll;
    var plan, clearing := PlanFor(s, op, now).0, Clearing(s, op.session, op.id);
    assert [] + clearing == clearing;
    if plan != [] && plan[0].PutObservation? {
      assert plan == [plan[0]] + clearing;
      ApplyAllAppend(s, [plan[0]], clearing);
      ApplyOne(s, plan[0]);
    } else {
      assert plan == clearing;
    }
  }

  lemma OwnPointer(s: Store, session: SessionId, id: RequestId, t: Store)
    requires FilesOk(s) && id in s.requests && s.requests[id].session == session
    requires (forall k | k in t.active :: k in s.active && t.active[k] == s.active[k])
    requires session in s.active && s.active[session].id == id ==> session !in t.active
    ensures !Pointed(t, id)
  {
    forall k | k in t.active ensures t.active[k].id != id {
      assert PointerOk(s, k);
    }
  }

  // -------------------------------------------------------------------------- pruning

  // Ended, by its marker or by its expiry, more than seven days ago.
  predicate LongOver(s: Store, id: RequestId, now: int)
    requires id in s.requests
  {
    if id in s.markers then now - s.markers[id].at > 604_800_000
    else now > ExpiresAt(s, s.requests[id]) && now - ExpiresAt(s, s.requests[id]) > 604_800_000
  }

  lemma Dropped(s: Store, id: RequestId)
    ensures ApplyAll(s, [DropRequest(id), DropObservation(id), DropMarker(id), DropRenewal(id)]) ==
      s.(requests := s.requests - {id}, observations := s.observations - {id}, markers := s.markers - {id}, renewals := s.renewals - {id})
  {
    ApplyAllAppend(s, [DropRequest(id), DropObservation(id)], [DropMarker(id), DropRenewal(id)]);
    assert [DropRequest(id), DropObservation(id)] + [DropMarker(id), DropRenewal(id)]
        == [DropRequest(id), DropObservation(id), DropMarker(id), DropRenewal(id)];
    TwoWrites(s, DropRequest(id), DropObservation(id));
    TwoWrites(Apply(Apply(s, DropRequest(id)), DropObservation(id)), DropMarker(id), DropRenewal(id));
  }

  lemma LongOverIff(s: Store, op: Op, now: int)
    requires op.Prune?
    ensures if op.id in s.requests && op.id !in op.protected && EndReadable(s, s.requests[op.id])
               && s.requests[op.id].id == op.id && LongOver(s, op.id, now) then
              PlanFor(s, op, now).0 == Clearing(s, s.requests[op.id].session, op.id)
                + [DropRequest(op.id), DropObservation(op.id), DropMarker(op.id), DropRenewal(op.id)]
            else op.id !in s.requests || s.requests[op.id].id == op.id ==> PlanFor(s, op, now).0 == []
  {
    hide MarkerReadable;
  }

  /** A request's turn in a prune removes all its files exactly if it is not protected and long over, and else changes nothing. */
  lemma PrunedNow(s: Store, op: Op, now: int)
    requires Sound(s, now) && op.Prune?
    ensures var t := Behind(s, op, now);
      if op.id in s.requests && op.id !in op.protected && EndReadable(s, s.requests[op.id]) && LongOver(s, op.id, now) then
        && Gone(t, op.id) && op.id !in t.markers && op.id !in t.observations && op.id !in t.renewals
        && (forall id | id != op.id && id in s.requests :: id in t.requests && t.requests[id] == s.requests[id])
      else t == s
  {
    LongOverIff(s, op, now);
    assert op.id in s.requests ==> s.requests[op.id].id == op.id < s.next;
    if op.id in s.requests {
      var session := s.requests[op.id].session;
      ClearedPointer(s, session, op.id);
      ClearingOnly(s, session, op.id);
      Dropped(ApplyAll(s, Clearing(s, session, op.id)), op.id);
      ApplyAllAppend(s, Clearing(s, session, op.id),
                     [DropRequest(op.id), DropObservation(op.id), DropMarker(op.id), DropRenewal(op.id)]);
    }
    hide PlanFor, LongOver, EndReadable, Clearing, Sound;
  }
}
