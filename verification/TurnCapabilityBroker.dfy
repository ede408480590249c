/** The broker class of src/gateway/turn-capability.ts, proved against the functions of TurnCapability. */
module TurnCapabilityBrokers {
  import opened Wrappers
  import opened TurnCapability

  // -------------------------------------------------------------------------- states inside a loop

  ghost function TerminatedOne(b: Broker, t: Secret, s: State, now: int): Broker
    requires t in b.records
  {
    var r := b.records[t];
    var q := b.(records := b.records[t := Terminated(r, s, now)]);
    if r.fence.None? then q
    else q.(fences := b.fences - {r.fence.value}, used := b.used + [r.fence.value])
  }

  function RecordsBelow(records: map<Secret, Record>, chosen: set<Secret>, s: State, now: int, n: nat): map<Secret, Record> {
    map t | t in records :: if t < n && t in chosen then Terminated(records[t], s, now) else records[t]
  }

  function Without(fences: map<Secret, Secret>, spent: seq<Secret>): map<Secret, Secret> {
    map f | f in fences && f !in spent :: fences[f]
  }

  // The chosen turns among the first n have ended.
  ghost function TerminatedBelow(b: Broker, chosen: set<Secret>, s: State, now: int, n: nat): Broker {
    b.(records := RecordsBelow(b.records, chosen, s, now, n),
       fences := Without(b.fences, FenceList(b.records, chosen, n)),
       used := b.used + FenceList(b.records, chosen, n))
  }

  lemma TerminatedBelowStarts(b: Broker, chosen: set<Secret>, s: State, now: int)
    ensures TerminatedBelow(b, chosen, s, now, 0) == b
  {
    var q := TerminatedBelow(b, chosen, s, now, 0);
    assert q.records == b.records;
    assert q.fences == b.fences;
    assert q.used == b.used;
  }

  lemma RecordsBelowStep(records: map<Secret, Record>, chosen: set<Secret>, s: State, now: int, n: nat)
    ensures RecordsBelow(records, chosen, s, now, n + 1) ==
      var rs := RecordsBelow(records, chosen, s, now, n);
      if n in records && n in chosen then rs[n := Terminated(records[n], s, now)] else rs
  {}

  lemma WithoutOne(fences: map<Secret, Secret>, spent: seq<Secret>, f: Secret)
    ensures Without(fences, spent + [f]) == Without(fences, spent) - {f}
  {}

  lemma TerminatedBelowStep(b: Broker, chosen: set<Secret>, s: State, now: int, n: nat)
    requires n in b.records && n in chosen
    ensures var q := TerminatedBelow(b, chosen, s, now, n);
      n in q.records && TerminatedBelow(b, chosen, s, now, n + 1) == TerminatedOne(q, n, s, now)
  {
    RecordsBelowStep(b.records, chosen, s, now, n);
    var spent := FenceList(b.records, chosen, n);
    if b.records[n].fence.Some? {
      WithoutOne(b.fences, spent, b.records[n].fence.value);
      assert b.used + (spent + [b.records[n].fence.value]) == (b.used + spent) + [b.records[n].fence.value];
    }
  }

  lemma TerminatedBelowSkip(b: Broker, chosen: set<Secret>, s: State, now: int, n: nat)
    requires n !in b.records || n !in chosen
    ensures TerminatedBelow(b, chosen, s, now, n + 1) == TerminatedBelow(b, chosen, s, now, n)
  {
    RecordsBelowStep(b.records, chosen, s, now, n);
  }

  lemma TerminatedBelowEnds(b: Broker, chosen: set<Secret>, s: State, now: int)
    requires WellFormed(b)
    ensures TerminatedBelow(b, chosen, s, now, b.next) == TerminateAll(b, chosen, s, now)
  {
    assert forall t | t in b.records :: RecordOk(b, t);
    assert TerminatedBelow(b, chosen, s, now, b.next).records == TerminateAll(b, chosen, s, now).records;
  }

  lemma {:induction false} FenceOfOne(records: map<Secret, Record>, t: Secret, n: nat)
    requires t in records
    ensures FenceList(records, {t}, n) ==
      if t < n && records[t].fence.Some? then [records[t].fence.value] else []
  {
    if n > 0 {
      FenceOfOne(records, t, n - 1);
    }
  }

  lemma TerminatingOne(b: Broker, t: Secret, s: State, now: int)
    requires t in b.records && t < b.next
    ensures TerminatedOne(b, t, s, now) == TerminateAll(b, {t}, s, now)
  {
    var q, q' := TerminatedOne(b, t, s, now), TerminateAll(b, {t}, s, now);
    FenceOfOne(b.records, t, b.next);
    assert q.records == q'.records;
    assert q.fences == q'.fences;
    assert q.used == q'.used;
  }

  ghost function SweptOne(b: Broker, t: Secret, now: int): Broker
    requires t in b.records
  {
    Put(b, t, Swept(b.records[t], now))
  }

  function SweptRecords(records: map<Secret, Record>, now: int, n: nat): map<Secret, Record> {
    map t | t in records :: if t < n then Swept(records[t], now) else records[t]
  }

  lemma SweptRecordsStep(records: map<Secret, Record>, now: int, n: nat)
    ensures SweptRecords(records, now, n + 1) ==
      var rs := SweptRecords(records, now, n);
      if n in records then rs[n := Swept(records[n], now)] else rs
  {}

  lemma SweptRecordsOther(records: map<Secret, Record>, now: int, n: nat, r: Record)
    ensures SweptRecords(records[n := r], now, n) == SweptRecords(records, now, n)[n := r]
  {}

  // The first n turns have been swept, and expired before that if they were due.
  ghost function SweptBelow(b: Broker, c: Clock, n: nat): Broker {
    var e := TerminatedBelow(b, DueTokens(b, c.enter), Expired, c.enter, n);
    e.(records := SweptRecords(e.records, c.sweep, n))
  }

  lemma SweptBelowStarts(b: Broker, c: Clock)
    ensures SweptBelow(b, c, 0) == b
  {
    TerminatedBelowStarts(b, DueTokens(b, c.enter), Expired, c.enter);
    assert SweptBelow(b, c, 0).records == b.records;
  }

  lemma SweptBelowStep(b: Broker, c: Clock, n: nat)
    requires n in b.records
    ensures var q := SweptBelow(b, c, n);
      && n in q.records && q.records[n] == b.records[n]
      && SweptBelow(b, c, n + 1) ==
           SweptOne(if Due(b.records[n], c.enter) then TerminatedOne(q, n, Expired, c.enter) else q, n, c.sweep)
  {
    var due := DueTokens(b, c.enter);
    var e, e' := TerminatedBelow(b, due, Expired, c.enter, n), TerminatedBelow(b, due, Expired, c.enter, n + 1);
    SweptRecordsStep(e'.records, c.sweep, n);
    if Due(b.records[n], c.enter) {
      TerminatedBelowStep(b, due, Expired, c.enter, n);
      SweptRecordsOther(e.records, c.sweep, n, e'.records[n]);
    } else {
      TerminatedBelowSkip(b, due, Expired, c.enter, n);
    }
  }

  lemma SweptBelowSkip(b: Broker, c: Clock, n: nat)
    requires n !in b.records
    ensures SweptBelow(b, c, n + 1) == SweptBelow(b, c, n)
  {
    var due := DueTokens(b, c.enter);
    TerminatedBelowSkip(b, due, Expired, c.enter, n);
    SweptRecordsStep(TerminatedBelow(b, due, Expired, c.enter, n).records, c.sweep, n);
  }

  lemma SweptBelowEnds(b: Broker, c: Clock)
    requires WellFormed(b)
    ensures SweptBelow(b, c, b.next) == Expelled(b, c)
  {
    var due := DueTokens(b, c.enter);
    var e := TerminateAll(b, due, Expired, c.enter);
    TerminatedBelowEnds(b, due, Expired, c.enter);
    assert forall t | t in b.records :: RecordOk(b, t);
    assert SweptRecords(e.records, c.sweep, b.next) == Expelled(b, c).records;
  }

  lemma EvictedOrder(b: Broker, order: seq<Secret>, k: nat)
    requires order == Tombstones(b.records, b.next) && k == Excess(|order|, b.maxTombstones)
    ensures b.records - Elements(order[..k]) == b.records - Evicted(b)
  {}

  function Matching(b: Broker, matches: Binding -> bool): set<Secret> {
    set t | t in b.records && Live(b.records[t]) && matches(b.records[t].binding)
  }

  lemma BelowStep(chosen: set<Secret>, n: nat)
    ensures |Below(chosen, n + 1)| == |Below(chosen, n)| + if n in chosen then 1 else 0
  {
    if n in chosen {
      assert Below(chosen, n + 1) == Below(chosen, n) + {n};
    } else {
      assert Below(chosen, n + 1) == Below(chosen, n);
    }
  }

  lemma BelowAll(b: Broker, chosen: set<Secret>)
    requires WellFormed(b) && chosen <= b.records.Keys
    ensures Below(chosen, b.next) == chosen
  {
    assert forall t | t in b.records :: RecordOk(b, t);
  }

  function Below(tokens: set<Secret>, n: nat): set<Secret> { set t | t in tokens && t < n }

  function Elements(order: seq<Secret>): set<Secret> { set t | t in order }

  lemma StaysWellFormed(b: Broker, op: Op, c: Clock)
    requires WellFormed(b) && Ordered(c)
    ensures WellFormed(Apply(b, op, c).0)
  {
    ApplySound(b, op, c);
  }

  lemma PutTwice(records: map<Secret, Record>, t: Secret, r: Record, r': Record)
    ensures records[t := r][t := r'] == records[t := r']
  {}

  lemma SessionMatching(b: Broker, session: Session)
    ensures Matching(b, (x: Binding) => x.session == session) == LiveTokens(b, SessionTokens(b, session))
  {}

  lemma SelectorMatching(b: Broker, selector: Selector)
    ensures Matching(b, (x: Binding) => selector.Matches(x)) == LiveTokens(b, SelectedTokens(b, selector))
  {}

  // -------------------------------------------------------------------------- the class

  class TurnCapabilityBroker {
    var records: map<Secret, Record>
    var completionFences: map<Secret, Secret>
    var usedCompletionFences: seq<Secret>
    var sessionEpochs: map<Session, Epoch>
    const maxTombstones: nat
    var nextSecret: Secret

    ghost function Model(): Broker
      reads this
    {
      Broker(records, completionFences, usedCompletionFences, sessionEpochs, maxTombstones, nextSecret)
    }

    ghost predicate Valid()
      reads this
    {
      WellFormed(Model())
    }

    constructor (limit: nat)
      ensures Valid() && Model() == Empty(limit)
    {
      records, completionFences, usedCompletionFences, sessionEpochs := map[], map[], [], map[];
      maxTombstones, nextSecret := limit, 0;
    }

    // ------------------------------------------------------------------------ private steps

    method Terminate(t: Secret, s: State, now: int)
      requires t in records
      modifies this
      ensures Model() == TerminatedOne(old(Model()), t, s, now)
    {
      var r := records[t];
      if r.fence.Some? {
        completionFences := completionFences - {r.fence.value};
        usedCompletionFences := usedCompletionFences + [r.fence.value];
      }
      records := records[t := r.(state := s, terminalAt := now, fence := None)];
    }

    /** Ends every live turn whose binding matches. */
    method TerminateMatching(matches: Binding -> bool, s: State, now: int) returns (count: nat)
      requires Valid()
      modifies this
      ensures var chosen := Matching(old(Model()), matches);
        Model() == TerminateAll(old(Model()), chosen, s, now) && count == |chosen|
    {
      ghost var b := Model();
      ghost var chosen := Matching(b, matches);
      TerminatedBelowStarts(b, chosen, s, now);
      assert Below(chosen, 0) == {};
      count := 0;
      for t := 0 to nextSecret
        invariant nextSecret == b.next
        invariant Model() == TerminatedBelow(b, chosen, s, now, t) && count == |Below(chosen, t)|
      {
        var hit := TerminateIfMatching(t, matches, s, now, b);
        BelowStep(chosen, t);
        count := if hit then count + 1 else count;
      }
      TerminatedBelowEnds(b, chosen, s, now);
      BelowAll(b, chosen);
    }

    method TerminateIfMatching(t: Secret, matches: Binding -> bool, s: State, now: int, ghost b: Broker)
      returns (hit: bool)
      requires Model() == TerminatedBelow(b, Matching(b, matches), s, now, t)
      modifies this
      ensures Model() == TerminatedBelow(b, Matching(b, matches), s, now, t + 1)
      ensures hit <==> t in Matching(b, matches)
    {
      ghost var chosen := Matching(b, matches);
      hit := t in records && Live(records[t]) && matches(records[t].binding);
      if hit {
        TerminatedBelowStep(b, chosen, s, now, t);
        Terminate(t, s, now);
      } else {
        TerminatedBelowSkip(b, chosen, s, now, t);
      }
    }

    method ClearExpiredLeases(t: Secret, now: int)
      requires t in records
      modifies this
      ensures Model() == SweptOne(old(Model()), t, now)
    {
      var r := records[t];
      var left := r.leases.Keys;
      var leases, expired := r.leases, r.expiredLeases;
      while left != {}
        invariant left <= r.leases.Keys && Model() == old(Model())
        invariant leases == map l | l in r.leases && (l in left || r.leases[l] > now) :: r.leases[l]
        invariant expired == r.expiredLeases + set l | l in r.leases && l !in left && r.leases[l] <= now
      {
        var l :| l in left;
        if r.leases[l] <= now {
          leases := leases - {l};
          expired := expired + {l};
        }
        left := left - {l};
      }
      records := records[t := r.(leases := leases, expiredLeases := expired)];
      assert leases == Swept(r, now).leases;
      assert expired == Swept(r, now).expiredLeases;
    }

    /** Collects the drained turns and sorts them by the time they ended, oldest first. */
    method SortTombstones() returns (tombstones: seq<Secret>)
      ensures tombstones == Tombstones(records, nextSecret)
    {
      tombstones := [];
      for t := 0 to nextSecret
        invariant tombstones == Tombstones(records, t)
      {
        if t in records && Drained(records[t]) {
          tombstones := InsertByAge(records, tombstones, t);
        }
      }
    }

    method TrimTombstones()
      modifies this
      ensures Model() == Trim(old(Model()))
    {
      ghost var b := Model();
      var tombstones := SortTombstones();
      ghost var order := tombstones;
      ghost var k := 0;
      while |tombstones| > maxTombstones
        invariant k <= Excess(|order|, maxTombstones) && tombstones == order[k..]
        invariant Model() == b.(records := b.records - Elements(order[..k]))
      {
        assert order[..k + 1] == order[..k] + [tombstones[0]];
        records := records - {tombstones[0]};
        tombstones := tombstones[1..];
        k := k + 1;
      }
      EvictedOrder(b, order, k);
      TrimUsedFences();
    }

    method TrimUsedFences()
      modifies this`usedCompletionFences
      ensures usedCompletionFences
           == old(usedCompletionFences)[Excess(|old(usedCompletionFences)|, maxTombstones)..]
    {
      ghost var m := 0;
      while |usedCompletionFences| > maxTombstones
        invariant m <= Excess(|old(usedCompletionFences)|, maxTombstones)
        invariant usedCompletionFences == old(usedCompletionFences)[m..]
      {
        usedCompletionFences := usedCompletionFences[1..];
        m := m + 1;
      }
    }

    method PruneOne(t: Secret, c: Clock, ghost b: Broker)
      requires Model() == SweptBelow(b, c, t)
      modifies this
      ensures Model() == SweptBelow(b, c, t + 1)
    {
      if t in records {
        SweptBelowStep(b, c, t);
        if Live(records[t]) && c.enter >= records[t].expiresAt {
          Terminate(t, Expired, c.enter);
        }
        ClearExpiredLeases(t, c.sweep);
      } else {
        SweptBelowSkip(b, c, t);
      }
    }

    method PruneExpired(c: Clock)
      requires Valid() && Ordered(c)
      modifies this
      ensures Valid() && Model() == Prune(old(Model()), c)
    {
      ghost var b := Model();
      PruneSound(b, c);
      SweptBelowStarts(b, c);
      for t := 0 to nextSecret
        invariant nextSecret == b.next
        invariant Model() == SweptBelow(b, c, t)
      {
        PruneOne(t, c, b);
      }
      SweptBelowEnds(b, c);
      TrimTombstones();
    }

    // ------------------------------------------------------------------------ issuing

    method IssueNormalized(binding: Binding, ttlMs: int, now: int) returns (outcome: Outcome)
      modifies this
      ensures (Model(), outcome) == Grant(old(Model()), binding, ttlMs, now)
    {
      outcome := Ok(Granted(nextSecret, now + ttlMs));
      records := records[nextSecret := Record(binding, now, ttlMs, now + ttlMs, Issued, map[], {}, None, 0)];
      nextSecret := nextSecret + 1;
    }

    method Issue(binding: Binding, ttlMs: int, c: Clock) returns (outcome: Outcome)
      requires Valid() && Ordered(c)
      modifies this
      ensures Valid() && (Model(), outcome) == Apply(old(Model()), TurnCapability.Issue(binding, ttlMs), c)
    {
      StaysWellFormed(Model(), TurnCapability.Issue(binding, ttlMs), c);
      if !TtlOk(ttlMs) {
        return Err(InvalidTtl);
      }
      PruneExpired(c);
      outcome := IssueNormalized(binding, ttlMs, c.enter);
    }

    method HasActiveSessionLeases(session: Session) returns (held: bool)
      requires Valid()
      ensures held <==> exists t | t in SessionTokens(Model(), session) :: records[t].leases != map[]
    {
      assert forall t | t in records :: RecordOk(Model(), t);
      for t := 0 to nextSecret
        invariant forall u | u < t && u in SessionTokens(Model(), session) :: records[u].leases == map[]
      {
        if t in records && records[t].binding.session == session && records[t].leases != map[] {
          assert t in SessionTokens(Model(), session);
          return true;
        }
      }
      return false;
    }

    /** Ends every live turn of the session. */
    method ClearSession(session: Session, now: int)
      requires Valid()
      modifies this
      ensures Model() == Cleared(old(Model()), session, now)
    {
      SessionMatching(Model(), session);
      var _ := TerminateMatching((b: Binding) => b.session == session, Revoked, now);
      TrimTombstones();
    }

    method IssueReplacingSession(binding: Binding, ttlMs: int, c: Clock) returns (outcome: Outcome)
      requires Valid() && Ordered(c)
      modifies this
      ensures Valid()
      ensures (Model(), outcome) == Apply(old(Model()), TurnCapability.IssueReplacingSession(binding, ttlMs), c)
    {
      StaysWellFormed(Model(), TurnCapability.IssueReplacingSession(binding, ttlMs), c);
      if !TtlOk(ttlMs) {
        return Err(InvalidTtl);
      }
      if !EpochIsFresh(binding) {
        return Err(StaleBindingEpoch);
      }
      PruneExpired(c);
      var held := HasActiveSessionLeases(binding.session);
      if held {
        return Err(ActiveLeasesRemain);
      }
      ClearSession(binding.session, c.enter);
      outcome := IssueNormalized(binding, ttlMs, c.enter);
      sessionEpochs := sessionEpochs[binding.session := Epoch(binding.compactionEpoch, binding.generation)];
    }

    predicate EpochIsFresh(binding: Binding)
      reads this
      ensures EpochIsFresh(binding) == EpochFresh(Model(), binding)
    {
      binding.session !in sessionEpochs ||
        (binding.compactionEpoch >= sessionEpochs[binding.session].compactionEpoch &&
         binding.generation >= sessionEpochs[binding.session].generation)
    }

    /** The live turns of one request; the source collects them to insist on exactly one. */
    method FindRequest(session: Session, turn: Turn, generation: nat) returns (matches: seq<Secret>)
      requires Valid()
      ensures Elements(matches) == RequestTokens(Model(), session, turn, generation)
      ensures |matches| == |RequestTokens(Model(), session, turn, generation)|
    {
      ghost var wanted := RequestTokens(Model(), session, turn, generation);
      matches := [];
      assert Below(wanted, 0) == {};
      for t := 0 to nextSecret
        invariant Elements(matches) == Below(wanted, t) && |matches| == |Below(wanted, t)|
      {
        BelowStep(wanted, t);
        if t in records && Live(records[t]) && records[t].binding.session == session &&
           records[t].binding.turn == turn && records[t].binding.generation == generation
        {
          assert t in wanted;
          assert Elements(matches + [t]) == Elements(matches) + {t};
          assert Below(wanted, t + 1) == Below(wanted, t) + {t};
          matches := matches + [t];
        } else {
          assert Below(wanted, t + 1) == Below(wanted, t);
        }
      }
      BelowAll(Model(), wanted);
    }

    method KeepAliveRequest(session: Session, turn: Turn, generation: nat, observedAt: int, c: Clock)
      returns (outcome: Outcome)
      requires Valid() && Ordered(c)
      modifies this
      ensures Valid()
      ensures (Model(), outcome)
           == Apply(old(Model()), TurnCapability.KeepAliveRequest(session, turn, generation, observedAt), c)
    {
      StaysWellFormed(Model(), TurnCapability.KeepAliveRequest(session, turn, generation, observedAt), c);
      PruneExpired(c);
      outcome := KeepAlivePruned(session, turn, generation, observedAt, c.enter);
    }

    method KeepAlivePruned(session: Session, turn: Turn, generation: nat, observedAt: int, now: int)
      returns (outcome: Outcome)
      requires Valid()
      modifies this
      ensures (Model(), outcome) == KeepAliveAt(old(Model()), session, turn, generation, observedAt, now)
    {
      if observedAt < now - 60_000 || observedAt > now + 5_000 {
        return Err(BindingMismatch);
      }
      var matches := FindRequest(session, turn, generation);
      if |matches| != 1 {
        return Err(TokenNotFound);
      }
      var t := matches[0];
      assert Elements(matches) == {t};
      var r := records[t];
      if !EpochIsFresh(r.binding) {
        return Err(StaleBindingEpoch);
      }
      if r.state == Completing {
        return Err(CompletionAlreadyStarted);
      }
      var expiresAt := Max(r.expiresAt, Min(observedAt, now) + r.ttlMs);
      records := records[t := r.(expiresAt := expiresAt)];
      return Ok(KeptAlive(t, expiresAt));
    }

    // ------------------------------------------------------------------------ activity leases

    /** The live turn of a token, after pruning; None when there is nothing wrong with it. */
    method ResolveLiveToken(t: Secret, c: Clock) returns (error: Option<Error>)
      requires Valid() && Ordered(c)
      modifies this
      ensures Valid() && Model() == Prune(old(Model()), c) && error == Resolve(Model(), t)
      ensures error.None? ==> t in records && t < nextSecret
    {
      PruneExpired(c);
      assert forall u | u in records :: RecordOk(Model(), u);
      if t !in records {
        return Some(TokenNotFound);
      }
      return if Terminal(records[t].state) then Some(ErrorFor(records[t].state)) else None;
    }

    /** Records a lease that ends within its capability, or expires a capability that has run out. */
    method LendLease(t: Secret, lease: Secret, ttlMs: int, now: int)
      returns (outcome: Result<int, Error>)
      requires t in records && t < nextSecret
      modifies this
      ensures (Model(), outcome) == Lend(old(Model()), t, lease, ttlMs, now)
    {
      var r := records[t];
      var expiry := Min(now + ttlMs, r.expiresAt);
      if expiry <= now {
        TerminatingOne(Model(), t, Expired, now);
        Terminate(t, Expired, now);
        return Err(TokenExpired);
      }
      var state := if r.state == Completing then Completing else Active;
      records := records[t := r.(state := state, leases := r.leases[lease := expiry])];
      return Ok(expiry);
    }

    method Claim(t: Secret, expected: Binding, scopes: set<string>, leaseTtlMs: int, c: Clock) returns (outcome: Outcome)
      requires Valid() && Ordered(c)
      modifies this
      ensures Valid()
      ensures (Model(), outcome) == Apply(old(Model()), TurnCapability.Claim(t, expected, scopes, leaseTtlMs), c)
    {
      StaysWellFormed(Model(), TurnCapability.Claim(t, expected, scopes, leaseTtlMs), c);
      PruneExpired(c);
      outcome := ClaimPruned(t, expected, scopes, leaseTtlMs, c.act);
    }

    method ClaimPruned(t: Secret, expected: Binding, scopes: set<string>, leaseTtlMs: int, now: int)
      returns (outcome: Outcome)
      requires Valid()
      modifies this
      ensures (Model(), outcome) == ClaimAt(old(Model()), t, expected, scopes, leaseTtlMs, now)
    {
      if t !in records {
        return Err(TokenNotFound);
      }
      assert RecordOk(Model(), t);
      if Terminal(records[t].state) {
        return Err(ErrorFor(records[t].state));
      }
      if records[t].binding != expected {
        return Err(BindingMismatch);
      }
      if !(scopes <= records[t].binding.scopes) {
        return Err(ScopeDenied);
      }
      if records[t].state == Completing {
        return Err(CompletionAlreadyStarted);
      }
      if !LeaseTtlOk(leaseTtlMs) {
        return Err(InvalidTtl);
      }
      var lease := nextSecret;
      var lent := LendLease(t, lease, leaseTtlMs, now);
      if lent.Err? {
        return Err(lent.error);
      }
      nextSecret := nextSecret + 1;
      return Ok(Leased(lease, lent.value));
    }

    method Renew(t: Secret, lease: Secret, expected: Binding, leaseTtlMs: int, c: Clock) returns (outcome: Outcome)
      requires Valid() && Ordered(c)
      modifies this
      ensures Valid()
      ensures (Model(), outcome) == Apply(old(Model()), TurnCapability.Renew(t, lease, expected, leaseTtlMs), c)
    {
      StaysWellFormed(Model(), TurnCapability.Renew(t, lease, expected, leaseTtlMs), c);
      var error := ResolveLiveToken(t, c);
      if error.Some? {
        return Err(error.value);
      }
      if records[t].binding != expected {
        return Err(BindingMismatch);
      }
      if records[t].state == Issued {
        return Err(TokenNotFound);
      }
      if lease in records[t].expiredLeases {
        return Err(LeaseExpired);
      }
      if lease !in records[t].leases {
        return Err(LeaseNotFound);
      }
      if records[t].leases[lease] <= c.act {
        ClearExpiredLeases(t, c.act);
        return Err(LeaseExpired);
      }
      if !LeaseTtlOk(leaseTtlMs) {
        return Err(InvalidTtl);
      }
      var lent := LendLease(t, lease, leaseTtlMs, c.act);
      return if lent.Ok? then Ok(Renewed(lent.value)) else Err(lent.error);
    }

    method Release(t: Secret, lease: Secret, c: Clock) returns (outcome: Outcome)
      requires Valid() && Ordered(c)
      modifies this
      ensures Valid() && (Model(), outcome) == Apply(old(Model()), TurnCapability.Release(t, lease), c)
    {
      StaysWellFormed(Model(), TurnCapability.Release(t, lease), c);
      PruneExpired(c);
      if t !in records {
        return Err(TokenNotFound);
      }
      ghost var p := Model();
      ClearExpiredLeases(t, c.act);
      if lease !in records[t].leases {
        return Ok(Released(false));
      }
      PutTwice(p.records, t, records[t], records[t].(leases := records[t].leases - {lease}));
      records := records[t := records[t].(leases := records[t].leases - {lease})];
      TrimTombstones();
      return Ok(Released(true));
    }

    // ------------------------------------------------------------------------ completion

    method BeginCompletion(t: Secret, expected: Binding, c: Clock) returns (outcome: Outcome)
      requires Valid() && Ordered(c)
      modifies this
      ensures Valid() && (Model(), outcome) == Apply(old(Model()), TurnCapability.BeginCompletion(t, expected), c)
    {
      hide WellFormed, Prune, BeginCompletionAt;
      StaysWellFormed(Model(), TurnCapability.BeginCompletion(t, expected), c);
      PruneExpired(c);
      outcome := BeginPruned(t, expected, c.act);
    }

    method BeginPruned(t: Secret, expected: Binding, now: int) returns (outcome: Outcome)
      requires Valid()
      modifies this
      ensures (Model(), outcome) == BeginCompletionAt(old(Model()), t, expected, now)
    {
      if t !in records {
        return Err(TokenNotFound);
      }
      if Terminal(records[t].state) {
        return Err(ErrorFor(records[t].state));
      }
      if records[t].binding != expected {
        return Err(BindingMismatch);
      }
      if records[t].state == Completing {
        return Err(CompletionAlreadyStarted);
      }
      if records[t].state == Issued {
        return Err(NotClaimed);
      }
      ClearExpiredLeases(t, now);
      PutTwice(old(records), t, records[t], records[t].(state := Completing, fence := Some(nextSecret)));
      records := records[t := records[t].(state := Completing, fence := Some(nextSecret))];
      completionFences := completionFences[nextSecret := t];
      outcome := Ok(Fenced(nextSecret, |records[t].leases|));
      nextSecret := nextSecret + 1;
    }

    method FindFence(fence: Secret) returns (turn: Result<Secret, Error>)
      ensures turn == ResolveFence(Model(), fence)
    {
      if fence in usedCompletionFences {
        return Err(FenceReplayed);
      }
      if fence !in completionFences {
        return Err(FenceInvalid);
      }
      var t := completionFences[fence];
      return if t in records then Ok(t) else Err(BootEpochMismatch);
    }

    method ConsumeFenceOf(t: Secret, fence: Secret, r: Record)
      modifies this
      ensures Model() == ConsumeFence(old(Model()), t, fence, r)
    {
      completionFences := completionFences - {fence};
      usedCompletionFences := usedCompletionFences + [fence];
      records := records[t := r.(fence := None)];
    }

    method Complete(fence: Secret, c: Clock) returns (outcome: Outcome)
      requires Valid() && Ordered(c)
      modifies this
      ensures Valid() && (Model(), outcome) == Apply(old(Model()), TurnCapability.Complete(fence), c)
    {
      StaysWellFormed(Model(), TurnCapability.Complete(fence), c);
      var resolved := FindFence(fence);
      if resolved.Err? {
        return Err(resolved.error);
      }
      var t, found := resolved.value, records[resolved.value];
      PruneExpired(c);
      outcome := CompletePruned(t, fence, found, c);
    }

    method CompletePruned(t: Secret, fence: Secret, found: Record, c: Clock) returns (outcome: Outcome)
      modifies this
      ensures (Model(), outcome) == CompleteAt(old(Model()), t, fence, found, c)
    {
      if Due(found, c.enter) {
        return Err(TokenExpired);
      }
      if found.state != Completing || t !in records {
        return Err(ErrorFor(found.state));
      }
      ClearExpiredLeases(t, c.act);
      if records[t].leases != map[] {
        return Err(ActiveLeasesRemain);
      }
      PutTwice(old(records), t, records[t], records[t].(state := Completed, terminalAt := c.act, fence := None));
      ConsumeFenceOf(t, fence, records[t].(state := Completed, terminalAt := c.act));
      TrimTombstones();
      return Ok(Finished(c.act));
    }

    method AbortCompletion(fence: Secret, c: Clock) returns (outcome: Outcome)
      requires Valid() && Ordered(c)
      modifies this
      ensures Valid() && (Model(), outcome) == Apply(old(Model()), TurnCapability.AbortCompletion(fence), c)
    {
      StaysWellFormed(Model(), TurnCapability.AbortCompletion(fence), c);
      var resolved := FindFence(fence);
      if resolved.Err? {
        return Err(resolved.error);
      }
      var t, found := resolved.value, records[resolved.value];
      PruneExpired(c);
      if Due(found, c.enter) {
        return Err(TokenExpired);
      }
      if found.state != Completing || found.fence != Some(fence) || t !in records {
        return Err(ErrorFor(found.state));
      }
      ConsumeFenceOf(t, fence, records[t].(state := Active));
      return Ok(Reopened);
    }

    // ------------------------------------------------------------------------ ending turns

    method End(t: Secret, s: State, c: Clock) returns (outcome: Outcome)
      requires Valid() && Ordered(c)
      modifies this
      ensures (Model(), outcome) == EndAt(Prune(old(Model()), c), t, s, c.act)
    {
      var error := ResolveLiveToken(t, c);
      if error.Some? {
        return Err(error.value);
      }
      TerminatingOne(Model(), t, s, c.act);
      Terminate(t, s, c.act);
      TrimTombstones();
      return Ok(Done);
    }

    method Cancel(t: Secret, c: Clock) returns (outcome: Outcome)
      requires Valid() && Ordered(c)
      modifies this
      ensures Valid() && (Model(), outcome) == Apply(old(Model()), TurnCapability.Cancel(t), c)
    {
      StaysWellFormed(Model(), TurnCapability.Cancel(t), c);
      outcome := End(t, Cancelled, c);
    }

    method Revoke(t: Secret, c: Clock) returns (outcome: Outcome)
      requires Valid() && Ordered(c)
      modifies this
      ensures Valid() && (Model(), outcome) == Apply(old(Model()), TurnCapability.Revoke(t), c)
    {
      StaysWellFormed(Model(), TurnCapability.Revoke(t), c);
      outcome := End(t, Revoked, c);
    }

    /** The four bulk revocations of the source, told apart by their selector. */
    method RevokeAll(selector: Selector, c: Clock) returns (outcome: Outcome)
      requires Valid() && Ordered(c)
      modifies this
      ensures Valid() && (Model(), outcome) == Apply(old(Model()), TurnCapability.RevokeAll(selector), c)
    {
      StaysWellFormed(Model(), TurnCapability.RevokeAll(selector), c);
      PruneExpired(c);
      SelectorMatching(Model(), selector);
      var count := TerminateMatching((b: Binding) => selector.Matches(b), Revoked, c.enter);
      ForgetEpochs(selector);
      TrimTombstones();
      return Ok(RevokedCount(count));
    }

    method ForgetEpochs(selector: Selector)
      modifies this`sessionEpochs
      ensures sessionEpochs == map s | s in old(sessionEpochs) && !selector.Forgets(s) :: old(sessionEpochs)[s]
    {
      var epochs := sessionEpochs;
      var left := epochs.Keys;
      while left != {}
        invariant left <= epochs.Keys
        invariant sessionEpochs == map s | s in epochs && (s in left || !selector.Forgets(s)) :: epochs[s]
      {
        var s :| s in left;
        if selector.Forgets(s) {
          sessionEpochs := sessionEpochs - {s};
        }
        left := left - {s};
      }
    }

    method Status(t: Secret, c: Clock) returns (record: Option<Record>)
      requires Valid() && Ordered(c)
      modifies this
      ensures Valid() && Model() == Apply(old(Model()), TurnCapability.Status(t), c).0
      ensures record == if t in records then Some(records[t]) else None
    {
      StaysWellFormed(Model(), TurnCapability.Status(t), c);
      PruneExpired(c);
      if t !in records {
        return None;
      }
      ClearExpiredLeases(t, c.act);
      return Some(records[t]);
    }
  }
}
