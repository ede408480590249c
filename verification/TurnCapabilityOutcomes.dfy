/**
 What the operations of the broker achieve, and exactly when, in terms of the broker before and after:
 which turn or lease is there, until when, and that every other working turn is left alone.
 */
module TurnCapabilityOutcomes {
  import opened Wrappers
  import opened TurnCapability
  import opened TurnCapabilityRuns

  /** A turn that has neither ended nor run out. */
  predicate Working(b: Broker, t: Secret, now: int) {
    && t in b.records && now < b.records[t].expiresAt
    && (b.records[t].state == Issued || b.records[t].state == Active || b.records[t].state == Completing)
  }

  // Every working turn but the chosen ones is as it was, less the leases that are over.
  ghost predicate Others(b: Broker, b': Broker, c: Clock, chosen: set<Secret>) {
    forall u | u !in chosen && Working(b, u, c.enter) :: u in b'.records && b'.records[u] == Swept(b.records[u], c.sweep)
  }

  function Smaller(a: int, b: int): int { if a < b then a else b }

  // -------------------------------------------------------------------------- pruning and trimming

  lemma TrimKeepsLive(b: Broker, t: Secret)
    requires t in b.records && Live(b.records[t])
    ensures t in Trim(b).records && Trim(b).records[t] == b.records[t]
  {
    var order := Tombstones(b.records, b.next);
    assert t !in order;
    assert forall x | x in Evicted(b) :: x in order;
  }

  // Trimming takes only ended turns.
  lemma TrimOnly(b: Broker)
    ensures var b' := Trim(b);
      && (forall t | t in b'.records :: t in b.records && b'.records[t] == b.records[t])
      && (forall t | t in b.records && Live(b.records[t]) :: t in b'.records)
      && b'.next == b.next && b'.epochs == b.epochs && b'.fences == b.fences
  {
    forall t | t in b.records && Live(b.records[t]) ensures t in Trim(b).records {
      TrimKeepsLive(b, t);
    }
  }

  /** A prune remembers no more spent fences than the limit allows, and forgets the oldest first. */
  lemma SpentFencesBounded(b: Broker, c: Clock)
    ensures var p, all := Prune(b, c).used, Expelled(b, c).used;
      |p| == Smaller(|all|, b.maxTombstones) && p == all[|all| - |p|..] && b.used <= all
  {
    hide FenceList, Evicted;
  }

  lemma ExpelledTurn(b: Broker, c: Clock, t: Secret)
    ensures var e := Expelled(b, c);
      && (t in e.records <==> t in b.records)
      && (t in b.records ==>
            e.records[t] == Swept(if Due(b.records[t], c.enter) then Terminated(b.records[t], Expired, c.enter) else b.records[t], c.sweep))
  {
    hide FenceList, Swept;
  }

  // Behind a prune exactly the working turns are live, with the leases that are not over.
  lemma PrunedTurn(b: Broker, c: Clock, t: Secret)
    ensures var p := Prune(b, c);
      && (Resolve(p, t).None? <==> Working(b, t, c.enter))
      && (Working(b, t, c.enter) ==> t in p.records && p.records[t] == Swept(b.records[t], c.sweep))
      && p.next == b.next && p.epochs == b.epochs
      && (t in p.records ==> t in b.records && p.records[t].binding == b.records[t].binding)
  {
    ExpelledTurn(b, c, t);
    TrimOnly(Expelled(b, c));
    hide Trim, FenceList;
  }

  // Leases behind a prune, at any later time.
  lemma PrunedLeases(b: Broker, c: Clock, t: Secret, at: int)
    requires Working(b, t, c.enter) && c.sweep <= at
    ensures forall l :: LeaseHeld(Prune(b, c), t, l, at) <==> LeaseHeld(b, t, l, at)
    ensures forall l | LeaseHeld(b, t, l, at) :: LeaseHeld(Prune(b, c), t, l, at) && Prune(b, c).records[t].leases[l] == b.records[t].leases[l]
  {
    PrunedTurn(b, c, t);
    hide Prune;
  }

  // A lease of a working turn behind a prune, at a time that may be before it.
  lemma LeaseKeptIn(b: Broker, c: Clock, t: Secret, l: Secret, at: int)
    requires Working(b, t, c.enter)
    ensures LeaseHeld(Prune(b, c), t, l, at) <==> LeaseHeld(b, t, l, c.sweep) && LeaseHeld(b, t, l, at)
  {
    PrunedTurn(b, c, t);
    hide Prune;
  }

  // A lease is held at a time.
  predicate LeaseHeld(b: Broker, t: Secret, lease: Secret, at: int) {
    t in b.records && lease in b.records[t].leases && b.records[t].leases[lease] > at
  }

  // These operations first prune.
  lemma PrunesFirst(b: Broker, t: Secret, c: Clock)
    ensures forall expected, scopes, ttl ::
      Apply(b, Claim(t, expected, scopes, ttl), c) == ClaimAt(Prune(b, c), t, expected, scopes, ttl, c.act)
    ensures forall lease, expected, ttl ::
      Apply(b, Renew(t, lease, expected, ttl), c) == RenewAt(Prune(b, c), t, lease, expected, ttl, c.act)
    ensures forall lease :: Apply(b, Release(t, lease), c) == ReleaseAt(Prune(b, c), t, lease, c.act)
    ensures forall expected :: Apply(b, BeginCompletion(t, expected), c) == BeginCompletionAt(Prune(b, c), t, expected, c.act)
    ensures Apply(b, Cancel(t), c) == EndAt(Prune(b, c), t, Cancelled, c.act)
    ensures Apply(b, Revoke(t), c) == EndAt(Prune(b, c), t, Revoked, c.act)
    ensures Apply(b, Status(t), c) == (StatusAt(Prune(b, c), t, c.act), Ok(Done))
  {
    hide Prune, ClaimAt, RenewAt, ReleaseAt, BeginCompletionAt, EndAt, StatusAt;
  }

  lemma PrunedOthers(b: Broker, c: Clock, b': Broker, chosen: set<Secret>)
    requires Frame(Prune(b, c), b', chosen)
    ensures Others(b, b', c, chosen)
  {
    hide Prune;
    forall u | u !in chosen && Working(b, u, c.enter) ensures u in b'.records && b'.records[u] == Swept(b.records[u], c.sweep) {
      PrunedTurn(b, c, u);
    }
  }

  // Live turns but the chosen ones are untouched.
  ghost predicate Frame(p: Broker, b': Broker, chosen: set<Secret>) {
    forall u | u in p.records && Live(p.records[u]) && u !in chosen :: u in b'.records && b'.records[u] == p.records[u]
  }

  // -------------------------------------------------------------------------- leases

  lemma ClaimsAt(p: Broker, t: Secret, expected: Binding, scopes: set<string>, ttl: int, now: int)
    ensures var (b', outcome) := ClaimAt(p, t, expected, scopes, ttl, now);
      && (outcome.Ok? <==>
            && Resolve(p, t).None? && p.records[t].binding == expected && scopes <= expected.scopes
            && p.records[t].state != Completing && 100 <= ttl <= 300_000 && now < p.records[t].expiresAt)
      && (outcome.Ok? ==>
            var e := Smaller(now + ttl, p.records[t].expiresAt);
            && outcome.value == Leased(p.next, e) && t in b'.records && p.next < b'.next
            && b'.records[t] == p.records[t].(state := Active, leases := p.records[t].leases[p.next := e])
            && Frame(p, b', {t}))
  {
    hide TerminateAll;
  }

  /** A claim gets a new lease, no longer than asked and than its turn, exactly for a working turn that is not completing and has the scopes. */
  lemma ClaimAnswers(b: Broker, t: Secret, expected: Binding, scopes: set<string>, ttl: int, c: Clock)
    ensures var (b', outcome) := Apply(b, Claim(t, expected, scopes, ttl), c);
      && (outcome.Ok? <==>
            && Working(b, t, c.enter) && b.records[t].binding == expected && scopes <= expected.scopes
            && b.records[t].state != Completing && 100 <= ttl <= 300_000 && c.act < b.records[t].expiresAt)
      && (outcome.Ok? ==>
            var e := Smaller(c.act + ttl, b.records[t].expiresAt);
            && outcome.value == Leased(b.next, e) && t in b'.records && b.next < b'.next
            && b'.records[t] == Swept(b.records[t], c.sweep).(state := Active, leases := Swept(b.records[t], c.sweep).leases[b.next := e])
            && Others(b, b', c, {t}))
  {
    hide Prune, ClaimAt, Frame, Others, Apply, ApplyPruned;
    var p := Prune(b, c);
    PrunedTurn(b, c, t);
    PrunesFirst(b, t, c);
    ClaimsAt(p, t, expected, scopes, ttl, c.act);
    if ClaimAt(p, t, expected, scopes, ttl, c.act).1.Ok? {
      PrunedOthers(b, c, ClaimAt(p, t, expected, scopes, ttl, c.act).0, {t});
    }
  }

  lemma RenewsAt(p: Broker, t: Secret, lease: Secret, expected: Binding, ttl: int, now: int)
    requires t in p.records ==> LeasesOk(p.records[t], p.next)
    ensures var (b', outcome) := RenewAt(p, t, lease, expected, ttl, now);
      && (outcome.Ok? <==>
            && Resolve(p, t).None? && p.records[t].binding == expected && p.records[t].state != Issued
            && LeaseHeld(p, t, lease, now) && 100 <= ttl <= 300_000)
      && (outcome.Ok? ==>
            var e := Smaller(now + ttl, p.records[t].expiresAt);
            && outcome.value == Renewed(e) && t in b'.records
            && b'.records[t] == p.records[t].(leases := p.records[t].leases[lease := e])
            && Frame(p, b', {t}))
  {
    hide TerminateAll;
  }

  /** A renewal gives the lease, exactly while it is held by a working turn, its full time again up to the end of the turn. */
  lemma RenewAnswers(b: Broker, t: Secret, lease: Secret, expected: Binding, ttl: int, c: Clock)
    requires WellFormed(b) && Ordered(c)
    ensures var (b', outcome) := Apply(b, Renew(t, lease, expected, ttl), c);
      && (outcome.Ok? <==>
            && Working(b, t, c.enter) && b.records[t].binding == expected && b.records[t].state != Issued
            && LeaseHeld(b, t, lease, c.act) && 100 <= ttl <= 300_000)
      && (outcome.Ok? ==>
            var e := Smaller(c.act + ttl, b.records[t].expiresAt);
            && outcome.value == Renewed(e) && t in b'.records
            && b'.records[t] == Swept(b.records[t], c.sweep).(leases := Swept(b.records[t], c.sweep).leases[lease := e])
            && Others(b, b', c, {t}))
  {
    hide Prune, RenewAt, Frame, Others, WellFormed, LeasesOk, Apply, ApplyPruned, LeaseHeld;
    var p := Prune(b, c);
    PrunedTurn(b, c, t);
    PruneLeasesOk(b, c, t);
    PrunesFirst(b, t, c);
    if Working(b, t, c.enter) {
      PrunedLeases(b, c, t, c.act);
    }
    RenewsAt(p, t, lease, expected, ttl, c.act);
    if RenewAt(p, t, lease, expected, ttl, c.act).1.Ok? {
      PrunedOthers(b, c, RenewAt(p, t, lease, expected, ttl, c.act).0, {t});
    }
  }

  lemma PruneLeasesOk(b: Broker, c: Clock, t: Secret)
    requires WellFormed(b) && Ordered(c)
    ensures var p := Prune(b, c);
      && WellFormed(p)
      && (t in p.records ==> t < p.next && LeasesOk(p.records[t], p.next))
  {
    hide Prune;
    PruneSound(b, c);
    if t in Prune(b, c).records {
      assert RecordOk(Prune(b, c), t);
    }
  }

  lemma ReleasesAt(p: Broker, t: Secret, lease: Secret, now: int)
    requires t in p.records && Live(p.records[t]) && LeasesOk(p.records[t], p.next)
    ensures var (b', outcome) := ReleaseAt(p, t, lease, now);
      && outcome == Ok(Released(LeaseHeld(p, t, lease, now)))
      && t in b'.records && b'.records[t] == Swept(p.records[t], now).(leases := Swept(p.records[t], now).leases - {lease})
      && Frame(p, b', {t})
  {
    var r := Swept(p.records[t], now);
    var put := Put(p, t, r.(leases := r.leases - {lease}));
    TrimOnly(put);
    if lease !in r.leases {
      assert r.leases - {lease} == r.leases;
    }
    hide Trim;
  }

  /** A release says whether the lease was still held, and ends just this one. */
  lemma ReleaseAnswers(b: Broker, t: Secret, lease: Secret, c: Clock)
    requires WellFormed(b) && Ordered(c) && Working(b, t, c.enter)
    ensures var (b', outcome) := Apply(b, Release(t, lease), c);
      && outcome == Ok(Released(LeaseHeld(b, t, lease, c.act)))
      && t in b'.records
      && (forall l :: LeaseHeld(b', t, l, c.act) <==> l != lease && LeaseHeld(b, t, l, c.act))
      && b'.records[t].state == b.records[t].state && b'.records[t].expiresAt == b.records[t].expiresAt
      && Others(b, b', c, {t})
  {
    hide Prune, ReleaseAt, Frame, Others, WellFormed, LeasesOk, Apply, ApplyPruned;
    var p := Prune(b, c);
    PrunedTurn(b, c, t);
    PruneLeasesOk(b, c, t);
    PrunesFirst(b, t, c);
    PrunedLeases(b, c, t, c.act);
    ReleasesAt(p, t, lease, c.act);
    PrunedOthers(b, c, ReleaseAt(p, t, lease, c.act).0, {t});
  }

  // -------------------------------------------------------------------------- ending turns

  lemma EndsAt(p: Broker, t: Secret, s: State, now: int)
    requires s == Cancelled || s == Revoked
    ensures var (b', outcome) := EndAt(p, t, s, now);
      && (outcome == Ok(Done) <==> Resolve(p, t).None?) && (outcome.Err? <==> Resolve(p, t).Some?)
      && (t in b'.records && Resolve(p, t).None? ==> b'.records[t] == Terminated(p.records[t], s, now))
      && (t in p.records && Resolve(p, t).None? && p.records[t].leases != map[] ==> t in b'.records)
      && Frame(p, b', {t})
  {
    if Resolve(p, t).None? {
      var e := TerminateAll(p, {t}, s, now);
      assert e.records[t] == Terminated(p.records[t], s, now);
      TrimOnly(e);
      if p.records[t].leases != map[] {
        TrimKeepsUndrained(e, t);
      }
      hide Trim, FenceList;
    }
  }

  lemma TrimKeepsUndrained(b: Broker, t: Secret)
    requires t in b.records && !Drained(b.records[t])
    ensures t in Trim(b).records
  {
    assert t !in Tombstones(b.records, b.next);
    assert forall x | x in Evicted(b) :: x in Tombstones(b.records, b.next);
  }

  /** Cancelling and revoking end exactly a working turn, at once, and no other. */
  lemma EndAnswers(b: Broker, op: Op, c: Clock)
    requires op.Cancel? || op.Revoke?
    ensures var (b', outcome) := Apply(b, op, c);
      && (outcome == Ok(Done) <==> Working(b, op.token, c.enter)) && (outcome.Err? <==> !Working(b, op.token, c.enter))
      && !Working(b', op.token, c.act)
      && (Working(b, op.token, c.enter) && op.token in b'.records ==>
            b'.records[op.token].state == (if op.Cancel? then Cancelled else Revoked) && b'.records[op.token].fence.None?)
      && Others(b, b', c, {op.token})
  {
    hide Prune, EndAt, Frame, Others, Apply, ApplyPruned;
    var p, s := Prune(b, c), if op.Cancel? then Cancelled else Revoked;
    PrunedTurn(b, c, op.token);
    PrunesFirst(b, op.token, c);
    EndsAt(p, op.token, s, c.act);
    if Resolve(p, op.token).Some? {
      NotEnded(p, op.token, s, c.act);
    }
    PrunedOthers(b, c, EndAt(p, op.token, s, c.act).0, {op.token});
  }

  lemma NotEnded(p: Broker, t: Secret, s: State, now: int)
    requires Resolve(p, t).Some?
    ensures EndAt(p, t, s, now).0 == p && !Working(p, t, now)
  {}

  // The working turns a selector addresses.
  ghost predicate Addressed(b: Broker, selector: Selector, t: Secret, now: int) {
    Working(b, t, now) && selector.Matches(b.records[t].binding)
  }

  lemma RevokesAllAt(p: Broker, selector: Selector, now: int)
    ensures var (b', outcome) := RevokeAllAt(p, selector, now);
      && outcome.Ok?
      && (forall t | t in b'.records && t in p.records && Live(p.records[t]) && selector.Matches(p.records[t].binding) ::
            b'.records[t].state == Revoked)
      && Frame(p, b', set t | t in p.records && selector.Matches(p.records[t].binding))
      && (forall t | t in b'.records :: t in p.records && b'.records[t].binding == p.records[t].binding)
      && (forall t | t in b'.records && Live(b'.records[t]) ::
            b'.records[t] == p.records[t] && !selector.Matches(b'.records[t].binding))
      && (forall s :: s in b'.epochs <==> s in p.epochs && !selector.Forgets(s))
  {
    var chosen := LiveTokens(p, SelectedTokens(p, selector));
    var q := TerminateAll(p, chosen, Revoked, now);
    var e := q.(epochs := map s | s in q.epochs && !selector.Forgets(s) :: q.epochs[s]);
    Terminates(p, chosen, now);
    TrimOnly(e);
    assert forall t :: t in chosen <==> t in p.records && selector.Matches(p.records[t].binding) && Live(p.records[t]);
    hide Trim, TerminateAll, SelectedTokens, LiveTokens;
  }

  lemma Terminates(p: Broker, chosen: set<Secret>, now: int)
    ensures var q := TerminateAll(p, chosen, Revoked, now);
      && q.records.Keys == p.records.Keys && q.epochs == p.epochs && q.next == p.next
      && (forall t | t in p.records :: q.records[t] == if t in chosen then Terminated(p.records[t], Revoked, now) else p.records[t])
  {
    hide FenceList;
  }

  /** A revocation by binding, request, session or registration leaves none of the addressed turns working, and all others alone. */
  lemma RevokeAllAnswers(b: Broker, selector: Selector, c: Clock)
    ensures var (b', outcome) := Apply(b, RevokeAll(selector), c);
      && outcome.Ok?
      && (forall t :: !Addressed(b', selector, t, c.enter))
      && (forall t | Working(b, t, c.enter) && !selector.Matches(b.records[t].binding) ::
            t in b'.records && b'.records[t] == Swept(b.records[t], c.sweep))
      && (selector.BySession? ==> forall s | selector.Forgets(s) :: s !in b'.epochs)
  {
    var p := Prune(b, c);
    assert Apply(b, RevokeAll(selector), c) == RevokeAllAt(p, selector, c.enter) by {
      RevokesFirst(b, selector, c);
    }
    hide Prune, RevokeAllAt, Apply, ApplyPruned;
    RevokesAllAt(p, selector, c.enter);
    var b' := RevokeAllAt(p, selector, c.enter).0;
    forall t | Working(b, t, c.enter) && !selector.Matches(b.records[t].binding)
      ensures t in b'.records && b'.records[t] == Swept(b.records[t], c.sweep)
    {
      PrunedTurn(b, c, t);
    }
    NoneAddressed(b', selector, c.enter);
    hide Swept, Addressed;
  }

  lemma NoneAddressed(b: Broker, selector: Selector, now: int)
    requires forall t | t in b.records && Live(b.records[t]) :: !selector.Matches(b.records[t].binding)
    ensures forall t :: !Addressed(b, selector, t, now)
  {
    forall t ensures !Addressed(b, selector, t, now) {
      assert Working(b, t, now) ==> Live(b.records[t]);
    }
  }

  lemma RevokesFirst(b: Broker, selector: Selector, c: Clock)
    ensures Apply(b, RevokeAll(selector), c) == RevokeAllAt(Prune(b, c), selector, c.enter)
  {}

  // -------------------------------------------------------------------------- completing

  lemma BeginsAt(p: Broker, t: Secret, expected: Binding, now: int)
    ensures var (b', outcome) := BeginCompletionAt(p, t, expected, now);
      && (outcome.Ok? <==> Resolve(p, t).None? && p.records[t].binding == expected && p.records[t].state == Active)
      && (outcome.Ok? ==>
            && outcome.value == Fenced(p.next, |Swept(p.records[t], now).leases|)
            && t in b'.records && b'.records[t] == Swept(p.records[t], now).(state := Completing, fence := Some(p.next))
            && p.next in b'.fences && b'.fences[p.next] == t && b'.next == p.next + 1)
      && (outcome.Err? ==> b' == p)
      && Frame(p, b', {t})
  {}

  /** A completion begins exactly for a working turn that has claimed a lease before and is not completing yet; its fence is new. */
  lemma BeginAnswers(b: Broker, t: Secret, expected: Binding, c: Clock)
    ensures var (b', outcome) := Apply(b, BeginCompletion(t, expected), c);
      && (outcome.Ok? <==> Working(b, t, c.enter) && b.records[t].binding == expected && b.records[t].state == Active)
      && (outcome.Ok? ==>
            && outcome.value.Fenced? && outcome.value.fence == b.next && b.next < b'.next
            && t in b'.records && b'.records[t].state == Completing && b'.records[t].fence == Some(b.next)
            && b.next in b'.fences && b'.fences[b.next] == t)
      && Others(b, b', c, {t})
  {
    hide Prune, BeginCompletionAt, Frame, Others, Apply, ApplyPruned;
    var p := Prune(b, c);
    PrunedTurn(b, c, t);
    PrunesFirst(b, t, c);
    BeginsAt(p, t, expected, c.act);
    PrunedOthers(b, c, BeginCompletionAt(p, t, expected, c.act).0, {t});
  }

  // -------------------------------------------------------------------------- issuing and keeping alive

  /** A turn that replaces none is issued exactly for a lifetime in the limits, and leaves the others alone. */
  lemma IssueAnswers(b: Broker, binding: Binding, ttl: int, c: Clock)
    requires WellFormed(b) && Ordered(c)
    ensures var (b', outcome) := Apply(b, Issue(binding, ttl), c);
      && (outcome.Ok? <==> 1_000 <= ttl <= 3_600_000)
      && (outcome.Ok? ==>
            && outcome.value == Granted(b.next, c.enter + ttl) && Working(b', b.next, c.enter)
            && b'.records[b.next] == Record(binding, c.enter, ttl, c.enter + ttl, Issued, map[], {}, None, 0)
            && b'.next == b.next + 1 && b'.epochs == b.epochs && Others(b, b', c, {}))
  {
    assert TtlOk(ttl) ==> Apply(b, Issue(binding, ttl), c) == Grant(Prune(b, c), binding, ttl, c.enter) by {
      hide Prune, Grant;
    }
    var b' := Grant(Prune(b, c), binding, ttl, c.enter).0;
    PruneSecrets(b, c);
    forall u | Working(b, u, c.enter) ensures u in b'.records && b'.records[u] == Swept(b.records[u], c.sweep) {
      PrunedTurn(b, c, u);
      hide Prune;
    }
    PrunedTurn(b, c, b.next);
    hide Prune, WellFormed, Swept, Apply, ApplyPruned;
  }

  lemma ReplacesAt(p: Broker, binding: Binding, ttl: int, now: int)
    requires forall t | t in p.records :: t < p.next
    ensures var (b', outcome) := ReplaceAt(p, binding, ttl, now);
      && (outcome.Ok? <==> forall t | t in p.records && p.records[t].binding.session == binding.session :: p.records[t].leases == map[])
      && (outcome.Ok? ==>
            && outcome.value == Granted(p.next, now + ttl) && p.next in b'.records
            && b'.records[p.next] == Record(binding, now, ttl, now + ttl, Issued, map[], {}, None, 0)
            && b'.next == p.next + 1 && b'.epochs == p.epochs[binding.session := Epoch(binding.compactionEpoch, binding.generation)]
            && (forall t | t in b'.records && t != p.next :: t in p.records && b'.records[t].binding == p.records[t].binding)
            && (forall t | t in b'.records && t != p.next && Live(b'.records[t]) :: p.records[t].binding.session != binding.session)
            && (forall t | t in p.records && Live(p.records[t]) && p.records[t].binding.session != binding.session ::
                  t in b'.records && b'.records[t] == p.records[t]))
      && (outcome.Err? ==> b' == p)
  {
    ClearedTurns(p, binding.session, now);
    SomeLease(p, binding.session);
    hide Cleared, SessionTokens;
  }

  lemma SomeLease(p: Broker, s: Session)
    ensures (exists t | t in SessionTokens(p, s) :: p.records[t].leases != map[])
      <==> !forall t | t in p.records && p.records[t].binding.session == s :: p.records[t].leases == map[]
  {
    if t :| t in p.records && p.records[t].binding.session == s && p.records[t].leases != map[] {
      assert t in SessionTokens(p, s);
    }
  }

  lemma ClearedTurns(p: Broker, s: Session, now: int)
    ensures var q := Cleared(p, s, now);
      && q.next == p.next && q.epochs == p.epochs
      && (forall t | t in q.records :: t in p.records && q.records[t].binding == p.records[t].binding)
      && (forall t | t in q.records && Live(q.records[t]) :: p.records[t].binding.session != s)
      && (forall t | t in p.records && Live(p.records[t]) && p.records[t].binding.session != s ::
            t in q.records && q.records[t] == p.records[t])
  {
    var chosen := LiveTokens(p, SessionTokens(p, s));
    Terminates(p, chosen, now);
    TrimOnly(TerminateAll(p, chosen, Revoked, now));
    assert forall t :: t in chosen <==> t in p.records && p.records[t].binding.session == s && Live(p.records[t]);
    hide Trim, TerminateAll, SessionTokens, LiveTokens;
  }

  /** A new turn is issued over its session exactly if the binding is not outdated and no turn of the session, ended or not, has a lease left; it replaces them all. */
  lemma ReplaceAnswers(b: Broker, binding: Binding, ttl: int, c: Clock)
    requires WellFormed(b) && Ordered(c)
    ensures var (b', outcome) := Apply(b, IssueReplacingSession(binding, ttl), c);
      && (outcome.Ok? ==> 1_000 <= ttl <= 3_600_000 && EpochFresh(b, binding))
      && (1_000 <= ttl <= 3_600_000 && EpochFresh(b, binding) ==>
            (outcome.Ok? <==> forall t, l | LeaseHeld(b, t, l, c.sweep) :: b.records[t].binding.session != binding.session))
      && (outcome.Ok? ==>
            && outcome.value == Granted(b.next, c.enter + ttl) && Working(b', b.next, c.enter)
            && b'.records[b.next] == Record(binding, c.enter, ttl, c.enter + ttl, Issued, map[], {}, None, 0)
            && b'.epochs == b.epochs[binding.session := Epoch(binding.compactionEpoch, binding.generation)]
            && (forall t | t != b.next && Working(b', t, c.enter) :: b'.records[t].binding.session != binding.session)
            && (forall t | Working(b, t, c.enter) && b.records[t].binding.session != binding.session ::
                  t in b'.records && b'.records[t] == Swept(b.records[t], c.sweep)))
  {
    var p := Prune(b, c);
    ReplacesFirst(b, binding, ttl, c);
    hide Apply, ApplyPruned, ReplaceAt, Prune, WellFormed;
    PruneSecrets(b, c);
    ReplacesAt(p, binding, ttl, c.enter);
    NoLeasesLeft(b, binding.session, c);
    forall t | Working(b, t, c.enter)
      ensures t in p.records && p.records[t] == Swept(b.records[t], c.sweep) && Live(p.records[t])
    {
      PrunedTurn(b, c, t);
    }
    PrunedTurn(b, c, b.next);
  }

  // A turn of any state keeps its record as long as it has leases that are not over.
  lemma PrunedLeft(b: Broker, c: Clock, t: Secret)
    ensures var p := Prune(b, c); t in p.records && p.records[t].leases != map[] <==> exists l :: LeaseHeld(b, t, l, c.sweep)
    ensures t in Prune(b, c).records ==> t in b.records && Prune(b, c).records[t].binding == b.records[t].binding
  {
    var e := Expelled(b, c);
    ExpelledTurn(b, c, t);
    TrimOnly(e);
    if l :| LeaseHeld(b, t, l, c.sweep) {
      assert l in e.records[t].leases;
      TrimKeepsUndrained(e, t);
    }
    hide Trim, FenceList;
    if t in Prune(b, c).records && Prune(b, c).records[t].leases != map[] {
      var l :| l in Prune(b, c).records[t].leases;
      assert LeaseHeld(b, t, l, c.sweep);
    }
  }

  lemma NoLeasesLeft(b: Broker, s: Session, c: Clock)
    ensures (forall t | t in Prune(b, c).records && Prune(b, c).records[t].binding.session == s :: Prune(b, c).records[t].leases == map[])
       <==> (forall t, l | LeaseHeld(b, t, l, c.sweep) :: b.records[t].binding.session != s)
  {
    forall t ensures var p := Prune(b, c); t in p.records && p.records[t].leases != map[] <==> exists l :: LeaseHeld(b, t, l, c.sweep) {
      PrunedLeft(b, c, t);
    }
    forall t | t in Prune(b, c).records ensures t in b.records && Prune(b, c).records[t].binding == b.records[t].binding {
      PrunedLeft(b, c, t);
    }
    hide Prune;
  }

  lemma PruneSecrets(b: Broker, c: Clock)
    requires WellFormed(b) && Ordered(c)
    ensures forall t | t in Prune(b, c).records :: t < Prune(b, c).next
  {
    PruneSound(b, c);
    hide Prune;
    assert forall t | t in Prune(b, c).records :: RecordOk(Prune(b, c), t);
  }

  lemma ReplacesFirst(b: Broker, binding: Binding, ttl: int, c: Clock)
    ensures Apply(b, IssueReplacingSession(binding, ttl), c) ==
      if ttl < 1_000 || ttl > 3_600_000 then (b, Err(InvalidTtl))
      else if !EpochFresh(b, binding) then (b, Err(StaleBindingEpoch))
      else ReplaceAt(Prune(b, c), binding, ttl, c.enter)
  {
    hide ReplaceAt, Prune, EpochFresh;
  }

  // The working turns a keepalive addresses.
  ghost predicate Answers(b: Broker, t: Secret, session: Session, turn: Turn, generation: nat, now: int) {
    Working(b, t, now) && b.records[t].binding.session == session && b.records[t].binding.turn == turn
    && b.records[t].binding.generation == generation
  }

  lemma KeepsAliveAt(p: Broker, session: Session, turn: Turn, generation: nat, observedAt: int, now: int, t: Secret)
    requires RequestTokens(p, session, turn, generation) == {t}
    ensures var (b', outcome) := KeepAliveAt(p, session, turn, generation, observedAt, now);
      && (outcome.Ok? <==>
            now - 60_000 <= observedAt <= now + 5_000 && EpochFresh(p, p.records[t].binding) && p.records[t].state != Completing)
      && (outcome.Ok? ==>
            var e := Max(p.records[t].expiresAt, Smaller(observedAt, now) + p.records[t].ttlMs);
            outcome.value == KeptAlive(t, e) && b' == p.(records := p.records[t := p.records[t].(expiresAt := e)]))
      && (outcome.Err? ==> b' == p)
  {
    hide EpochFresh;
  }

  /**
   A keepalive of the only working turn that answers a request is granted exactly for a timely sight, a
   binding that is not outdated and a turn that is not completing, and gives it its full lifetime from the sight on.
   */
  lemma KeepAliveAnswers(b: Broker, session: Session, turn: Turn, generation: nat, observedAt: int, c: Clock, t: Secret)
    requires Answers(b, t, session, turn, generation, c.enter)
    requires forall u | Answers(b, u, session, turn, generation, c.enter) :: u == t
    ensures var (b', outcome) := Apply(b, KeepAliveRequest(session, turn, generation, observedAt), c);
      && (outcome.Ok? <==>
            && c.enter - 60_000 <= observedAt <= c.enter + 5_000
            && EpochFresh(b, b.records[t].binding) && b.records[t].state != Completing)
      && (outcome.Ok? ==>
            var e := Max(b.records[t].expiresAt, Smaller(observedAt, c.enter) + b.records[t].ttlMs);
            && outcome.value == KeptAlive(t, e) && t in b'.records
            && b'.records[t] == Swept(b.records[t], c.sweep).(expiresAt := e) && Others(b, b', c, {t}))
  {
    hide Prune, KeepAliveAt, Apply, ApplyPruned, Frame, Others, Answers, RequestTokens, Swept, EpochFresh;
    var p := Prune(b, c);
    KeepsFirst(b, session, turn, generation, observedAt, c);
    PrunedTurn(b, c, t);
    OnlyAnswer(b, session, turn, generation, c, t);
    SweptSame(b.records[t], c.sweep);
    EpochsSame(b, p, b.records[t].binding);
    KeepsAliveAt(p, session, turn, generation, observedAt, c.enter, t);
    FrameOne(p, KeepAliveAt(p, session, turn, generation, observedAt, c.enter).0, t);
    if KeepAliveAt(p, session, turn, generation, observedAt, c.enter).1.Ok? {
      PrunedOthers(b, c, KeepAliveAt(p, session, turn, generation, observedAt, c.enter).0, {t});
    }
  }

  lemma SweptSame(r: Record, now: int)
    ensures Swept(r, now) == r.(leases := Swept(r, now).leases, expiredLeases := Swept(r, now).expiredLeases)
  {}

  lemma EpochsSame(b: Broker, p: Broker, binding: Binding)
    requires p.epochs == b.epochs
    ensures EpochFresh(p, binding) <==> EpochFresh(b, binding)
  {}

  lemma OnlyAnswer(b: Broker, session: Session, turn: Turn, generation: nat, c: Clock, t: Secret)
    requires Answers(b, t, session, turn, generation, c.enter)
    requires forall u | Answers(b, u, session, turn, generation, c.enter) :: u == t
    ensures RequestTokens(Prune(b, c), session, turn, generation) == {t} && Working(b, t, c.enter)
  {
    hide Prune;
    var p := Prune(b, c);
    forall u ensures u in RequestTokens(p, session, turn, generation) <==> Answers(b, u, session, turn, generation, c.enter) {
      PrunedTurn(b, c, u);
      ResolvesLive(p, u);
    }
  }

  lemma FrameOne(p: Broker, b': Broker, t: Secret)
    requires forall u | u in p.records && u != t :: u in b'.records && b'.records[u] == p.records[u]
    ensures Frame(p, b', {t})
  {}

  lemma ResolvesLive(p: Broker, t: Secret)
    ensures Resolve(p, t).None? <==> t in p.records && Live(p.records[t])
  {}

  lemma KeepsFirst(b: Broker, session: Session, turn: Turn, generation: nat, observedAt: int, c: Clock)
    ensures Apply(b, KeepAliveRequest(session, turn, generation, observedAt), c)
         == KeepAliveAt(Prune(b, c), session, turn, generation, observedAt, c.enter)
  {
    hide Prune, KeepAliveAt;
  }

  // -------------------------------------------------------------------------- fences

  // The turn a fence completes.
  ghost predicate Fences(b: Broker, fence: Secret, t: Secret) { fence in b.fences && b.fences[fence] == t }

  lemma FencedWorking(b: Broker, fence: Secret, t: Secret, c: Clock)
    requires WellFormed(b) && Fences(b, fence, t)
    ensures t in b.records && b.records[t].state == Completing && b.records[t].fence == Some(fence) && ResolveFence(b, fence) == Ok(t)
    ensures Working(b, t, c.enter) <==> !Due(b.records[t], c.enter)
  {
    assert FenceOk(b, fence);
    assert RecordOk(b, t);
  }

  lemma CompletesHere(p: Broker, t: Secret, fence: Secret, found: Record, c: Clock)
    requires t in p.records && Live(p.records[t]) && !Due(found, c.enter) && found.state == Completing
    ensures var (b', outcome) := CompleteAt(p, t, fence, found, c);
      && (outcome.Ok? <==> forall l :: !LeaseHeld(p, t, l, c.act))
      && (outcome.Ok? ==> (t in b'.records ==> b'.records[t].state == Completed) && fence !in b'.fences)
      && Frame(p, b', {t})
  {
    var r := Swept(p.records[t], c.act);
    var done := ConsumeFence(p, t, fence, r.(state := Completed, terminalAt := c.act));
    TrimOnly(done);
    assert forall l :: l in r.leases <==> LeaseHeld(p, t, l, c.act);
    assert (forall l :: l !in r.leases) ==> r.leases.Keys == {};
    hide Trim;
  }

  /** A fence completes its turn exactly if the turn is still working and no lease of it is held any more; it is then spent. */
  lemma CompleteAnswers(b: Broker, fence: Secret, t: Secret, c: Clock)
    requires WellFormed(b) && Ordered(c) && Fences(b, fence, t)
    ensures var (b', outcome) := Apply(b, Complete(fence), c);
      && (outcome.Ok? <==> Working(b, t, c.enter) && forall l :: !LeaseHeld(b, t, l, c.act))
      && (outcome.Ok? ==> (t in b'.records ==> b'.records[t].state == Completed) && fence !in b'.fences)
      && Others(b, b', c, {t})
  {
    FencedWorking(b, fence, t, c);
    var p, found := Prune(b, c), b.records[t];
    assert Apply(b, Complete(fence), c) == CompleteAt(p, t, fence, found, c) by {
      hide Prune, CompleteAt, ResolveFence;
    }
    PrunedTurn(b, c, t);
    ResolvesLive(p, t);
    hide Prune, Apply, ApplyPruned, Frame, Others, WellFormed, ResolveFence;
    if Working(b, t, c.enter) {
      PrunedLeases(b, c, t, c.act);
      CompletesHere(p, t, fence, found, c);
      hide CompleteAt, LeaseHeld;
    } else {
      FrameOne(p, p, t);
    }
    PrunedOthers(b, c, CompleteAt(p, t, fence, found, c).0, {t});
  }

  /** A fence aborts its completion exactly while the turn is working; the turn goes on with the leases it had. */
  lemma AbortAnswers(b: Broker, fence: Secret, t: Secret, c: Clock)
    requires WellFormed(b) && Ordered(c) && Fences(b, fence, t)
    ensures var (b', outcome) := Apply(b, AbortCompletion(fence), c);
      && (outcome.Ok? <==> Working(b, t, c.enter))
      && (outcome.Ok? ==>
            && t in b'.records && b'.records[t] == Swept(b.records[t], c.sweep).(state := Active, fence := None)
            && fence !in b'.fences)
      && Others(b, b', c, {t})
  {
    hide Prune, Apply, ApplyPruned, Others, WellFormed, ResolveFence;
    FencedWorking(b, fence, t, c);
    CompleteUnfolds(b, fence, t, c);
    var p, found := Prune(b, c), b.records[t];
    PrunedTurn(b, c, t);
    ResolvesLive(p, t);
    PrunedOthers(b, c, AbortAt(p, t, fence, found, c).0, {t});
  }

  // -------------------------------------------------------------------------- what keeps a lease

  // A lease of a live turn that is not over, before an operation that has pruned already.
  predicate Firm(p: Broker, t: Secret, l: Secret, at: int) {
    t in p.records && t < p.next && l < p.next && Live(p.records[t]) && at < p.records[t].expiresAt && LeaseHeld(p, t, l, at)
  }

  predicate Keeps(p: Broker, b': Broker, t: Secret, l: Secret, at: int) {
    && LeaseHeld(p, t, l, at) && LeaseHeld(b', t, l, at) && b'.records[t].leases[l] == p.records[t].leases[l]
    && Live(b'.records[t]) && b'.records[t].binding == p.records[t].binding
  }

  lemma ClaimKeeps(p: Broker, u: Secret, expected: Binding, scopes: set<string>, ttl: int, at: int, t: Secret, l: Secret)
    requires Firm(p, t, l, at)
    ensures Keeps(p, ClaimAt(p, u, expected, scopes, ttl, at).0, t, l, at)
  {
    ClaimsAt(p, u, expected, scopes, ttl, at);
    assert Frame(p, TerminateAll(p, {u}, Expired, at), {u}) by {
      hide FenceList;
    }
    hide TerminateAll;
  }

  lemma RenewKeeps(p: Broker, u: Secret, lease: Secret, expected: Binding, ttl: int, at: int, t: Secret, l: Secret)
    requires Firm(p, t, l, at) && (u in p.records ==> LeasesOk(p.records[u], p.next))
    ensures (u == t && lease == l) || Keeps(p, RenewAt(p, u, lease, expected, ttl, at).0, t, l, at)
    ensures LeaseHeld(RenewAt(p, u, lease, expected, ttl, at).0, t, l, at)
  {
    RenewsAt(p, u, lease, expected, ttl, at);
    hide TerminateAll;
  }

  lemma ReleaseKeeps(p: Broker, u: Secret, lease: Secret, at: int, t: Secret, l: Secret)
    requires Firm(p, t, l, at) && !(u == t && lease == l)
    ensures Keeps(p, ReleaseAt(p, u, lease, at).0, t, l, at)
  {
    if u in p.records {
      var r := Swept(p.records[u], at);
      var put := Put(p, u, r.(leases := r.leases - {lease}));
      TrimOnly(put);
      assert Live(put.records[t]);
    }
    hide Trim;
  }

  lemma EndKeeps(p: Broker, u: Secret, s: State, at: int, t: Secret, l: Secret)
    requires Firm(p, t, l, at) && u != t && (s == Cancelled || s == Revoked)
    ensures Keeps(p, EndAt(p, u, s, at).0, t, l, at)
  {
    EndsAt(p, u, s, at);
    hide EndAt;
  }

  lemma BulkKeeps(p: Broker, op: Op, c: Clock, t: Secret, l: Secret)
    requires Firm(p, t, l, c.act) && (forall u | u in p.records :: u < p.next)
    requires op.IssueReplacingSession? || (op.RevokeAll? && !op.selector.Matches(p.records[t].binding))
    ensures Keeps(p, ApplyPruned(p, op, c).0, t, l, c.act)
  {
    hide RevokeAllAt, ReplaceAt, Keeps, Firm;
    if op.RevokeAll? {
      RevocationKeeps(p, op.selector, c.enter, t, l, c.act);
    } else {
      ReplacementKeeps(p, op.binding, op.ttlMs, c.enter, t, l, c.act);
    }
  }

  lemma RevocationKeeps(p: Broker, selector: Selector, now: int, t: Secret, l: Secret, at: int)
    requires Firm(p, t, l, at) && !selector.Matches(p.records[t].binding)
    ensures Keeps(p, RevokeAllAt(p, selector, now).0, t, l, at)
  {
    hide RevokeAllAt;
    RevokesAllAt(p, selector, now);
  }

  lemma ReplacementKeeps(p: Broker, binding: Binding, ttlMs: int, now: int, t: Secret, l: Secret, at: int)
    requires Firm(p, t, l, at) && (forall u | u in p.records :: u < p.next)
    ensures Keeps(p, ReplaceAt(p, binding, ttlMs, now).0, t, l, at)
  {
    hide ReplaceAt;
    ReplacesAt(p, binding, ttlMs, now);
  }

  lemma PrunesBefore(b: Broker, op: Op, c: Clock)
    requires !op.Complete? && !op.AbortCompletion? && RefusedEarly(b, op).None?
    ensures Apply(b, op, c) == ApplyPruned(Prune(b, c), op, c)
  {
    hide ApplyPruned, Prune;
  }

  lemma RefusedKeeps(b: Broker, op: Op, c: Clock)
    requires RefusedEarly(b, op).Some?
    ensures Apply(b, op, c).0 == b
  {}

  // Whatever ends the turn by name or by a selector, or releases or renews just this lease.
  predicate Touches(op: Op, binding: Binding, t: Secret, l: Secret) {
    match op
    case Cancel(u) => u == t
    case Revoke(u) => u == t
    case RevokeAll(selector) => selector.Matches(binding)
    case Release(u, lease) => u == t && lease == l
    case Renew(u, lease, _, _) => u == t && lease == l
    case _ => false
  }

  lemma PrunedKeeps(p: Broker, op: Op, c: Clock, t: Secret, l: Secret)
    requires Firm(p, t, l, c.act) && WellFormed(p) && !op.Complete? && !op.AbortCompletion?
    requires !Touches(op, p.records[t].binding, t, l)
    ensures Keeps(p, ApplyPruned(p, op, c).0, t, l, c.act)
  {
    hide WellFormed, LeasesOk, ClaimAt, RenewAt, ReleaseAt, EndAt, RevokeAllAt, ReplaceAt, Firm, Keeps;
    match op
    case Claim(u, expected, scopes, ttl) => ClaimKeeps(p, u, expected, scopes, ttl, c.act, t, l);
    case Renew(u, lease, expected, ttl) =>
      LeasesFine(p, u);
      RenewKeeps(p, u, lease, expected, ttl, c.act, t, l);
    case Release(u, lease) => ReleaseKeeps(p, u, lease, c.act, t, l);
    case Cancel(u) => EndKeeps(p, u, Cancelled, c.act, t, l);
    case Revoke(u) => EndKeeps(p, u, Revoked, c.act, t, l);
    case RevokeAll(_) => SecretsDrawn(p); BulkKeeps(p, op, c, t, l);
    case IssueReplacingSession(_, _) => SecretsDrawn(p); BulkKeeps(p, op, c, t, l);
    case _ => OtherKeeps(p, op, c, t, l);
  }

  lemma OtherKeeps(p: Broker, op: Op, c: Clock, t: Secret, l: Secret)
    requires Firm(p, t, l, c.act)
    requires op.Issue? || op.KeepAliveRequest? || op.BeginCompletion? || op.Status? || op.Inspect?
    ensures Keeps(p, ApplyPruned(p, op, c).0, t, l, c.act)
  {
    hide EpochFresh;
  }

  lemma LeasesFine(p: Broker, u: Secret)
    requires WellFormed(p)
    ensures u in p.records ==> LeasesOk(p.records[u], p.next)
  {
    assert u in p.records ==> RecordOk(p, u);
  }

  lemma SecretsDrawn(p: Broker)
    requires WellFormed(p)
    ensures forall u | u in p.records :: u < p.next
  {
    assert forall u | u in p.records :: RecordOk(p, u);
  }

  lemma FenceKeeps(b: Broker, op: Op, c: Clock, t: Secret, l: Secret)
    requires (op.Complete? || op.AbortCompletion?) && WellFormed(b) && Ordered(c)
    requires Working(b, t, c.act) && LeaseHeld(b, t, l, c.act)
    ensures Keeps(b, Apply(b, op, c).0, t, l, c.act)
  {
    hide Apply, WellFormed, LeaseHeld, Swept, Others;
    SweptKeeps(b, c, t, l);
    if ResolveFence(b, op.fence).Err? {
      FenceRefused(b, op, c);
    } else if op.Complete? {
      CompletionKeeps(b, op.fence, b.fences[op.fence], c, t, l);
    } else {
      AbortionKeeps(b, op.fence, b.fences[op.fence], c, t, l);
    }
    hide ResolveFence;
  }

  // A held lease that is only swept stays as it was.
  lemma SweptKeeps(b: Broker, c: Clock, t: Secret, l: Secret)
    requires Ordered(c) && Working(b, t, c.act) && LeaseHeld(b, t, l, c.act)
    ensures Working(b, t, c.enter) && Keeps(b, b, t, l, c.act)
    ensures forall b': Broker | t in b'.records && b'.records[t] == Swept(b.records[t], c.sweep) :: Keeps(b, b', t, l, c.act)
  {}

  lemma FenceRefused(b: Broker, op: Op, c: Clock)
    requires (op.Complete? || op.AbortCompletion?) && ResolveFence(b, op.fence).Err?
    ensures Apply(b, op, c).0 == b
  {}

  lemma CompletionKeeps(b: Broker, fence: Secret, u: Secret, c: Clock, t: Secret, l: Secret)
    requires WellFormed(b) && Ordered(c) && Fences(b, fence, u)
    requires Working(b, t, c.act) && LeaseHeld(b, t, l, c.act)
    ensures Keeps(b, Apply(b, Complete(fence), c).0, t, l, c.act)
  {
    hide Apply, WellFormed, Swept;
    SweptKeeps(b, c, t, l);
    CompleteAnswers(b, fence, u, c);
    if u == t {
      CompleteBlocked(b, fence, t, c, l);
    }
  }

  // While a lease is held a completion changes nothing of its turn but the leases that are over.
  lemma CompleteBlocked(b: Broker, fence: Secret, t: Secret, c: Clock, l: Secret)
    requires WellFormed(b) && Ordered(c) && Fences(b, fence, t) && Working(b, t, c.act) && LeaseHeld(b, t, l, c.act)
    ensures Keeps(b, Apply(b, Complete(fence), c).0, t, l, c.act)
  {
    hide Prune, Apply, WellFormed, CompleteAt;
    FencedWorking(b, fence, t, c);
    CompleteUnfolds(b, fence, t, c);
    PrunedTurn(b, c, t);
    CompleteRefused(Prune(b, c), t, fence, b.records[t], c, l);
  }

  lemma CompleteRefused(p: Broker, t: Secret, fence: Secret, found: Record, c: Clock, l: Secret)
    requires t in p.records && !Due(found, c.enter) && found.state == Completing && LeaseHeld(p, t, l, c.act)
    ensures var b' := CompleteAt(p, t, fence, found, c).0; t in b'.records && b'.records[t] == Swept(p.records[t], c.act)
  {
    assert l in Swept(p.records[t], c.act).leases;
    hide Trim;
  }

  lemma CompleteUnfolds(b: Broker, fence: Secret, t: Secret, c: Clock)
    requires WellFormed(b) && Fences(b, fence, t)
    ensures t in b.records && Apply(b, Complete(fence), c) == CompleteAt(Prune(b, c), t, fence, b.records[t], c)
    ensures Apply(b, AbortCompletion(fence), c) == AbortAt(Prune(b, c), t, fence, b.records[t], c)
  {
    FencedWorking(b, fence, t, c);
    hide Prune, CompleteAt, AbortAt, ResolveFence;
  }

  lemma AbortionKeeps(b: Broker, fence: Secret, u: Secret, c: Clock, t: Secret, l: Secret)
    requires WellFormed(b) && Ordered(c) && Fences(b, fence, u)
    requires Working(b, t, c.act) && LeaseHeld(b, t, l, c.act)
    ensures Keeps(b, Apply(b, AbortCompletion(fence), c).0, t, l, c.act)
  {
    hide Apply, WellFormed;
    SweptKeeps(b, c, t, l);
    AbortAnswers(b, fence, u, c);
  }

  /**
   A lease lasts: as long as its turn works and it has not run out, no operation takes it away or moves
   its end, but a release or a renewal of this very lease, or one that ends its turn by name or selector.
   Neither a new turn for its session nor a completion can.
   */
  lemma LeaseLasts(b: Broker, op: Op, c: Clock, t: Secret, l: Secret)
    requires WellFormed(b) && Ordered(c) && Working(b, t, c.act) && LeaseHeld(b, t, l, c.act)
    requires !Touches(op, b.records[t].binding, t, l)
    ensures var b' := Apply(b, op, c).0;
      LeaseHeld(b', t, l, c.act) && b'.records[t].leases[l] == b.records[t].leases[l]
      && Live(b'.records[t]) && b'.records[t].binding == b.records[t].binding
  {
    hide Prune, Apply, ApplyPruned, WellFormed, RefusedEarly, Swept;
    if op.Complete? || op.AbortCompletion? {
      FenceKeeps(b, op, c, t, l);
    } else if RefusedEarly(b, op).None? {
      var p := Prune(b, c);
      PruneLeasesOk(b, c, t);
      PrunedTurn(b, c, t);
      PrunedLeases(b, c, t, c.act);
      PrunesBefore(b, op, c);
      PrunedKeeps(p, op, c, t, l);
    } else {
      RefusedKeeps(b, op, c);
    }
  }

  // A live turn of a binding with a lease until just then.
  ghost predicate Lends(b: Broker, t: Secret, binding: Binding, l: Secret, e: int) {
    && t in b.records && Live(b.records[t]) && b.records[t].binding == binding
    && l in b.records[t].leases && b.records[t].leases[l] == e
  }

  lemma LendsOn(b: Broker, op: Op, c: Clock, t: Secret, binding: Binding, l: Secret, e: int)
    requires WellFormed(b) && Ordered(c) && Lends(b, t, binding, l, e) && c.act < e && !Touches(op, binding, t, l)
    ensures Lends(Apply(b, op, c).0, t, binding, l, e)
  {
    hide Apply, WellFormed;
    assert e <= b.records[t].expiresAt by {
      LeaseEnds(b, t, l);
    }
    LeaseLasts(b, op, c, t, l);
  }

  lemma LeaseEnds(b: Broker, t: Secret, l: Secret)
    requires WellFormed(b) && t in b.records && l in b.records[t].leases
    ensures b.records[t].leases[l] <= b.records[t].expiresAt
  {
    assert RecordOk(b, t);
  }

  lemma {:induction false} LendsThrough(limit: nat, events: seq<Event>, i: nat, j: nat, t: Secret, binding: Binding, l: Secret, e: int)
    requires Timed(events) && i <= j <= |events| && Lends(After(limit, events[..i]), t, binding, l, e)
    requires forall k | i <= k < j :: events[k].clock.act < e && !Touches(events[k].op, binding, t, l)
    ensures Lends(After(limit, events[..j]), t, binding, l, e)
    decreases j
  {
    hide Apply, WellFormed, Lends, Touches;
    if i < j {
      LendsThrough(limit, events, i, j - 1, t, binding, l, e);
      RunStep(limit, events, j - 1);
      LendsOn(After(limit, events[..j - 1]), events[j - 1].op, events[j - 1].clock, t, binding, l, e);
    }
  }

  /**
   The end a renewal answers is the end the lease then has: over every run it is held until that time, unless
   it is released or renewed again or its turn is cancelled or revoked.
   */
  lemma RenewalHolds(limit: nat, events: seq<Event>, i: nat, j: nat, e: int)
    requires Timed(events) && i < j <= |events|
    requires events[i].op.Renew? && OutcomeOf(limit, events, i) == Ok(Renewed(e))
    requires var (t, l, binding) := (events[i].op.token, events[i].op.lease, events[i].op.expected);
      forall k | i < k < j :: events[k].clock.act < e && !Touches(events[k].op, binding, t, l)
    ensures Lends(After(limit, events[..j]), events[i].op.token, events[i].op.expected, events[i].op.lease, e)
  {
    hide Apply, WellFormed, Touches;
    var op, c := events[i].op, events[i].clock;
    RunStep(limit, events, i);
    RenewAnswers(After(limit, events[..i]), op.token, op.lease, op.expected, op.leaseTtlMs, c);
    LendsThrough(limit, events, i + 1, j, op.token, op.expected, op.lease, e);
  }

  /** The same for the lease a claim answers. */
  lemma ClaimHolds(limit: nat, events: seq<Event>, i: nat, j: nat, l: Secret, e: int)
    requires Timed(events) && i < j <= |events|
    requires events[i].op.Claim? && OutcomeOf(limit, events, i) == Ok(Leased(l, e))
    requires var (t, binding) := (events[i].op.token, events[i].op.expected);
      forall k | i < k < j :: events[k].clock.act < e && !Touches(events[k].op, binding, t, l)
    ensures Lends(After(limit, events[..j]), events[i].op.token, events[i].op.expected, l, e)
  {
    hide Apply, WellFormed, Touches;
    var op, c := events[i].op, events[i].clock;
    RunStep(limit, events, i);
    ClaimAnswers(After(limit, events[..i]), op.token, op.expected, op.requiredScopes, op.leaseTtlMs, c);
    LendsThrough(limit, events, i + 1, j, op.token, op.expected, l, e);
  }
}
