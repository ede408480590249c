/** What the gateway guarantees about turns and pages over whole runs, other processes included. */
module MachineGatewayRuns {
  import opened Wrappers
  import opened Lists
  import T = TurnCapability
  import TF = TurnFences
  import S = SurfaceOwnership
  import I = SurfaceInvariants
  import R = SurfaceRuns
  import opened MachineGateways

  // -------------------------------------------------------------------------- the index moves forward

  /** Sound indexes, one after the other. */
  ghost predicate Onward(m: S.Machine, m': S.Machine) { S.Inv(m) ==> S.Inv(m') && R.Advances(m, m') }

  lemma OnwardTransitive(a: S.Machine, b: S.Machine, c: S.Machine)
    requires Onward(a, b) && Onward(b, c)
    ensures Onward(a, c)
  {
    hide S.Inv;
    if S.Inv(a) {
      R.AdvancesTransitive(a, b, c);
    }
  }

  lemma StepOnward(m: S.Machine, op: S.Op)
    ensures Onward(m, S.Apply(m, op).0)
  {
    hide S.Inv, S.Apply;
    if S.Inv(m) {
      R.ApplyKeepsInv(m, op);
      R.ApplyAdvances(m, op);
    }
  }

  lemma {:induction false} OutsideOnward(m: S.Machine, ops: seq<S.Op>)
    ensures Onward(m, Outside(m, ops))
  {
    hide S.Inv, S.Apply, R.Advances;
    if ops == [] {
      R.AdvancesReflexive(m);
    } else {
      var n := |ops| - 1;
      OutsideOnward(m, ops[..n]);
      StepOnward(Outside(m, ops[..n]), ops[n]);
      OnwardTransitive(m, Outside(m, ops[..n]), Outside(m, ops));
    }
  }

  lemma ReadingsOnward(m: S.Machine, k: S.Key, at: int)
    ensures Onward(m, LeaseNow(m, k, at).0) && Onward(m, BindingNow(m, k).0)
  {
    hide S.Apply, Onward;
    StepOnward(m, S.Reap(k.projectId, at));
    StepOnward(m, S.ReadBinding(k));
  }

  lemma CheckOnward(m: S.Machine, binding: T.Binding, check: Check)
    ensures var page := CheckPage(m, binding, check);
      Onward(m, page.forLease) && Onward(page.forLease, page.forBinding) && Onward(page.forBinding, page.index) && Onward(m, page.index)
  {
    hide LeaseNow, BindingNow, Outside, Onward;
    var page := CheckPage(m, binding, check);
    var m1 := Outside(m, check.before);
    OutsideOnward(m, check.before);
    SelfOnward(m1);
    if binding.generation >= 1 {
      var m2 := LeaseNow(m1, KeyOf(binding), check.at).0;
      ReadingsOnward(m1, KeyOf(binding), check.at);
      OnwardTransitive(m, m1, m2);
      SelfOnward(m2);
      var m3 := Outside(m2, check.between);
      OutsideOnward(m2, check.between);
      OnwardTransitive(m1, m2, m3);
      OnwardTransitive(m, m1, m3);
      ReadingsOnward(m3, KeyOf(binding), check.at);
      OnwardTransitive(m, m3, BindingNow(m3, KeyOf(binding)).0);
    }
  }

  lemma SelfOnward(m: S.Machine)
    ensures Onward(m, m)
  {
    R.AdvancesReflexive(m);
  }

  // -------------------------------------------------------------------------- what a check finds

  // The session holds a page of a generation at a time.
  ghost predicate HoldsPage(m: S.Machine, k: S.Key, generation: nat, at: int) {
    exists l | l in m.leases :: l.route.key == k && l.generation == generation && l.expiresAt > at
  }

  ghost predicate Committed(m: S.Machine, k: S.Key, generation: nat) {
    exists b | b in m.bindings :: b.route.key == k && b.generation == generation
  }

  lemma LeaseNowFinds(m: S.Machine, k: S.Key, at: int)
    requires S.Inv(m)
    ensures LeaseNow(m, k, at).1 ==
      if I.Stranded(m, at) then Err(S.InvalidState) else Ok(Find(Filter(m.leases, S.AliveAt(at)), S.LeaseOf(k)))
  {
    hide S.Inv, S.Consistent, S.PruneGenerations, I.Stranded, Find, Filter;
    I.ReapAndSync(m, k.projectId, false, at);
    FindFilter(Filter(m.leases, S.AliveAt(at)), S.LeaseIn(k.projectId), S.LeaseOf(k));
    assert S.Synced(S.Reaped(m, at), k.projectId, false).leases == Filter(m.leases, S.AliveAt(at)) by {
      ReapedLeases(m, at);
    }
  }

  lemma ReapedLeases(m: S.Machine, at: int)
    ensures S.Reaped(m, at).leases == Filter(m.leases, S.AliveAt(at))
  {}

  lemma LeaseNowIs(m: S.Machine, k: S.Key, at: int, generation: nat)
    requires S.Inv(m)
    ensures var lease := LeaseNow(m, k, at).1;
      (lease.Ok? && lease.value.Some? && lease.value.value.generation == generation) <==>
      !I.Stranded(m, at) && HoldsPage(m, k, generation, at)
  {
    hide S.Inv, LeaseNow, I.Stranded;
    LeaseNowFinds(m, k, at);
    var alive := Filter(m.leases, S.AliveAt(at));
    var found := Find(alive, S.LeaseOf(k));
    if HoldsPage(m, k, generation, at) {
      var l :| l in m.leases && l.route.key == k && l.generation == generation && l.expiresAt > at;
      assert l in alive && S.LeaseOf(k)(l);
      OneLease(m, l, found.value);
    }
  }

  lemma OneLease(m: S.Machine, a: S.Lease, b: S.Lease)
    requires S.Inv(m) && a in m.leases && b in m.leases && a.route.key == b.route.key
    ensures a == b
  {
    assert S.RelationsOk(m);
    var i :| 0 <= i < |m.leases| && m.leases[i] == a;
    var j :| 0 <= j < |m.leases| && m.leases[j] == b;
    assert S.LeaseKey(m.leases[i]) == S.LeaseKey(m.leases[j]);
    assert i == j;
  }

  lemma BindingNowIs(m: S.Machine, k: S.Key, generation: nat)
    requires S.Inv(m)
    ensures var committed := BindingNow(m, k).1;
      (committed.Ok? && committed.value.Some? && committed.value.value.generation == generation) <==> Committed(m, k, generation)
  {
    hide S.Inv;
    I.SyncedInv(m, k.projectId, false);
    var s := S.Synced(m, k.projectId, false);
    I.InvConsistent(s);
    hide S.Consistent;
    var found := Find(s.bindings, S.BindingOf(k));
    assert BindingNow(m, k).1 == Ok(found);
    if Committed(m, k, generation) {
      var b :| b in m.bindings && b.route.key == k && b.generation == generation;
      assert b in s.bindings && S.BindingOf(k)(b);
      OneBinding(m, b, found.value);
    }
  }

  lemma OneBinding(m: S.Machine, a: S.Binding, b: S.Binding)
    requires S.Inv(m) && a in m.bindings && b in m.bindings && a.route.key == b.route.key
    ensures a == b
  {
    assert S.RelationsOk(m);
    var i :| 0 <= i < |m.bindings| && m.bindings[i] == a;
    var j :| 0 <= j < |m.bindings| && m.bindings[j] == b;
    assert S.BindingKey(m.bindings[i]) == S.BindingKey(m.bindings[j]);
    assert i == j;
  }

  /**
   The page check passes exactly if the session holds a live page of that very generation and, beyond
   BOOT, has committed it; a stranded lease of any session makes it fail.
   */
  lemma PageCheckIff(m: S.Machine, binding: T.Binding, check: Check)
    requires S.Inv(m)
    ensures var page := CheckPage(m, binding, check);
      page.current <==>
        && binding.generation >= 1 && !I.Stranded(page.forLease, check.at)
        && HoldsPage(page.forLease, KeyOf(binding), binding.generation, check.at)
        && (binding.turn.phase == "BOOT" || Committed(page.forBinding, KeyOf(binding), binding.generation))
  {
    hide S.Inv, S.Apply, LeaseNow, BindingNow, HoldsPage, Committed, I.Stranded, R.Advances;
    CheckOnward(m, binding, check);
    var page := CheckPage(m, binding, check);
    if binding.generation >= 1 {
      LeaseNowIs(page.forLease, KeyOf(binding), check.at, binding.generation);
      BindingNowIs(page.forBinding, KeyOf(binding), binding.generation);
    }
  }

  // -------------------------------------------------------------------------- a failed claim

  /** No turn appears, and no turn has a lease it did not have. */
  ghost predicate NoNewLeases(b: T.Broker, b': T.Broker) {
    forall t | t in b'.records :: t in b.records && b'.records[t].leases.Keys <= b.records[t].leases.Keys
  }

  // The same, and the given lease of one turn is gone.
  ghost predicate Without(b: T.Broker, b': T.Broker, token: T.Secret, lease: T.Secret) {
    NoNewLeases(b, b') && (token in b'.records ==> lease !in b'.records[token].leases)
  }

  ghost predicate OneNewLease(b: T.Broker, b': T.Broker, token: T.Secret, lease: T.Secret) {
    forall t | t in b'.records :: t in b.records &&
      b'.records[t].leases.Keys <= b.records[t].leases.Keys + (if t == token then {lease} else {})
  }

  lemma PruneLends(b: T.Broker, c: T.Clock)
    ensures NoNewLeases(b, T.Prune(b, c))
  {}

  lemma EndLends(p: T.Broker, t: T.Secret, s: T.State, now: int)
    ensures NoNewLeases(p, T.EndAt(p, t, s, now).0)
  {}

  lemma NoNewTransitive(a: T.Broker, b: T.Broker, c: T.Broker)
    requires NoNewLeases(a, b) && NoNewLeases(b, c)
    ensures NoNewLeases(a, c)
  {}

  lemma RevokeLends(b: T.Broker, token: T.Secret, c: T.Clock)
    ensures var b' := T.Apply(b, T.Revoke(token), c).0;
      NoNewLeases(b, b') && (token in b'.records ==> T.Terminal(b'.records[token].state))
  {
    PruneLends(b, c);
    EndLends(T.Prune(b, c), token, T.Revoked, c.act);
    RevokeEnds(T.Prune(b, c), token, c.act);
    hide T.Prune, T.EndAt;
    NoNewTransitive(b, T.Prune(b, c), T.Apply(b, T.Revoke(token), c).0);
  }

  lemma RevokeEnds(p: T.Broker, token: T.Secret, now: int)
    ensures var b' := T.EndAt(p, token, T.Revoked, now).0; token in b'.records ==> T.Terminal(b'.records[token].state)
  {}

  lemma ReleaseLends(b: T.Broker, token: T.Secret, lease: T.Secret, c: T.Clock)
    ensures Without(b, T.Apply(b, T.Release(token, lease), c).0, token, lease)
  {
    PruneLends(b, c);
    ReleaseAtLends(T.Prune(b, c), token, lease, c.act);
    hide T.Prune, T.ReleaseAt;
    NoNewTransitive(b, T.Prune(b, c), T.Apply(b, T.Release(token, lease), c).0);
  }

  lemma ReleaseAtLends(p: T.Broker, token: T.Secret, lease: T.Secret, now: int)
    ensures Without(p, T.ReleaseAt(p, token, lease, now).0, token, lease)
  {}

  lemma StatusLends(b: T.Broker, token: T.Secret, c: T.Clock)
    ensures NoNewLeases(b, T.Apply(b, T.Status(token), c).0)
  {
    PruneLends(b, c);
    var p := T.Prune(b, c);
    hide T.Prune;
    assert NoNewLeases(p, T.StatusAt(p, token, c.act));
    NoNewTransitive(b, p, T.StatusAt(p, token, c.act));
  }

  lemma ClaimLends(b: T.Broker, op: T.Op, c: T.Clock)
    requires op.Claim?
    ensures var (b', outcome) := T.Apply(b, op, c);
      if outcome.Err? then NoNewLeases(b, b') else outcome.value.Leased? && OneNewLease(b, b', op.token, outcome.value.lease)
  {
    PruneLends(b, c);
    var p := T.Prune(b, c);
    hide T.Prune;
    var (b', outcome) := T.ClaimAt(p, op.token, op.expected, op.requiredScopes, op.leaseTtlMs, c.act);
    if outcome.Err? {
      assert NoNewLeases(p, b');
      NoNewTransitive(b, p, b');
    } else {
      assert OneNewLease(p, b', op.token, outcome.value.lease);
    }
  }

  lemma ReleaseFailedLends(b: T.Broker, token: T.Secret, lease: T.Secret, clocks: ClaimClocks)
    ensures var b' := ReleaseFailed(b, token, lease, clocks);
      Without(b, b', token, lease) && (token in b'.records ==> T.Terminal(b'.records[token].state))
  {
    hide T.Apply;
    var released := T.Apply(b, T.Release(token, lease), clocks.release).0;
    var seen := T.Apply(released, T.Status(token), clocks.status).0;
    ReleaseLends(b, token, lease, clocks.release);
    StatusLends(released, token, clocks.status);
    RevokeLends(seen, token, clocks.revoke);
  }

  lemma ValidateLends(b: T.Broker, m: S.Machine, token: T.Secret, binding: T.Binding, check: Check)
    ensures NoNewLeases(b, Validate(b, m, token, binding, check).0)
  {
    hide CheckPage, T.Apply;
    RevokeLends(b, token, check.revoked);
  }

  lemma GrantedLends(b: T.Broker, m: S.Machine, binding: T.Binding, lease: T.Secret, expiresAt: int, call: ClaimCall)
    ensures var (b', _, outcome) := Granted(b, m, binding, lease, expiresAt, call);
      outcome.Err? ==> Without(b, b', call.token, lease) && (call.token in b'.records ==> T.Terminal(b'.records[call.token].state))
  {
    hide Validate, ReleaseFailed, T.Prune;
    var (b1, page, stale) := Validate(b, m, call.token, binding, call.behind);
    ValidateLends(b, m, call.token, binding, call.behind);
    var b2 := T.Prune(b1, call.clocks.resolve);
    PruneLends(b1, call.clocks.resolve);
    ReleaseFailedLends(b1, call.token, lease, call.clocks);
    ReleaseFailedLends(b2, call.token, lease, call.clocks);
  }

  // Whether the broker granted a lease before the claim failed.
  ghost predicate Lent(b: T.Broker, m: S.Machine, call: ClaimCall) {
    var p := T.Prune(b, call.clocks.live);
    && call.scopes != {} && T.Resolve(p, call.token).None?
    && var binding := p.records[call.token].binding;
       var (b1, _, stale) := Validate(p, m, call.token, binding, call.before);
       stale.None? && T.Apply(b1, T.Claim(call.token, binding, call.scopes, DEFAULT_LEASE_TTL_MS), call.clocks.claim).1.Ok?
  }

  /**
   A claim that fails, at whatever point, leaves no lease behind; and if the broker had already granted
   one, the turn itself is over.
   */
  lemma FailedClaimLeavesNoLease(b: T.Broker, m: S.Machine, call: ClaimCall)
    requires ClaimTurn(b, m, call).2.Err?
    ensures NoNewLeases(b, ClaimTurn(b, m, call).0)
    ensures Lent(b, m, call) ==>
      var b' := ClaimTurn(b, m, call).0;
      call.token in b'.records ==> T.Terminal(b'.records[call.token].state)
  {
    hide Validate, Granted, T.Prune, T.Apply;
    var p := T.Prune(b, call.clocks.live);
    PruneLends(b, call.clocks.live);
    if call.scopes != {} && T.Resolve(p, call.token).None? {
      var binding := p.records[call.token].binding;
      var (b1, page, stale) := Validate(p, m, call.token, binding, call.before);
      ValidateLends(p, m, call.token, binding, call.before);
      if stale.None? {
        var op := T.Claim(call.token, binding, call.scopes, DEFAULT_LEASE_TTL_MS);
        ClaimLends(b1, op, call.clocks.claim);
        var (b2, outcome) := T.Apply(b1, op, call.clocks.claim);
        if outcome.Ok? {
          GrantedLends(b2, page.index, binding, outcome.value.lease, outcome.value.leaseExpiresAt, call);
          OneLessLease(b, p, b1, b2, ClaimTurn(b, m, call).0, call.token, outcome.value.lease);
        }
      }
    }
  }

  lemma OneLessLease(b: T.Broker, p: T.Broker, b1: T.Broker, b2: T.Broker, b': T.Broker, token: T.Secret, lease: T.Secret)
    requires NoNewLeases(b, p) && NoNewLeases(p, b1) && OneNewLease(b1, b2, token, lease) && Without(b2, b', token, lease)
    ensures NoNewLeases(b, b')
  {}

  // -------------------------------------------------------------------------- the broker moves forward

  /** Sound brokers, one after the other: a turn keeps its binding, and no completion is begun. */
  ghost predicate Follows(b: T.Broker, b': T.Broker) {
    T.WellFormed(b) ==>
      && T.WellFormed(b') && b.next <= b'.next && KeepsBindings(b, b')
      && (forall f | f in b'.fences :: f in b.fences && b'.fences[f] == b.fences[f])
  }

  ghost predicate KeepsBindings(b: T.Broker, b': T.Broker) {
    forall t | t in b'.records :: if t in b.records then b'.records[t].binding == b.records[t].binding else t >= b.next
  }

  lemma FollowsTransitive(a: T.Broker, b: T.Broker, c: T.Broker)
    requires Follows(a, b) && Follows(b, c)
    ensures Follows(a, c)
  {
    if T.WellFormed(a) {
      assert forall t | t in a.records :: T.RecordOk(a, t);
      hide T.WellFormed;
    }
  }

  lemma LaterFollows(b: T.Broker, b': T.Broker, upTo: int)
    requires T.Sound(b, b', upTo) && (T.WellFormed(b) ==> b'.fences.Keys <= b.fences.Keys)
    ensures Follows(b, b')
  {
    if T.WellFormed(b) {
      assert forall f | f in b.fences :: T.FenceOk(b, f);
      hide T.WellFormed;
      forall t | t in b'.records && t in b.records ensures b'.records[t].binding == b.records[t].binding {
        assert T.Successor(b.records[t], b'.records[t], upTo);
      }
    }
  }

  lemma PruneFollows(b: T.Broker, c: T.Clock)
    requires T.Ordered(c)
    ensures Follows(b, T.Prune(b, c))
  {
    hide T.Prune, T.Sound;
    T.PruneSound(b, c);
    TF.PruneFences(b, c);
    LaterFollows(b, T.Prune(b, c), c.act);
  }

  lemma ApplyFollows(b: T.Broker, op: T.Op, c: T.Clock)
    requires T.Ordered(c) && !op.BeginCompletion?
    ensures Follows(b, T.Apply(b, op, c).0)
  {
    hide T.Apply, T.WellFormed;
    if T.WellFormed(b) {
      T.ApplySound(b, op, c);
      TF.FencesOnlyBegin(b, op, c);
      LaterFollows(b, T.Apply(b, op, c).0, c.act);
    }
  }

  lemma SelfFollows(b: T.Broker)
    ensures Follows(b, b)
  {}

  lemma ValidateFollows(b: T.Broker, m: S.Machine, token: T.Secret, binding: T.Binding, check: Check)
    requires T.Ordered(check.revoked)
    ensures Follows(b, Validate(b, m, token, binding, check).0)
  {
    hide CheckPage, T.Apply, Follows;
    SelfFollows(b);
    ApplyFollows(b, T.Revoke(token), check.revoked);
  }

  lemma ReleaseFailedFollows(b: T.Broker, token: T.Secret, lease: T.Secret, clocks: ClaimClocks)
    requires T.Ordered(clocks.release) && T.Ordered(clocks.status) && T.Ordered(clocks.revoke)
    ensures Follows(b, ReleaseFailed(b, token, lease, clocks))
  {
    hide T.Apply, Follows;
    var released := T.Apply(b, T.Release(token, lease), clocks.release).0;
    var seen := T.Apply(released, T.Status(token), clocks.status).0;
    ApplyFollows(b, T.Release(token, lease), clocks.release);
    ApplyFollows(released, T.Status(token), clocks.status);
    FollowsTransitive(b, released, seen);
    ApplyFollows(seen, T.Revoke(token), clocks.revoke);
    FollowsTransitive(b, seen, T.Apply(seen, T.Revoke(token), clocks.revoke).0);
  }

  lemma GrantedFollows(b: T.Broker, m: S.Machine, binding: T.Binding, lease: T.Secret, expiresAt: int, call: ClaimCall)
    requires WellPosed(Claims(call))
    ensures Follows(b, Granted(b, m, binding, lease, expiresAt, call).0)
  {
    hide Validate, ReleaseFailed, T.Prune, Follows;
    var b1 := Validate(b, m, call.token, binding, call.behind).0;
    var b2 := T.Prune(b1, call.clocks.resolve);
    ValidateFollows(b, m, call.token, binding, call.behind);
    PruneFollows(b1, call.clocks.resolve);
    FollowsTransitive(b, b1, b2);
    ReleaseFailedFollows(b1, call.token, lease, call.clocks);
    FollowsTransitive(b, b1, ReleaseFailed(b1, call.token, lease, call.clocks));
    ReleaseFailedFollows(b2, call.token, lease, call.clocks);
    FollowsTransitive(b, b2, ReleaseFailed(b2, call.token, lease, call.clocks));
  }

  lemma ClaimFollows(b: T.Broker, m: S.Machine, call: ClaimCall)
    requires WellPosed(Claims(call))
    ensures Follows(b, ClaimTurn(b, m, call).0)
  {
    hide Validate, Granted, T.Prune, T.Apply, Follows;
    var p := T.Prune(b, call.clocks.live);
    SelfFollows(b);
    PruneFollows(b, call.clocks.live);
    if call.scopes != {} && T.Resolve(p, call.token).None? {
      var binding := p.records[call.token].binding;
      var (b1, page, stale) := Validate(p, m, call.token, binding, call.before);
      ValidateFollows(p, m, call.token, binding, call.before);
      FollowsTransitive(b, p, b1);
      if stale.None? {
        var op := T.Claim(call.token, binding, call.scopes, DEFAULT_LEASE_TTL_MS);
        ApplyFollows(b1, op, call.clocks.claim);
        var (b2, outcome) := T.Apply(b1, op, call.clocks.claim);
        FollowsTransitive(b, b1, b2);
        if outcome.Ok? && outcome.value.Leased? {
          GrantedFollows(b2, page.index, binding, outcome.value.lease, outcome.value.leaseExpiresAt, call);
          FollowsTransitive(b, b2, ClaimTurn(b, m, call).0);
        }
      }
    }
  }

  lemma RenewFollows(b: T.Broker, m: S.Machine, call: RenewCall)
    requires WellPosed(Renews(call))
    ensures Follows(b, RenewTurn(b, m, call).0)
  {
    hide Validate, T.Prune, T.Apply, Follows;
    var p := T.Prune(b, call.live);
    PruneFollows(b, call.live);
    if LeaseRefused(p, call.owner, call.lease).None? {
      var binding := p.records[call.owner].binding;
      var (b1, page, stale) := Validate(p, m, call.token, binding, call.before);
      ValidateFollows(p, m, call.token, binding, call.before);
      FollowsTransitive(b, p, b1);
      if stale.None? {
        var op := T.Renew(call.token, call.lease, binding, call.ttlMs);
        ApplyFollows(b1, op, call.renew);
        var (b2, outcome) := T.Apply(b1, op, call.renew);
        FollowsTransitive(b, b1, b2);
        ValidateFollows(b2, page.index, call.token, binding, call.behind);
        FollowsTransitive(b, b2, Validate(b2, page.index, call.token, binding, call.behind).0);
      }
    }
  }

  // -------------------------------------------------------------------------- the index over a call

  lemma ValidateOnward(b: T.Broker, m: S.Machine, token: T.Secret, binding: T.Binding, check: Check)
    ensures Validate(b, m, token, binding, check).1 == CheckPage(m, binding, check)
    ensures Validate(b, m, token, binding, check).2.None? <==> CheckPage(m, binding, check).current
    ensures Validate(b, m, token, binding, check).2.None? ==> Validate(b, m, token, binding, check).0 == b
    ensures Onward(m, Validate(b, m, token, binding, check).1.index)
  {
    hide CheckPage, T.Apply, Onward;
    CheckOnward(m, binding, check);
  }

  lemma ClaimOnward(b: T.Broker, m: S.Machine, call: ClaimCall)
    ensures Onward(m, ClaimTurn(b, m, call).1)
  {
    hide Validate, ReleaseFailed, T.Prune, T.Apply, Onward;
    SelfOnward(m);
    var p := T.Prune(b, call.clocks.live);
    if call.scopes != {} && T.Resolve(p, call.token).None? {
      var binding := p.records[call.token].binding;
      var (b1, page, stale) := Validate(p, m, call.token, binding, call.before);
      ValidateOnward(p, m, call.token, binding, call.before);
      var (b2, outcome) := T.Apply(b1, T.Claim(call.token, binding, call.scopes, DEFAULT_LEASE_TTL_MS), call.clocks.claim);
      ValidateOnward(b2, page.index, call.token, binding, call.behind);
      OnwardTransitive(m, page.index, Validate(b2, page.index, call.token, binding, call.behind).1.index);
    }
  }

  lemma RenewOnward(b: T.Broker, m: S.Machine, call: RenewCall)
    ensures Onward(m, RenewTurn(b, m, call).1)
  {
    hide Validate, T.Prune, T.Apply, Onward;
    SelfOnward(m);
    var p := T.Prune(b, call.live);
    if LeaseRefused(p, call.owner, call.lease).None? {
      var binding := p.records[call.owner].binding;
      var (b1, page, stale) := Validate(p, m, call.token, binding, call.before);
      ValidateOnward(p, m, call.token, binding, call.before);
      var (b2, outcome) := T.Apply(b1, T.Renew(call.token, call.lease, binding, call.ttlMs), call.renew);
      ValidateOnward(b2, page.index, call.token, binding, call.behind);
      OnwardTransitive(m, page.index, Validate(b2, page.index, call.token, binding, call.behind).1.index);
    }
  }

  lemma SurfaceClaimOnward(g: Gateway, call: PageCall)
    ensures Onward(g.index, SurfaceClaim(g, call).0.index)
  {
    hide LeaseNow, BindingNow, Outside, S.Apply, T.Apply, Onward;
    var q, k := call.request, call.request.route.key;
    SelfOnward(g.index);
    var m0 := Outside(g.index, call.before);
    var (m1, listed) := LeaseNow(m0, k, call.listedAt);
    OutsideOnward(g.index, call.before);
    ReadingsOnward(m0, k, call.listedAt);
    OnwardTransitive(g.index, m0, m1);
    var m2 := Outside(m1, call.between);
    OutsideOnward(m1, call.between);
    OnwardTransitive(g.index, m1, m2);
    StepOnward(m2, S.Claim(q));
    OnwardTransitive(g.index, m2, S.Apply(m2, S.Claim(q)).0);
    var (m3, committed) := BindingNow(m2, k);
    ReadingsOnward(m2, k, call.listedAt);
    OnwardTransitive(g.index, m2, m3);
    if committed.Ok? && committed.value.Some? {
      var op := S.Recover(committed.value.value, q.owner, q.ttlMs, q.now);
      StepOnward(m3, op);
      OnwardTransitive(g.index, m3, S.Apply(m3, op).0);
    }
  }

  lemma CallOnward(g: Gateway, call: Call)
    ensures Onward(g.index, Apply(g, call).index)
  {
    hide ClaimTurn, RenewTurn, SurfaceClaim, Outside, S.Apply, T.Apply, Onward;
    SelfOnward(g.index);
    match call
    case Claims(c) => ClaimOnward(g.broker, g.index, c);
    case Renews(c) => RenewOnward(g.broker, g.index, c);
    case ClaimsPage(c) => SurfaceClaimOnward(g, c);
    case ChangesPage(p, before) =>
      var m := Outside(g.index, before);
      OutsideOnward(g.index, before);
      StepOnward(m, p.op);
      OnwardTransitive(g.index, m, S.Apply(m, p.op).0);
    case Others(ops) => OutsideOnward(g.index, ops);
    case _ =>
  }

  lemma CallFollows(g: Gateway, call: Call)
    requires WellPosed(call) && !call.Begins?
    ensures Follows(g.broker, Apply(g, call).broker)
  {
    hide ClaimTurn, RenewTurn, LeaseNow, BindingNow, Outside, S.Apply, T.Apply, Follows;
    SelfFollows(g.broker);
    match call
    case Claims(c) => ClaimFollows(g.broker, g.index, c);
    case Renews(c) => RenewFollows(g.broker, g.index, c);
    case ClaimsPage(c) => ApplyFollows(g.broker, T.RevokeAll(SessionSelector(c.workspaceId, c.request.route.key)), c.revoked);
    case ChangesPage(p, _) => if p.revokes.Some? { ApplyFollows(g.broker, T.RevokeAll(p.revokes.value), p.revoked); }
    case Completes(fence, c) => ApplyFollows(g.broker, T.Complete(fence), c);
    case Aborts(fence, c) => ApplyFollows(g.broker, T.AbortCompletion(fence), c);
    case UsesBroker(op, c) => ApplyFollows(g.broker, op, c);
    case Others(_) =>
  }

  lemma BeginSound(g: Gateway, token: T.Secret, live: T.Clock, begin: T.Clock)
    requires T.Ordered(live) && T.Ordered(begin) && T.WellFormed(g.broker)
    ensures T.WellFormed(BeginCompletion(g, token, live, begin).0.broker)
  {
    hide T.Apply, T.WellFormed, T.Prune, KeepsBindings;
    var p := T.Prune(g.broker, live);
    PruneFollows(g.broker, live);
    if T.Resolve(p, token).None? {
      T.ApplySound(p, T.BeginCompletion(token, p.records[token].binding), begin);
    }
  }

  lemma CallSound(g: Gateway, call: Call)
    requires WellPosed(call) && T.WellFormed(g.broker)
    ensures T.WellFormed(Apply(g, call).broker)
  {
    hide T.WellFormed, ClaimTurn, RenewTurn, SurfaceClaim, SurfaceChange, BeginCompletion, CompleteTurn, AbortTurnCompletion, T.Apply, KeepsBindings;
    if call.Begins? {
      BeginSound(g, call.token, call.live, call.begin);
    } else {
      CallFollows(g, call);
    }
  }

  lemma {:induction false} RunSound(limit: nat, calls: seq<Call>)
    requires forall i | 0 <= i < |calls| :: WellPosed(calls[i])
    ensures T.WellFormed(After(limit, calls).broker) && S.Inv(After(limit, calls).index)
  {
    if calls == [] {
      R.RunInv([]);
    } else {
      hide T.WellFormed, S.Inv, R.Advances, KeepsBindings, Apply, WellPosed;
      var n := |calls| - 1;
      RunSound(limit, calls[..n]);
      CallSound(After(limit, calls[..n]), calls[n]);
      CallOnward(After(limit, calls[..n]), calls[n]);
    }
  }

  lemma {:induction false} RunOnward(limit: nat, calls: seq<Call>, i: nat, j: nat)
    requires i <= j <= |calls|
    ensures Onward(After(limit, calls[..i]).index, After(limit, calls[..j]).index)
    decreases j
  {
    hide Onward, Apply;
    if i < j {
      RunOnward(limit, calls, i, j - 1);
      assert calls[..j][..j - 1] == calls[..j - 1];
      CallOnward(After(limit, calls[..j - 1]), calls[j - 1]);
      OnwardTransitive(After(limit, calls[..i]).index, After(limit, calls[..j - 1]).index, After(limit, calls[..j]).index);
    } else {
      SelfOnward(After(limit, calls[..i]).index);
    }
  }
}
