/**
 The class of src/gateway/machine-gateway.ts, driving the broker object and the ownership index
 object; each method does to them what MachineGateways says.
 */
module MachineGatewayObjects {
  import opened Wrappers
  import Lists
  import T = TurnCapability
  import S = SurfaceOwnership
  import opened TurnCapabilityBrokers
  import opened SurfaceIndexes
  import opened MachineGateways
  import Runs = MachineGatewayRuns

  class MachineGateway {
    const broker: TurnCapabilityBroker
    const index: SurfaceIndex
    var controlSubmissionSessions: set<S.Key>
    var controlCompletionFences: map<T.Secret, S.Key>

    ghost function Model(): Gateway
      reads this, broker, index
    {
      Gateway(broker.Model(), index.saved, controlSubmissionSessions, controlCompletionFences)
    }

    ghost predicate Valid()
      reads this, broker, index
    {
      broker.Valid() && index.Valid()
    }

    constructor (limit: nat, found: map<S.Id, S.Mirror>)
      ensures Valid() && fresh(broker) && fresh(index) && Model() == MachineGateways.Empty(limit)
    {
      broker := new TurnCapabilityBroker(limit);
      index := new SurfaceIndex(found);
      controlSubmissionSessions, controlCompletionFences := {}, map[];
    }

    // ------------------------------------------------------------------------ the page of a turn

    // What other processes do to the index meanwhile.
    method Meanwhile(ops: seq<S.Op>)
      requires index.Valid()
      modifies index`saved
      ensures index.Valid() && index.saved == Outside(old(index.saved), ops)
    {
      hide S.Inv;
      Runs.OutsideOnward(index.saved, ops);
      index.saved := Outside(index.saved, ops);
    }

    method CurrentSurfaceLease(k: S.Key, at: int) returns (lease: Result<Option<S.Lease>, S.Code>)
      requires index.Valid()
      modifies index
      ensures index.Valid() && (index.saved, lease) == LeaseNow(old(index.saved), k, at)
    {
      hide S.Inv, S.Apply;
      var outcome := index.List(k.projectId, at);
      if outcome.Err? {
        return Err(outcome.error);
      }
      return Ok(if outcome.value.Listed? then Lists.Find(outcome.value.leases, S.LeaseOf(k)) else None);
    }

    method CurrentSurfaceBinding(k: S.Key) returns (binding: Result<Option<S.Binding>, S.Code>)
      requires index.Valid()
      modifies index
      ensures index.Valid() && (index.saved, binding) == BindingNow(old(index.saved), k)
    {
      hide S.Inv, S.Apply;
      var outcome := index.CurrentBinding(k);
      if outcome.Err? {
        return Err(outcome.error);
      }
      return Ok(if outcome.value.Found? then outcome.value.found else None);
    }

    method RequireCurrentTurnSurface(binding: T.Binding, check: Check) returns (page: Page)
      requires index.Valid()
      modifies index
      ensures index.Valid() && page == CheckPage(old(index.saved), binding, check) && index.saved == page.index
    {
      hide S.Inv, LeaseNow, BindingNow, Outside;
      Meanwhile(check.before);
      var forLease := index.saved;
      if binding.generation < 1 {
        return Page(forLease, forLease, forLease, false);
      }
      var lease := CurrentSurfaceLease(KeyOf(binding), check.at);
      if lease.Err? || lease.value.None? || lease.value.value.generation != binding.generation {
        return Page(forLease, index.saved, index.saved, false);
      }
      if binding.turn.phase == "BOOT" {
        return Page(forLease, index.saved, index.saved, true);
      }
      Meanwhile(check.between);
      var forBinding := index.saved;
      var committed := CurrentSurfaceBinding(KeyOf(binding));
      return Page(forLease, forBinding, index.saved,
                  committed.Ok? && committed.value.Some? && committed.value.value.generation == lease.value.value.generation);
    }

    method ValidateSurface(token: T.Secret, binding: T.Binding, check: Check) returns (page: Page, stale: Option<T.Error>)
      requires Valid() && T.Ordered(check.revoked)
      modifies broker, index
      ensures Valid()
      ensures (broker.Model(), page, stale) == Validate(old(broker.Model()), old(index.saved), token, binding, check)
      ensures index.saved == page.index
    {
      hide S.Inv, T.WellFormed, T.Apply, CheckPage;
      page := RequireCurrentTurnSurface(binding, check);
      if page.current {
        return page, None;
      }
      var outcome := broker.Revoke(token, check.revoked);
      return page, Some(if outcome.Err? && outcome.error != T.TokenRevoked then outcome.error else T.StaleBindingEpoch);
    }

    // ------------------------------------------------------------------------ claiming and renewing

    method ReleaseFailedClaim(token: T.Secret, lease: T.Secret, clocks: ClaimClocks)
      requires Valid() && T.Ordered(clocks.release) && T.Ordered(clocks.status) && T.Ordered(clocks.revoke)
      modifies broker
      ensures Valid() && broker.Model() == ReleaseFailed(old(broker.Model()), token, lease, clocks)
    {
      hide S.Inv, T.WellFormed, T.Apply;
      var _ := broker.Release(token, lease, clocks.release);
      var record := broker.Status(token, clocks.status);
      if record.Some? && T.Live(record.value) {
        var _ := broker.Revoke(token, clocks.revoke);
      }
    }

    // `validateLease` of the broker.
    method ValidateLease(token: T.Secret, lease: T.Secret, c: T.Clock) returns (refused: Option<T.Error>)
      requires Valid() && T.Ordered(c)
      modifies broker
      ensures Valid() && broker.Model() == T.Prune(old(broker.Model()), c) && refused == LeaseRefused(broker.Model(), token, lease)
    {
      hide S.Inv, T.WellFormed, T.Prune;
      broker.PruneExpired(c);
      if token !in broker.records {
        return Some(T.LeaseNotFound);
      } else if lease in broker.records[token].expiredLeases {
        return Some(T.LeaseExpired);
      }
      return if lease !in broker.records[token].leases then Some(T.LeaseNotFound) else None;
    }

    // The rest of a claim once the broker has granted the lease.
    method FinishClaim(binding: T.Binding, lease: T.Secret, expiresAt: int, call: ClaimCall) returns (outcome: Result<Claimed, Error>)
      requires Valid() && WellPosed(Claims(call))
      modifies broker, index
      ensures Valid()
      ensures (broker.Model(), index.saved, outcome) == Granted(old(broker.Model()), old(index.saved), binding, lease, expiresAt, call)
    {
      hide S.Inv, T.WellFormed, T.Prune, Validate, LeaseRefused, ReleaseFailed;
      var page, stale := ValidateSurface(call.token, binding, call.behind);
      if stale.Some? {
        ReleaseFailedClaim(call.token, lease, call.clocks);
        return Err(Turn(stale.value));
      }
      var refused := ValidateLease(call.token, lease, call.clocks.resolve);
      if refused.Some? {
        ReleaseFailedClaim(call.token, lease, call.clocks);
        return Err(Turn(refused.value));
      }
      if !call.registered {
        ReleaseFailedClaim(call.token, lease, call.clocks);
        return Err(NotRegistered);
      }
      return Ok(Claimed(lease, expiresAt, page));
    }

    method ClaimTurn(call: ClaimCall) returns (outcome: Result<Claimed, Error>)
      requires Valid() && WellPosed(Claims(call))
      modifies broker, index
      ensures Valid()
      ensures (broker.Model(), index.saved, outcome) == MachineGateways.ClaimTurn(old(broker.Model()), old(index.saved), call)
    {
      hide S.Inv, T.WellFormed, T.Prune, T.Apply, Validate, Granted;
      if call.scopes == {} {
        return Err(NoScopes);
      }
      var dead := broker.ResolveLiveToken(call.token, call.clocks.live);
      if dead.Some? {
        return Err(Turn(dead.value));
      }
      var binding := broker.records[call.token].binding;
      var page, stale := ValidateSurface(call.token, binding, call.before);
      if stale.Some? {
        return Err(Turn(stale.value));
      }
      var claimed := broker.Claim(call.token, binding, call.scopes, DEFAULT_LEASE_TTL_MS, call.clocks.claim);
      if claimed.Err? {
        return Err(Turn(claimed.error));
      } else if !claimed.value.Leased? {
        return Err(NotRegistered);
      }
      outcome := FinishClaim(binding, claimed.value.lease, claimed.value.leaseExpiresAt, call);
    }

    method RenewTurn(call: RenewCall) returns (outcome: Result<Claimed, Error>)
      requires Valid() && WellPosed(Renews(call))
      modifies broker, index
      ensures Valid()
      ensures (broker.Model(), index.saved, outcome) == MachineGateways.RenewTurn(old(broker.Model()), old(index.saved), call)
    {
      hide S.Inv, T.WellFormed, T.Prune, T.Apply, Validate;
      var refused := ValidateLease(call.owner, call.lease, call.live);
      if refused.Some? {
        return Err(Turn(refused.value));
      }
      var binding := broker.records[call.owner].binding;
      var page, stale := ValidateSurface(call.token, binding, call.before);
      if stale.Some? {
        return Err(Turn(stale.value));
      }
      var renewed := broker.Renew(call.token, call.lease, binding, call.ttlMs, call.renew);
      if renewed.Err? {
        return Err(Turn(renewed.error));
      }
      page, stale := ValidateSurface(call.token, binding, call.behind);
      if stale.Some? {
        return Err(Turn(stale.value));
      }
      return Ok(Claimed(call.lease, if renewed.value.Renewed? then renewed.value.leaseExpiresAt else 0, page));
    }

    // ------------------------------------------------------------------------ completions

    method BeginCompletion(token: T.Secret, live: T.Clock, begin: T.Clock) returns (outcome: Result<T.Secret, Error>)
      requires Valid() && T.Ordered(live) && T.Ordered(begin)
      modifies this, broker
      ensures Valid() && (Model(), outcome) == MachineGateways.BeginCompletion(old(Model()), token, live, begin)
    {
      hide S.Inv, T.WellFormed, T.Prune, T.Apply;
      var dead := broker.ResolveLiveToken(token, live);
      if dead.Some? {
        return Err(Turn(dead.value));
      }
      var binding := broker.records[token].binding;
      if KeyOf(binding) in controlSubmissionSessions {
        return Err(Turn(T.CompletionAlreadyStarted));
      }
      var begun := broker.BeginCompletion(token, binding, begin);
      if begun.Err? {
        return Err(Turn(begun.error));
      } else if !begun.value.Fenced? {
        return Err(NotRegistered);
      }
      controlSubmissionSessions := controlSubmissionSessions + {KeyOf(binding)};
      controlCompletionFences := controlCompletionFences[begun.value.fence := KeyOf(binding)];
      return Ok(begun.value.fence);
    }

    method ReleaseCompletionFence(fence: T.Secret)
      modifies this
      ensures Model() == FreeFence(old(Model()), fence)
    {
      if fence in controlCompletionFences {
        controlSubmissionSessions := controlSubmissionSessions - {controlCompletionFences[fence]};
        controlCompletionFences := controlCompletionFences - {fence};
      }
    }

    method CompleteTurn(fence: T.Secret, c: T.Clock) returns (outcome: T.Outcome)
      requires Valid() && T.Ordered(c)
      modifies this, broker
      ensures Valid() && (Model(), outcome) == MachineGateways.CompleteTurn(old(Model()), fence, c)
    {
      hide S.Inv, T.WellFormed, T.Apply, FreeFence;
      outcome := broker.Complete(fence, c);
      if outcome.Ok? {
        ReleaseCompletionFence(fence);
      }
    }

    method AbortTurnCompletion(fence: T.Secret, c: T.Clock) returns (outcome: T.Outcome)
      requires Valid() && T.Ordered(c)
      modifies this, broker
      ensures Valid() && (Model(), outcome) == MachineGateways.AbortTurnCompletion(old(Model()), fence, c)
    {
      hide S.Inv, T.WellFormed, T.Apply, FreeFence;
      outcome := broker.AbortCompletion(fence, c);
      ReleaseCompletionFence(fence);
    }

    // ------------------------------------------------------------------------ pages

    method SurfaceClaim(call: PageCall) returns (outcome: Result<S.Lease, Error>)
      requires Valid() && T.Ordered(call.revoked)
      modifies broker, index
      ensures Valid() && (Model(), outcome) == MachineGateways.SurfaceClaim(old(Model()), call)
    {
      hide S.Inv, S.Apply, T.WellFormed, T.Apply, LeaseNow, BindingNow, Outside;
      var q, k := call.request, call.request.route.key;
      if k in controlSubmissionSessions {
        return Err(SubmissionInProgress);
      } else if !call.registered {
        return Err(NotRegistered);
      }
      Meanwhile(call.before);
      var previous := CurrentSurfaceLease(k, call.listedAt);
      if previous.Err? {
        return Err(Surface(previous.error));
      }
      Meanwhile(call.between);
      var repeats := previous.value.Some? && previous.value.value.route == q.route && previous.value.value.owner == q.owner;
      if !repeats && call.pending.Some? {
        outcome := TakeBack(previous.value, call);
      } else {
        outcome := ClaimPage(previous.value, call);
      }
    }

    method TakeBack(previous: Option<S.Lease>, call: PageCall) returns (outcome: Result<S.Lease, Error>)
      requires Valid() && call.pending.Some?
      modifies index
      ensures Valid() && (index.saved, outcome) == TakenBack(old(index.saved), previous, call)
    {
      hide S.Inv, S.Apply, T.WellFormed, BindingNow;
      var committed := CurrentSurfaceBinding(call.request.route.key);
      if committed.Err? {
        return Err(Surface(committed.error));
      } else if !TakesBack(previous, committed.value, call) {
        return Err(ControlUnresolved);
      }
      var recovered := index.Recover(committed.value.value, call.request.owner, call.request.ttlMs, call.request.now);
      if recovered.Err? {
        return Err(Surface(recovered.error));
      }
      return if recovered.value.Owned? then Ok(recovered.value.lease) else Err(NotRegistered);
    }

    method ClaimPage(previous: Option<S.Lease>, call: PageCall) returns (outcome: Result<S.Lease, Error>)
      requires Valid() && T.Ordered(call.revoked)
      modifies broker, index
      ensures Valid() && (broker.Model(), index.saved, outcome) == PageClaimed(old(broker.Model()), old(index.saved), previous, call)
    {
      hide S.Inv, S.Apply, T.WellFormed, T.Apply;
      var claimed := index.Claim(call.request);
      if claimed.Err? {
        return Err(Surface(claimed.error));
      } else if !claimed.value.Owned? {
        return Err(NotRegistered);
      }
      var lease := claimed.value.lease;
      if previous.None? || previous.value.generation != lease.generation {
        var _ := broker.RevokeAll(SessionSelector(call.workspaceId, call.request.route.key), call.revoked);
      }
      return Ok(lease);
    }

    /** Renewing, committing, releasing or retiring the page of a session. */
    method SurfaceChange(p: PageOp, before: seq<S.Op>) returns (outcome: Result<S.Answer, Error>)
      requires Valid() && T.Ordered(p.revoked) && PageOpOf(p)
      modifies broker, index
      ensures Valid() && (Model(), outcome) == MachineGateways.SurfaceChange(old(Model()), p, before)
    {
      hide S.Inv, S.Apply, T.WellFormed, T.Apply, Outside;
      if p.key in controlSubmissionSessions {
        return Err(SubmissionInProgress);
      }
      Meanwhile(before);
      if p.op.Retire? && p.revokes.Some? {
        var _ := broker.RevokeAll(p.revokes.value, p.revoked);
      }
      var changed := ChangeIndex(p);
      if p.op.Commit? && changed.Ok? && p.revokes.Some? {
        var _ := broker.RevokeAll(p.revokes.value, p.revoked);
      }
      return if changed.Ok? then Ok(changed.value) else Err(Surface(changed.error));
    }

    method ChangeIndex(p: PageOp) returns (outcome: S.Outcome)
      requires index.Valid() && PageOpOf(p)
      modifies index
      ensures index.Valid() && (index.saved, outcome) == S.Apply(old(index.saved), p.op)
    {
      hide S.Inv, S.Apply;
      match p.op
      case Renew(ref, ttl, at) => outcome := index.Renew(ref, ttl, at);
      case Release(ref, at) => outcome := index.Release(ref, at);
      case Commit(ref, observed, at) => outcome := index.Commit(ref, observed, at);
      case Retire(k) => outcome := index.Retire(k);
    }
  }
}
