/** The main guarantees of the gateway: which turns may claim, and what a result being committed locks. */
module MachineGatewayTheorems {
  import opened Wrappers
  import T = TurnCapability
  import TF = TurnFences
  import S = SurfaceOwnership
  import I = SurfaceInvariants
  import R = SurfaceRuns
  import opened MachineGateways
  import opened MachineGatewayRuns

  // -------------------------------------------------------------------------- claims and pages

  // What a passed check says about a turn.
  ghost predicate OnCurrentPage(page: Page, binding: T.Binding, at: int) {
    && binding.generation >= 1 && !I.Stranded(page.forLease, at)
    && HoldsPage(page.forLease, KeyOf(binding), binding.generation, at)
    && (binding.turn.phase == "BOOT" || Committed(page.forBinding, KeyOf(binding), binding.generation))
  }

  // A lease was granted under a binding, and is held by the turn afterwards.
  ghost predicate HeldBy(b: T.Broker, token: T.Secret, lease: T.Secret) {
    token in b.records && lease in b.records[token].leases
  }

  lemma GrantedPage(b: T.Broker, m: S.Machine, binding: T.Binding, lease: T.Secret, expiresAt: int, call: ClaimCall)
    ensures var (b', m', outcome) := Granted(b, m, binding, lease, expiresAt, call);
      outcome.Ok? ==>
        && outcome.value.lease == lease && HeldBy(b', call.token, lease)
        && outcome.value.page == CheckPage(m, binding, call.behind) && outcome.value.page.current && m' == outcome.value.page.index
  {
    hide Validate, ReleaseFailed, T.Prune;
    ValidateOnward(b, m, call.token, binding, call.behind);
  }

  lemma ClaimedScopes(b: T.Broker, op: T.Op, c: T.Clock)
    requires op.Claim? && T.Apply(b, op, c).1.Ok?
    ensures op.requiredScopes <= op.expected.scopes
  {
    hide T.Prune, T.Lend;
  }

  /**
   A tool claim succeeds only while the session holds a live page of the turn's own generation, which
   beyond BOOT it has committed; the lease is then held by the turn, for scopes the turn was given.
   */
  lemma ClaimNeedsItsPage(b: T.Broker, m: S.Machine, call: ClaimCall)
    requires S.Inv(m) && T.WellFormed(b) && WellPosed(Claims(call)) && ClaimTurn(b, m, call).2.Ok?
    ensures var (b', _, outcome) := ClaimTurn(b, m, call);
      && call.token in b.records
      && var binding := b.records[call.token].binding;
         && OnCurrentPage(outcome.value.page, binding, call.behind.at) && Onward(m, outcome.value.page.forLease)
         && HeldBy(b', call.token, outcome.value.lease) && b'.records[call.token].binding == binding && call.scopes <= binding.scopes
  {
    hide S.Inv, T.WellFormed, Validate, Granted, T.Prune, T.Apply, CheckPage, R.Advances;
    var p := T.Prune(b, call.clocks.live);
    var binding := p.records[call.token].binding;
    var (b1, page, stale) := Validate(p, m, call.token, binding, call.before);
    ValidateOnward(p, m, call.token, binding, call.before);
    var op := T.Claim(call.token, binding, call.scopes, DEFAULT_LEASE_TTL_MS);
    ClaimedScopes(b1, op, call.clocks.claim);
    var (b2, outcome) := T.Apply(b1, op, call.clocks.claim);
    GrantedPage(b2, page.index, binding, outcome.value.lease, outcome.value.leaseExpiresAt, call);
    PageCheckIff(page.index, binding, call.behind);
    CheckOnward(page.index, binding, call.behind);
    OnwardTransitive(m, page.index, CheckPage(page.index, binding, call.behind).forLease);
    PruneFollows(b, call.clocks.live);
    KnownTurn(b, p, call.token, call.clocks.live);
    ClaimFollows(b, m, call);
  }

  lemma KnownTurn(b: T.Broker, p: T.Broker, token: T.Secret, c: T.Clock)
    requires p == T.Prune(b, c) && token in p.records
    ensures token in b.records && p.records[token].binding == b.records[token].binding
  {}

  lemma RenewNeedsItsPage(b: T.Broker, m: S.Machine, call: RenewCall)
    requires S.Inv(m) && WellPosed(Renews(call)) && RenewTurn(b, m, call).2.Ok?
    ensures var outcome := RenewTurn(b, m, call).2;
      && call.owner in b.records
      && OnCurrentPage(outcome.value.page, b.records[call.owner].binding, call.behind.at) && Onward(m, outcome.value.page.forLease)
  {
    hide S.Inv, Validate, T.Prune, T.Apply, CheckPage, R.Advances;
    var p := T.Prune(b, call.live);
    var binding := p.records[call.owner].binding;
    var (b1, page, stale) := Validate(p, m, call.token, binding, call.before);
    ValidateOnward(p, m, call.token, binding, call.before);
    var (b2, outcome) := T.Apply(b1, T.Renew(call.token, call.lease, binding, call.ttlMs), call.renew);
    ValidateOnward(b2, page.index, call.token, binding, call.behind);
    PageCheckIff(page.index, binding, call.behind);
    CheckOnward(page.index, binding, call.behind);
    OnwardTransitive(m, page.index, CheckPage(page.index, binding, call.behind).forLease);
    KnownTurn(b, p, call.owner, call.live);
  }

  lemma NoOlderPage(m: S.Machine, m': S.Machine, l: S.Lease, generation: nat, at: int)
    requires S.Inv(m) && Onward(m, m') && l in m.leases && HoldsPage(m', l.route.key, generation, at)
    ensures l.generation <= generation
  {
    assert S.LeaseOk(m, l);
    var l' :| l' in m'.leases && l'.route.key == l.route.key && l'.generation == generation && l'.expiresAt > at;
    assert S.LeaseOk(m', l');
  }

  // The turn is one of the same session, for a page older than the lease.
  predicate Outdated(g: Gateway, token: T.Secret, l: S.Lease) {
    token in g.broker.records && KeyOf(g.broker.records[token].binding) == l.route.key
    && g.broker.records[token].binding.generation < l.generation
  }

  /**
   Once a session has held a page of a newer generation, whichever process claimed it, no turn of an
   older generation ever claims or renews a lease again.
   */
  lemma {:induction false} OlderGenerationsNeverClaim(limit: nat, calls: seq<Call>, i: nat, j: nat, l: S.Lease)
    requires i <= j < |calls| && (forall n | 0 <= n < |calls| :: WellPosed(calls[n]))
    requires l in After(limit, calls[..i]).index.leases
    ensures var g := After(limit, calls[..j]);
      match calls[j]
      case Claims(c) => Outdated(g, c.token, l) ==> ClaimTurn(g.broker, g.index, c).2.Err?
      case Renews(c) => Outdated(g, c.owner, l) ==> RenewTurn(g.broker, g.index, c).2.Err?
      case _ => true
  {
    hide After, ClaimTurn, RenewTurn, Onward, HoldsPage, S.Inv, T.WellFormed, I.Stranded;
    var m, g := After(limit, calls[..i]).index, After(limit, calls[..j]);
    RunSound(limit, calls[..i]);
    RunSound(limit, calls[..j]);
    RunOnward(limit, calls, i, j);
    match calls[j]
    case Claims(c) =>
      if ClaimTurn(g.broker, g.index, c).2.Ok? {
        ClaimNeedsItsPage(g.broker, g.index, c);
        var binding, page := g.broker.records[c.token].binding, ClaimTurn(g.broker, g.index, c).2.value.page;
        if KeyOf(binding) == l.route.key {
          OnwardTransitive(m, g.index, page.forLease);
          NoOlderPage(m, page.forLease, l, binding.generation, c.behind.at);
        }
      }
    case Renews(c) =>
      if RenewTurn(g.broker, g.index, c).2.Ok? {
        RenewNeedsItsPage(g.broker, g.index, c);
        var binding, page := g.broker.records[c.owner].binding, RenewTurn(g.broker, g.index, c).2.value.page;
        if KeyOf(binding) == l.route.key {
          OnwardTransitive(m, g.index, page.forLease);
          NoOlderPage(m, page.forLease, l, binding.generation, c.behind.at);
        }
      }
    case _ =>
  }

  // -------------------------------------------------------------------------- a new page

  function IndexAtClaim(g: Gateway, call: PageCall): S.Machine {
    Outside(LeaseNow(Outside(g.index, call.before), call.request.route.key, call.listedAt).0, call.between)
  }

  lemma RevokedAll(b: T.Broker, selector: T.Selector, c: T.Clock)
    ensures var b' := T.Apply(b, T.RevokeAll(selector), c).0;
      forall t | t in b'.records && selector.Matches(b'.records[t].binding) :: !T.Live(b'.records[t])
  {
    hide T.Prune;
    RevokedAllAt(T.Prune(b, c), selector, c.enter);
  }

  lemma RevokedAllAt(p: T.Broker, selector: T.Selector, now: int)
    ensures var b' := T.RevokeAllAt(p, selector, now).0;
      forall t | t in b'.records && selector.Matches(b'.records[t].binding) :: !T.Live(b'.records[t])
  {}

  lemma ListedOlder(m: S.Machine, k: S.Key, at: int)
    requires S.Inv(m)
    ensures var (m1, listed) := LeaseNow(m, k, at);
      listed.Ok? && listed.value.Some? ==> listed.value.value.generation < m.nextGeneration
  {
    hide S.Inv, LeaseNow;
    LeaseNowFinds(m, k, at);
    InvGenerations(m);
  }

  lemma InvGenerations(m: S.Machine)
    requires S.Inv(m)
    ensures (forall l | l in m.leases :: l.generation < m.nextGeneration) && (forall b | b in m.bindings :: b.generation < m.nextGeneration)
  {
    assert forall l | l in m.leases :: S.LeaseOk(m, l);
    assert forall b | b in m.bindings :: S.BindingOk(m, b);
  }

  lemma CommittedOlder(m: S.Machine, k: S.Key)
    requires S.Inv(m)
    ensures var committed := BindingNow(m, k).1;
      committed.Ok? && committed.value.Some? ==> committed.value.value.generation < m.nextGeneration
  {
    hide S.Inv, S.Consistent;
    InvGenerations(m);
  }

  lemma RecoveredSame(m: S.Machine, b: S.Binding, owner: string, ttlMs: int, at: int)
    ensures var outcome := S.Apply(m, S.Recover(b, owner, ttlMs, at)).1;
      outcome.Ok? && outcome.value.Owned? ==> outcome.value.lease.generation == b.generation
  {
    hide S.Consistent, S.Reaped, S.Synced, S.StillCurrent, S.Unavailable, S.Recovered;
  }

  /** When a session gets a page it never had, no turn of it in the checkout stays live. */
  lemma NewPageEndsOldTurns(g: Gateway, call: PageCall)
    requires S.Inv(g.index) && SurfaceClaim(g, call).1.Ok?
    requires SurfaceClaim(g, call).1.value.generation >= IndexAtClaim(g, call).nextGeneration
    ensures var b' := SurfaceClaim(g, call).0.broker;
      forall t | t in b'.records && SessionSelector(call.workspaceId, call.request.route.key).Matches(b'.records[t].binding) ::
        !T.Live(b'.records[t])
  {
    hide S.Inv, LeaseNow, BindingNow, Outside, S.Apply, T.Apply;
    var q, k := call.request, call.request.route.key;
    var m0 := Outside(g.index, call.before);
    var (m1, listed) := LeaseNow(m0, k, call.listedAt);
    var m2 := Outside(m1, call.between);
    OutsideOnward(g.index, call.before);
    ReadingsOnward(m0, k, call.listedAt);
    OutsideOnward(m1, call.between);
    ListedOlder(m0, k, call.listedAt);
    CommittedOlder(m2, k);
    var (m3, committed) := BindingNow(m2, k);
    if committed.Ok? && committed.value.Some? {
      RecoveredSame(m3, committed.value.value, q.owner, q.ttlMs, q.now);
    }
    RevokedAll(g.broker, SessionSelector(call.workspaceId, k), call.revoked);
  }

  // -------------------------------------------------------------------------- a result being committed

  function Keys(fences: map<T.Secret, S.Key>): set<S.Key> { set f | f in fences :: fences[f] }

  /** The closed sessions are those of the fences handed out, one each, and every completing turn has one. */
  ghost predicate Locked(g: Gateway) {
    && g.submitting == Keys(g.fences)
    && (forall f, h | f in g.fences && h in g.fences && g.fences[f] == g.fences[h] :: f == h)
    && (forall f | f in g.fences :: f < g.broker.next)
    && (forall f | f in g.broker.fences :: Listed(g, f))
  }

  // A fence of the broker is known to the gateway, under the session of its turn.
  ghost predicate Listed(g: Gateway, f: T.Secret)
    requires f in g.broker.fences
  {
    f in g.fences && g.broker.fences[f] in g.broker.records && g.fences[f] == KeyOf(g.broker.records[g.broker.fences[f]].binding)
  }

  lemma KeysAdded(fences: map<T.Secret, S.Key>, f: T.Secret, k: S.Key)
    requires f !in fences
    ensures Keys(fences[f := k]) == Keys(fences) + {k}
  {
    var more := fences[f := k];
    assert f in more && forall x | x in fences :: x in more && more[x] == fences[x];
  }

  lemma KeysDropped(fences: map<T.Secret, S.Key>, f: T.Secret)
    requires f in fences && forall x, y | x in fences && y in fences && fences[x] == fences[y] :: x == y
    ensures Keys(fences - {f}) == Keys(fences) - {fences[f]}
  {
    var fewer := fences - {f};
    assert forall x | x in fewer :: x in fences && fewer[x] == fences[x] && x != f;
    assert forall x | x in fences && x != f :: x in fewer;
  }

  lemma BrokerKeepsLocked(g: Gateway, b: T.Broker)
    requires Locked(g) && T.WellFormed(g.broker) && Follows(g.broker, b)
    ensures Locked(g.(broker := b))
  {
    var g' := g.(broker := b);
    forall f | f in b.fences ensures Listed(g', f) {
      assert Listed(g, f);
      assert T.FenceOk(b, f);
    }
  }

  lemma FreeFenceKeepsLocked(g: Gateway, fence: T.Secret)
    requires Locked(g) && fence !in g.broker.fences
    ensures Locked(FreeFence(g, fence))
  {
    var g' := FreeFence(g, fence);
    if fence in g.fences {
      KeysDropped(g.fences, fence);
    }
    forall f | f in g'.broker.fences ensures Listed(g', f) {
      assert Listed(g, f);
    }
  }

  // What beginning a completion does to the fences: nothing when refused, else one more, of the next secret.
  ghost predicate Begun(p: T.Broker, token: T.Secret, b: T.Broker, outcome: T.Outcome) {
    && (outcome.Err? ==> forall f | f in b.fences :: f in p.fences && b.fences[f] == p.fences[f])
    && (outcome.Ok? ==>
          && outcome.value.Fenced? && outcome.value.fence in b.fences && b.fences[outcome.value.fence] == token
          && outcome.value.fence == p.next && p.next < b.next
          && forall f | f in b.fences && f != outcome.value.fence :: f in p.fences && b.fences[f] == p.fences[f])
  }

  lemma BegunAt(q: T.Broker, token: T.Secret, expected: T.Binding, now: int)
    ensures var (b, outcome) := T.BeginCompletionAt(q, token, expected, now);
      Begun(q, token, b, outcome) && KeepsBindings(q, b) && q.next <= b.next
  {}

  lemma BegunLater(p: T.Broker, q: T.Broker, token: T.Secret, b: T.Broker, outcome: T.Outcome)
    requires T.WellFormed(p) && Follows(p, q) && q.next == p.next && Begun(q, token, b, outcome) && KeepsBindings(q, b) && q.next <= b.next
    ensures Begun(p, token, b, outcome) && KeepsBindings(p, b) && p.next <= b.next
  {
    assert forall t | t in p.records :: T.RecordOk(p, t);
    hide T.WellFormed;
  }

  lemma BegunFence(p: T.Broker, token: T.Secret, c: T.Clock)
    requires T.WellFormed(p) && T.Ordered(c) && token in p.records
    ensures var (b, outcome) := T.Apply(p, T.BeginCompletion(token, p.records[token].binding), c);
      Begun(p, token, b, outcome) && KeepsBindings(p, b) && p.next <= b.next
  {
    hide T.Prune, T.WellFormed, T.BeginCompletionAt, Begun, KeepsBindings, Follows;
    PrunedNext(p, c);
    PruneFollows(p, c);
    var expected := p.records[token].binding;
    BegunAt(T.Prune(p, c), token, expected, c.act);
    var (b, outcome) := T.Apply(p, T.BeginCompletion(token, expected), c);
    BegunLater(p, T.Prune(p, c), token, b, outcome);
  }

  lemma PrunedNext(p: T.Broker, c: T.Clock)
    ensures T.Prune(p, c).next == p.next
  {}

  lemma BeginKeepsLocked(g: Gateway, token: T.Secret, live: T.Clock, begin: T.Clock)
    requires Locked(g) && T.WellFormed(g.broker) && T.Ordered(live) && T.Ordered(begin)
    ensures Locked(BeginCompletion(g, token, live, begin).0)
  {
    hide T.Apply, T.Prune, T.Resolve;
    var p := T.Prune(g.broker, live);
    PruneFollows(g.broker, live);
    BrokerKeepsLocked(g, p);
    if T.Resolve(p, token).None? {
      ResolvedHere(p, token);
      BegunFence(p, token, begin);
      hide T.WellFormed;
      if KeyOf(p.records[token].binding) !in g.submitting {
        BegunLocked(g.(broker := p), token, begin);
      }
    }
  }

  lemma ResolvedHere(p: T.Broker, token: T.Secret)
    requires T.Resolve(p, token).None?
    ensures token in p.records
  {}

  lemma BegunLocked(g: Gateway, token: T.Secret, begin: T.Clock)
    requires Locked(g) && T.WellFormed(g.broker) && T.Ordered(begin) && token in g.broker.records
    requires KeyOf(g.broker.records[token].binding) !in g.submitting
    ensures var k := KeyOf(g.broker.records[token].binding);
      var (b, outcome) := T.Apply(g.broker, T.BeginCompletion(token, g.broker.records[token].binding), begin);
      && (outcome.Err? ==> Locked(g.(broker := b)))
      && (outcome.Ok? ==>
            && outcome.value.Fenced?
            && Locked(g.(broker := b, submitting := g.submitting + {k}, fences := g.fences[outcome.value.fence := k])))
  {
    hide T.Apply;
    var k := KeyOf(g.broker.records[token].binding);
    var op := T.BeginCompletion(token, g.broker.records[token].binding);
    var (b, outcome) := T.Apply(g.broker, op, begin);
    BegunFence(g.broker, token, begin);
    T.ApplySound(g.broker, op, begin);
    FencedTurns(b);
    hide T.WellFormed, Locked;
    if outcome.Ok? {
      OneMoreLocked(g, b, token, outcome.value.fence);
    } else {
      SameLocked(g, b);
    }
  }

  lemma SameLocked(g: Gateway, b: T.Broker)
    requires Locked(g) && KeepsBindings(g.broker, b) && g.broker.next <= b.next
    requires forall f | f in b.fences :: b.fences[f] in b.records && f in g.broker.fences && b.fences[f] == g.broker.fences[f]
    ensures Locked(g.(broker := b))
  {
    forall f | f in b.fences ensures Listed(g.(broker := b), f) {
      assert Listed(g, f);
    }
  }

  lemma OneMoreLocked(g: Gateway, b: T.Broker, token: T.Secret, fence: T.Secret)
    requires Locked(g) && token in g.broker.records && KeepsBindings(g.broker, b)
    requires KeyOf(g.broker.records[token].binding) !in g.submitting && g.broker.next <= fence < b.next
    requires forall f | f in b.fences :: b.fences[f] in b.records
    requires forall f | f in b.fences && f != fence :: f in g.broker.fences && b.fences[f] == g.broker.fences[f]
    requires fence in b.fences && b.fences[fence] == token
    ensures var k := KeyOf(g.broker.records[token].binding);
      Locked(g.(broker := b, submitting := g.submitting + {k}, fences := g.fences[fence := k]))
  {
    var k := KeyOf(g.broker.records[token].binding);
    var fences := g.fences[fence := k];
    KeysAdded(g.fences, fence, k);
    assert forall f | f in g.fences :: g.fences[f] in Keys(g.fences);
    var g' := g.(broker := b, submitting := g.submitting + {k}, fences := fences);
    forall f | f in b.fences ensures Listed(g', f) {
      assert f != fence ==> Listed(g, f);
    }
    hide Keys, KeepsBindings, Listed;
  }

  lemma FencedTurns(b: T.Broker)
    requires T.WellFormed(b)
    ensures forall f | f in b.fences :: b.fences[f] in b.records
  {
    assert forall f | f in b.fences :: T.FenceOk(b, f);
  }

  // Calls that neither hand out nor free a fence touch only the broker and the index.
  lemma OtherCalls(g: Gateway, call: Call)
    requires !call.Begins? && !call.Completes? && !call.Aborts?
    ensures Apply(g, call).submitting == g.submitting && Apply(g, call).fences == g.fences
  {
    hide ClaimTurn, RenewTurn, LeaseNow, BindingNow, Outside, S.Apply, T.Apply;
  }

  lemma CallKeepsLocked(g: Gateway, call: Call)
    requires Locked(g) && T.WellFormed(g.broker) && WellPosed(call)
    ensures Locked(Apply(g, call))
  {
    hide ClaimTurn, RenewTurn, SurfaceClaim, SurfaceChange, BeginCompletion, FreeFence, T.Apply, T.WellFormed, Locked, Follows;
    match call
    case Begins(token, live, begin) => BeginKeepsLocked(g, token, live, begin);
    case Completes(fence, c) =>
      var (b, outcome) := T.Apply(g.broker, T.Complete(fence), c);
      ApplyFollows(g.broker, T.Complete(fence), c);
      BrokerKeepsLocked(g, b);
      TF.ConsumedFences(g.broker, T.Complete(fence), c);
      if outcome.Ok? {
        FreeFenceKeepsLocked(g.(broker := b), fence);
      }
    case Aborts(fence, c) =>
      var b := T.Apply(g.broker, T.AbortCompletion(fence), c).0;
      ApplyFollows(g.broker, T.AbortCompletion(fence), c);
      BrokerKeepsLocked(g, b);
      TF.ConsumedFences(g.broker, T.AbortCompletion(fence), c);
      FreeFenceKeepsLocked(g.(broker := b), fence);
    case _ =>
      CallFollows(g, call);
      OtherCalls(g, call);
      BrokerKeepsLocked(g, Apply(g, call).broker);
      LockedIgnoresIndex(g.(broker := Apply(g, call).broker), Apply(g, call).index);
  }

  lemma LockedIgnoresIndex(g: Gateway, m: S.Machine)
    requires Locked(g)
    ensures Locked(g.(index := m))
  {
    forall f | f in g.broker.fences ensures Listed(g.(index := m), f) {
      assert Listed(g, f);
    }
  }

  lemma {:induction false} RunLocked(limit: nat, calls: seq<Call>)
    requires forall i | 0 <= i < |calls| :: WellPosed(calls[i])
    ensures Locked(After(limit, calls))
  {
    if calls == [] {
      assert Keys(map[]) == {};
    } else {
      hide T.WellFormed, S.Inv, Apply, WellPosed, Locked;
      var n := |calls| - 1;
      RunLocked(limit, calls[..n]);
      RunSound(limit, calls[..n]);
      CallKeepsLocked(After(limit, calls[..n]), calls[n]);
    }
  }

  // What a closed session refuses.
  ghost predicate Refuses(g: Gateway, k: S.Key, call: Call) {
    match call
    case ClaimsPage(c) => c.request.route.key == k ==> SurfaceClaim(g, c) == (g, Err(SubmissionInProgress))
    case ChangesPage(p, before) => p.key == k ==> SurfaceChange(g, p, before) == (g, Err(SubmissionInProgress))
    case Begins(t, live, begin) =>
      t in g.broker.records && KeyOf(g.broker.records[t].binding) == k ==>
        BeginCompletion(g, t, live, begin).1.Err? && BeginCompletion(g, t, live, begin).0.fences == g.fences
    case _ => true
  }

  lemma ClosedRefuses(g: Gateway, k: S.Key, call: Call)
    requires k in g.submitting
    ensures Refuses(g, k, call)
  {
    hide T.Apply, T.Prune, LeaseNow, BindingNow, Outside, S.Apply;
    match call
    case Begins(t, live, begin) => if t in T.Prune(g.broker, live).records { KnownTurn(g.broker, T.Prune(g.broker, live), t, live); }
    case _ =>
  }

  /**
   While any turn of a session is committing its result, the gateway neither claims, commits, renews,
   releases nor retires the page of the session, and begins no second completion for it.
   */
  lemma {:induction false} CompletingTurnLocksItsPage(limit: nat, calls: seq<Call>, token: T.Secret, call: Call)
    requires forall i | 0 <= i < |calls| :: WellPosed(calls[i])
    requires var b := After(limit, calls).broker; token in b.records && b.records[token].state == T.Completing
    ensures var g := After(limit, calls); Refuses(g, KeyOf(g.broker.records[token].binding), call)
  {
    hide After, S.Inv, Refuses, WellPosed;
    var g := After(limit, calls);
    RunLocked(limit, calls);
    RunSound(limit, calls);
    assert T.RecordOk(g.broker, token);
    var fence := g.broker.records[token].fence.value;
    assert Listed(g, fence);
    assert g.fences[fence] in Keys(g.fences);
    ClosedRefuses(g, KeyOf(g.broker.records[token].binding), call);
  }

  lemma LockedKeys(g: Gateway)
    requires Locked(g)
    ensures forall f | f in g.fences :: f < g.broker.next && g.fences[f] in g.submitting
    ensures forall f, h | f in g.fences && h in g.fences && g.fences[f] == g.fences[h] :: f == h
  {}

  lemma UnknownFence(b: T.Broker, f: T.Secret, c: T.Clock)
    ensures T.Apply(b, T.Complete(f), c).1.Ok? ==> f in b.fences
  {
    hide T.Prune, T.CompleteAt;
  }

  lemma GoneStaysGone(b: T.Broker, b': T.Broker, fence: T.Secret)
    requires T.WellFormed(b) && Follows(b, b') && fence !in b.fences
    ensures fence !in b'.fences
  {}

  lemma BeginKeepsFences(g: Gateway, token: T.Secret, live: T.Clock, begin: T.Clock, fence: T.Secret)
    requires Locked(g) && T.WellFormed(g.broker) && T.Ordered(live) && T.Ordered(begin)
    requires fence in g.fences && fence !in g.broker.fences
    ensures var g' := BeginCompletion(g, token, live, begin).0;
      fence in g'.fences && g'.fences[fence] == g.fences[fence] && fence !in g'.broker.fences
  {
    hide T.Apply, T.Prune, T.Resolve;
    var p := T.Prune(g.broker, live);
    PruneFollows(g.broker, live);
    if T.Resolve(p, token).None? {
      ResolvedHere(p, token);
      BegunFence(p, token, begin);
    }
  }

  /**
   The lock can outlive the turn: when a turn ends otherwise than by its fence, its session stays
   closed through every call but the abort of that very fence.
   */
  lemma OnlyTheAbortReopens(g: Gateway, fence: T.Secret, call: Call)
    requires Locked(g) && T.WellFormed(g.broker) && WellPosed(call) && fence in g.fences && fence !in g.broker.fences
    ensures var g' := Apply(g, call);
      if call.Aborts? && call.fence == fence then fence !in g'.fences && g.fences[fence] !in g'.submitting
      else fence in g'.fences && g'.fences[fence] == g.fences[fence] && g.fences[fence] in g'.submitting && fence !in g'.broker.fences
    ensures call.Completes? && call.fence == fence ==> CompleteTurn(g, fence, call.clock).1.Err?
  {
    hide ClaimTurn, RenewTurn, SurfaceClaim, SurfaceChange, BeginCompletion, T.Apply, T.WellFormed, Follows, Locked;
    CallKeepsLocked(g, call);
    var g' := Apply(g, call);
    LockedKeys(g);
    LockedKeys(g');
    match call
    case Begins(token, live, begin) => BeginKeepsFences(g, token, live, begin, fence);
    case Completes(f, c) =>
      TF.ConsumedFences(g.broker, T.Complete(f), c);
      UnknownFence(g.broker, f, c);
    case Aborts(f, c) => TF.ConsumedFences(g.broker, T.AbortCompletion(f), c);
    case _ =>
      CallFollows(g, call);
      OtherCalls(g, call);
      GoneStaysGone(g.broker, g'.broker, fence);
  }
}
