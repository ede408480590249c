/** When the calls of the gateway succeed, and what they have done then, in terms of broker and index before and after. */
module MachineGatewayOutcomes {
  import opened Wrappers
  import opened Lists
  import T = TurnCapability
  import S = SurfaceOwnership
  import I = SurfaceInvariants
  import O = TurnCapabilityOutcomes
  import P = SurfaceOutcomes
  import R = SurfaceRuns
  import MR = MachineGatewayRuns
  import MT = MachineGatewayTheorems
  import opened MachineGateways

  // -------------------------------------------------------------------------- leases behind a prune

  lemma LeaseFound(b: T.Broker, t: T.Secret, lease: T.Secret, c: T.Clock)
    requires T.WellFormed(b) && T.Ordered(c)
    ensures LeaseRefused(T.Prune(b, c), t, lease).None? <==> O.LeaseHeld(b, t, lease, c.sweep)
    ensures O.LeaseHeld(b, t, lease, c.sweep) ==> T.Prune(b, c).records[t].binding == b.records[t].binding
  {
    hide T.Prune, T.WellFormed, T.Swept;
    O.PrunedLeft(b, c, t);
    O.PruneLeasesOk(b, c, t);
    LeaseKept(b, t, lease, c);
  }

  lemma LeaseKept(b: T.Broker, t: T.Secret, lease: T.Secret, c: T.Clock)
    requires T.WellFormed(b) && T.Ordered(c)
    ensures var p := T.Prune(b, c);
      (t in p.records && lease in p.records[t].leases) <==> O.LeaseHeld(b, t, lease, c.sweep)
  {
    var e := T.Expelled(b, c);
    O.ExpelledTurn(b, c, t);
    O.TrimOnly(e);
    if O.LeaseHeld(b, t, lease, c.sweep) {
      assert lease in e.records[t].leases;
      O.TrimKeepsUndrained(e, t);
    }
    hide T.Trim, T.FenceList, T.WellFormed;
  }

  lemma LendsBehind(b: T.Broker, t: T.Secret, binding: T.Binding, lease: T.Secret, e: int, c: T.Clock)
    requires T.WellFormed(b) && T.Ordered(c) && O.Lends(b, t, binding, lease, e) && c.sweep < e
    ensures O.Lends(T.Prune(b, c), t, binding, lease, e)
  {
    hide T.Prune, T.WellFormed;
    O.LeaseEnds(b, t, lease);
    O.PrunedTurn(b, c, t);
  }

  // -------------------------------------------------------------------------- a page that is gone

  lemma RevokedBefore(b: T.Broker, token: T.Secret, c: T.Clock)
    requires token in T.Prune(b, c).records && T.Prune(b, c).records[token].state == T.Revoked
    ensures T.Apply(b, T.Revoke(token), c).1 == Err(T.TokenRevoked)
  {
    hide T.Prune;
  }

  /** A turn whose page is no longer current is over, and the answer says so whether it was still working or revoked already. */
  lemma StalePageEnds(b: T.Broker, m: S.Machine, token: T.Secret, binding: T.Binding, check: Check)
    ensures var (b', page, stale) := Validate(b, m, token, binding, check);
      && page == CheckPage(m, binding, check)
      && (stale.None? <==> page.current) && (page.current ==> b' == b)
      && (!page.current ==> !O.Working(b', token, check.revoked.act))
      && (!page.current && O.Working(b, token, check.revoked.enter) ==> stale == Some(T.StaleBindingEpoch))
      && (!page.current && token in T.Prune(b, check.revoked).records && T.Prune(b, check.revoked).records[token].state == T.Revoked ==>
            stale == Some(T.StaleBindingEpoch))
  {
    hide CheckPage, T.Apply, T.Prune, O.Others, O.Working;
    O.EndAnswers(b, T.Revoke(token), check.revoked);
    if token in T.Prune(b, check.revoked).records && T.Prune(b, check.revoked).records[token].state == T.Revoked {
      RevokedBefore(b, token, check.revoked);
    }
  }

  // -------------------------------------------------------------------------- claiming a turn

  // The binding of a turn in the table.
  function BindingOf(b: T.Broker, t: T.Secret): T.Binding requires t in b.records { b.records[t].binding }

  /** Everything a tool call needs of its turn and its page. */
  ghost predicate ClaimGoes(b: T.Broker, m: S.Machine, call: ClaimCall) {
    && call.scopes != {} && call.registered && O.Working(b, call.token, call.clocks.live.enter)
    && var r := b.records[call.token];
       var first := CheckPage(m, r.binding, call.before);
       var second := CheckPage(first.index, r.binding, call.behind);
       && call.scopes <= r.binding.scopes && r.state != T.Completing && call.clocks.claim.act < r.expiresAt
       && first.current && second.current
       && call.clocks.resolve.sweep < O.Smaller(call.clocks.claim.act + 15_000, r.expiresAt)
  }

  lemma GrantsOn(b: T.Broker, m: S.Machine, binding: T.Binding, lease: T.Secret, e: int, call: ClaimCall)
    requires T.WellFormed(b) && T.Ordered(call.clocks.resolve) && O.Lends(b, call.token, binding, lease, e)
    ensures var (b', m', outcome) := Granted(b, m, binding, lease, e, call);
      var page := CheckPage(m, binding, call.behind);
      && (outcome.Ok? <==> page.current && call.clocks.resolve.sweep < e && call.registered)
      && (outcome.Ok? ==> outcome.value == Claimed(lease, e, page) && O.Lends(b', call.token, binding, lease, e))
  {
    hide CheckPage, T.Prune, T.WellFormed, T.Apply, ReleaseFailed, LeaseRefused;
    LeaseFound(b, call.token, lease, call.clocks.resolve);
    if call.clocks.resolve.sweep < e {
      LendsBehind(b, call.token, binding, lease, e, call.clocks.resolve);
    }
  }

  /**
   A tool call gets its lease exactly if its turn works and covers the scopes, both checks find the page
   current, the checkout is registered and the lease is not over by then.
   */
  lemma ClaimAnswers(b: T.Broker, m: S.Machine, call: ClaimCall)
    requires T.WellFormed(b) && T.Ordered(call.clocks.live) && T.Ordered(call.clocks.claim) && T.Ordered(call.clocks.resolve)
    ensures var (b', m', outcome) := ClaimTurn(b, m, call);
      && (outcome.Ok? <==> ClaimGoes(b, m, call))
      && (outcome.Ok? ==>
            var binding := b.records[call.token].binding;
            var e := O.Smaller(call.clocks.claim.act + 15_000, b.records[call.token].expiresAt);
            && outcome.value == Claimed(b.next, e, CheckPage(CheckPage(m, binding, call.before).index, binding, call.behind))
            && O.Lends(b', call.token, binding, b.next, e))
  {
    hide CheckPage, T.Prune, T.WellFormed, T.Apply, Granted, T.Resolve, T.Swept, O.Others;
    var p, t := T.Prune(b, call.clocks.live), call.token;
    O.PrunedTurn(b, call.clocks.live, t);
    O.PruneLeasesOk(b, call.clocks.live, t);
    if call.scopes != {} && T.Resolve(p, t).None? {
      var binding := b.records[t].binding;
      O.SweptSame(b.records[t], call.clocks.live.sweep);
      var first := CheckPage(m, binding, call.before);
      if first.current {
        ClaimsOn(p, first.index, call);
      }
    }
  }

  // What follows the first check of the page.
  lemma ClaimsOn(p: T.Broker, m: S.Machine, call: ClaimCall)
    requires T.WellFormed(p) && T.Ordered(call.clocks.claim) && T.Ordered(call.clocks.resolve)
    requires call.token in p.records && O.Working(p, call.token, p.records[call.token].expiresAt - 1)
    ensures var t, c := call.token, call.clocks.claim;
      var r := p.records[t];
      var e, page := O.Smaller(c.act + 15_000, r.expiresAt), CheckPage(m, r.binding, call.behind);
      var (b', outcome) := T.Apply(p, T.Claim(t, r.binding, call.scopes, DEFAULT_LEASE_TTL_MS), c);
      && (outcome.Ok? <==> call.scopes <= r.binding.scopes && r.state != T.Completing && c.act < r.expiresAt)
      && (outcome.Ok? ==>
            && outcome.value == T.Leased(p.next, e)
            && var (b'', m', claimed) := Granted(b', m, r.binding, p.next, e, call);
               && (claimed.Ok? <==> page.current && call.clocks.resolve.sweep < e && call.registered)
               && (claimed.Ok? ==> claimed.value == Claimed(p.next, e, page) && O.Lends(b'', t, r.binding, p.next, e)))
  {
    hide CheckPage, T.Prune, T.WellFormed, T.Apply, Granted, O.Others;
    var t, c := call.token, call.clocks.claim;
    var r := p.records[t];
    var op := T.Claim(t, r.binding, call.scopes, DEFAULT_LEASE_TTL_MS);
    O.ClaimAnswers(p, t, r.binding, call.scopes, DEFAULT_LEASE_TTL_MS, c);
    T.ApplySound(p, op, c);
    var (b', outcome) := T.Apply(p, op, c);
    if outcome.Ok? {
      GrantsOn(b', m, r.binding, p.next, O.Smaller(c.act + 15_000, r.expiresAt), call);
    }
  }

  // -------------------------------------------------------------------------- renewing a lease

  /** Everything a renewal needs of the turn the lease was issued under, of the turn that asks, and of the page. */
  ghost predicate RenewGoes(b: T.Broker, m: S.Machine, call: RenewCall) {
    && O.LeaseHeld(b, call.owner, call.lease, call.live.sweep)
    && var binding := b.records[call.owner].binding;
       var first := CheckPage(m, binding, call.before);
       && O.Working(b, call.token, call.live.enter) && O.Working(b, call.token, call.renew.enter)
       && b.records[call.token].binding == binding && b.records[call.token].state != T.Issued
       && O.LeaseHeld(b, call.token, call.lease, call.live.sweep) && O.LeaseHeld(b, call.token, call.lease, call.renew.act)
       && 100 <= call.ttlMs <= 300_000
       && first.current && CheckPage(first.index, binding, call.behind).current
  }

  lemma RenewsOn(b: T.Broker, p: T.Broker, binding: T.Binding, call: RenewCall)
    requires T.WellFormed(b) && T.Ordered(call.live) && T.Ordered(call.renew) && p == T.Prune(b, call.live)
    ensures var t, l := call.token, call.lease;
      var (b', outcome) := T.Apply(p, T.Renew(t, l, binding, call.ttlMs), call.renew);
      && (outcome.Ok? <==>
            && O.Working(b, t, call.live.enter) && O.Working(b, t, call.renew.enter)
            && b.records[t].binding == binding && b.records[t].state != T.Issued
            && O.LeaseHeld(b, t, l, call.live.sweep) && O.LeaseHeld(b, t, l, call.renew.act) && 100 <= call.ttlMs <= 300_000)
      && (outcome.Ok? ==>
            var e := O.Smaller(call.renew.act + call.ttlMs, b.records[t].expiresAt);
            outcome.value == T.Renewed(e) && O.Lends(b', t, binding, l, e))
  {
    hide T.Prune, T.WellFormed, T.Apply, O.Others;
    var t := call.token;
    O.PrunedTurn(b, call.live, t);
    O.PruneLeasesOk(b, call.live, t);
    O.RenewAnswers(p, t, call.lease, binding, call.ttlMs, call.renew);
    if T.Resolve(p, t).Some? {
      NotWorkingBehind(b, call.live, t);
    } else {
      O.LeaseKeptIn(b, call.live, t, call.lease, call.renew.act);
    }
  }

  lemma NotWorkingBehind(b: T.Broker, c: T.Clock, t: T.Secret)
    requires T.Resolve(T.Prune(b, c), t).Some?
    ensures forall at :: !O.Working(T.Prune(b, c), t, at)
  {
    hide T.Prune;
  }

  /** A renewal goes through exactly then, and the lease is held until the time it answers. */
  lemma RenewAnswers(b: T.Broker, m: S.Machine, call: RenewCall)
    requires T.WellFormed(b) && T.Ordered(call.live) && T.Ordered(call.renew)
    ensures var (b', m', outcome) := RenewTurn(b, m, call);
      && (outcome.Ok? <==> RenewGoes(b, m, call))
      && (outcome.Ok? ==>
            var binding := b.records[call.owner].binding;
            var e := O.Smaller(call.renew.act + call.ttlMs, b.records[call.token].expiresAt);
            && outcome.value == Claimed(call.lease, e, CheckPage(CheckPage(m, binding, call.before).index, binding, call.behind))
            && O.Lends(b', call.token, binding, call.lease, e))
  {
    hide CheckPage, T.Prune, T.WellFormed, T.Apply, LeaseRefused, O.Working, O.Lends;
    var p := T.Prune(b, call.live);
    LeaseFound(b, call.owner, call.lease, call.live);
    if LeaseRefused(p, call.owner, call.lease).None? {
      RefusedMissing(p, call.owner, call.lease);
      RenewsOn(b, p, b.records[call.owner].binding, call);
    }
  }

  lemma RefusedMissing(p: T.Broker, t: T.Secret, lease: T.Secret)
    requires LeaseRefused(p, t, lease).None?
    ensures t in p.records
  {}

  // -------------------------------------------------------------------------- claiming a page

  // The session has a lease of this very route and owner.
  ghost predicate OwnPage(leases: set<S.Lease>, q: S.Request) {
    exists l :: P.Repeated(leases, q, l)
  }

  lemma ListedFound(m: S.Machine, k: S.Key, at: int)
    requires S.Inv(m)
    ensures var listed := LeaseNow(m, k, at).1;
      && (listed.Ok? <==> !I.Stranded(m, at))
      && (listed.Ok? ==>
            && (listed.value.Some? ==> listed.value.value in P.Standing(m, at) && listed.value.value.route.key == k)
            && (forall l | l in P.Standing(m, at) && l.route.key == k :: listed.value == Some(l)))
  {
    hide S.Inv, S.Apply, I.Stranded, Distinct;
    P.ReapAnswers(m, k.projectId, at);
    P.InvDistinct(m);
  }

  lemma BindingFound(m: S.Machine, k: S.Key)
    requires S.Inv(m)
    ensures var (m', read) := BindingNow(m, k);
      && S.Inv(m') && read.Ok?
      && (read.value.Some? ==> read.value.value in m.bindings && read.value.value.route.key == k)
      && (forall b | b in m.bindings && b.route.key == k :: read.value == Some(b))
  {
    hide S.Inv, S.Apply, Distinct;
    P.ReadAnswers(m, k);
    P.InvDistinct(m);
    R.ApplyKeepsInv(m, S.ReadBinding(k));
    if (forall b | b in m.bindings :: b.route.key != k) {
    } else {
      var b :| b in m.bindings && b.route.key == k;
    }
  }

  // The binding whose page an unresolved request may take back.
  ghost predicate MayReturn(m: S.Machine, leases: set<S.Lease>, call: PageCall, b: S.Binding)
    requires call.pending.Some?
  {
    var q := call.request;
    && P.NoneOf(leases, q.route.key) && b in m.bindings && b.route == q.route
    && call.pending.value.generation == Some(b.generation) && call.pending.value.live
    && P.RecoverGoes(m, b, q.owner, q.ttlMs, q.now)
  }

  lemma TakesBackOn(m: S.Machine, leases: set<S.Lease>, previous: Option<S.Lease>, call: PageCall)
    requires S.Inv(m) && call.pending.Some?
    requires previous.Some? ==> previous.value in leases && previous.value.route.key == call.request.route.key
    requires forall l | l in leases && l.route.key == call.request.route.key :: previous == Some(l)
    ensures var (m', outcome) := TakenBack(m, previous, call);
      && (outcome.Ok? <==> exists b :: MayReturn(m, leases, call, b))
      && (outcome.Ok? ==> outcome.value in m'.leases && outcome.value.route == call.request.route && outcome.value.owner == call.request.owner)
  {
    hide S.Inv, S.Apply, P.RecoverGoes, BindingNow;
    var q := call.request;
    var (m', read) := BindingNow(m, q.route.key);
    BindingFound(m, q.route.key);
    P.ReadLeaves(m, q.route.key);
    BindingNowIndex(m, q.route.key);
    if read.value.Some? {
      var b := read.value.value;
      RecoversOn(m', b, q);
      assert TakesBack(previous, read.value, call) && P.RecoverGoes(m, b, q.owner, q.ttlMs, q.now) <==> MayReturn(m, leases, call, b);
    }
  }

  lemma BindingNowIndex(m: S.Machine, k: S.Key)
    ensures BindingNow(m, k).0 == S.Apply(m, S.ReadBinding(k)).0
  {
    hide S.Apply;
  }

  lemma RecoversOn(m: S.Machine, b: S.Binding, q: S.Request)
    requires S.Inv(m)
    ensures var (m', outcome) := S.Apply(m, S.Recover(b, q.owner, q.ttlMs, q.now));
      && (outcome.Ok? <==> P.RecoverGoes(m, b, q.owner, q.ttlMs, q.now))
      && (outcome.Ok? ==>
            && outcome.value.Owned? && outcome.value.lease in m'.leases
            && outcome.value.lease.route == b.route && outcome.value.lease.owner == q.owner)
  {
    hide S.Inv, S.Apply, P.Leaves, I.Stranded, P.Current, P.Standing;
    var outcome := S.Apply(m, S.Recover(b, q.owner, q.ttlMs, q.now)).1;
    P.RecoverAnswers(m, b, q.owner, q.ttlMs, q.now);
    if outcome.Ok? {
      assert outcome.value.Owned?;
      R.AnswerIsHeld(m, S.Recover(b, q.owner, q.ttlMs, q.now), outcome.value.lease);
    }
  }

  lemma ClaimsPageOn(m: S.Machine, q: S.Request)
    requires S.Inv(m)
    ensures var (m', outcome) := S.Apply(m, S.Claim(q));
      && (outcome.Ok? <==> P.ClaimGoes(m, q))
      && (outcome.Ok? ==>
            && outcome.value.Owned? && outcome.value.lease in m'.leases
            && outcome.value.lease.route == q.route && outcome.value.lease.owner == q.owner)
  {
    hide S.Inv, S.Apply, P.Leaves, P.ClaimGoes, P.Standing;
    var outcome := S.Apply(m, S.Claim(q)).1;
    P.ClaimAnswers(m, q);
    if outcome.Ok? {
      assert outcome.value.Owned?;
      R.AnswerIsHeld(m, S.Claim(q), outcome.value.lease);
    }
  }

  /** When a claim of a page goes through: `listed` is the index its own page is looked up in, `m` the one it is claimed in. */
  ghost predicate PageGoes(g: Gateway, call: PageCall, listed: S.Machine, m: S.Machine) {
    var q, leases := call.request, P.Standing(listed, call.listedAt);
    && q.route.key !in g.submitting && call.registered && !I.Stranded(listed, call.listedAt)
    && if call.pending.Some? && !OwnPage(leases, q) then exists b :: MayReturn(m, leases, call, b) else P.ClaimGoes(m, q)
  }

  // The session goes on with a page of the generation it had, or with the one it takes back.
  ghost predicate SamePage(call: PageCall, listed: S.Machine, lease: S.Lease) {
    var q, leases := call.request, P.Standing(listed, call.listedAt);
    || (call.pending.Some? && !OwnPage(leases, q))
    || exists l :: l in leases && l.route.key == q.route.key && l.generation == lease.generation
  }

  /** All addressed working turns have ended, and every other is as it was, less the leases that are over. */
  ghost predicate Revoked(b: T.Broker, b': T.Broker, selector: T.Selector, c: T.Clock) {
    && (forall t :: !O.Addressed(b', selector, t, c.enter))
    && (forall t | O.Working(b, t, c.enter) && !selector.Matches(b.records[t].binding) ::
          t in b'.records && b'.records[t] == T.Swept(b.records[t], c.sweep))
  }

  lemma RevokesOn(b: T.Broker, selector: T.Selector, c: T.Clock)
    ensures Revoked(b, T.Apply(b, T.RevokeAll(selector), c).0, selector, c)
  {
    hide T.Apply, T.Swept, O.Addressed;
    O.RevokeAllAnswers(b, selector, c);
  }

  lemma OwnPageIs(leases: set<S.Lease>, previous: Option<S.Lease>, q: S.Request)
    requires previous.Some? ==> previous.value in leases && previous.value.route.key == q.route.key
    requires forall l | l in leases && l.route.key == q.route.key :: previous == Some(l)
    ensures OwnPage(leases, q) <==> previous.Some? && previous.value.route == q.route && previous.value.owner == q.owner
  {
    if previous.Some? && previous.value.route == q.route && previous.value.owner == q.owner {
      assert P.Repeated(leases, q, previous.value);
    }
  }

  lemma PageClaimsOn(b: T.Broker, m: S.Machine, leases: set<S.Lease>, previous: Option<S.Lease>, call: PageCall)
    requires S.Inv(m)
    requires previous.Some? ==> previous.value in leases && previous.value.route.key == call.request.route.key
    requires forall l | l in leases && l.route.key == call.request.route.key :: previous == Some(l)
    ensures var (b', m', outcome) := PageClaimed(b, m, previous, call);
      && (outcome.Ok? <==> P.ClaimGoes(m, call.request))
      && (outcome.Ok? ==> outcome.value in m'.leases && outcome.value.route == call.request.route && outcome.value.owner == call.request.owner)
      && (outcome.Err? ==> b' == b)
      && (outcome.Ok? ==>
            if exists l :: l in leases && l.route.key == call.request.route.key && l.generation == outcome.value.generation then b' == b
            else Revoked(b, b', SessionSelector(call.workspaceId, call.request.route.key), call.revoked))
  {
    hide S.Inv, S.Apply, T.Apply, P.ClaimGoes, Revoked;
    ClaimsPageOn(m, call.request);
    RevokesOn(b, SessionSelector(call.workspaceId, call.request.route.key), call.revoked);
  }

  lemma IndexesSound(g: Gateway, call: PageCall)
    requires S.Inv(g.index)
    ensures S.Inv(Outside(g.index, call.before)) && S.Inv(MT.IndexAtClaim(g, call))
  {
    hide S.Inv, S.Apply, LeaseNow, Outside, R.Advances;
    var m0 := Outside(g.index, call.before);
    MR.OutsideOnward(g.index, call.before);
    MR.ReadingsOnward(m0, call.request.route.key, call.listedAt);
    MR.OutsideOnward(LeaseNow(m0, call.request.route.key, call.listedAt).0, call.between);
  }

  /**
   A page is claimed exactly if its session is not committing a result, the checkout is registered, nothing is
   stranded and the index grants it; with an unresolved request only its own page counts, repeated or taken
   back.  A page of another generation ends the turns of the session, and those only.
   */
  lemma SurfaceClaimAnswers(g: Gateway, call: PageCall)
    requires S.Inv(g.index)
    ensures var (g', outcome) := SurfaceClaim(g, call);
      var listed, q := Outside(g.index, call.before), call.request;
      && (outcome.Ok? <==> PageGoes(g, call, listed, MT.IndexAtClaim(g, call)))
      && g'.submitting == g.submitting && g'.fences == g.fences
      && (outcome.Err? ==> g'.broker == g.broker)
      && (outcome.Ok? ==>
            && outcome.value in g'.index.leases && outcome.value.route == q.route && outcome.value.owner == q.owner
            && if SamePage(call, listed, outcome.value) then g'.broker == g.broker
               else Revoked(g.broker, g'.broker, SessionSelector(call.workspaceId, q.route.key), call.revoked))
  {
    hide S.Inv, LeaseNow, Outside, TakenBack, PageClaimed, P.ClaimGoes, MayReturn, OwnPage, I.Stranded, Revoked, P.Standing;
    var k, m0, m2 := call.request.route.key, Outside(g.index, call.before), MT.IndexAtClaim(g, call);
    IndexesSound(g, call);
    ListedFound(m0, k, call.listedAt);
    var previous := LeaseNow(m0, k, call.listedAt).1;
    if previous.Ok? {
      var leases := P.Standing(m0, call.listedAt);
      OwnPageIs(leases, previous.value, call.request);
      if call.pending.Some? && !OwnPage(leases, call.request) {
        TakesBackOn(m2, leases, previous.value, call);
      } else {
        PageClaimsOn(g.broker, m2, leases, previous.value, call);
      }
    }
  }

  // -------------------------------------------------------------------------- changing a page

  /** A page is changed exactly if its session is not committing a result and the index agrees; the turns it ends are those addressed. */
  lemma SurfaceChangeAnswers(g: Gateway, p: PageOp, before: seq<S.Op>)
    requires S.Inv(g.index) && PageOpOf(p)
    ensures var (g', outcome) := SurfaceChange(g, p, before);
      var (m', applied) := S.Apply(Outside(g.index, before), p.op);
      && (outcome.Ok? <==> p.key !in g.submitting && applied.Ok?)
      && (outcome.Ok? ==> outcome.value == applied.value && g'.index == m')
      && (outcome.Ok? && p.revokes.Some? ==> Revoked(g.broker, g'.broker, p.revokes.value, p.revoked))
      && (outcome.Err? || p.revokes.None? ==> g'.broker == g.broker)
      && g'.submitting == g.submitting && g'.fences == g.fences
  {
    hide S.Inv, S.Apply, T.Apply, Outside, Revoked;
    if p.revokes.Some? {
      RevokesOn(g.broker, p.revokes.value, p.revoked);
    }
    if p.op.Retire? {
      MR.OutsideOnward(g.index, before);
      P.RetireAnswers(Outside(g.index, before), p.key);
    }
  }

  // -------------------------------------------------------------------------- committing a result

  /** A completion begins exactly for a working turn that has been claimed and whose session is not committing yet; the session is closed under its fence. */
  lemma BeginAnswers(g: Gateway, token: T.Secret, live: T.Clock, begin: T.Clock)
    ensures var (g', outcome) := BeginCompletion(g, token, live, begin);
      && (outcome.Ok? <==>
            && O.Working(g.broker, token, live.enter) && begin.enter < g.broker.records[token].expiresAt
            && g.broker.records[token].state == T.Active && KeyOf(g.broker.records[token].binding) !in g.submitting)
      && (outcome.Ok? ==>
            var k := KeyOf(g.broker.records[token].binding);
            && outcome.value == g.broker.next && outcome.value in g'.broker.fences && g'.broker.fences[outcome.value] == token
            && g'.submitting == g.submitting + {k} && g'.fences == g.fences[outcome.value := k])
      && (outcome.Err? ==> g'.submitting == g.submitting && g'.fences == g.fences)
      && g'.index == g.index
  {
    hide T.Prune, T.Apply, O.Others, T.Resolve;
    var p := T.Prune(g.broker, live);
    O.PrunedTurn(g.broker, live, token);
    if T.Resolve(p, token).None? {
      O.SweptSame(g.broker.records[token], live.sweep);
      O.BeginAnswers(p, token, p.records[token].binding, begin);
    }
  }

  /** A session is opened again by exactly a completion that succeeds, or any abort, of the fence it was closed with. */
  lemma EndAnswers(g: Gateway, fence: T.Secret, c: T.Clock)
    ensures var (g', outcome) := CompleteTurn(g, fence, c);
      && (outcome.Ok? && fence in g.fences ==> g'.submitting == g.submitting - {g.fences[fence]} && g'.fences == g.fences - {fence})
      && (outcome.Err? || fence !in g.fences ==> g'.submitting == g.submitting && g'.fences == g.fences)
    ensures var g' := AbortTurnCompletion(g, fence, c).0;
      && (fence in g.fences ==> g'.submitting == g.submitting - {g.fences[fence]} && g'.fences == g.fences - {fence})
      && (fence !in g.fences ==> g'.submitting == g.submitting && g'.fences == g.fences)
  {
    hide T.Apply;
  }
}
