/**
 The composition in src/gateway/machine-gateway.ts of the turn capability broker with the ownership
 index.  The index belongs to the whole machine: between two of its readings in one call other
 processes may have worked on it.  A call reads the clock of the broker once for each broker call.
 */
module MachineGateways {
  import opened Wrappers
  import opened Lists
  import T = TurnCapability
  import S = SurfaceOwnership

  const DEFAULT_LEASE_TTL_MS := 15_000

  /** The broker, the index, and the sessions whose result is being committed with the fence that opened each. */
  datatype Gateway = Gateway(broker: T.Broker, index: S.Machine, submitting: set<S.Key>, fences: map<T.Secret, S.Key>)

  datatype Error =
    | Turn(error: T.Error) | Surface(code: S.Code) | NoScopes | NotRegistered | ControlUnresolved | SubmissionInProgress

  function Empty(maxTombstones: nat): Gateway { Gateway(T.Empty(maxTombstones), S.EMPTY, {}, map[]) }

  function KeyOf(binding: T.Binding): S.Key { S.Key(binding.session.projectId, binding.session.localSessionId) }

  /** What other processes have done to the index. */
  function Outside(m: S.Machine, ops: seq<S.Op>): S.Machine {
    if ops == [] then m else S.Apply(Outside(m, ops[..|ops| - 1]), ops[|ops| - 1]).0
  }

  // -------------------------------------------------------------------------- the page of a turn

  /** What happens around one check of the page: before the lease is read, when that is, and before the binding is. */
  datatype Check = Check(before: seq<S.Op>, at: int, between: seq<S.Op>, revoked: T.Clock)

  /** The indexes the check looked at, the one it left behind, and its verdict. */
  datatype Page = Page(forLease: S.Machine, forBinding: S.Machine, index: S.Machine, current: bool)

  // `currentSurfaceLease`
  function LeaseNow(m: S.Machine, k: S.Key, at: int): (S.Machine, Result<Option<S.Lease>, S.Code>) {
    match S.Apply(m, S.Reap(k.projectId, at))
    case (s, Ok(answer)) => (s, Ok(if answer.Listed? then Find(answer.leases, S.LeaseOf(k)) else None))
    case (s, Err(code)) => (s, Err(code))
  }

  // `currentSurfaceBinding`
  function BindingNow(m: S.Machine, k: S.Key): (S.Machine, Result<Option<S.Binding>, S.Code>) {
    match S.Apply(m, S.ReadBinding(k))
    case (s, Ok(answer)) => (s, Ok(if answer.Found? then answer.found else None))
    case (s, Err(code)) => (s, Err(code))
  }

  // `requireCurrentTurnSurface`: a candidate page will do for BOOT, every later phase needs it committed.
  function CheckPage(m: S.Machine, binding: T.Binding, check: Check): Page {
    var m1 := Outside(m, check.before);
    if binding.generation < 1 then Page(m1, m1, m1, false)
    else
      var (m2, lease) := LeaseNow(m1, KeyOf(binding), check.at);
      if lease.Err? || lease.value.None? || lease.value.value.generation != binding.generation then Page(m1, m2, m2, false)
      else if binding.turn.phase == "BOOT" then Page(m1, m2, m2, true)
      else
        var m3 := Outside(m2, check.between);
        var (m4, committed) := BindingNow(m3, KeyOf(binding));
        Page(m1, m3, m4, committed.Ok? && committed.value.Some? && committed.value.value.generation == binding.generation)
  }

  // A turn whose page is no longer current is revoked on the spot.
  ghost function Validate(b: T.Broker, m: S.Machine, token: T.Secret, binding: T.Binding, check: Check)
    : (T.Broker, Page, Option<T.Error>)
  {
    var page := CheckPage(m, binding, check);
    if page.current then (b, page, None)
    else
      match T.Apply(b, T.Revoke(token), check.revoked)
      case (b', Err(error)) => (b', page, Some(if error == T.TokenRevoked then T.StaleBindingEpoch else error))
      case (b', Ok(_)) => (b', page, Some(T.StaleBindingEpoch))
  }

  // -------------------------------------------------------------------------- claiming a turn

  datatype ClaimClocks = ClaimClocks(live: T.Clock, claim: T.Clock, resolve: T.Clock, release: T.Clock, status: T.Clock, revoke: T.Clock)

  datatype ClaimCall = ClaimCall(token: T.Secret, scopes: set<string>, before: Check, behind: Check, registered: bool, clocks: ClaimClocks)

  /** The activity lease of a tool call and the page the last check saw. */
  datatype Claimed = Claimed(lease: T.Secret, expiresAt: int, page: Page)

  // `validateLease`
  function LeaseRefused(p: T.Broker, token: T.Secret, lease: T.Secret): Option<T.Error> {
    if token !in p.records then Some(T.LeaseNotFound)
    else if lease in p.records[token].expiredLeases then Some(T.LeaseExpired)
    else if lease !in p.records[token].leases then Some(T.LeaseNotFound)
    else None
  }

  // `releaseFailedClaim`
  ghost function ReleaseFailed(b: T.Broker, token: T.Secret, lease: T.Secret, clocks: ClaimClocks): T.Broker {
    var released := T.Apply(b, T.Release(token, lease), clocks.release).0;
    var seen := T.Apply(released, T.Status(token), clocks.status).0;
    if token in seen.records && T.Live(seen.records[token]) then T.Apply(seen, T.Revoke(token), clocks.revoke).0 else seen
  }

  // The claim from its granted lease on.
  ghost function Granted(b: T.Broker, m: S.Machine, binding: T.Binding, lease: T.Secret, expiresAt: int, call: ClaimCall)
    : (T.Broker, S.Machine, Result<Claimed, Error>)
  {
    var (b1, page, stale) := Validate(b, m, call.token, binding, call.behind);
    if stale.Some? then (ReleaseFailed(b1, call.token, lease, call.clocks), page.index, Err(Turn(stale.value)))
    else
      var b2 := T.Prune(b1, call.clocks.resolve);
      var refused := LeaseRefused(b2, call.token, lease);
      if refused.Some? then (ReleaseFailed(b2, call.token, lease, call.clocks), page.index, Err(Turn(refused.value)))
      else if !call.registered then (ReleaseFailed(b2, call.token, lease, call.clocks), page.index, Err(NotRegistered))
      else (b2, page.index, Ok(Claimed(lease, expiresAt, page)))
  }

  ghost function ClaimTurn(b: T.Broker, m: S.Machine, call: ClaimCall): (T.Broker, S.Machine, Result<Claimed, Error>) {
    if call.scopes == {} then (b, m, Err(NoScopes))
    else
      var p := T.Prune(b, call.clocks.live);
      var dead := T.Resolve(p, call.token);
      if dead.Some? then (p, m, Err(Turn(dead.value)))
      else
        var binding := p.records[call.token].binding;
        var (b1, page, stale) := Validate(p, m, call.token, binding, call.before);
        if stale.Some? then (b1, page.index, Err(Turn(stale.value)))
        else
          match T.Apply(b1, T.Claim(call.token, binding, call.scopes, DEFAULT_LEASE_TTL_MS), call.clocks.claim)
          case (b2, Err(error)) => (b2, page.index, Err(Turn(error)))
          case (b2, Ok(answer)) =>
            if answer.Leased? then Granted(b2, page.index, binding, answer.lease, answer.leaseExpiresAt, call)
            else (b2, page.index, Err(NotRegistered))
  }

  // -------------------------------------------------------------------------- renewing a lease

  /** `owner` is the turn the lease was issued under, which the lease object itself proves. */
  datatype RenewCall = RenewCall(token: T.Secret, owner: T.Secret, lease: T.Secret, ttlMs: int, before: Check, behind: Check,
                                 live: T.Clock, renew: T.Clock)

  ghost function RenewTurn(b: T.Broker, m: S.Machine, call: RenewCall): (T.Broker, S.Machine, Result<Claimed, Error>) {
    var p := T.Prune(b, call.live);
    var refused := LeaseRefused(p, call.owner, call.lease);
    if refused.Some? then (p, m, Err(Turn(refused.value)))
    else
      var binding := p.records[call.owner].binding;
      var (b1, page, stale) := Validate(p, m, call.token, binding, call.before);
      if stale.Some? then (b1, page.index, Err(Turn(stale.value)))
      else
        match T.Apply(b1, T.Renew(call.token, call.lease, binding, call.ttlMs), call.renew)
        case (b2, Err(error)) => (b2, page.index, Err(Turn(error)))
        case (b2, Ok(answer)) =>
          var (b3, page', stale') := Validate(b2, page.index, call.token, binding, call.behind);
          if stale'.Some? then (b3, page'.index, Err(Turn(stale'.value)))
          else (b3, page'.index, Ok(Claimed(call.lease, if answer.Renewed? then answer.leaseExpiresAt else 0, page')))
  }

  // -------------------------------------------------------------------------- claiming a page

  /** The unresolved control request of the session: its page generation, and whether a live turn answers it. */
  datatype Pending = Pending(generation: Option<nat>, live: bool)

  datatype PageCall = PageCall(workspaceId: string, request: S.Request, registered: bool, listedAt: int, before: seq<S.Op>,
                               between: seq<S.Op>, pending: Option<Pending>, revoked: T.Clock)

  function SessionSelector(workspaceId: string, k: S.Key): T.Selector { T.BySession(workspaceId, k.projectId, k.sessionId) }

  // The request may take back the page it lost.
  predicate TakesBack(previous: Option<S.Lease>, committed: Option<S.Binding>, call: PageCall)
    requires call.pending.Some?
  {
    previous.None? && committed.Some? && committed.value.route == call.request.route
    && call.pending.value.generation == Some(committed.value.generation) && call.pending.value.live
  }

  // With an unresolved request, nothing but taking its page back.
  function TakenBack(m: S.Machine, previous: Option<S.Lease>, call: PageCall): (S.Machine, Result<S.Lease, Error>)
    requires call.pending.Some?
  {
    var q := call.request;
    var (m', committed) := BindingNow(m, q.route.key);
    if committed.Err? then (m', Err(Surface(committed.error)))
    else if !TakesBack(previous, committed.value, call) then (m', Err(ControlUnresolved))
    else
      match S.Apply(m', S.Recover(committed.value.value, q.owner, q.ttlMs, q.now))
      case (m'', Ok(answer)) => (m'', if answer.Owned? then Ok(answer.lease) else Err(NotRegistered))
      case (m'', Err(code)) => (m'', Err(Surface(code)))
  }

  // A page of another generation ends the live turns of the session.
  ghost function PageClaimed(b: T.Broker, m: S.Machine, previous: Option<S.Lease>, call: PageCall)
    : (T.Broker, S.Machine, Result<S.Lease, Error>)
  {
    match S.Apply(m, S.Claim(call.request))
    case (m', Err(code)) => (b, m', Err(Surface(code)))
    case (m', Ok(answer)) =>
      if !answer.Owned? then (b, m', Err(NotRegistered))
      else if previous.Some? && previous.value.generation == answer.lease.generation then (b, m', Ok(answer.lease))
      else
        (T.Apply(b, T.RevokeAll(SessionSelector(call.workspaceId, call.request.route.key)), call.revoked).0, m', Ok(answer.lease))
  }

  ghost function SurfaceClaim(g: Gateway, call: PageCall): (Gateway, Result<S.Lease, Error>) {
    var q, k := call.request, call.request.route.key;
    if k in g.submitting then (g, Err(SubmissionInProgress))
    else if !call.registered then (g, Err(NotRegistered))
    else
      var (m1, previous) := LeaseNow(Outside(g.index, call.before), k, call.listedAt);
      if previous.Err? then (g.(index := m1), Err(Surface(previous.error)))
      else
        var repeats := previous.value.Some? && previous.value.value.route == q.route && previous.value.value.owner == q.owner;
        var m2 := Outside(m1, call.between);
        if !repeats && call.pending.Some? then
          var (m, outcome) := TakenBack(m2, previous.value, call);
          (g.(index := m), outcome)
        else
          var (b, m, outcome) := PageClaimed(g.broker, m2, previous.value, call);
          (g.(broker := b, index := m), outcome)
  }

  /** Renewing, committing, releasing or retiring the page of a session. */
  datatype PageOp = PageOp(key: S.Key, op: S.Op, revokes: Option<T.Selector>, revoked: T.Clock)

  predicate PageOpOf(p: PageOp) {
    match p.op
    case Renew(ref, _, _) => ref.key == p.key && p.revokes.None?
    case Release(ref, _) => ref.key == p.key && p.revokes.None?
    case Commit(ref, _, _) => ref.key == p.key && (p.revokes.Some? ==> p.revokes.value.ByRequest?)
    case Retire(k) => k == p.key && (p.revokes.Some? ==> p.revokes.value.BySession?)
    case _ => false
  }

  // A retirement revokes first; a commit revokes the turn that booted the page once it is saved.
  ghost function SurfaceChange(g: Gateway, p: PageOp, before: seq<S.Op>): (Gateway, Result<S.Answer, Error>) {
    if p.key in g.submitting then (g, Err(SubmissionInProgress))
    else
      var m := Outside(g.index, before);
      var (m', outcome) := S.Apply(m, p.op);
      var b := if p.revokes.Some? && (p.op.Retire? || outcome.Ok?) then T.Apply(g.broker, T.RevokeAll(p.revokes.value), p.revoked).0 else g.broker;
      (g.(index := m', broker := b), if outcome.Ok? then Ok(outcome.value) else Err(Surface(outcome.error)))
  }

  // -------------------------------------------------------------------------- committing a result

  ghost function BeginCompletion(g: Gateway, token: T.Secret, live: T.Clock, begin: T.Clock): (Gateway, Result<T.Secret, Error>) {
    var p := T.Prune(g.broker, live);
    var dead := T.Resolve(p, token);
    if dead.Some? then (g.(broker := p), Err(Turn(dead.value)))
    else
      var binding := p.records[token].binding;
      if KeyOf(binding) in g.submitting then (g.(broker := p), Err(Turn(T.CompletionAlreadyStarted)))
      else
        match T.Apply(p, T.BeginCompletion(token, binding), begin)
        case (b, Ok(Fenced(fence, _))) =>
          (g.(broker := b, submitting := g.submitting + {KeyOf(binding)}, fences := g.fences[fence := KeyOf(binding)]), Ok(fence))
        case (b, Err(error)) => (g.(broker := b), Err(Turn(error)))
        case (b, _) => (g.(broker := b), Err(NotRegistered))
  }

  function FreeFence(g: Gateway, fence: T.Secret): Gateway {
    if fence !in g.fences then g
    else g.(submitting := g.submitting - {g.fences[fence]}, fences := g.fences - {fence})
  }

  // A completion that is refused leaves the session closed, an abort opens it whatever its answer.
  ghost function CompleteTurn(g: Gateway, fence: T.Secret, c: T.Clock): (Gateway, T.Outcome) {
    var (b, outcome) := T.Apply(g.broker, T.Complete(fence), c);
    var g' := g.(broker := b);
    (if outcome.Ok? then FreeFence(g', fence) else g', outcome)
  }

  ghost function AbortTurnCompletion(g: Gateway, fence: T.Secret, c: T.Clock): (Gateway, T.Outcome) {
    var (b, outcome) := T.Apply(g.broker, T.AbortCompletion(fence), c);
    (FreeFence(g.(broker := b), fence), outcome)
  }

  // -------------------------------------------------------------------------- everything together

  /** What can happen to a gateway; the last two are its remaining broker calls and other processes. */
  datatype Call =
    | Claims(claim: ClaimCall)
    | Renews(renewal: RenewCall)
    | ClaimsPage(page: PageCall)
    | ChangesPage(change: PageOp, before: seq<S.Op>)
    | Begins(token: T.Secret, live: T.Clock, begin: T.Clock)
    | Completes(fence: T.Secret, clock: T.Clock)
    | Aborts(fence: T.Secret, clock: T.Clock)
    | UsesBroker(op: T.Op, clock: T.Clock)
    | Others(ops: seq<S.Op>)

  // Turns are issued by replacing their session; completions go through the calls above.
  predicate BrokerCall(op: T.Op) {
    !op.Issue? && !op.Claim? && !op.Renew? && !op.BeginCompletion? && !op.Complete? && !op.AbortCompletion?
  }

  predicate WellPosed(call: Call) {
    match call
    case Claims(c) =>
      && T.Ordered(c.clocks.live) && T.Ordered(c.clocks.claim) && T.Ordered(c.clocks.resolve) && T.Ordered(c.clocks.release)
      && T.Ordered(c.clocks.status) && T.Ordered(c.clocks.revoke) && T.Ordered(c.before.revoked) && T.Ordered(c.behind.revoked)
    case Renews(c) => T.Ordered(c.live) && T.Ordered(c.renew) && T.Ordered(c.before.revoked) && T.Ordered(c.behind.revoked)
    case ClaimsPage(c) => T.Ordered(c.revoked)
    case ChangesPage(p, _) => T.Ordered(p.revoked) && PageOpOf(p)
    case Begins(_, live, begin) => T.Ordered(live) && T.Ordered(begin)
    case Completes(_, c) => T.Ordered(c)
    case Aborts(_, c) => T.Ordered(c)
    case UsesBroker(op, c) => T.Ordered(c) && BrokerCall(op)
    case Others(_) => true
  }

  ghost function Apply(g: Gateway, call: Call): Gateway {
    match call
    case Claims(c) => var (b, m, _) := ClaimTurn(g.broker, g.index, c); g.(broker := b, index := m)
    case Renews(c) => var (b, m, _) := RenewTurn(g.broker, g.index, c); g.(broker := b, index := m)
    case ClaimsPage(c) => SurfaceClaim(g, c).0
    case ChangesPage(p, before) => SurfaceChange(g, p, before).0
    case Begins(token, live, begin) => BeginCompletion(g, token, live, begin).0
    case Completes(fence, c) => CompleteTurn(g, fence, c).0
    case Aborts(fence, c) => AbortTurnCompletion(g, fence, c).0
    case UsesBroker(op, c) => g.(broker := T.Apply(g.broker, op, c).0)
    case Others(ops) => g.(index := Outside(g.index, ops))
  }

  /** The gateway after the given calls, started empty. */
  ghost function After(limit: nat, calls: seq<Call>): Gateway {
    if calls == [] then Empty(limit) else Apply(After(limit, calls[..|calls| - 1]), calls[|calls| - 1])
  }
}
