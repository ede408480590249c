/**
 The turn capability broker of src/gateway/turn-capability.ts as a function of its state.

 Secrets are numbered in the order they are drawn, which makes them fresh and distinct and gives
 the broker's insertion-ordered tables their order.  One call may read the clock several times, so
 every operation takes three readings.  `Apply` is the specification of the class in
 TurnCapabilityBroker.dfy; the theorems here are about whole runs of it.
 */
module TurnCapability {
  import opened Wrappers

  const MIN_CAPABILITY_TTL_MS := 1_000
  const MAX_CAPABILITY_TTL_MS := 3_600_000
  const MIN_LEASE_TTL_MS := 100
  const MAX_LEASE_TTL_MS := 300_000

  type Secret = nat

  datatype Session = Session(workspaceId: string, projectId: string, registrationId: string, localSessionId: string)

  datatype Turn = Turn(taskId: string, iteration: nat, phase: string, requestId: string)

  datatype Binding = Binding(
    session: Session,
    turn: Turn,
    scopes: set<string>,
    modelId: Option<string>,
    effort: Option<string>,
    compactionEpoch: nat,
    generation: nat)

  datatype State = Issued | Active | Completing | Completed | Cancelled | Revoked | Expired

  datatype Record = Record(
    binding: Binding,
    issuedAt: int,
    ttlMs: int,
    expiresAt: int,
    state: State,
    leases: map<Secret, int>,
    expiredLeases: set<Secret>,
    fence: Option<Secret>,
    terminalAt: int)

  datatype Epoch = Epoch(compactionEpoch: nat, generation: nat)

  datatype Broker = Broker(
    records: map<Secret, Record>,
    fences: map<Secret, Secret>,
    used: seq<Secret>,
    epochs: map<Session, Epoch>,
    maxTombstones: nat,
    next: Secret)

  /** The readings of one call: on entry, while sweeping expired leases, and when it takes effect. */
  datatype Clock = Clock(enter: int, sweep: int, act: int)

  predicate Ordered(c: Clock) { c.enter <= c.sweep <= c.act }

  datatype Error =
    | TokenNotFound | TokenExpired | TokenCancelled | TokenRevoked | TokenCompleted
    | BootEpochMismatch | BindingMismatch | ScopeDenied | StaleBindingEpoch | InvalidTtl
    | LeaseNotFound | LeaseExpired | NotClaimed | CompletionAlreadyStarted | ActiveLeasesRemain
    | FenceInvalid | FenceReplayed

  datatype Answer =
    | Granted(token: Secret, expiresAt: int)
    | KeptAlive(token: Secret, expiresAt: int)
    | Leased(lease: Secret, leaseExpiresAt: int)
    | Renewed(leaseExpiresAt: int)
    | Released(released: bool)
    | Fenced(fence: Secret, activeLeaseCount: nat)
    | Finished(at: int)
    | Reopened
    | Done
    | RevokedCount(count: nat)

  type Outcome = Result<Answer, Error>

  /** Which live turns a bulk revocation addresses. */
  datatype Selector =
    | ByBinding(binding: Binding)
    | ByRequest(workspaceId: string, projectId: string, localSessionId: string, turn: Turn)
    | BySession(workspaceId: string, projectId: string, localSessionId: string)
    | ByRegistration(workspaceId: string, projectId: string, registrationId: string)
  {
    predicate Matches(b: Binding) {
      match this
      case ByBinding(expected) => b == expected
      case ByRequest(w, p, l, turn) =>
        b.session.workspaceId == w && b.session.projectId == p && b.session.localSessionId == l && b.turn == turn
      case BySession(w, p, l) =>
        b.session.workspaceId == w && b.session.projectId == p && b.session.localSessionId == l
      case ByRegistration(w, p, r) =>
        b.session.workspaceId == w && b.session.projectId == p && b.session.registrationId == r
    }

    // `revokeSession` also forgets the epochs of the session under every registration.
    predicate Forgets(s: Session) {
      BySession? && s.workspaceId == workspaceId && s.projectId == projectId && s.localSessionId == localSessionId
    }
  }

  datatype Op =
    | Issue(binding: Binding, ttlMs: int)
    | IssueReplacingSession(binding: Binding, ttlMs: int)
    | KeepAliveRequest(session: Session, turn: Turn, generation: nat, observedAt: int)
    | Claim(token: Secret, expected: Binding, requiredScopes: set<string>, leaseTtlMs: int)
    | Renew(token: Secret, lease: Secret, expected: Binding, leaseTtlMs: int)
    | Release(token: Secret, lease: Secret)
    | BeginCompletion(token: Secret, expected: Binding)
    | Complete(fence: Secret)
    | AbortCompletion(fence: Secret)
    | Cancel(token: Secret)
    | Revoke(token: Secret)
    | RevokeAll(selector: Selector)
    | Status(token: Secret)
    | Inspect

  function Empty(maxTombstones: nat): Broker {
    Broker(map[], map[], [], map[], maxTombstones, 0)
  }

  predicate Terminal(s: State) { s in {Completed, Cancelled, Revoked, Expired} }

  predicate Live(r: Record) { !Terminal(r.state) }

  predicate Drained(r: Record) { Terminal(r.state) && r.leases == map[] }

  function ErrorFor(s: State): Error {
    match s
    case Expired => TokenExpired
    case Cancelled => TokenCancelled
    case Revoked => TokenRevoked
    case Completed => TokenCompleted
    case _ => TokenNotFound
  }

  function Min(a: int, b: int): int { if a < b then a else b }
  function Max(a: int, b: int): int { if a < b then b else a }

  // -------------------------------------------------------------------------- sweeping and eviction

  function Terminated(r: Record, s: State, now: int): Record {
    r.(state := s, terminalAt := now, fence := None)
  }

  function Swept(r: Record, now: int): Record {
    r.(leases := map l | l in r.leases && r.leases[l] > now :: r.leases[l],
       expiredLeases := r.expiredLeases + set l | l in r.leases && r.leases[l] <= now)
  }

  predicate Due(r: Record, now: int) { Live(r) && now >= r.expiresAt }

  // The fences of the chosen turns among the first n secrets, in insertion order.
  function FenceList(records: map<Secret, Record>, chosen: set<Secret>, n: nat): seq<Secret> {
    if n == 0 then []
    else
      var earlier := FenceList(records, chosen, n - 1);
      if n - 1 in records && n - 1 in chosen && records[n - 1].fence.Some? then earlier + [records[n - 1].fence.value]
      else earlier
  }

  function TerminateAll(b: Broker, chosen: set<Secret>, s: State, now: int): Broker {
    b.(records := map t | t in b.records ::
         if t in chosen then Terminated(b.records[t], s, now) else b.records[t],
       fences := map f | f in b.fences && f !in FenceList(b.records, chosen, b.next) :: b.fences[f],
       used := b.used + FenceList(b.records, chosen, b.next))
  }

  // A stable sort by termination time, as the eviction performs it on the drained tombstones.
  function InsertByAge(records: map<Secret, Record>, sorted: seq<Secret>, t: Secret): seq<Secret>
    requires t in records && forall x | x in sorted :: x in records
  {
    if sorted == [] then [t]
    else if records[t].terminalAt < records[sorted[0]].terminalAt then [t] + sorted
    else [sorted[0]] + InsertByAge(records, sorted[1..], t)
  }

  function Tombstones(records: map<Secret, Record>, n: nat): (sorted: seq<Secret>)
    ensures forall x :: x in sorted <==> x < n && x in records && Drained(records[x])
  {
    if n == 0 then []
    else
      var sorted := Tombstones(records, n - 1);
      if n - 1 in records && Drained(records[n - 1]) then
        InsertByAgeElements(records, sorted, n - 1);
        InsertByAge(records, sorted, n - 1)
      else sorted
  }

  lemma InsertByAgeElements(records: map<Secret, Record>, sorted: seq<Secret>, t: Secret)
    requires t in records && forall x | x in sorted :: x in records
    ensures forall x :: x in InsertByAge(records, sorted, t) <==> x == t || x in sorted
  {
    if sorted != [] && records[t].terminalAt >= records[sorted[0]].terminalAt {
      InsertByAgeElements(records, sorted[1..], t);
      assert sorted == [sorted[0]] + sorted[1..];
    }
  }

  function Excess(count: nat, limit: nat): nat { if count > limit then count - limit else 0 }

  function Evicted(b: Broker): set<Secret> {
    var order := Tombstones(b.records, b.next);
    set t | t in order[..Excess(|order|, b.maxTombstones)]
  }

  function Trim(b: Broker): Broker {
    b.(records := b.records - Evicted(b), used := b.used[Excess(|b.used|, b.maxTombstones)..])
  }

  function DueTokens(b: Broker, now: int): set<Secret> {
    set t | t in b.records && Due(b.records[t], now)
  }

  // Due turns have expired and every turn has been swept.
  function Expelled(b: Broker, c: Clock): Broker {
    var e := TerminateAll(b, DueTokens(b, c.enter), Expired, c.enter);
    e.(records := map t | t in e.records :: Swept(e.records[t], c.sweep))
  }

  function Prune(b: Broker, c: Clock): Broker { Trim(Expelled(b, c)) }

  // -------------------------------------------------------------------------- operations

  predicate TtlOk(ttl: int) { MIN_CAPABILITY_TTL_MS <= ttl <= MAX_CAPABILITY_TTL_MS }

  predicate LeaseTtlOk(ttl: int) { MIN_LEASE_TTL_MS <= ttl <= MAX_LEASE_TTL_MS }

  predicate EpochFresh(b: Broker, binding: Binding) {
    binding.session in b.epochs ==>
      && binding.compactionEpoch >= b.epochs[binding.session].compactionEpoch
      && binding.generation >= b.epochs[binding.session].generation
  }

  function Put(b: Broker, t: Secret, r: Record): Broker { b.(records := b.records[t := r]) }

  function Grant(b: Broker, binding: Binding, ttl: int, now: int): (Broker, Outcome) {
    (Put(b, b.next, Record(binding, now, ttl, now + ttl, Issued, map[], {}, None, 0)).(next := b.next + 1),
     Ok(Granted(b.next, now + ttl)))
  }

  function LiveTokens(b: Broker, chosen: set<Secret>): set<Secret> {
    set t | t in b.records && t in chosen && Live(b.records[t])
  }

  function SessionTokens(b: Broker, s: Session): set<Secret> {
    set t | t in b.records && b.records[t].binding.session == s
  }

  function SelectedTokens(b: Broker, selector: Selector): set<Secret> {
    set t | t in b.records && selector.Matches(b.records[t].binding)
  }

  function ReplaceAt(p: Broker, binding: Binding, ttl: int, now: int): (Broker, Outcome) {
    if exists t | t in SessionTokens(p, binding.session) :: p.records[t].leases != map[] then
      (p, Err(ActiveLeasesRemain))
    else
      var (g, answer) := Grant(Cleared(p, binding.session, now), binding, ttl, now);
      (g.(epochs := g.epochs[binding.session := Epoch(binding.compactionEpoch, binding.generation)]), answer)
  }

  // What `issueReplacingSession` has done when it grants the new turn.
  function Cleared(p: Broker, s: Session, now: int): Broker {
    Trim(TerminateAll(p, LiveTokens(p, SessionTokens(p, s)), Revoked, now))
  }

  function RequestTokens(b: Broker, session: Session, turn: Turn, generation: nat): set<Secret> {
    set t | t in b.records && Live(b.records[t]) && b.records[t].binding.session == session &&
            b.records[t].binding.turn == turn && b.records[t].binding.generation == generation
  }

  ghost function KeepAliveAt(p: Broker, session: Session, turn: Turn, generation: nat, observedAt: int, now: int)
    : (Broker, Outcome)
  {
    var matching := RequestTokens(p, session, turn, generation);
    if observedAt < now - 60_000 || observedAt > now + 5_000 then (p, Err(BindingMismatch))
    else if |matching| != 1 then (p, Err(TokenNotFound))
    else
      var t :| t in matching;
      var r := p.records[t];
      if !EpochFresh(p, r.binding) then (p, Err(StaleBindingEpoch))
      else if r.state == Completing then (p, Err(CompletionAlreadyStarted))
      else
        var expiresAt := Max(r.expiresAt, Min(observedAt, now) + r.ttlMs);
        (Put(p, t, r.(expiresAt := expiresAt)), Ok(KeptAlive(t, expiresAt)))
  }

  // `resolveLiveToken` after its prune.
  function Resolve(p: Broker, t: Secret): Option<Error> {
    if t !in p.records then Some(TokenNotFound)
    else if Terminal(p.records[t].state) then Some(ErrorFor(p.records[t].state))
    else None
  }

  // A lease cannot outlive its capability; one that would already be over expires the capability.
  function Lend(p: Broker, t: Secret, lease: Secret, ttl: int, now: int): (Broker, Result<int, Error>)
    requires t in p.records
  {
    var r := p.records[t];
    var expiry := Min(now + ttl, r.expiresAt);
    if expiry <= now then (TerminateAll(p, {t}, Expired, now), Err(TokenExpired))
    else
      (Put(p, t, r.(state := if r.state == Completing then Completing else Active, leases := r.leases[lease := expiry])),
       Ok(expiry))
  }

  function ClaimAt(p: Broker, t: Secret, expected: Binding, scopes: set<string>, ttl: int, now: int)
    : (Broker, Outcome)
  {
    var error := Resolve(p, t);
    if error.Some? then (p, Err(error.value))
    else
      var r := p.records[t];
      if r.binding != expected then (p, Err(BindingMismatch))
      else if !(scopes <= r.binding.scopes) then (p, Err(ScopeDenied))
      else if r.state == Completing then (p, Err(CompletionAlreadyStarted))
      else if !LeaseTtlOk(ttl) then (p, Err(InvalidTtl))
      else
        match Lend(p, t, p.next, ttl, now)
        case (q, Ok(expiry)) => (q.(next := p.next + 1), Ok(Leased(p.next, expiry)))
        case (q, Err(e)) => (q, Err(e))
  }

  function RenewAt(p: Broker, t: Secret, lease: Secret, expected: Binding, ttl: int, now: int): (Broker, Outcome) {
    var error := Resolve(p, t);
    if error.Some? then (p, Err(error.value))
    else
      var r := p.records[t];
      if r.binding != expected then (p, Err(BindingMismatch))
      else if r.state == Issued then (p, Err(TokenNotFound))
      else if lease in r.expiredLeases then (p, Err(LeaseExpired))
      else if lease !in r.leases then (p, Err(LeaseNotFound))
      else if r.leases[lease] <= now then (Put(p, t, Swept(r, now)), Err(LeaseExpired))
      else if !LeaseTtlOk(ttl) then (p, Err(InvalidTtl))
      else
        match Lend(p, t, lease, ttl, now)
        case (q, Ok(expiry)) => (q, Ok(Renewed(expiry)))
        case (q, Err(e)) => (q, Err(e))
  }

  function ReleaseAt(p: Broker, t: Secret, lease: Secret, now: int): (Broker, Outcome) {
    if t !in p.records then (p, Err(TokenNotFound))
    else
      var r := Swept(p.records[t], now);
      if lease !in r.leases then (Put(p, t, r), Ok(Released(false)))
      else (Trim(Put(p, t, r.(leases := r.leases - {lease}))), Ok(Released(true)))
  }

  // A turn takes the next secret as its fence.
  function WithFence(b: Broker, t: Secret, r: Record): Broker {
    Put(b, t, r).(fences := b.fences[b.next := t], next := b.next + 1)
  }

  function BeginCompletionAt(p: Broker, t: Secret, expected: Binding, now: int): (Broker, Outcome) {
    var error := Resolve(p, t);
    if error.Some? then (p, Err(error.value))
    else
      var r := p.records[t];
      if r.binding != expected then (p, Err(BindingMismatch))
      else if r.state == Completing then (p, Err(CompletionAlreadyStarted))
      else if r.state == Issued then (p, Err(NotClaimed))
      else
        var s := Swept(r, now).(state := Completing, fence := Some(p.next));
        (WithFence(p, t, s), Ok(Fenced(p.next, |s.leases|)))
  }

  // The turn a fence was issued for, looked up before anything is pruned.
  function ResolveFence(b: Broker, fence: Secret): Result<Secret, Error> {
    if fence in b.used then Err(FenceReplayed)
    else if fence !in b.fences then Err(FenceInvalid)
    else if b.fences[fence] !in b.records then Err(BootEpochMismatch)
    else Ok(b.fences[fence])
  }

  function ConsumeFence(b: Broker, t: Secret, fence: Secret, r: Record): Broker {
    Put(b, t, r.(fence := None)).(fences := b.fences - {fence}, used := b.used + [fence])
  }

  // `found` is the turn as the caller found it before pruning; an evicted turn can only have expired.
  function CompleteAt(p: Broker, t: Secret, fence: Secret, found: Record, c: Clock): (Broker, Outcome) {
    if Due(found, c.enter) then (p, Err(TokenExpired))
    else if found.state != Completing || t !in p.records then (p, Err(ErrorFor(found.state)))
    else
      var r := Swept(p.records[t], c.act);
      if r.leases != map[] then (Put(p, t, r), Err(ActiveLeasesRemain))
      else (Trim(ConsumeFence(p, t, fence, r.(state := Completed, terminalAt := c.act))), Ok(Finished(c.act)))
  }

  function AbortAt(p: Broker, t: Secret, fence: Secret, found: Record, c: Clock): (Broker, Outcome) {
    if Due(found, c.enter) then (p, Err(TokenExpired))
    else if found.state != Completing || found.fence != Some(fence) || t !in p.records then
      (p, Err(ErrorFor(found.state)))
    else (ConsumeFence(p, t, fence, p.records[t].(state := Active)), Ok(Reopened))
  }

  function EndAt(p: Broker, t: Secret, s: State, now: int): (Broker, Outcome) {
    var error := Resolve(p, t);
    if error.Some? then (p, Err(error.value))
    else (Trim(TerminateAll(p, {t}, s, now)), Ok(Done))
  }

  function RevokeAllAt(p: Broker, selector: Selector, now: int): (Broker, Outcome) {
    var chosen := LiveTokens(p, SelectedTokens(p, selector));
    var q := TerminateAll(p, chosen, Revoked, now);
    (Trim(q.(epochs := map s | s in q.epochs && !selector.Forgets(s) :: q.epochs[s])), Ok(RevokedCount(|chosen|)))
  }

  function StatusAt(p: Broker, t: Secret, now: int): Broker {
    if t in p.records then Put(p, t, Swept(p.records[t], now)) else p
  }

  // The part of an operation that follows its prune.
  ghost function ApplyPruned(p: Broker, op: Op, c: Clock): (Broker, Outcome)
    requires !op.Complete? && !op.AbortCompletion?
  {
    match op
    case Issue(binding, ttl) => Grant(p, binding, ttl, c.enter)
    case IssueReplacingSession(binding, ttl) => ReplaceAt(p, binding, ttl, c.enter)
    case KeepAliveRequest(session, turn, generation, observedAt) =>
      KeepAliveAt(p, session, turn, generation, observedAt, c.enter)
    case Claim(t, expected, scopes, ttl) => ClaimAt(p, t, expected, scopes, ttl, c.act)
    case Renew(t, lease, expected, ttl) => RenewAt(p, t, lease, expected, ttl, c.act)
    case Release(t, lease) => ReleaseAt(p, t, lease, c.act)
    case BeginCompletion(t, expected) => BeginCompletionAt(p, t, expected, c.act)
    case Cancel(t) => EndAt(p, t, Cancelled, c.act)
    case Revoke(t) => EndAt(p, t, Revoked, c.act)
    case RevokeAll(selector) => RevokeAllAt(p, selector, c.enter)
    case Status(t) => (StatusAt(p, t, c.act), Ok(Done))
    case Inspect => (p, Ok(Done))
  }

  // The reasons to refuse an operation before anything is pruned.
  function RefusedEarly(b: Broker, op: Op): Option<Error> {
    match op
    case Issue(_, ttl) => if TtlOk(ttl) then None else Some(InvalidTtl)
    case IssueReplacingSession(binding, ttl) =>
      if !TtlOk(ttl) then Some(InvalidTtl)
      else if !EpochFresh(b, binding) then Some(StaleBindingEpoch)
      else None
    case Complete(fence) => (match ResolveFence(b, fence) case Err(e) => Some(e) case Ok(_) => None)
    case AbortCompletion(fence) => (match ResolveFence(b, fence) case Err(e) => Some(e) case Ok(_) => None)
    case _ => None
  }

  /** The effect and answer of one public operation. */
  ghost function Apply(b: Broker, op: Op, c: Clock): (Broker, Outcome) {
    var refused := RefusedEarly(b, op);
    if refused.Some? then (b, Err(refused.value))
    else
      match op
      case Complete(fence) => CompleteAt(Prune(b, c), b.fences[fence], fence, b.records[b.fences[fence]], c)
      case AbortCompletion(fence) => AbortAt(Prune(b, c), b.fences[fence], fence, b.records[b.fences[fence]], c)
      case _ => ApplyPruned(Prune(b, c), op, c)
  }

  // -------------------------------------------------------------------------- invariant

  ghost predicate RecordOk(b: Broker, t: Secret)
    requires t in b.records
  {
    var r := b.records[t];
    && t < b.next
    && TtlOk(r.ttlMs)
    && (r.state == Completing <==> r.fence.Some?)
    && (r.fence.Some? ==> r.fence.value in b.fences && b.fences[r.fence.value] == t)
    && (r.state == Completed ==> r.leases == map[])
    && (r.state == Expired ==> r.expiresAt <= r.terminalAt)
    && LeasesOk(r, b.next)
  }

  // Lease secrets have been drawn, live and expired ones differ, and no lease outlives its capability.
  ghost predicate LeasesOk(r: Record, next: Secret) {
    && (forall l | l in r.leases :: l < next && l !in r.expiredLeases && r.leases[l] <= r.expiresAt)
    && (forall l | l in r.expiredLeases :: l < next)
  }

  ghost predicate FenceOk(b: Broker, f: Secret)
    requires f in b.fences
  {
    f < b.next && b.fences[f] in b.records && b.records[b.fences[f]].fence == Some(f)
  }

  /** What every reachable broker satisfies. */
  ghost predicate WellFormed(b: Broker) {
    && (forall t | t in b.records :: RecordOk(b, t))
    && (forall f | f in b.fences :: FenceOk(b, f))
    && (forall f | f in b.used :: f < b.next && f !in b.fences)
  }

  /** The step from r to a later state of the same turn is one the lifecycle allows. */
  ghost predicate Successor(r: Record, r': Record, upTo: int) {
    && r'.binding == r.binding && r'.issuedAt == r.issuedAt && r'.ttlMs == r.ttlMs
    && r.expiresAt <= r'.expiresAt
    && (Terminal(r.state) ==> r'.state == r.state && r'.terminalAt == r.terminalAt && r'.expiresAt == r.expiresAt)
    && (Terminal(r.state) ==> r'.leases.Keys <= r.leases.Keys)
    && (Live(r) && Terminal(r'.state) ==> r'.terminalAt <= upTo)
    && (r'.expiresAt == r.expiresAt || r'.expiresAt <= upTo + r.ttlMs)
  }

  /** b' comes after b: secrets are never reused, turns move forward, only ended turns disappear. */
  ghost predicate Later(b: Broker, b': Broker, upTo: int) {
    && b.next <= b'.next && b'.maxTombstones == b.maxTombstones
    && (forall t | t in b'.records :: t in b.records || t >= b.next)
    && (forall f | f in b'.fences :: (f in b.fences && b'.fences[f] == b.fences[f]) || f >= b.next)
    && (forall t | t in b.records && t in b'.records :: Successor(b.records[t], b'.records[t], upTo))
  }

  ghost predicate NoNewTurns(b: Broker, b': Broker) {
    forall t | t in b'.records :: t in b.records
  }

  lemma LaterTransitive(a: Broker, b: Broker, c: Broker, upTo: int)
    requires Later(a, b, upTo) && Later(b, c, upTo)
    requires forall t | t in a.records :: t < a.next
    requires forall f | f in a.fences :: f < a.next
    ensures Later(a, c, upTo)
    ensures NoNewTurns(a, b) && NoNewTurns(b, c) ==> NoNewTurns(a, c)
  {
    forall t | t in a.records && t in c.records ensures Successor(a.records[t], c.records[t], upTo) {
      assert t in b.records;
    }
  }

  // The common shape of the lemmas below: a piece of an operation keeps the invariant and moves forward.
  ghost predicate Sound(b: Broker, b': Broker, upTo: int) {
    WellFormed(b) ==> WellFormed(b') && Later(b, b', upTo)
  }

  lemma SoundTransitive(a: Broker, b: Broker, c: Broker, upTo: int)
    requires Sound(a, b, upTo) && Sound(b, c, upTo)
    ensures Sound(a, c, upTo)
    ensures NoNewTurns(a, b) && NoNewTurns(b, c) ==> NoNewTurns(a, c)
  {
    if WellFormed(a) {
      assert forall t | t in a.records :: RecordOk(a, t);
      assert forall f | f in a.fences :: FenceOk(a, f);
      LaterTransitive(a, b, c, upTo);
    }
  }

  lemma {:induction false} FenceListElements(records: map<Secret, Record>, chosen: set<Secret>, n: nat)
    ensures forall f :: f in FenceList(records, chosen, n) <==>
      exists t :: t < n && t in records && t in chosen && records[t].fence == Some(f)
  {
    if n > 0 {
      FenceListElements(records, chosen, n - 1);
      var earlier := FenceList(records, chosen, n - 1);
      forall f | exists t :: t < n && t in records && t in chosen && records[t].fence == Some(f)
        ensures f in FenceList(records, chosen, n)
      {
        var t :| t < n && t in records && t in chosen && records[t].fence == Some(f);
        if t < n - 1 {
          assert f in earlier;
        }
      }
    }
  }

  lemma TerminateAllSound(b: Broker, chosen: set<Secret>, s: State, now: int, upTo: int)
    requires Terminal(s) && s != Completed
    requires forall t | t in chosen && t in b.records ::
      Live(b.records[t]) && (s == Expired ==> b.records[t].expiresAt <= now)
    requires now <= upTo
    ensures Sound(b, TerminateAll(b, chosen, s, now), upTo) && NoNewTurns(b, TerminateAll(b, chosen, s, now))
  {
    var b' := TerminateAll(b, chosen, s, now);
    if WellFormed(b) {
      TerminateAllLater(b, chosen, s, now, upTo);
      TerminateAllFences(b, chosen, s, now);
      forall t | t in b'.records ensures RecordOk(b', t) {
        TerminateAllRecord(b, chosen, s, now, t);
      }
      hide Later, RecordOk, FenceOk, FenceList;
    }
  }

  lemma TerminateAllLater(b: Broker, chosen: set<Secret>, s: State, now: int, upTo: int)
    requires WellFormed(b) && Terminal(s) && s != Completed && now <= upTo
    requires forall t | t in chosen && t in b.records :: Live(b.records[t])
    ensures Later(b, TerminateAll(b, chosen, s, now), upTo)
  {
    hide WellFormed, RecordOk, FenceOk, FenceList;
  }

  lemma TerminateAllRecord(b: Broker, chosen: set<Secret>, s: State, now: int, t: Secret)
    requires WellFormed(b) && Terminal(s) && s != Completed && t in b.records
    requires t in chosen && s == Expired ==> b.records[t].expiresAt <= now
    ensures RecordOk(TerminateAll(b, chosen, s, now), t)
  {
    FenceListElements(b.records, chosen, b.next);
    assert RecordOk(b, t);
    if t !in chosen && b.records[t].fence.Some? {
      var f := b.records[t].fence.value;
      forall u | u < b.next && u in b.records && b.records[u].fence == Some(f) ensures u == t {
        assert RecordOk(b, u);
      }
    }
  }

  lemma TerminateAllFences(b: Broker, chosen: set<Secret>, s: State, now: int)
    requires WellFormed(b) && Terminal(s) && s != Completed
    ensures var b' := TerminateAll(b, chosen, s, now);
      && (forall f | f in b'.fences :: FenceOk(b', f))
      && (forall f | f in b'.used :: f < b'.next && f !in b'.fences)
  {
    var b' := TerminateAll(b, chosen, s, now);
    FenceListElements(b.records, chosen, b.next);
    forall f | f in b'.fences ensures FenceOk(b', f) {
      assert FenceOk(b, f) && RecordOk(b, b.fences[f]);
    }
    forall f | f in b'.used ensures f < b'.next && f !in b'.fences {
      if f !in b.used {
        var t :| t < b.next && t in b.records && t in chosen && b.records[t].fence == Some(f);
        assert RecordOk(b, t) && FenceOk(b, f);
      }
    }
  }

  // Sweeping any choice of turns.
  lemma SweepSound(b: Broker, b': Broker, now: int, upTo: int)
    requires b' == b.(records := b'.records) && b'.records.Keys == b.records.Keys
    requires forall t | t in b.records :: b'.records[t] in {b.records[t], Swept(b.records[t], now)}
    ensures Sound(b, b', upTo) && NoNewTurns(b, b')
  {
    if WellFormed(b) {
      forall t | t in b'.records ensures RecordOk(b', t) {
        assert RecordOk(b, t);
      }
      forall f | f in b'.fences ensures FenceOk(b', f) {
        assert FenceOk(b, f);
      }
    }
  }

  lemma TrimSound(b: Broker, upTo: int)
    ensures Sound(b, Trim(b), upTo) && NoNewTurns(b, Trim(b))
  {
    var b' := Trim(b);
    var order := Tombstones(b.records, b.next);
    assert forall t | t in Evicted(b) :: t in order;
    assert forall f | f in b'.used :: f in b.used;
    if WellFormed(b) {
      forall t | t in b'.records ensures RecordOk(b', t) {
        assert RecordOk(b, t);
      }
      forall f | f in b'.fences ensures FenceOk(b', f) {
        assert FenceOk(b, f) && RecordOk(b, b.fences[f]);
      }
    }
  }

  lemma PruneSound(b: Broker, c: Clock)
    requires Ordered(c)
    ensures Sound(b, Prune(b, c), c.act) && NoNewTurns(b, Prune(b, c))
  {
    var e, s := TerminateAll(b, DueTokens(b, c.enter), Expired, c.enter), Expelled(b, c);
    TerminateAllSound(b, DueTokens(b, c.enter), Expired, c.enter, c.act);
    SweepSound(e, s, c.sweep, c.act);
    TrimSound(s, c.act);
    SoundTransitive(b, e, s, c.act);
    SoundTransitive(b, s, Prune(b, c), c.act);
  }

  // One live turn changes in place, its fence and everything around it stay.
  lemma PutSound(b: Broker, t: Secret, r: Record, next: Secret, upTo: int)
    requires t in b.records && b.next <= next
    requires WellFormed(b) ==>
      && Successor(b.records[t], r, upTo) && r.state != Completed && r.fence == b.records[t].fence
      && (r.state == Completing <==> b.records[t].state == Completing)
      && (r.state == Expired ==> b.records[t].state == Expired)
      && LeasesOk(r, next)
    ensures Sound(b, Put(b, t, r).(next := next), upTo) && NoNewTurns(b, Put(b, t, r).(next := next))
  {
    var b' := Put(b, t, r).(next := next);
    if WellFormed(b) {
      assert RecordOk(b, t);
      forall u | u in b'.records ensures RecordOk(b', u) {
        assert RecordOk(b, u);
      }
      forall f | f in b'.fences ensures FenceOk(b', f) {
        assert FenceOk(b, f);
      }
    }
  }

  lemma GrantSound(b: Broker, binding: Binding, ttl: int, now: int, upTo: int)
    requires TtlOk(ttl)
    ensures Sound(b, Grant(b, binding, ttl, now).0, upTo)
  {
    var b' := Grant(b, binding, ttl, now).0;
    if WellFormed(b) {
      forall t | t in b'.records ensures RecordOk(b', t) {
        assert t != b.next ==> RecordOk(b, t);
      }
      forall f | f in b'.fences ensures FenceOk(b', f) {
        assert FenceOk(b, f) && RecordOk(b, b.fences[f]);
      }
      assert forall t | t in b.records :: RecordOk(b, t);
    }
  }

  lemma FenceSound(b: Broker, t: Secret, r: Record, upTo: int)
    requires t in b.records && b.records[t].state == Active
    requires r.state == Completing && r.fence == Some(b.next)
    requires WellFormed(b) ==> Successor(b.records[t], r, upTo) && LeasesOk(r, b.next)
    ensures Sound(b, WithFence(b, t, r), upTo) && NoNewTurns(b, WithFence(b, t, r))
  {
    if WellFormed(b) {
      FenceKeepsTurns(b, t, r, upTo);
      FenceKeepsFences(b, t, r);
      hide RecordOk, FenceOk, LeasesOk;
    }
  }

  lemma FenceKeepsTurns(b: Broker, t: Secret, r: Record, upTo: int)
    requires WellFormed(b) && t in b.records && r.state == Completing && r.fence == Some(b.next)
    requires Successor(b.records[t], r, upTo) && LeasesOk(r, b.next)
    ensures var b' := WithFence(b, t, r); forall u | u in b'.records :: RecordOk(b', u)
  {
    var b' := WithFence(b, t, r);
    assert RecordOk(b, t);
    forall u | u in b'.records ensures RecordOk(b', u) {
      assert RecordOk(b, u);
    }
  }

  lemma FenceKeepsFences(b: Broker, t: Secret, r: Record)
    requires WellFormed(b) && t in b.records && b.records[t].state == Active && r.fence == Some(b.next)
    ensures var b' := WithFence(b, t, r);
      && (forall f | f in b'.fences :: FenceOk(b', f))
      && (forall f | f in b.fences :: f < b.next)
  {
    var b' := WithFence(b, t, r);
    assert RecordOk(b, t);
    forall f | f in b'.fences ensures FenceOk(b', f) {
      assert f != b.next ==> FenceOk(b, f) && RecordOk(b, b.fences[f]);
    }
    assert forall f | f in b.fences :: FenceOk(b, f);
  }

  lemma ConsumeFenceSound(b: Broker, t: Secret, fence: Secret, r: Record, upTo: int)
    requires t in b.records && b.records[t].state == Completing && b.records[t].fence == Some(fence)
    requires r.state == Active || (r.state == Completed && r.leases == map[])
    requires WellFormed(b) ==> Successor(b.records[t], r, upTo) && LeasesOk(r, b.next)
    ensures Sound(b, ConsumeFence(b, t, fence, r), upTo) && NoNewTurns(b, ConsumeFence(b, t, fence, r))
  {
    if WellFormed(b) {
      ConsumeFenceKeepsTurns(b, t, fence, r);
      ConsumeFenceKeepsFences(b, t, fence, r);
    }
  }

  lemma ConsumeFenceKeepsTurns(b: Broker, t: Secret, fence: Secret, r: Record)
    requires WellFormed(b) && t in b.records && b.records[t].fence == Some(fence)
    requires r.state == Active || (r.state == Completed && r.leases == map[])
    requires LeasesOk(r, b.next) && TtlOk(r.ttlMs)
    ensures var b' := ConsumeFence(b, t, fence, r); forall u | u in b'.records :: RecordOk(b', u)
  {
    var b' := ConsumeFence(b, t, fence, r);
    assert RecordOk(b, t);
    forall u | u in b'.records ensures RecordOk(b', u) {
      assert RecordOk(b, u);
    }
  }

  lemma ConsumeFenceKeepsFences(b: Broker, t: Secret, fence: Secret, r: Record)
    requires WellFormed(b) && t in b.records && b.records[t].fence == Some(fence)
    ensures var b' := ConsumeFence(b, t, fence, r);
      && (forall f | f in b'.fences :: FenceOk(b', f))
      && (forall f | f in b'.used :: f < b'.next && f !in b'.fences)
  {
    var b' := ConsumeFence(b, t, fence, r);
    assert RecordOk(b, t) && FenceOk(b, fence);
    forall f | f in b'.fences ensures FenceOk(b', f) {
      assert FenceOk(b, f);
    }
  }

  // -------------------------------------------------------------------------- operations are sound

  predicate Issues(op: Op) { op.Issue? || op.IssueReplacingSession? }

  lemma ReplaceSound(p: Broker, op: Op, c: Clock)
    requires Ordered(c)
    requires op.IssueReplacingSession? && TtlOk(op.ttlMs)
    ensures Sound(p, ReplaceAt(p, op.binding, op.ttlMs, c.enter).0, c.act)
  {
    var q := Cleared(p, op.binding.session, c.enter);
    var g := Grant(q, op.binding, op.ttlMs, c.enter).0;
    ClearedSound(p, op.binding.session, c.enter, c.act);
    GrantSound(q, op.binding, op.ttlMs, c.enter, c.act);
    EpochsSound(g, g.epochs[op.binding.session := Epoch(op.binding.compactionEpoch, op.binding.generation)], c.act);
    SoundTransitive(p, q, g, c.act);
    var g' := g.(epochs := g.epochs[op.binding.session := Epoch(op.binding.compactionEpoch, op.binding.generation)]);
    SoundTransitive(p, g, g', c.act);
    SoundReflexive(p, c.act);
  }

  lemma SoundReflexive(b: Broker, upTo: int)
    ensures Sound(b, b, upTo) && NoNewTurns(b, b)
  {}

  lemma ClearedSound(p: Broker, s: Session, now: int, upTo: int)
    requires now <= upTo
    ensures Sound(p, Cleared(p, s, now), upTo) && NoNewTurns(p, Cleared(p, s, now))
  {
    var e := TerminateAll(p, LiveTokens(p, SessionTokens(p, s)), Revoked, now);
    TerminateAllSound(p, LiveTokens(p, SessionTokens(p, s)), Revoked, now, upTo);
    TrimSound(e, upTo);
    SoundTransitive(p, e, Cleared(p, s, now), upTo);
  }

  lemma EpochsSound(b: Broker, epochs: map<Session, Epoch>, upTo: int)
    ensures Sound(b, b.(epochs := epochs), upTo) && NoNewTurns(b, b.(epochs := epochs))
  {
    var b' := b.(epochs := epochs);
    if WellFormed(b) {
      assert forall t | t in b'.records :: RecordOk(b, t) && RecordOk(b', t);
      assert forall f | f in b'.fences :: FenceOk(b, f) && FenceOk(b', f);
    }
  }

  // An accepted keepalive only moves the expiry of one live turn.
  lemma KeptAliveTurn(p: Broker, op: Op, now: int)
    requires op.KeepAliveRequest?
    ensures var (p', outcome) := KeepAliveAt(p, op.session, op.turn, op.generation, op.observedAt, now);
      outcome.Ok? ==>
        && outcome.value.KeptAlive? && outcome.value.token in p.records && Live(p.records[outcome.value.token])
        && var t := outcome.value.token;
           var r := p.records[t].(expiresAt := outcome.value.expiresAt);
           p' == Put(p, t, r) && p.records[t].expiresAt <= r.expiresAt
           && (r.expiresAt == p.records[t].expiresAt || r.expiresAt <= now + r.ttlMs)
  {
    hide EpochFresh;
  }

  lemma KeepAliveSound(p: Broker, op: Op, c: Clock)
    requires Ordered(c)
    requires op.KeepAliveRequest?
    ensures SoundAt(p, op, c)
  {
    hide EpochFresh, RequestTokens;
    var (p', outcome) := ApplyPruned(p, op, c);
    if outcome.Ok? {
      var t := outcome.value.token;
      KeptAliveTurn(p, op, c.enter);
      assert WellFormed(p) ==> RecordOk(p, t);
      hide KeepAliveAt;
      PutSound(p, t, p'.records[t], p.next, c.act);
    }
  }

  lemma LendSound(p: Broker, t: Secret, lease: Secret, ttl: int, now: int, next: Secret, upTo: int)
    requires LeaseTtlOk(ttl) && now <= upTo
    requires t in p.records && Live(p.records[t]) && p.next <= next && lease < next
    requires WellFormed(p) ==> lease !in p.records[t].expiredLeases
    ensures var (q, outcome) := Lend(p, t, lease, ttl, now);
      var q' := if outcome.Ok? then q.(next := next) else q;
      Sound(p, q', upTo) && NoNewTurns(p, q')
  {
    var r := p.records[t];
    var expiry := Min(now + ttl, r.expiresAt);
    if expiry <= now {
      TerminateAllSound(p, {t}, Expired, now, upTo);
    } else {
      assert WellFormed(p) ==> RecordOk(p, t);
      PutSound(p, t, r.(state := if r.state == Completing then Completing else Active,
                        leases := r.leases[lease := expiry]), next, upTo);
    }
  }

  // What is left to show of an operation once its prune has been dealt with.
  ghost predicate SoundAt(p: Broker, op: Op, c: Clock)
    requires !op.Complete? && !op.AbortCompletion?
  {
    Sound(p, ApplyPruned(p, op, c).0, c.act) && NoNewTurns(p, ApplyPruned(p, op, c).0)
  }

  lemma ClaimSound(p: Broker, op: Op, c: Clock)
    requires Ordered(c)
    requires op.Claim?
    ensures SoundAt(p, op, c)
  {
    if Resolve(p, op.token).None? && LeaseTtlOk(op.leaseTtlMs) {
      assert WellFormed(p) ==> RecordOk(p, op.token);
      LendSound(p, op.token, p.next, op.leaseTtlMs, c.act, p.next + 1, c.act);
    }
    assert Sound(p, p, c.act) && NoNewTurns(p, p);
    hide WellFormed, Later, Lend;
  }

  lemma RenewSound(p: Broker, op: Op, c: Clock)
    requires Ordered(c)
    requires op.Renew?
    ensures SoundAt(p, op, c)
  {
    var p' := ApplyPruned(p, op, c).0;
    if p' != p {
      if p.records[op.token].leases[op.lease] <= c.act {
        SweepSound(p, p', c.act, c.act);
      } else if WellFormed(p) {
        assert RecordOk(p, op.token);
        LendSound(p, op.token, op.lease, op.leaseTtlMs, c.act, p.next, c.act);
      }
    }
  }

  lemma ReleaseSound(p: Broker, op: Op, c: Clock)
    requires Ordered(c)
    requires op.Release?
    ensures SoundAt(p, op, c)
  {
    if op.token in p.records {
      var r := Swept(p.records[op.token], c.act);
      var q := Put(p, op.token, r);
      SweepSound(p, q, c.act, c.act);
      if op.lease in r.leases {
        var r' := r.(leases := r.leases - {op.lease});
        assert WellFormed(p) ==> RecordOk(p, op.token);
        PutSound(p, op.token, r', p.next, c.act);
        TrimSound(Put(p, op.token, r'), c.act);
        SoundTransitive(p, Put(p, op.token, r'), ApplyPruned(p, op, c).0, c.act);
      }
    }
  }

  lemma BeginCompletionSound(p: Broker, op: Op, c: Clock)
    requires Ordered(c)
    requires op.BeginCompletion?
    ensures SoundAt(p, op, c)
  {
    var p' := ApplyPruned(p, op, c).0;
    if p' != p {
      assert WellFormed(p) ==> RecordOk(p, op.token);
      FenceSound(p, op.token, p'.records[op.token], c.act);
    }
  }

  lemma EndSound(p: Broker, t: Secret, s: State, now: int, upTo: int)
    requires now <= upTo
    requires s == Cancelled || s == Revoked
    ensures Sound(p, EndAt(p, t, s, now).0, upTo) && NoNewTurns(p, EndAt(p, t, s, now).0)
  {
    if Resolve(p, t).None? {
      TerminateAllSound(p, {t}, s, now, upTo);
      TrimSound(TerminateAll(p, {t}, s, now), upTo);
      SoundTransitive(p, TerminateAll(p, {t}, s, now), EndAt(p, t, s, now).0, upTo);
    }
  }

  lemma RevokeAllSound(p: Broker, op: Op, c: Clock)
    requires Ordered(c)
    requires op.RevokeAll?
    ensures SoundAt(p, op, c)
  {
    var p' := ApplyPruned(p, op, c).0;
    var chosen := LiveTokens(p, SelectedTokens(p, op.selector));
    var e := TerminateAll(p, chosen, Revoked, c.enter);
    TerminateAllSound(p, chosen, Revoked, c.enter, c.act);
    EpochsSound(e, p'.epochs, c.act);
    TrimSound(e.(epochs := p'.epochs), c.act);
    SoundTransitive(p, e, e.(epochs := p'.epochs), c.act);
    SoundTransitive(p, e.(epochs := p'.epochs), p', c.act);
  }

  lemma ApplyPrunedSound(p: Broker, op: Op, c: Clock)
    requires Ordered(c)
    requires !op.Complete? && !op.AbortCompletion? && !Issues(op)
    ensures SoundAt(p, op, c)
  {
    match op
    case KeepAliveRequest(_, _, _, _) => KeepAliveSound(p, op, c);
    case Claim(_, _, _, _) => ClaimSound(p, op, c);
    case Renew(_, _, _, _) => RenewSound(p, op, c);
    case Release(_, _) => ReleaseSound(p, op, c);
    case BeginCompletion(_, _) => BeginCompletionSound(p, op, c);
    case Cancel(t) => EndSound(p, t, Cancelled, c.act, c.act);
    case Revoke(t) => EndSound(p, t, Revoked, c.act, c.act);
    case RevokeAll(_) => RevokeAllSound(p, op, c);
    case Status(t) => if t in p.records { SweepSound(p, StatusAt(p, t, c.act), c.act, c.act); }
    case Inspect =>
  }

  // The fence presented is the one the turn holds.
  ghost predicate HoldsFence(p: Broker, t: Secret, fence: Secret, found: Record) {
    t in p.records && found.state == Completing ==> p.records[t].state == Completing && p.records[t].fence == Some(fence)
  }

  lemma CompleteSound(p: Broker, t: Secret, fence: Secret, found: Record, c: Clock)
    requires Ordered(c)
    requires Due(found, c.enter) || HoldsFence(p, t, fence, found)
    ensures Sound(p, CompleteAt(p, t, fence, found, c).0, c.act) && NoNewTurns(p, CompleteAt(p, t, fence, found, c).0)
  {
    var p' := CompleteAt(p, t, fence, found, c).0;
    if p' != p {
      var r := Swept(p.records[t], c.act);
      assert WellFormed(p) ==> RecordOk(p, t);
      if r.leases != map[] {
        SweepSound(p, p', c.act, c.act);
      } else {
        var done := ConsumeFence(p, t, fence, r.(state := Completed, terminalAt := c.act));
        ConsumeFenceSound(p, t, fence, r.(state := Completed, terminalAt := c.act), c.act);
        TrimSound(done, c.act);
        SoundTransitive(p, done, p', c.act);
      }
    }
  }

  lemma AbortSound(p: Broker, t: Secret, fence: Secret, found: Record, c: Clock)
    requires Ordered(c)
    requires Due(found, c.enter) || HoldsFence(p, t, fence, found)
    ensures Sound(p, AbortAt(p, t, fence, found, c).0, c.act) && NoNewTurns(p, AbortAt(p, t, fence, found, c).0)
  {
    if AbortAt(p, t, fence, found, c).0 != p {
      assert WellFormed(p) ==> RecordOk(p, t);
      ConsumeFenceSound(p, t, fence, p.records[t].(state := Active), c.act);
    }
  }

  // Pruning leaves a turn that is not due as it was, apart from its leases.
  lemma PruneKeepsTurn(b: Broker, c: Clock, t: Secret)
    requires t in b.records && t in Prune(b, c).records && !Due(b.records[t], c.enter)
    ensures Prune(b, c).records[t] == Swept(b.records[t], c.sweep)
  {}

  lemma FenceFound(b: Broker, fence: Secret, c: Clock)
    requires WellFormed(b) && fence in b.fences
    ensures var t := b.fences[fence];
      t in b.records && (Due(b.records[t], c.enter) || HoldsFence(Prune(b, c), t, fence, b.records[t]))
  {
    assert FenceOk(b, fence);
    var t := b.fences[fence];
    if t in Prune(b, c).records && !Due(b.records[t], c.enter) {
      PruneKeepsTurn(b, c, t);
    }
  }

  /** Every operation keeps the invariant, never reuses a secret and only moves turns forward. */
  lemma ApplySound(b: Broker, op: Op, c: Clock)
    requires Ordered(c)
    requires WellFormed(b)
    ensures var b' := Apply(b, op, c).0;
      && WellFormed(b') && Later(b, b', c.act)
      && (!Issues(op) ==> NoNewTurns(b, b'))
  {
    var p, b' := Prune(b, c), Apply(b, op, c).0;
    SoundReflexive(b, c.act);
    PruneSound(b, c);
    if RefusedEarly(b, op).None? {
      match op {
        case Issue(_, _) => GrantSound(p, op.binding, op.ttlMs, c.enter, c.act);
        case IssueReplacingSession(_, _) => ReplaceSound(p, op, c);
        case Complete(fence) =>
          FenceFound(b, fence, c);
          CompleteSound(p, b.fences[fence], fence, b.records[b.fences[fence]], c);
        case AbortCompletion(fence) =>
          FenceFound(b, fence, c);
          AbortSound(p, b.fences[fence], fence, b.records[b.fences[fence]], c);
        case _ => ApplyPrunedSound(p, op, c);
      }
      SoundTransitive(b, p, b', c.act);
    }
  }
}
