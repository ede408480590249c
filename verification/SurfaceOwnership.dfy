/**
 The machine-wide index of browser pages of src/session/surface-ownership.ts, as functions of the
 saved index.

 Every operation takes the saved index and returns what is saved in the end, with its answer.  An
 operation that fails its closing consistency check saves nothing.  The tab stands for the whole
 page identity, since the browser and surface names are constants, and a Project URL for its
 canonical id.  Routes, the checkout's own files, are in SessionRoutes.dfy.
 */
module SurfaceOwnership {
  import opened Wrappers
  import opened Lists

  const MAX_ACTIVE_SURFACE_SESSIONS := 100
  const MAX_SAFE_INTEGER := 9_007_199_254_740_991

  type Id = string
  type Url = string

  datatype Key = Key(projectId: Id, sessionId: Id)

  datatype Chat = Chat(projectUrl: Url, conversation: string)

  datatype Route = Route(key: Key, tab: string, projectUrl: Url, chat: Option<Chat>)

  datatype Lease = Lease(route: Route, generation: nat, expiresAt: int, owner: string, claimedAt: int, updatedAt: int)

  datatype Binding = Binding(route: Route, generation: nat, boundAt: int, updatedAt: int)

  datatype LeaseRef = LeaseRef(key: Key, tab: string, generation: nat, owner: string)

  datatype Machine = Machine(
    initialized: set<Id>,
    absent: set<Id>,
    projectUrls: map<Id, Url>,
    leases: seq<Lease>,
    bindings: seq<Binding>,
    nextGeneration: nat,
    generations: map<Key, nat>)

  /** The project-local copy of the index, kept for recovery and never trusted. */
  datatype Mirror = Mirror(leases: seq<Lease>, bindings: seq<Binding>, generations: map<Key, nat>)

  /** The source reports the last three as one code; the model tells them apart. */
  datatype Code =
    | SurfaceAlreadyOwned | SurfaceBoundToAnotherSession | SessionAlreadyOwned | SessionCapacityReached
    | ProjectBindingConflict | StaleSurfaceGeneration | LeaseNotFound
    | InvalidRequest | Exhausted | InvalidState

  datatype Request = Request(route: Route, owner: string, rotates: Option<LeaseRef>, ttlMs: int, now: int)

  datatype Op =
    | Claim(request: Request)
    | Commit(ref: LeaseRef, observed: Option<Chat>, at: int)
    | Renew(ref: LeaseRef, ttlMs: int, at: int)
    | Recover(binding: Binding, owner: string, ttlMs: int, at: int)
    | Release(ref: LeaseRef, at: int)
    | Reap(projectId: Id, at: int)
    | ReadBinding(key: Key)
    | Retire(key: Key)
    | Unregister(projectId: Id)

  datatype Answer =
    | Owned(lease: Lease)
    | Bound(binding: Binding)
    | Released(released: bool)
    | Listed(leases: seq<Lease>)
    | Found(found: Option<Binding>)
    | Retired(leaseCount: nat, bindingCount: nat)
    | Removed(count: nat)

  type Outcome = Result<Answer, Code>

  const EMPTY := Machine({}, {}, map[], [], [], 1, map[])

  // -------------------------------------------------------------------------- selections

  function LeaseKey(l: Lease): Key { l.route.key }
  function BindingKey(b: Binding): Key { b.route.key }

  function LeaseIn(p: Id): Lease -> bool { (l: Lease) => l.route.key.projectId == p }
  function LeaseOutside(p: Id): Lease -> bool { (l: Lease) => l.route.key.projectId != p }
  function BindingIn(p: Id): Binding -> bool { (b: Binding) => b.route.key.projectId == p }
  function BindingOutside(p: Id): Binding -> bool { (b: Binding) => b.route.key.projectId != p }
  function LeaseOf(k: Key): Lease -> bool { (l: Lease) => l.route.key == k }
  function LeaseNotOf(k: Key): Lease -> bool { (l: Lease) => l.route.key != k }
  function BindingOf(k: Key): Binding -> bool { (b: Binding) => b.route.key == k }
  function BindingNotOf(k: Key): Binding -> bool { (b: Binding) => b.route.key != k }
  function OnTab(tab: string): Binding -> bool { (b: Binding) => b.route.tab == tab }
  function AliveAt(at: int): Lease -> bool { (l: Lease) => l.expiresAt > at }
  function Named(ref: LeaseRef): Lease -> bool { (l: Lease) => SameRef(l, ref) }

  predicate SameRef(l: Lease, ref: LeaseRef) {
    l.route.key == ref.key && l.route.tab == ref.tab && l.generation == ref.generation && l.owner == ref.owner
  }

  predicate BindingSameRef(b: Binding, ref: LeaseRef) {
    b.route.key == ref.key && b.route.tab == ref.tab && b.generation == ref.generation
  }

  function Routes(m: Machine): set<Route> {
    (set l | l in m.leases :: l.route) + (set b | b in m.bindings :: b.route)
  }

  function Sessions(m: Machine): set<Key> { set r | r in Routes(m) :: r.key }

  function MirrorOf(m: Machine, p: Id): Mirror {
    Mirror(Filter(m.leases, LeaseIn(p)), Filter(m.bindings, BindingIn(p)),
           map k | k in m.generations && k.projectId == p && k in Sessions(m) :: m.generations[k])
  }

  // -------------------------------------------------------------------------- consistency

  // One page and one chat belong to one session, chats to their Project, and local projects and Projects pair up.
  predicate Exclusive(routes: set<Route>) {
    forall r, s | r in routes && s in routes ::
      && (r.tab == s.tab ==> r.key == s.key)
      && (r.chat.Some? && r.chat == s.chat ==> r.key == s.key)
      && (r.key.projectId == s.key.projectId <==> r.projectUrl == s.projectUrl)
  }

  predicate RouteOk(m: Machine, r: Route) {
    && (r.chat.Some? ==> r.chat.value.projectUrl == r.projectUrl)
    && r.key.projectId !in m.absent
    && (forall p | p in m.projectUrls :: p == r.key.projectId <==> m.projectUrls[p] == r.projectUrl)
  }

  predicate Injective(urls: map<Id, Url>) {
    forall p, q | p in urls && q in urls && urls[p] == urls[q] :: p == q
  }

  predicate ProjectsOk(m: Machine) {
    && m.initialized !! m.absent
    && Injective(m.projectUrls)
    && (forall r | r in Routes(m) :: RouteOk(m, r))
    && Exclusive(Routes(m))
    && (forall b | b in m.bindings ::
          b.route.key.projectId in m.projectUrls || exists l :: l in m.leases && l.route.key.projectId == b.route.key.projectId)
  }

  predicate LeaseOk(m: Machine, l: Lease) {
    l.route.key in m.generations && l.generation == m.generations[l.route.key] && l.generation < m.nextGeneration
  }

  // A session's binding is its newest record unless a newer lease awaits its commit.
  predicate BindingOk(m: Machine, b: Binding) {
    var k := b.route.key;
    && k in m.generations && b.generation < m.nextGeneration
    && (b.generation == m.generations[k] || exists l :: l in m.leases && l.route.key == k && b.generation < l.generation)
  }

  predicate PairOk(l: Lease, b: Binding) {
    l.route.key == b.route.key ==>
      && l.route.projectUrl == b.route.projectUrl
      && l.generation >= b.generation
      && (l.generation == b.generation ==> l.route == b.route)
  }

  predicate RelationsOk(m: Machine) {
    && Distinct(m.leases, LeaseKey) && Distinct(m.bindings, BindingKey)
    && (forall k | k in m.generations :: k in Sessions(m))
    && (forall l | l in m.leases :: LeaseOk(m, l))
    && (forall b | b in m.bindings :: BindingOk(m, b))
    && (forall l, b | l in m.leases && b in m.bindings :: PairOk(l, b))
  }

  /** What `assertMachineOwnershipConsistency` accepts. */
  predicate Consistent(m: Machine) { ProjectsOk(m) && RelationsOk(m) }

  predicate RecordsOk(m: Machine) {
    && m.projectUrls.Keys <= m.initialized
    && (forall r | r in Routes(m) :: r.key.projectId in m.initialized)
    && 1 <= m.nextGeneration <= MAX_SAFE_INTEGER
    && (forall l | l in m.leases :: 1 <= l.generation)
    && (forall b | b in m.bindings :: 1 <= b.generation && b.route.chat.Some?)
  }

  /** What `readMachineState` accepts of a parsed index. */
  predicate Readable(m: Machine) { Consistent(m) && RecordsOk(m) }

  predicate WithinLimits(m: Machine) {
    && (forall b | b in m.bindings :: b.route.key.projectId in m.projectUrls)
    && |m.leases| <= MAX_ACTIVE_SURFACE_SESSIONS
  }

  /** What every index saved from the empty one on satisfies. */
  predicate Inv(m: Machine) { Readable(m) && WithinLimits(m) }

  // -------------------------------------------------------------------------- steps

  function PruneGenerations(m: Machine): Machine {
    m.(generations := map k | k in m.generations && k in Sessions(m) :: m.generations[k])
  }

  function Reaped(m: Machine, at: int): Machine {
    PruneGenerations(m.(leases := Filter(m.leases, AliveAt(at))))
  }

  // The index after `syncProjectIntoMachineState`; a project seen for the first time is noted.
  function Synced(m: Machine, p: Id, allowAbsent: bool): Machine {
    if p in m.absent && !allowAbsent then m
    else m.(absent := m.absent - {p}, initialized := m.initialized + {p})
  }

  // The index after the project's entries have been replaced by those of its mirror.
  function Published(m: Machine, project: Mirror, p: Id): Machine {
    if p in m.absent then
      PruneGenerations(m.(leases := Filter(m.leases, LeaseOutside(p)), bindings := Filter(m.bindings, BindingOutside(p))))
    else
      PruneGenerations(m.(initialized := m.initialized + {p},
                          leases := Filter(m.leases, LeaseOutside(p)) + project.leases,
                          bindings := Filter(m.bindings, BindingOutside(p)) + project.bindings))
  }

  // The first entry of another project that has the Project URL or the page of the route.
  function LeaseClash(leases: seq<Lease>, r: Route): Option<Code> {
    if leases == [] then None
    else
      var s := leases[0].route;
      if s.key.projectId == r.key.projectId then LeaseClash(leases[1..], r)
      else if s.projectUrl == r.projectUrl then Some(ProjectBindingConflict)
      else if s.tab == r.tab then Some(SurfaceAlreadyOwned)
      else LeaseClash(leases[1..], r)
  }

  function BindingClash(bindings: seq<Binding>, r: Route): Option<Code> {
    if bindings == [] then None
    else
      var s := bindings[0].route;
      if s.key.projectId == r.key.projectId then BindingClash(bindings[1..], r)
      else if s.projectUrl == r.projectUrl then Some(ProjectBindingConflict)
      else if s.tab == r.tab then Some(SurfaceBoundToAnotherSession)
      else BindingClash(bindings[1..], r)
  }

  // `assertMachineRequestAvailable`
  function Unavailable(m: Machine, r: Route): Option<Code> {
    var p := r.key.projectId;
    if p in m.projectUrls && m.projectUrls[p] != r.projectUrl then Some(ProjectBindingConflict)
    else if exists q | q in m.projectUrls :: q != p && m.projectUrls[q] == r.projectUrl then Some(ProjectBindingConflict)
    else
      var clash := LeaseClash(m.leases, r);
      if clash.Some? then clash else BindingClash(m.bindings, r)
  }

  // Whether the project already holds entries of another Project.
  predicate OtherProject(m: Machine, r: Route) {
    exists s | s in Routes(m) :: s.key.projectId == r.key.projectId && s.projectUrl != r.projectUrl
  }

  // Whether the two routes want the same page or the same chat.
  predicate Collides(s: Route, r: Route) { s.tab == r.tab || (r.chat.Some? && s.chat == r.chat) }

  predicate Rival(s: Route, r: Route) { s.key.projectId == r.key.projectId && s.key != r.key && Collides(s, r) }

  // -------------------------------------------------------------------------- claim

  // The checks of a claim that look at other sessions.
  function ClaimConflict(m: Machine, r: Route): Option<Code> {
    if OtherProject(m, r) then Some(ProjectBindingConflict)
    else
      var code := Unavailable(m, r);
      if code.Some? then code
      else if exists l | l in m.leases :: Rival(l.route, r) then Some(SurfaceAlreadyOwned)
      else if exists b | b in m.bindings :: Rival(b.route, r) then Some(SurfaceBoundToAnotherSession)
      else None
  }

  // The checks of a claim against the session's own records, once it is not a repetition.
  function RotationConflict(m: Machine, request: Request): Option<Code> {
    var k := request.route.key;
    var active, binding := Find(m.leases, LeaseOf(k)), Find(m.bindings, BindingOf(k));
    if active.Some? then
      if request.rotates.None? || !SameRef(active.value, request.rotates.value) then Some(SessionAlreadyOwned)
      else None
    else if binding.Some? && binding.value.route != request.route
         && (request.rotates.None? || !BindingSameRef(binding.value, request.rotates.value)) then
      Some(SessionAlreadyOwned)
    else if |m.leases| >= MAX_ACTIVE_SURFACE_SESSIONS then Some(SessionCapacityReached)
    else None
  }

  function FreshLease(m: Machine, request: Request): Lease {
    Lease(request.route, m.nextGeneration, request.now + request.ttlMs, request.owner, request.now, request.now)
  }

  // The leases and bindings of the project once the claim has been granted; and so for the operations below.
  function GrantMirror(m: Machine, request: Request): Mirror {
    var k := request.route.key;
    Mirror(Filter(Filter(m.leases, LeaseIn(k.projectId)), LeaseNotOf(k)) + [FreshLease(m, request)],
           Filter(m.bindings, BindingIn(k.projectId)), map[])
  }

  function Allocated(m: Machine, k: Key): Machine {
    m.(nextGeneration := m.nextGeneration + 1, generations := m.generations[k := m.nextGeneration])
  }

  function Granted(m: Machine, request: Request): Machine {
    Published(Allocated(m, request.route.key), GrantMirror(m, request), request.route.key.projectId)
  }

  predicate TtlOk(ttlMs: int) { 1_000 <= ttlMs <= 86_400_000 }

  predicate ChatFits(r: Route) { r.chat.Some? ==> r.chat.value.projectUrl == r.projectUrl }

  // The live lease a claim repeats, if any.
  predicate Repeats(m: Machine, request: Request) {
    var active := Find(m.leases, LeaseOf(request.route.key));
    active.Some? && active.value.route == request.route && active.value.owner == request.owner
  }

  // A claim on an index that has been reaped and synced; `m` is what is saved when it is refused.
  function ClaimSynced(m: Machine, s: Machine, request: Request): (Machine, Outcome) {
    var conflict := ClaimConflict(s, request.route);
    if conflict.Some? then (m, Err(conflict.value))
    else if Repeats(s, request) then
      var active := Find(s.leases, LeaseOf(request.route.key));
      (s, Ok(Owned(active.value)))
    else
      var rotation := RotationConflict(s, request);
      if rotation.Some? then (m, Err(rotation.value))
      else if s.nextGeneration >= MAX_SAFE_INTEGER then (m, Err(Exhausted))
      else if !Consistent(Granted(s, request)) then (m, Err(InvalidState))
      else (Granted(s, request), Ok(Owned(FreshLease(s, request))))
  }

  function ClaimOn(m: Machine, request: Request): (Machine, Outcome) {
    var s := Synced(Reaped(m, request.now), request.route.key.projectId, true);
    if !ChatFits(request.route) || !TtlOk(request.ttlMs) then (m, Err(InvalidRequest))
    else if !Consistent(s) then (m, Err(InvalidState))
    else ClaimSynced(m, s, request)
  }

  // -------------------------------------------------------------------------- commit and renew

  function CommitConflict(m: Machine, current: Lease, chat: Chat): Option<Code> {
    var r := current.route.(chat := Some(chat));
    if OtherProject(m, r) then Some(ProjectBindingConflict)
    else
      var code := Unavailable(m, r);
      if code.Some? then code
      else if exists b | b in m.bindings :: Rival(b.route, r) then Some(SurfaceBoundToAnotherSession)
      else None
  }

  // The binding keeps the time of the record it rotates: that of the page, else that of the session.
  function BoundAt(m: Machine, current: Lease, at: int): int {
    var ofPage := Find(m.bindings, OnTab(current.route.tab));
    var ofSession := Find(m.bindings, BindingOf(current.route.key));
    if ofPage.Some? then ofPage.value.boundAt else if ofSession.Some? then ofSession.value.boundAt else at
  }

  function CommittedLease(current: Lease, chat: Chat, at: int): Lease {
    current.(route := current.route.(chat := Some(chat)), updatedAt := at)
  }

  function NewBinding(m: Machine, current: Lease, chat: Chat, at: int): Binding {
    Binding(current.route.(chat := Some(chat)), current.generation, BoundAt(m, current, at), at)
  }

  function CommitMirror(m: Machine, current: Lease, chat: Chat, at: int): Mirror {
    var p := current.route.key.projectId;
    Mirror(Replaced(Filter(m.leases, LeaseIn(p)), current, CommittedLease(current, chat, at)),
           Filter(Filter(m.bindings, BindingIn(p)), BindingNotOf(current.route.key)) + [NewBinding(m, current, chat, at)],
           map[])
  }

  function WithProjectUrl(m: Machine, p: Id, url: Url): Machine {
    if p in m.projectUrls then m else m.(projectUrls := m.projectUrls[p := url])
  }

  function Committed(m: Machine, current: Lease, chat: Chat, at: int): Machine {
    var p := current.route.key.projectId;
    Published(WithProjectUrl(m, p, current.route.projectUrl), CommitMirror(m, current, chat, at), p)
  }

  function Replaced(leases: seq<Lease>, from: Lease, to: Lease): (r: seq<Lease>)
    ensures |r| == |leases| && forall i | 0 <= i < |r| :: r[i] == if leases[i] == from then to else leases[i]
  {
    seq(|leases|, i requires 0 <= i < |leases| => if leases[i] == from then to else leases[i])
  }

  // A lease that is no longer there: what has been reaped is saved all the same.
  function NotFound(m: Machine, s: Machine): (Machine, Outcome) {
    (if |s.leases| < |m.leases| then s else m, Err(LeaseNotFound))
  }

  // The chat a commit would bind: the one observed, else the one the page was claimed with.
  function CommitChat(current: Lease, observed: Option<Chat>): Result<Chat, Code> {
    var known := current.route.chat;
    if observed.None? && known.None? then Err(InvalidRequest)
    else
      var chat := if observed.Some? then observed.value else known.value;
      if known.Some? && known.value != chat then Err(StaleSurfaceGeneration)
      else if chat.projectUrl != current.route.projectUrl then Err(InvalidRequest)
      else Ok(chat)
  }

  function CommitSynced(m: Machine, s: Machine, current: Lease, observed: Option<Chat>, at: int): (Machine, Outcome) {
    match CommitChat(current, observed)
    case Err(code) => (m, Err(code))
    case Ok(chat) =>
      var conflict := CommitConflict(s, current, chat);
      if conflict.Some? then (m, Err(conflict.value))
      else if !Consistent(Committed(s, current, chat, at)) then (m, Err(InvalidState))
      else (Committed(s, current, chat, at), Ok(Bound(NewBinding(s, current, chat, at))))
  }

  function CommitOn(m: Machine, ref: LeaseRef, observed: Option<Chat>, at: int): (Machine, Outcome) {
    var s := Synced(Reaped(m, at), ref.key.projectId, false);
    var current := Find(s.leases, Named(ref));
    if ref.generation < 1 then (m, Err(InvalidRequest))
    else if !Consistent(s) then (m, Err(InvalidState))
    else if current.None? then NotFound(m, s)
    else CommitSynced(m, s, current.value, observed, at)
  }

  function RenewMirror(m: Machine, current: Lease, renewed: Lease): Mirror {
    var p := current.route.key.projectId;
    Mirror(Replaced(Filter(m.leases, LeaseIn(p)), current, renewed), Filter(m.bindings, BindingIn(p)), map[])
  }

  function Renewed(m: Machine, current: Lease, ttlMs: int, at: int): Machine {
    Published(m, RenewMirror(m, current, RenewedLease(current, ttlMs, at)), current.route.key.projectId)
  }

  function RenewedLease(current: Lease, ttlMs: int, at: int): Lease {
    current.(expiresAt := at + ttlMs, updatedAt := at)
  }

  function RenewOn(m: Machine, ref: LeaseRef, ttlMs: int, at: int): (Machine, Outcome) {
    var s := Synced(Reaped(m, at), ref.key.projectId, false);
    var current := Find(s.leases, Named(ref));
    if !TtlOk(ttlMs) then (m, Err(InvalidRequest))
    else if !Consistent(s) then (m, Err(InvalidState))
    else if current.None? then NotFound(m, s)
    else if !Consistent(Renewed(s, current.value, ttlMs, at)) then (m, Err(InvalidState))
    else (Renewed(s, current.value, ttlMs, at), Ok(Owned(RenewedLease(current.value, ttlMs, at))))
  }

  // -------------------------------------------------------------------------- recover and release

  function RecoveredLease(b: Binding, owner: string, ttlMs: int, at: int): Lease {
    Lease(b.route, b.generation, at + ttlMs, owner, at, at)
  }

  function RecoverMirror(m: Machine, l: Lease): Mirror {
    var p := l.route.key.projectId;
    Mirror(Filter(m.leases, LeaseIn(p)) + [l], Filter(m.bindings, BindingIn(p)), map[])
  }

  function Recovered(m: Machine, b: Binding, owner: string, ttlMs: int, at: int): Machine {
    Published(m, RecoverMirror(m, RecoveredLease(b, owner, ttlMs, at)), b.route.key.projectId)
  }

  // The saved route is still the session's latest record.
  predicate StillCurrent(m: Machine, b: Binding) {
    var k := b.route.key;
    var current := Find(m.bindings, BindingOf(k));
    && current.Some? && current.value.route == b.route && current.value.generation == b.generation
    && k in m.generations && m.generations[k] == b.generation
  }

  function RecoverOn(m: Machine, b: Binding, owner: string, ttlMs: int, at: int): (Machine, Outcome) {
    var synced := Synced(m, b.route.key.projectId, false);
    if !TtlOk(ttlMs) then (m, Err(InvalidRequest))
    else if !Consistent(synced) then (m, Err(InvalidState))
    else if b.route.key.projectId in synced.absent || !StillCurrent(synced, b) then (m, Err(SessionAlreadyOwned))
    else RecoverReaped(m, Reaped(synced, at), b, owner, ttlMs, at)
  }

  function RecoverReaped(m: Machine, s: Machine, b: Binding, owner: string, ttlMs: int, at: int): (Machine, Outcome) {
    var code, existing := Unavailable(s, b.route), Find(s.leases, LeaseOf(b.route.key));
    if code.Some? then (m, Err(code.value))
    else if existing.Some? then
      var l := existing.value;
      if l.generation != b.generation || l.route != b.route || l.owner != owner then (m, Err(SessionAlreadyOwned))
      else (m, Ok(Owned(l)))
    else if |s.leases| >= MAX_ACTIVE_SURFACE_SESSIONS then (m, Err(SessionCapacityReached))
    else if !Consistent(Recovered(s, b, owner, ttlMs, at)) then (m, Err(InvalidState))
    else (Recovered(s, b, owner, ttlMs, at), Ok(Owned(RecoveredLease(b, owner, ttlMs, at))))
  }

  function DropMirror(m: Machine, k: Key): Mirror {
    Mirror(Filter(Filter(m.leases, LeaseIn(k.projectId)), LeaseNotOf(k)), Filter(m.bindings, BindingIn(k.projectId)), map[])
  }

  function Dropped(m: Machine, l: Lease): Machine {
    Published(m, DropMirror(m, l.route.key), l.route.key.projectId)
  }

  // Saves the index and answers, or fails the closing check.
  function SaveAnd(m: Machine, s: Machine, answer: Answer): (Machine, Outcome) {
    if Consistent(s) then (s, Ok(answer)) else (m, Err(InvalidState))
  }

  function ReleaseOn(m: Machine, ref: LeaseRef, at: int): (Machine, Outcome) {
    var s := Synced(m, ref.key.projectId, false);
    var current := Find(s.leases, Named(ref));
    if ref.generation < 1 then (m, Err(InvalidRequest))
    else if !Consistent(s) then (m, Err(InvalidState))
    else if current.None? then SaveAnd(m, s, Released(false))
    else if current.value.expiresAt <= at then SaveAnd(m, Reaped(s, at), Released(false))
    else SaveAnd(m, Dropped(s, current.value), Released(true))
  }

  // -------------------------------------------------------------------------- the rest

  // `listSurfaceLeases`, and with it every other operation that only reaps.
  function ReapOn(m: Machine, p: Id, at: int): (Machine, Outcome) {
    var s := Synced(Reaped(m, at), p, false);
    SaveAnd(m, s, Listed(Filter(s.leases, LeaseIn(p))))
  }

  function ReadBindingOn(m: Machine, k: Key): (Machine, Outcome) {
    var s := Synced(m, k.projectId, false);
    SaveAnd(m, s, Found(Find(s.bindings, BindingOf(k))))
  }

  function RetireMirror(m: Machine, k: Key): Mirror {
    Mirror(Filter(Filter(m.leases, LeaseIn(k.projectId)), LeaseNotOf(k)),
           Filter(Filter(m.bindings, BindingIn(k.projectId)), BindingNotOf(k)), map[])
  }

  function Forgotten(m: Machine, k: Key): Machine {
    m.(leases := Filter(m.leases, LeaseNotOf(k)), bindings := Filter(m.bindings, BindingNotOf(k)),
       generations := m.generations - {k})
  }

  function WithoutSession(m: Machine, k: Key): Machine {
    Published(Forgotten(m, k), RetireMirror(m, k), k.projectId)
  }

  function RetireOn(m: Machine, k: Key): (Machine, Outcome) {
    var s := Synced(m, k.projectId, false);
    if !Consistent(s) then (m, Err(InvalidState))
    else
      SaveAnd(m, WithoutSession(s, k), Retired(|Filter(s.leases, LeaseOf(k))|, |Filter(s.bindings, BindingOf(k))|))
  }

  function WithoutProject(m: Machine, p: Id): Machine {
    m.(leases := Filter(m.leases, LeaseOutside(p)), bindings := Filter(m.bindings, BindingOutside(p)),
       projectUrls := m.projectUrls - {p},
       generations := map k | k in m.generations && k.projectId != p :: m.generations[k],
       initialized := m.initialized - {p}, absent := m.absent + {p})
  }

  function UnregisterOn(m: Machine, p: Id): (Machine, Outcome) {
    SaveAnd(m, WithoutProject(m, p), Removed(|Filter(m.leases, LeaseIn(p))| + |Filter(m.bindings, BindingIn(p))|))
  }

  /** What one operation saves and answers. */
  function Apply(m: Machine, op: Op): (Machine, Outcome) {
    match op
    case Claim(request) => ClaimOn(m, request)
    case Commit(ref, observed, at) => CommitOn(m, ref, observed, at)
    case Renew(ref, ttl, at) => RenewOn(m, ref, ttl, at)
    case Recover(b, owner, ttl, at) => RecoverOn(m, b, owner, ttl, at)
    case Release(ref, at) => ReleaseOn(m, ref, at)
    case Reap(p, at) => ReapOn(m, p, at)
    case ReadBinding(k) => ReadBindingOn(m, k)
    case Retire(k) => RetireOn(m, k)
    case Unregister(p) => UnregisterOn(m, p)
  }
}
