/**
 The registered checkouts of src/gateway/workspace-registry.ts: memberships that survive a restart,
 live registrations, and the projects whose clean-up is still due.  Every operation is a relation
 between the memory before, the effects it has outside in order, and the memory behind.
 */
module WorkspaceRegistries {
  import opened Wrappers

  type Id = string

  datatype Fingerprint = Fingerprint(device: nat, inode: nat, birthtimeNs: nat)

  datatype Membership = Membership(workspaceId: Id, projectId: Id, root: string, metadataFile: Option<string>, fingerprint: Fingerprint)

  datatype Entry = Entry(registrationId: Id, membership: Membership)

  /** What the membership file holds. */
  datatype Durable = Durable(memberships: map<Id, Membership>, pending: set<Id>)

  datatype Memory = Memory(entries: map<Id, Entry>, memberships: map<Id, Membership>, pending: set<Id>)

  datatype Status = Current | Stale | Uncertain

  /** What one operation finds outside: checkouts, whether its writes succeed, and which clean-ups throw. */
  datatype World = World(entryStatus: Membership -> Status, status: Membership -> Status, saves: bool, savesAgain: bool, throws: Id -> bool)

  datatype Error = NotFound | ProjectMismatch | RegistrationMismatch | IdCollision | StaleCheckout | StatusUncertain | NotSaved | CleanupFailed

  /** What happens outside, in order: the file is replaced, capabilities are revoked, clean-ups run. */
  datatype Effect = Wrote(state: Durable) | Revoked(registrations: set<Id>) | Started(project: Id) | Returned(project: Id) | Threw(project: Id)

  function Projects(memberships: map<Id, Membership>): set<Id> { set id | id in memberships :: memberships[id].projectId }

  // -------------------------------------------------------------------------- draining the clean-ups

  // The clean-ups due: a project that has a checkout again needs none.
  function Due(m: Memory): set<Id> { m.pending - Projects(m.memberships) }

  predicate NoRepeats(s: seq<Id>) { forall i, j | 0 <= i < j < |s| :: s[i] != s[j] }

  function CallEffects(done: seq<Id>): seq<Effect> {
    if done == [] then []
    else CallEffects(done[..|done| - 1]) + [Started(done[|done| - 1]), Returned(done[|done| - 1])]
  }

  // The clean-ups that returned, in the order they ran.
  ghost predicate DrainedBy(m: Memory, world: World, done: seq<Id>, effects: seq<Effect>, m': Memory, ok: bool) {
    if m.pending == {} then effects == [] && m' == m && ok
    else
      && NoRepeats(done) && (forall p | p in done :: p in Due(m) && !world.throws(p))
      && (if exists p | p in Due(m) :: world.throws(p) then
            !ok && m' == m
            && exists p | p in Due(m) :: world.throws(p) && effects == CallEffects(done) + [Started(p), Threw(p)]
          else
            (forall p | p in Due(m) :: p in done)
            && (if world.savesAgain then ok && m' == m.(pending := {}) && effects == CallEffects(done) + [Wrote(Durable(m.memberships, {}))]
                else !ok && m' == m && effects == CallEffects(done)))
  }

  ghost predicate Drained(m: Memory, world: World, effects: seq<Effect>, m': Memory, ok: bool) {
    exists done: seq<Id> :: DrainedBy(m, world, done, effects, m', ok)
  }

  // -------------------------------------------------------------------------- reconciling the memberships

  /** The memberships that stay, the workspaces that go and the projects they belonged to. */
  datatype Plan = Plan(next: map<Id, Membership>, removed: set<Id>, projects: set<Id>)

  function GoneEntries(entries: map<Id, Entry>, explicit: set<Id>, world: World): set<Id> {
    set id | id in entries && (id in explicit || world.entryStatus(entries[id].membership) == Stale)
  }

  function GoneMemberships(memberships: map<Id, Membership>, gone: set<Id>, world: World): set<Id> {
    set id | id in memberships && (id in gone || world.status(memberships[id]) == Stale)
  }

  function Removal(m: Memory, explicit: set<Id>, world: World): Plan {
    var gone := GoneEntries(m.entries, explicit, world);
    var dropped := GoneMemberships(m.memberships, gone, world);
    Plan(m.memberships - dropped, gone + dropped,
         (set id | id in gone :: m.entries[id].membership.projectId) + (set id | id in dropped :: m.memberships[id].projectId))
  }

  // A checkout that was no Git work tree and has become one.
  predicate Promoted(was: Membership, now: Membership) {
    was.root == now.root && was.fingerprint == now.fingerprint && was.metadataFile.None? && now.metadataFile.Some?
  }

  predicate FingerprintTaken(memberships: map<Id, Membership>, candidate: Membership) {
    exists id | id in memberships :: memberships[id].workspaceId != candidate.workspaceId && memberships[id].fingerprint == candidate.fingerprint
  }

  function WithCandidate(plan: Plan, candidate: Membership, world: World): Result<Plan, Error> {
    var id := candidate.workspaceId;
    if id in plan.next && plan.next[id] != candidate && !Promoted(plan.next[id], candidate) then
      Err(if world.status(plan.next[id]) == Uncertain then StatusUncertain else IdCollision)
    else
      var cleared :=
        if id in plan.next && plan.next[id] != candidate then
          Plan(plan.next - {id}, plan.removed + {id}, plan.projects + {plan.next[id].projectId})
        else plan;
      if FingerprintTaken(cleared.next, candidate) then Err(IdCollision)
      else Ok(cleared.(next := cleared.next[id := candidate]))
  }

  function PlanFor(m: Memory, candidate: Option<Membership>, explicit: set<Id>, world: World): Result<Plan, Error> {
    var plan := Removal(m, explicit, world);
    if candidate.None? then Ok(plan) else WithCandidate(plan, candidate.value, world)
  }

  function PendingAfter(m: Memory, plan: Plan): set<Id> {
    (m.pending + plan.projects) - Projects(plan.next)
  }

  // The registrations that go with the workspaces.
  function RegistrationsOf(entries: map<Id, Entry>, removed: set<Id>): set<Id> {
    set id | id in entries && id in removed :: entries[id].registrationId
  }

  predicate NothingToDo(m: Memory, candidate: Option<Membership>, plan: Plan) {
    plan.removed == {} && candidate.None? && |PendingAfter(m, plan)| == |m.pending|
  }

  function Committed(m: Memory, plan: Plan): Memory {
    Memory(m.entries - plan.removed, plan.next, PendingAfter(m, plan))
  }

  ghost predicate Reconciled(m: Memory, candidate: Option<Membership>, explicit: set<Id>, world: World,
                             effects: seq<Effect>, m': Memory, outcome: Result<(), Error>)
  {
    var planned := PlanFor(m, candidate, explicit, world);
    if planned.Err? then effects == [] && m' == m && outcome == Err(planned.error)
    else
      var plan := planned.value;
      if NothingToDo(m, candidate, plan) then effects == [] && m' == m && outcome == Ok(())
      else if !world.saves then effects == [] && m' == m && outcome == Err(NotSaved)
      else
        var mid := Committed(m, plan);
        exists rest: seq<Effect> ::
          && effects == [Wrote(Durable(mid.memberships, mid.pending)), Revoked(RegistrationsOf(m.entries, plan.removed))] + rest
          && Drained(mid, world, rest, m', outcome.Ok?)
          && (outcome.Err? ==> outcome.error == CleanupFailed)
  }

  // -------------------------------------------------------------------------- the operations

  datatype Op =
    | Register(candidate: Membership, registrationId: Id)
    | Unregister(workspaceId: Id, projectId: Id, registrationId: Id)
    | Lookup(workspaceId: Id, projectId: Id, registrationId: Id)
    | HasProject(projectId: Id)

  datatype Answer = Registered(entry: Entry) | Removed(removed: bool) | Found(entry: Entry) | Has(found: bool)

  predicate RegisteredCheckout(entries: map<Id, Entry>, id: Id, candidate: Membership) {
    id in entries && entries[id].membership.fingerprint == candidate.fingerprint
  }

  // What registering does with the live registrations once the memberships are in order.
  ghost predicate RegisteredIn(m: Memory, candidate: Membership, registrationId: Id, m': Memory, answer: Result<Answer, Error>) {
    if exists id :: RegisteredCheckout(m.entries, id, candidate) then
      m' == m && exists id :: RegisteredCheckout(m.entries, id, candidate) && answer == Ok(Registered(m.entries[id]))
    else if candidate.workspaceId in m.entries then m' == m && answer == Err(IdCollision)
    else
      var entry := Entry(registrationId, candidate);
      m' == m.(entries := m.entries[candidate.workspaceId := entry]) && answer == Ok(Registered(entry))
  }

  function Mismatch(entry: Entry, projectId: Id, registrationId: Id): Option<Error> {
    if entry.membership.projectId != projectId then Some(ProjectMismatch)
    else if entry.registrationId != registrationId then Some(RegistrationMismatch)
    else None
  }

  ghost predicate Performed(m: Memory, op: Op, world: World, effects: seq<Effect>, m': Memory, answer: Result<Answer, Error>) {
    match op
    case Register(candidate, registrationId) =>
      exists mid: Memory, outcome: Result<(), Error> ::
        && Reconciled(m, Some(candidate), {}, world, effects, mid, outcome)
        && (if outcome.Err? then m' == mid && answer == Err(outcome.error) else RegisteredIn(mid, candidate, registrationId, m', answer))
    case Unregister(id, projectId, registrationId) =>
      if id !in m.entries then effects == [] && m' == m && answer == Ok(Removed(false))
      else if Mismatch(m.entries[id], projectId, registrationId).Some? then
        effects == [] && m' == m && answer == Err(Mismatch(m.entries[id], projectId, registrationId).value)
      else
        exists outcome: Result<(), Error> ::
          && Reconciled(m, None, {id}, world, effects, m', outcome)
          && answer == if outcome.Err? then Err(outcome.error) else Ok(Removed(true))
    case Lookup(id, projectId, registrationId) =>
      if id !in m.entries then effects == [] && m' == m && answer == Err(NotFound)
      else
        var entry := m.entries[id];
        var status := world.entryStatus(entry.membership);
        if status == Stale then
          exists outcome: Result<(), Error> ::
            && Reconciled(m, None, {id}, world, effects, m', outcome)
            && answer == Err(if outcome.Err? then outcome.error else StaleCheckout)
        else
          && effects == [] && m' == m
          && answer == (if status == Uncertain then Err(StatusUncertain)
                        else if Mismatch(entry, projectId, registrationId).Some? then Err(Mismatch(entry, projectId, registrationId).value)
                        else Ok(Found(entry)))
    case HasProject(projectId) =>
      exists outcome: Result<(), Error> ::
        && Reconciled(m, None, {}, world, effects, m', outcome)
        && answer == if outcome.Err? then Err(outcome.error) else Ok(Has(projectId in Projects(m'.memberships)))
  }

  /** A fresh process reads the file and first runs the clean-ups it finds there. */
  ghost predicate Restarted(disk: Durable, world: World, effects: seq<Effect>, m': Memory, ok: bool) {
    Drained(Memory(map[], disk.memberships, disk.pending), world, effects, m', ok)
  }

  // -------------------------------------------------------------------------- processes that come and go

  datatype System = System(disk: Durable, memory: Option<Memory>)

  function DiskAfter(disk: Durable, effects: seq<Effect>): Durable
    decreases |effects|
  {
    if effects == [] then disk
    else if effects[|effects| - 1].Wrote? then effects[|effects| - 1].state
    else DiskAfter(disk, effects[..|effects| - 1])
  }

  /** A process starts, or an operation runs to its end. */
  ghost predicate Completes(s: System, effects: seq<Effect>, s': System) {
    || (exists world: World, m': Memory, ok: bool ::
          && Restarted(s.disk, world, effects, m', ok)
          && s' == System(DiskAfter(s.disk, effects), if ok then Some(m') else None))
    || (s.memory.Some? && exists op: Op, world: World, m': Memory, answer: Result<Answer, Error> ::
          && Performed(s.memory.value, op, world, effects, m', answer)
          && s' == System(DiskAfter(s.disk, effects), Some(m')))
  }

  /** One of these, or only its first effects before the process dies. */
  ghost predicate Moves(s: System, effects: seq<Effect>, s': System) {
    || Completes(s, effects, s')
    || (exists all: seq<Effect>, cut: nat, done: System ::
          && Completes(s, all, done) && cut <= |all| && effects == all[..cut]
          && s' == System(DiskAfter(s.disk, effects), None))
  }

  ghost predicate Run(states: seq<System>, traces: seq<seq<Effect>>) {
    |states| == |traces| + 1 && forall i | 0 <= i < |traces| :: Moves(states[i], traces[i], states[i + 1])
  }

  function Flatten(traces: seq<seq<Effect>>): seq<Effect> {
    if traces == [] then [] else Flatten(traces[..|traces| - 1]) + traces[|traces| - 1]
  }
}
