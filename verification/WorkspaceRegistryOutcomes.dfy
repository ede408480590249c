/** When the operations on the registered checkouts succeed, and which checkouts, registrations and clean-ups they leave. */
module WorkspaceRegistryOutcomes {
  import opened Wrappers
  import opened WorkspaceRegistries
  import opened WorkspaceRegistryRuns

  // -------------------------------------------------------------------------- clean-ups

  lemma DrainAnswers(m: Memory, world: World, effects: seq<Effect>, m': Memory, ok: bool)
    requires Drained(m, world, effects, m', ok)
    ensures ok <==> m.pending == {} || (world.savesAgain && forall p | p in Due(m) :: !world.throws(p))
    ensures m' == if ok then m.(pending := {}) else m
    ensures ok ==> Cleaned(effects) == m.pending - Projects(m.memberships)
    ensures !ok ==> Cleaned(effects) <= m.pending - Projects(m.memberships)
  {
    hide Projects, CallEffects, Cleaned, NoRepeats;
    var done: seq<Id> :| DrainedBy(m, world, done, effects, m', ok);
    var bare, bare' := m.(entries := map[]), m'.(entries := map[]);
    assert Due(bare) == Due(m);
    assert DrainedBy(bare, world, done, effects, bare', ok);
    RestartSettles(Durable(m.memberships, m.pending), world, effects, bare', ok);
  }

  // -------------------------------------------------------------------------- taking checkouts out

  /** The workspace has been named and is registered, or its checkout is no longer there. */
  predicate Leaving(m: Memory, explicit: set<Id>, world: World, id: Id) {
    || (id in m.entries && (id in explicit || world.entryStatus(m.entries[id].membership) == Stale))
    || (id in m.memberships && world.status(m.memberships[id]) == Stale)
  }

  /** The workspaces that go. */
  function Going(m: Memory, explicit: set<Id>, world: World): set<Id> {
    (set id | id in m.entries && Leaving(m, explicit, world, id)) + (set id | id in m.memberships && Leaving(m, explicit, world, id))
  }

  /** The checkouts that stay. */
  function Staying(m: Memory, explicit: set<Id>, world: World): map<Id, Membership> {
    map id | id in m.memberships && !Leaving(m, explicit, world, id) :: m.memberships[id]
  }

  /** The projects that have lost a checkout or await their clean-up, and have none any more. */
  function Deserted(m: Memory, left: map<Id, Membership>): set<Id> {
    (m.pending + Projects(m.memberships)) - Projects(left)
  }

  lemma RemovalIs(m: Memory, disk: Durable, explicit: set<Id>, world: World)
    requires Sound(m, disk)
    ensures var plan := Removal(m, explicit, world);
      && plan.next == Staying(m, explicit, world)
      && plan.removed == Going(m, explicit, world)
      && plan.projects <= Projects(m.memberships)
      && Projects(m.memberships) <= plan.projects + Projects(plan.next)
      && (m.entries - plan.removed).Keys == m.entries.Keys - plan.removed
  {
    var plan := Removal(m, explicit, world);
    forall p | p in plan.projects ensures p in Projects(m.memberships) {}
    forall p | p in Projects(m.memberships) ensures p in plan.projects + Projects(plan.next) {
      var id :| id in m.memberships && m.memberships[id].projectId == p;
      assert id !in plan.removed ==> id in plan.next && plan.next[id].projectId == p;
    }
  }

  // What a reconcile that has been saved leaves, whatever becomes of the clean-ups.
  ghost predicate Settled(m: Memory, left: map<Id, Membership>, gone: set<Id>, world: World,
                          effects: seq<Effect>, m': Memory, ok: bool)
  {
    var due := Deserted(m, left);
    && (ok <==> due == {} || (world.savesAgain && forall p | p in due :: !world.throws(p)))
    && m' == Memory(m.entries - gone, left, if ok then {} else due)
    && |effects| >= 2 && effects[0] == Wrote(Durable(left, due))
    && effects[1] == Revoked(set id | id in m.entries && id in gone :: m.entries[id].registrationId)
    && (if ok then Cleaned(effects) == due else Cleaned(effects) <= due)
  }

  lemma SettlesAt(m: Memory, plan: Plan, world: World, effects: seq<Effect>, rest: seq<Effect>, m': Memory, ok: bool)
    requires var mid := Committed(m, plan);
      && effects == [Wrote(Durable(mid.memberships, mid.pending)), Revoked(RegistrationsOf(m.entries, plan.removed))] + rest
      && Drained(mid, world, rest, m', ok)
    requires plan.projects <= Projects(m.memberships) && Projects(m.memberships) <= plan.projects + Projects(plan.next)
    ensures Settled(m, plan.next, plan.removed, world, effects, m', ok)
  {
    hide Drained, Projects, Cleaned;
    var mid := Committed(m, plan);
    assert PendingAfter(m, plan) == Deserted(m, plan.next);
    DrainAnswers(mid, world, rest, m', ok);
    var first := [Wrote(Durable(mid.memberships, mid.pending)), Revoked(RegistrationsOf(m.entries, plan.removed))];
    CleanedJoin(first, rest);
    NothingCleaned(first[0], first[1]);
    assert Due(mid) == mid.pending == mid.pending - Projects(mid.memberships);
  }

  lemma NothingCleaned(a: Effect, b: Effect)
    requires !a.Returned? && !b.Returned?
    ensures Cleaned([a, b]) == {}
  {}

  function Failure<T>(outcome: Result<T, Error>): Option<Error> { if outcome.Ok? then None else Some(outcome.error) }

  ghost predicate RemovedAs(m: Memory, explicit: set<Id>, world: World, effects: seq<Effect>, m': Memory, failure: Option<Error>) {
    var going := Going(m, explicit, world);
    if going == {} then effects == [] && m' == m && failure.None?
    else if !world.saves then effects == [] && m' == m && failure == Some(NotSaved)
    else
      Settled(m, Staying(m, explicit, world), going, world, effects, m', failure.None?) && (failure.Some? ==> failure.value == CleanupFailed)
  }

  /**
   Taking checkouts out: nothing happens unless a registered one is named or one is gone.  Else, if the file can
   be written, exactly those are out of the file and of the registrations, whose capabilities are revoked, and it
   succeeds exactly if every project that is left without a checkout is cleaned up and that is written too.
   */
  lemma RemovalAnswers(m: Memory, disk: Durable, explicit: set<Id>, world: World,
                       effects: seq<Effect>, m': Memory, outcome: Result<(), Error>)
    requires Sound(m, disk) && Reconciled(m, None, explicit, world, effects, m', outcome)
    ensures RemovedAs(m, explicit, world, effects, m', Failure(outcome))
  {
    hide Drained, Projects, Settled, Going, Staying, Committed, RegistrationsOf;
    var plan := Removal(m, explicit, world);
    RemovalIs(m, disk, explicit, world);
    if plan.removed == {} {
      NothingGoes(m, disk, explicit, world);
    } else if world.saves {
      var mid := Committed(m, plan);
      var rest: seq<Effect> :|
        && effects == [Wrote(Durable(mid.memberships, mid.pending)), Revoked(RegistrationsOf(m.entries, plan.removed))] + rest
        && Drained(mid, world, rest, m', outcome.Ok?)
        && (outcome.Err? ==> outcome.error == CleanupFailed);
      SettlesAt(m, plan, world, effects, rest, m', outcome.Ok?);
    }
  }

  lemma NothingGoes(m: Memory, disk: Durable, explicit: set<Id>, world: World)
    requires Sound(m, disk) && Removal(m, explicit, world).removed == {}
    ensures PendingAfter(m, Removal(m, explicit, world)) == m.pending
  {
    var plan := Removal(m, explicit, world);
    RemovalIs(m, disk, explicit, world);
    assert plan.next == m.memberships;
    hide Projects;
  }

  /** Unregistering takes out exactly a registration named in full, and whatever else has gone by then. */
  lemma UnregisterAnswers(m: Memory, disk: Durable, id: Id, projectId: Id, registrationId: Id, world: World,
                          effects: seq<Effect>, m': Memory, answer: Result<Answer, Error>)
    requires Sound(m, disk) && Performed(m, Unregister(id, projectId, registrationId), world, effects, m', answer)
    ensures id !in m.entries ==> effects == [] && m' == m && answer == Ok(Removed(false))
    ensures id in m.entries ==>
      var entry := m.entries[id];
      if entry.membership.projectId != projectId || entry.registrationId != registrationId then
        effects == [] && m' == m && (answer == Err(ProjectMismatch) || answer == Err(RegistrationMismatch))
      else
        && id in Going(m, {id}, world)
        && RemovedAs(m, {id}, world, effects, m', Failure(answer))
        && (answer.Ok? ==> answer == Ok(Removed(true)) && id !in m'.entries && id !in m'.memberships)
  {
    hide Reconciled, RemovedAs;
    if id in m.entries && Mismatch(m.entries[id], projectId, registrationId).None? {
      var outcome: Result<(), Error> :|
        && Reconciled(m, None, {id}, world, effects, m', outcome)
        && answer == if outcome.Err? then Err(outcome.error) else Ok(Removed(true));
      RemovalAnswers(m, disk, {id}, world, effects, m', outcome);
      if outcome.Ok? {
        GoneFor(m, {id}, world, effects, m', id);
      }
    }
  }

  lemma GoneFor(m: Memory, explicit: set<Id>, world: World, effects: seq<Effect>, m': Memory, id: Id)
    requires RemovedAs(m, explicit, world, effects, m', None) && id in Going(m, explicit, world)
    ensures id !in m'.entries && id !in m'.memberships
  {
    hide Deserted, Cleaned;
  }

  /** A lookup gives exactly a registration named in full whose checkout is there; a checkout that is gone is taken out. */
  lemma LookupAnswers(m: Memory, disk: Durable, id: Id, projectId: Id, registrationId: Id, world: World,
                      effects: seq<Effect>, m': Memory, answer: Result<Answer, Error>)
    requires Sound(m, disk) && Performed(m, Lookup(id, projectId, registrationId), world, effects, m', answer)
    ensures answer.Ok? <==>
      && id in m.entries && world.entryStatus(m.entries[id].membership) == Current
      && m.entries[id].membership.projectId == projectId && m.entries[id].registrationId == registrationId
    ensures answer.Ok? ==> answer.value == Found(m.entries[id])
    ensures if id in m.entries && world.entryStatus(m.entries[id].membership) == Stale then
              && id in Going(m, {}, world)
              && RemovedAs(m, {id}, world, effects, m', if answer == Err(StaleCheckout) then None else Failure(answer))
            else effects == [] && m' == m
  {
    hide Reconciled, RemovedAs;
    if id in m.entries && world.entryStatus(m.entries[id].membership) == Stale {
      var outcome: Result<(), Error> :|
        && Reconciled(m, None, {id}, world, effects, m', outcome)
        && answer == Err(if outcome.Err? then outcome.error else StaleCheckout);
      RemovalAnswers(m, disk, {id}, world, effects, m', outcome);
      NotStale(m, {id}, world, effects, m', Failure(outcome));
    }
  }

  lemma NotStale(m: Memory, explicit: set<Id>, world: World, effects: seq<Effect>, m': Memory, failure: Option<Error>)
    requires RemovedAs(m, explicit, world, effects, m', failure)
    ensures failure.Some? ==> failure.value == NotSaved || failure.value == CleanupFailed
  {
    hide Settled;
  }

  /** A project is found exactly if a checkout of it is still there. */
  lemma HasProjectAnswers(m: Memory, disk: Durable, projectId: Id, world: World, effects: seq<Effect>, m': Memory, answer: Result<Answer, Error>)
    requires Sound(m, disk) && Performed(m, HasProject(projectId), world, effects, m', answer)
    ensures RemovedAs(m, {}, world, effects, m', Failure(answer))
    ensures answer.Ok? ==> answer.value.Has? &&
                           (answer.value.found <==> exists id | id in m.memberships && !Leaving(m, {}, world, id) :: m.memberships[id].projectId == projectId)
  {
    hide Reconciled, RemovedAs;
    var outcome: Result<(), Error> :|
      && Reconciled(m, None, {}, world, effects, m', outcome)
      && answer == if outcome.Err? then Err(outcome.error) else Ok(Has(projectId in Projects(m'.memberships)));
    RemovalAnswers(m, disk, {}, world, effects, m', outcome);
    if outcome.Ok? {
      Stays(m, {}, world, effects, m');
    }
  }

  lemma Stays(m: Memory, explicit: set<Id>, world: World, effects: seq<Effect>, m': Memory)
    requires RemovedAs(m, explicit, world, effects, m', None)
    ensures forall id :: id in m'.memberships <==> id in m.memberships && !Leaving(m, explicit, world, id)
    ensures forall id | id in m'.memberships :: m'.memberships[id] == m.memberships[id]
  {
    hide Deserted, Cleaned, Leaving;
    assert forall id | id in m.memberships && Leaving(m, explicit, world, id) :: id in Going(m, explicit, world);
  }

  // -------------------------------------------------------------------------- registering

  /** The workspace is unused, the same, or was the same checkout before it became a Git work tree; and the checkout is in no other. */
  predicate Welcome(stay: map<Id, Membership>, candidate: Membership) {
    var id := candidate.workspaceId;
    && (id in stay && stay[id] != candidate ==>
          && stay[id].root == candidate.root && stay[id].fingerprint == candidate.fingerprint
          && stay[id].metadataFile.None? && candidate.metadataFile.Some?)
    && (forall j | j in stay && j != id :: stay[j].fingerprint != candidate.fingerprint)
  }

  /** The workspaces that lose their registration on the way, the candidate's own among them if its checkout is another now. */
  function Giving(m: Memory, candidate: Membership, world: World): set<Id> {
    var stay, id := Staying(m, {}, world), candidate.workspaceId;
    Going(m, {}, world) + if id in stay && stay[id] != candidate then {id} else {}
  }

  lemma CandidatePlan(m: Memory, disk: Durable, candidate: Membership, world: World)
    requires Sound(m, disk)
    ensures var stay, planned := Staying(m, {}, world), PlanFor(m, Some(candidate), {}, world);
      && (planned.Ok? <==> Welcome(stay, candidate))
      && (planned.Err? ==> planned.error == IdCollision || planned.error == StatusUncertain)
      && (planned.Ok? ==>
            var plan := planned.value;
            && plan.next == stay[candidate.workspaceId := candidate] && plan.removed == Giving(m, candidate, world)
            && plan.projects <= Projects(m.memberships) && Projects(m.memberships) <= plan.projects + Projects(plan.next))
  {
    hide Removal, Going, Projects;
    var base := Removal(m, {}, world);
    RemovalIs(m, disk, {}, world);
    CandidateOn(base, m.memberships, candidate, world) by {
      assert forall j | j in base.next :: base.next[j].workspaceId == j;
    }
  }

  lemma CandidateOn(base: Plan, memberships: map<Id, Membership>, candidate: Membership, world: World)
    requires (forall j | j in base.next :: base.next[j].workspaceId == j && j in memberships && memberships[j] == base.next[j])
    requires base.projects <= Projects(memberships) && Projects(memberships) <= base.projects + Projects(base.next)
    ensures var id, planned := candidate.workspaceId, WithCandidate(base, candidate, world);
      && (planned.Ok? <==> Welcome(base.next, candidate))
      && (planned.Err? ==> planned.error == IdCollision || planned.error == StatusUncertain)
      && (planned.Ok? ==>
            var plan := planned.value;
            && plan.next == base.next[id := candidate]
            && plan.removed == base.removed + (if id in base.next && base.next[id] != candidate then {id} else {})
            && plan.projects <= Projects(memberships) && Projects(memberships) <= plan.projects + Projects(plan.next))
  {
    var id, planned := candidate.workspaceId, WithCandidate(base, candidate, world);
    var others := if id in base.next && base.next[id] != candidate then base.next - {id} else base.next;
    assert FingerprintTaken(others, candidate) <==> exists j | j in base.next && j != id :: base.next[j].fingerprint == candidate.fingerprint by {
      if j :| j in base.next && j != id && base.next[j].fingerprint == candidate.fingerprint {
        assert j in others && others[j].workspaceId == j;
      }
    }
    if planned.Ok? {
      var plan := planned.value;
      assert plan.next == base.next[id := candidate];
      forall p | p in Projects(memberships) ensures p in plan.projects + Projects(plan.next) {
        if p !in base.projects {
          var j :| j in base.next && base.next[j].projectId == p;
          assert j in plan.next && (j != id ==> plan.next[j].projectId == p);
        }
      }
    }
  }

  // The memberships and registrations once a candidate that is welcome has been written down.
  ghost predicate TakenIn(m: Memory, candidate: Membership, world: World, effects: seq<Effect>, mid: Memory, ok: bool) {
    Settled(m, Staying(m, {}, world)[candidate.workspaceId := candidate], Giving(m, candidate, world), world, effects, mid, ok)
  }

  lemma CandidateAnswers(m: Memory, disk: Durable, candidate: Membership, world: World,
                         effects: seq<Effect>, mid: Memory, outcome: Result<(), Error>)
    requires Sound(m, disk) && Reconciled(m, Some(candidate), {}, world, effects, mid, outcome)
    ensures var welcome := Welcome(Staying(m, {}, world), candidate);
      && (!welcome || !world.saves ==> outcome.Err? && effects == [] && mid == m)
      && (welcome && world.saves ==> TakenIn(m, candidate, world, effects, mid, outcome.Ok?))
  {
    hide Drained, Projects, Settled, Giving, Staying, Committed, RegistrationsOf, PlanFor, Welcome;
    var planned := PlanFor(m, Some(candidate), {}, world);
    CandidatePlan(m, disk, candidate, world);
    if planned.Ok? && world.saves {
      var plan := planned.value;
      var mid' := Committed(m, plan);
      var rest: seq<Effect> :|
        && effects == [Wrote(Durable(mid'.memberships, mid'.pending)), Revoked(RegistrationsOf(m.entries, plan.removed))] + rest
        && Drained(mid', world, rest, mid, outcome.Ok?)
        && (outcome.Err? ==> outcome.error == CleanupFailed);
      SettlesAt(m, plan, world, effects, rest, mid, outcome.Ok?);
    }
  }

  // The registration a candidate gets: the one it has, if that stays, else a new one.
  function EntryFor(m: Memory, candidate: Membership, registrationId: Id, world: World): Entry {
    var id := candidate.workspaceId;
    if id in m.entries && id !in Giving(m, candidate, world) then m.entries[id] else Entry(registrationId, candidate)
  }

  lemma EntryGiven(m: Memory, disk: Durable, candidate: Membership, registrationId: Id, world: World,
                   effects: seq<Effect>, mid: Memory, m': Memory, answer: Result<Answer, Error>)
    requires Sound(m, disk) && TakenIn(m, candidate, world, effects, mid, true)
    requires Keyed(mid.memberships) && (forall id | id in mid.entries :: id in mid.memberships && mid.entries[id].membership == mid.memberships[id])
    requires RegisteredIn(mid, candidate, registrationId, m', answer)
    ensures var entry := EntryFor(m, candidate, registrationId, world);
      answer == Ok(Registered(entry)) && m' == mid.(entries := mid.entries[candidate.workspaceId := entry])
  {
    hide Deserted, Cleaned, Giving, Staying;
    var id := candidate.workspaceId;
    assert id in mid.entries <==> id in m.entries && id !in Giving(m, candidate, world);
    assert id in mid.entries ==> RegisteredCheckout(mid.entries, id, candidate);
    if exists j :: RegisteredCheckout(mid.entries, j, candidate) {
      var j :| RegisteredCheckout(mid.entries, j, candidate) && answer == Ok(Registered(mid.entries[j]));
      assert mid.memberships[j].fingerprint == mid.memberships[id].fingerprint;
    }
  }

  /**
   A checkout is registered exactly if its workspace is free for it, no other has it, the file can be written and
   every project left without a checkout is cleaned up.  It keeps the registration it has; whatever has gone on the
   way is out, and a refusal changes nothing.
   */
  lemma RegisterAnswers(m: Memory, disk: Durable, candidate: Membership, registrationId: Id, world: World,
                        effects: seq<Effect>, m': Memory, answer: Result<Answer, Error>)
    requires Sound(m, disk) && Keyed(disk.memberships) && Performed(m, Register(candidate, registrationId), world, effects, m', answer)
    ensures var stay, entry := Staying(m, {}, world), EntryFor(m, candidate, registrationId, world);
      var due := Deserted(m, stay[candidate.workspaceId := candidate]);
      && (answer.Ok? <==>
            && Welcome(stay, candidate) && world.saves
            && (due == {} || (world.savesAgain && forall p | p in due :: !world.throws(p))))
      && (!Welcome(stay, candidate) || !world.saves ==> effects == [] && m' == m)
      && (answer.Ok? ==>
            && answer.value == Registered(entry) && Cleaned(effects) == due
            && m' == Memory((m.entries - Giving(m, candidate, world))[candidate.workspaceId := entry],
                            stay[candidate.workspaceId := candidate], {}))
      && (answer.Err? && effects != [] ==> m'.memberships == stay[candidate.workspaceId := candidate] && m'.pending == due)
  {
    hide Reconciled, RegisteredIn, Sound, Staying, Giving, EntryFor, Welcome, Deserted, Cleaned, Projects;
    var mid: Memory, outcome: Result<(), Error> :|
      && Reconciled(m, Some(candidate), {}, world, effects, mid, outcome)
      && (if outcome.Err? then m' == mid && answer == Err(outcome.error) else RegisteredIn(mid, candidate, registrationId, m', answer));
    CandidateAnswers(m, disk, candidate, world, effects, mid, outcome);
    if outcome.Ok? {
      SoundBehind(m, disk, candidate, world, effects, mid, outcome);
      EntryGiven(m, disk, candidate, registrationId, world, effects, mid, m', answer);
    }
  }

  lemma SoundBehind(m: Memory, disk: Durable, candidate: Membership, world: World,
                    effects: seq<Effect>, mid: Memory, outcome: Result<(), Error>)
    requires Sound(m, disk) && Reconciled(m, Some(candidate), {}, world, effects, mid, outcome)
    ensures Keyed(mid.memberships)
    ensures forall id | id in mid.entries :: id in mid.memberships && mid.entries[id].membership == mid.memberships[id]
  {
    hide Reconciled, ObserveAll, SafeThrough, Projects, Keyed;
    ReconcileSafe(Watch(disk, {}), m, Some(candidate), {}, world, effects, mid, outcome);
  }
}
