/**
 The class of src/gateway/workspace-registry.ts.  Its effects outside, in order, are its trace; each
 method performs the operation of WorkspaceRegistries.
 */
module WorkspaceRegistryObjects {
  import opened Wrappers
  import opened WorkspaceRegistries

  function Only(memberships: map<Id, Membership>, ids: set<Id>): map<Id, Membership> {
    map id | id in memberships && id in ids :: memberships[id]
  }

  lemma NoProjects(memberships: map<Id, Membership>)
    ensures Projects(Only(memberships, {})) == {}
  {}

  lemma OneMoreProject(memberships: map<Id, Membership>, ids: set<Id>, id: Id)
    requires id in memberships
    ensures Projects(Only(memberships, ids + {id})) == Projects(Only(memberships, ids)) + {memberships[id].projectId}
  {
    var was, now := Only(memberships, ids), Only(memberships, ids + {id});
    assert id in now && forall i | i in was :: i in now && now[i] == was[i];
  }

  lemma RemovalIs(m: Memory, explicit: set<Id>, world: World, plan: Plan)
    requires var gone := GoneEntries(m.entries, explicit, world);
      var dropped := GoneMemberships(m.memberships, gone, world);
      plan == Plan(m.memberships - dropped, gone + dropped,
                   (set id | id in gone :: m.entries[id].membership.projectId) + Projects(Only(m.memberships, dropped)))
    ensures plan == Removal(m, explicit, world)
  {
    var dropped := GoneMemberships(m.memberships, GoneEntries(m.entries, explicit, world), world);
    var only := Only(m.memberships, dropped);
    assert only.Keys == dropped;
    assert Projects(only) == set id | id in dropped :: m.memberships[id].projectId;
  }

  lemma PlanIs(m: Memory, candidate: Option<Membership>, explicit: set<Id>, world: World)
    ensures PlanFor(m, candidate, explicit, world) ==
      if candidate.None? then Ok(Removal(m, explicit, world)) else WithCandidate(Removal(m, explicit, world), candidate.value, world)
  {}

  // When nothing is written.
  lemma NotReconciled(m: Memory, candidate: Option<Membership>, explicit: set<Id>, world: World)
    ensures var planned := PlanFor(m, candidate, explicit, world);
      && (planned.Err? ==> Reconciled(m, candidate, explicit, world, [], m, Err(planned.error)))
      && (planned.Ok? && NothingToDo(m, candidate, planned.value) ==> Reconciled(m, candidate, explicit, world, [], m, Ok(())))
      && (planned.Ok? && !NothingToDo(m, candidate, planned.value) && !world.saves ==>
            Reconciled(m, candidate, explicit, world, [], m, Err(NotSaved)))
  {
    hide PlanFor, NothingToDo;
  }

  lemma ReconciledBy(m: Memory, candidate: Option<Membership>, explicit: set<Id>, world: World, plan: Plan, rest: seq<Effect>,
                     m': Memory, outcome: Result<(), Error>)
    requires PlanFor(m, candidate, explicit, world) == Ok(plan) && !NothingToDo(m, candidate, plan) && world.saves
    requires Drained(Committed(m, plan), world, rest, m', outcome.Ok?) && (outcome.Err? ==> outcome.error == CleanupFailed)
    ensures var mid := Committed(m, plan);
      Reconciled(m, candidate, explicit, world,
                 [Wrote(Durable(mid.memberships, mid.pending)), Revoked(RegistrationsOf(m.entries, plan.removed))] + rest, m', outcome)
  {
    hide PlanFor, NothingToDo, Committed, Drained;
  }

  // The clean-ups that have run when some projects are still to be looked at.
  ghost predicate Ran(m: Memory, world: World, done: seq<Id>, todo: set<Id>) {
    && todo <= m.pending && NoRepeats(done)
    && (forall p :: p in done <==> p in Due(m) && p !in todo)
    && (forall p | p in done :: !world.throws(p))
  }

  lemma NothingPending(m: Memory, world: World)
    ensures m.pending == {} ==> Drained(m, world, [], m, true)
  {
    if m.pending == {} {
      assert DrainedBy(m, world, [], [], m, true);
    }
  }

  lemma NoneRan(m: Memory, world: World)
    ensures Ran(m, world, [], m.pending) && CallEffects([]) == []
  {}

  lemma SkipRan(m: Memory, world: World, done: seq<Id>, todo: set<Id>, project: Id)
    requires Ran(m, world, done, todo) && project in todo && project in Projects(m.memberships)
    ensures Ran(m, world, done, todo - {project})
  {
    hide Projects;
  }

  lemma OneMoreRan(m: Memory, world: World, done: seq<Id>, todo: set<Id>, project: Id)
    requires Ran(m, world, done, todo) && project in todo && project !in Projects(m.memberships)
    ensures CallEffects(done + [project]) == CallEffects(done) + [Started(project), Returned(project)]
    ensures if world.throws(project) then Drained(m, world, CallEffects(done) + [Started(project), Threw(project)], m, false)
            else Ran(m, world, done + [project], todo - {project})
  {
    hide Projects;
    assert (done + [project])[..|done|] == done;
    if world.throws(project) {
      assert project in Due(m);
      assert DrainedBy(m, world, done, CallEffects(done) + [Started(project), Threw(project)], m, false);
    }
  }

  lemma AllRan(m: Memory, world: World, done: seq<Id>)
    requires Ran(m, world, done, {}) && m.pending != {}
    ensures if world.savesAgain then Drained(m, world, CallEffects(done) + [Wrote(Durable(m.memberships, {}))], m.(pending := {}), true)
            else Drained(m, world, CallEffects(done), m, false)
  {
    hide Projects, CallEffects;
    assert forall p | p in Due(m) :: p in done && !world.throws(p);
    if world.savesAgain {
      assert DrainedBy(m, world, done, CallEffects(done) + [Wrote(Durable(m.memberships, {}))], m.(pending := {}), true);
    } else {
      assert DrainedBy(m, world, done, CallEffects(done), m, false);
    }
  }

  class WorkspaceRegistry {
    var entries: map<Id, Entry>
    var memberships: map<Id, Membership>
    var pendingProjectRemovals: set<Id>
    var trace: seq<Effect>
    // Whether construction got through; a registry whose clean-ups failed is never used.
    var ready: bool

    function Model(): Memory
      reads this
    {
      Memory(entries, memberships, pendingProjectRemovals)
    }

    constructor (disk: Durable, world: World)
      ensures Restarted(disk, world, trace, Model(), ready)
    {
      entries, memberships, pendingProjectRemovals, trace := map[], disk.memberships, disk.pending, [];
      ready := false;
      new;
      var ok, effects := DrainPendingProjectRemovals(world);
      assert [] + effects == effects;
      ready := ok;
    }

    method CommitMemberships(next: map<Id, Membership>, pending: set<Id>, saves: bool) returns (ok: bool)
      modifies `memberships, `pendingProjectRemovals, `trace
      ensures ok == saves
      ensures ok ==> memberships == next && pendingProjectRemovals == pending && trace == old(trace) + [Wrote(Durable(next, pending))]
      ensures !ok ==> unchanged(this)
    {
      if saves {
        trace := trace + [Wrote(Durable(next, pending))];
        memberships, pendingProjectRemovals := next, pending;
      }
      return saves;
    }

    method DrainPendingProjectRemovals(world: World) returns (ok: bool, ghost effects: seq<Effect>)
      modifies `memberships, `pendingProjectRemovals, `trace
      ensures trace == old(trace) + effects && Drained(old(Model()), world, effects, Model(), ok)
    {
      hide Drained, DrainedBy, Ran, CallEffects, Projects;
      ghost var m := Model();
      ghost var done: seq<Id> := [];
      effects := [];
      NothingPending(m, world);
      NoneRan(m, world);
      if pendingProjectRemovals == {} {
        assert trace == old(trace) + effects;
        return true, effects;
      }
      var next, todo := pendingProjectRemovals, pendingProjectRemovals;
      while todo != {}
        invariant memberships == m.memberships && pendingProjectRemovals == m.pending && Model() == m
        invariant todo <= m.pending && next == todo
        invariant Ran(m, world, done, todo) && effects == CallEffects(done)
        invariant trace == old(trace) + effects
        decreases |todo|
      {
        var project :| project in todo;
        if project in Projects(memberships) {
          SkipRan(m, world, done, todo, project);
          next := next - {project};
        } else {
          OneMoreRan(m, world, done, todo, project);
          trace := trace + [Started(project)];
          if world.throws(project) {
            trace := trace + [Threw(project)];
            effects := effects + [Started(project), Threw(project)];
            return false, effects;
          }
          trace := trace + [Returned(project)];
          effects := effects + [Started(project), Returned(project)];
          done := done + [project];
          next := next - {project};
        }
        todo := todo - {project};
      }
      AllRan(m, world, done);
      ok := true;
      if |next| != |pendingProjectRemovals| {
        ok := CommitMemberships(memberships, next, world.savesAgain);
        if ok {
          effects := effects + [Wrote(Durable(m.memberships, {}))];
        }
      }
    }

    // The registrations that go, by request or because their checkout changed.
    method StaleEntries(explicit: set<Id>, world: World) returns (ids: set<Id>, projects: set<Id>)
      ensures ids == GoneEntries(entries, explicit, world)
      ensures projects == set id | id in ids :: entries[id].membership.projectId
    {
      ids, projects := {}, {};
      var todo := entries.Keys;
      while todo != {}
        invariant todo <= entries.Keys
        invariant ids == GoneEntries(entries, explicit, world) - todo
        invariant projects == set id | id in ids :: entries[id].membership.projectId
        decreases |todo|
      {
        var id :| id in todo;
        todo := todo - {id};
        if id in explicit || world.entryStatus(entries[id].membership) == Stale {
          ids := ids + {id};
          projects := projects + {entries[id].membership.projectId};
        }
      }
    }

    method DropMemberships(gone: set<Id>, world: World) returns (next: map<Id, Membership>, ids: set<Id>, projects: set<Id>)
      ensures ids == GoneMemberships(memberships, gone, world) && next == memberships - ids
      ensures projects == Projects(Only(memberships, ids))
    {
      hide Projects, Only;
      next, ids, projects := memberships, {}, {};
      NoProjects(memberships);
      var todo := memberships.Keys;
      while todo != {}
        invariant todo <= memberships.Keys
        invariant forall id :: id in ids <==> id in memberships && id !in todo && (id in gone || world.status(memberships[id]) == Stale)
        invariant next == memberships - ids
        invariant projects == Projects(Only(memberships, ids))
        decreases |todo|
      {
        var id :| id in todo;
        todo := todo - {id};
        if id in gone || world.status(memberships[id]) == Stale {
          OneMoreProject(memberships, ids, id);
          next := next - {id};
          ids := ids + {id};
          projects := projects + {memberships[id].projectId};
        }
      }
      assert ids == GoneMemberships(memberships, gone, world);
    }

    // What goes and what stays; nothing is changed yet.
    method PlanReconciliation(candidate: Option<Membership>, explicit: set<Id>, world: World) returns (planned: Result<Plan, Error>)
      ensures planned == PlanFor(Model(), candidate, explicit, world)
    {
      hide PlanFor, Projects, Removal, GoneEntries, GoneMemberships, WithCandidate;
      var gone, goneProjects := StaleEntries(explicit, world);
      var next, dropped, droppedProjects := DropMemberships(gone, world);
      var plan := Plan(next, gone + dropped, goneProjects + droppedProjects);
      RemovalIs(Model(), explicit, world, plan);
      PlanIs(Model(), candidate, explicit, world);
      return if candidate.None? then Ok(plan) else WithCandidate(plan, candidate.value, world);
    }

    method ReconcileMemberships(candidate: Option<Membership>, explicit: set<Id>, world: World)
      returns (outcome: Result<(), Error>, ghost effects: seq<Effect>)
      modifies this
      ensures ready == old(ready) && trace == old(trace) + effects
      ensures Reconciled(old(Model()), candidate, explicit, world, effects, Model(), outcome)
    {
      hide Reconciled, Drained, PlanFor, Projects;
      ghost var m := Model();
      NotReconciled(m, candidate, explicit, world);
      effects := [];
      assert trace == trace + effects;
      var planned := PlanReconciliation(candidate, explicit, world);
      if planned.Err? {
        return Err(planned.error), [];
      }
      var plan := planned.value;
      var emptied := plan.projects - Projects(plan.next);
      var pending := (pendingProjectRemovals - Projects(plan.next)) + emptied;
      assert pending == PendingAfter(m, plan);
      if plan.removed == {} && candidate.None? && |pending| == |pendingProjectRemovals| {
        return Ok(()), [];
      }
      var saved := CommitMemberships(plan.next, pending, world.saves);
      if !saved {
        return Err(NotSaved), [];
      }
      trace := trace + [Revoked(RegistrationsOf(entries, plan.removed))];
      entries := entries - plan.removed;
      assert Model() == Committed(m, plan);
      var ok, rest := DrainPendingProjectRemovals(world);
      outcome := if ok then Ok(()) else Err(CleanupFailed);
      effects := [Wrote(Durable(plan.next, pending)), Revoked(RegistrationsOf(m.entries, plan.removed))] + rest;
      ReconciledBy(m, candidate, explicit, world, plan, rest, Model(), outcome);
    }

    method Register(candidate: Membership, registrationId: Id, world: World) returns (answer: Result<Answer, Error>, ghost effects: seq<Effect>)
      modifies this
      ensures ready == old(ready) && trace == old(trace) + effects
      ensures Performed(old(Model()), Op.Register(candidate, registrationId), world, effects, Model(), answer)
    {
      hide Reconciled;
      var outcome;
      outcome, effects := ReconcileMemberships(Some(candidate), {}, world);
      if outcome.Err? {
        return Err(outcome.error), effects;
      }
      ghost var mid := Model();
      if id: Id :| id in entries && RegisteredCheckout(entries, id, candidate) {
        answer := Ok(Registered(entries[id]));
      } else if candidate.workspaceId in entries {
        answer := Err(IdCollision);
      } else {
        var entry := Entry(registrationId, candidate);
        entries := entries[candidate.workspaceId := entry];
        answer := Ok(Registered(entry));
      }
      assert RegisteredIn(mid, candidate, registrationId, Model(), answer);
    }

    method Unregister(workspaceId: Id, projectId: Id, registrationId: Id, world: World)
      returns (answer: Result<Answer, Error>, ghost effects: seq<Effect>)
      modifies this
      ensures ready == old(ready) && trace == old(trace) + effects
      ensures Performed(old(Model()), Op.Unregister(workspaceId, projectId, registrationId), world, effects, Model(), answer)
    {
      hide Reconciled;
      effects := [];
      assert trace == trace + effects;
      if workspaceId !in entries {
        return Ok(Removed(false)), [];
      }
      var mismatch := Mismatch(entries[workspaceId], projectId, registrationId);
      if mismatch.Some? {
        return Err(mismatch.value), [];
      }
      var outcome;
      outcome, effects := ReconcileMemberships(None, {workspaceId}, world);
      answer := if outcome.Err? then Err(outcome.error) else Ok(Removed(true));
    }

    method Lookup(workspaceId: Id, projectId: Id, registrationId: Id, world: World)
      returns (answer: Result<Answer, Error>, ghost effects: seq<Effect>)
      modifies this
      ensures ready == old(ready) && trace == old(trace) + effects
      ensures Performed(old(Model()), Op.Lookup(workspaceId, projectId, registrationId), world, effects, Model(), answer)
    {
      hide Reconciled;
      effects := [];
      assert trace == trace + effects;
      if workspaceId !in entries {
        return Err(NotFound), [];
      }
      var entry := entries[workspaceId];
      var status := world.entryStatus(entry.membership);
      if status == Stale {
        var outcome;
        outcome, effects := ReconcileMemberships(None, {workspaceId}, world);
        return Err(if outcome.Err? then outcome.error else StaleCheckout), effects;
      }
      if status == Uncertain {
        return Err(StatusUncertain), [];
      }
      var mismatch := Mismatch(entry, projectId, registrationId);
      answer := if mismatch.Some? then Err(mismatch.value) else Ok(Found(entry));
    }

    method HasProject(projectId: Id, world: World) returns (answer: Result<Answer, Error>, ghost effects: seq<Effect>)
      modifies this
      ensures ready == old(ready) && trace == old(trace) + effects
      ensures Performed(old(Model()), Op.HasProject(projectId), world, effects, Model(), answer)
    {
      hide Reconciled;
      var outcome;
      outcome, effects := ReconcileMemberships(None, {}, world);
      answer := if outcome.Err? then Err(outcome.error) else Ok(Has(projectId in Projects(memberships)));
    }
  }
}
