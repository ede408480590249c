/**
 The operations of src/session/surface-ownership.ts as the source runs them: each reads the saved
 index and the project's mirror into working copies, changes those in place and saves them.  Every
 method is proved against the functions of SurfaceOwnership, which never see a mirror: whatever a
 mirror said, it neither grants nor releases anything.
 */
module SurfaceIndexes {
  import opened Wrappers
  import opened Lists
  import opened SurfaceOwnership
  import opened SurfaceInvariants
  import opened SurfaceChecks
  import opened SurfaceRuns

  /** The working copy of the machine-wide index. */
  class MachineState {
    var initialized: set<Id>
    var absent: set<Id>
    var projectUrls: map<Id, Url>
    var leases: seq<Lease>
    var bindings: seq<Binding>
    var nextGeneration: nat
    var generations: map<Key, nat>

    constructor (m: Machine)
      ensures Value() == m
    {
      initialized, absent, projectUrls := m.initialized, m.absent, m.projectUrls;
      leases, bindings := m.leases, m.bindings;
      nextGeneration, generations := m.nextGeneration, m.generations;
    }

    function Value(): Machine
      reads this
    {
      Machine(initialized, absent, projectUrls, leases, bindings, nextGeneration, generations)
    }

    method Prune()
      modifies this`generations
      ensures Value() == PruneGenerations(old(Value()))
    {
      var active := Sessions(Value());
      generations := map k | k in generations && k in active :: generations[k];
    }

    method ReapExpired(at: int) returns (removed: nat)
      modifies this`leases, this`generations
      ensures Value() == Reaped(old(Value()), at) && removed == |old(leases)| - |leases|
    {
      var before := |leases|;
      leases := Filter(leases, AliveAt(at));
      Prune();
      removed := before - |leases|;
    }
  }

  /** The working copy of one project's mirror. */
  class ProjectState {
    var leases: seq<Lease>
    var bindings: seq<Binding>
    var generations: map<Key, nat>

    constructor (s: Mirror)
      ensures Value() == s
    {
      leases, bindings, generations := s.leases, s.bindings, s.generations;
    }

    function Value(): Mirror
      reads this
    {
      Mirror(leases, bindings, generations)
    }

    method ReapExpired(at: int)
      modifies this`leases
      ensures leases == Filter(old(leases), AliveAt(at))
    {
      leases := Filter(leases, AliveAt(at));
    }

    predicate Within(p: Id)
      reads this
    {
      (forall l | l in leases :: l.route.key.projectId == p) && (forall b | b in bindings :: b.route.key.projectId == p)
    }

    predicate Shows(m: Machine, p: Id)
      reads this
    {
      leases == Filter(m.leases, LeaseIn(p)) && bindings == Filter(m.bindings, BindingIn(p))
    }
  }

  lemma AbsentHoldsNothing(m: Machine, p: Id)
    requires Consistent(m) && p !in m.initialized - m.absent
    requires RecordsOk(m) || p in m.absent
    ensures Filter(m.leases, LeaseIn(p)) == [] && Filter(m.bindings, BindingIn(p)) == []
  {
    RoutesElements(m);
    assert forall r | r in Routes(m) :: RouteOk(m, r);
    FilterNone(m.leases, LeaseIn(p));
    FilterNone(m.bindings, BindingIn(p));
  }

  // Of a list with some entries replaced, the filter finds the replacement.
  lemma ReplacedShows<T(!new)>(s: seq<T>, entries: seq<T>, outside: T -> bool, inside: T -> bool)
    requires (forall x | x in entries :: inside(x)) && forall x | outside(x) :: !inside(x)
    ensures Filter(Filter(s, outside) + entries, inside) == entries && Filter(Filter(s, outside), inside) == []
  {
    hide Filter;
    FilterAppend(Filter(s, outside), entries, inside);
    FilterNone(Filter(s, outside), inside);
    FilterAll(entries, inside);
    assert [] + entries == entries;
  }

  // Once published, the index shows the project's entries as the mirror lists them.
  lemma PublishedShows(m: Machine, project: Mirror, p: Id)
    requires p in m.absent ==> project.leases == [] && project.bindings == []
    requires (forall l | l in project.leases :: l.route.key.projectId == p) && (forall b | b in project.bindings :: b.route.key.projectId == p)
    ensures var s := Published(m, project, p);
      Filter(s.leases, LeaseIn(p)) == project.leases && Filter(s.bindings, BindingIn(p)) == project.bindings
  {
    hide Filter;
    ReplacedShows(m.leases, project.leases, LeaseOutside(p), LeaseIn(p));
    ReplacedShows(m.bindings, project.bindings, BindingOutside(p), BindingIn(p));
  }

  // The checks inside one project find a rival exactly when the index holds one.
  lemma RivalInside(m: Machine, r: Route)
    ensures var p := r.key.projectId;
      && ((exists l | l in m.leases :: Rival(l.route, r)) <==>
            exists l | l in Filter(m.leases, LeaseIn(p)) :: l.route.key != r.key && Collides(l.route, r))
      && ((exists b | b in m.bindings :: Rival(b.route, r)) <==>
            exists b | b in Filter(m.bindings, BindingIn(p)) :: b.route.key != r.key && Collides(b.route, r))
  {}

  lemma OtherProjectInside(m: Machine, r: Route)
    ensures var leases, bindings := Filter(m.leases, LeaseIn(r.key.projectId)), Filter(m.bindings, BindingIn(r.key.projectId));
      OtherProject(m, r) <==>
        || (exists i :: 0 <= i < |leases| && leases[i].route.projectUrl != r.projectUrl)
        || (exists i :: 0 <= i < |bindings| && bindings[i].route.projectUrl != r.projectUrl)
  {
    var leases, bindings := Filter(m.leases, LeaseIn(r.key.projectId)), Filter(m.bindings, BindingIn(r.key.projectId));
    if OtherProject(m, r) {
      var s :| s in Routes(m) && s.key.projectId == r.key.projectId && s.projectUrl != r.projectUrl;
      InsideOf(m, r, s);
    } else {
      RoutesElements(m);
      hide Filter;
      forall i | 0 <= i < |leases| ensures leases[i].route.projectUrl == r.projectUrl {
        assert leases[i] in leases && leases[i].route in Routes(m);
      }
      forall i | 0 <= i < |bindings| ensures bindings[i].route.projectUrl == r.projectUrl {
        assert bindings[i] in bindings && bindings[i].route in Routes(m);
      }
    }
  }

  lemma InsideOf(m: Machine, r: Route, s: Route)
    requires s in Routes(m) && s.key.projectId == r.key.projectId && s.projectUrl != r.projectUrl
    ensures var leases, bindings := Filter(m.leases, LeaseIn(r.key.projectId)), Filter(m.bindings, BindingIn(r.key.projectId));
      || (exists i :: 0 <= i < |leases| && leases[i].route.projectUrl != r.projectUrl)
      || (exists i :: 0 <= i < |bindings| && bindings[i].route.projectUrl != r.projectUrl)
  {
    if exists l :: l in m.leases && l.route == s {
      var l :| l in m.leases && l.route == s;
      assert l in Filter(m.leases, LeaseIn(r.key.projectId));
    } else {
      var b :| b in m.bindings && b.route == s;
      assert b in Filter(m.bindings, BindingIn(r.key.projectId));
    }
  }

  lemma NewProjectHoldsNothing(m: Machine, p: Id)
    requires RecordsOk(m) && p !in m.initialized
    ensures Filter(m.leases, LeaseIn(p)) == [] && Filter(m.bindings, BindingIn(p)) == []
  {
    RoutesElements(m);
    FilterNone(m.leases, LeaseIn(p));
    FilterNone(m.bindings, BindingIn(p));
  }

  lemma ReapedReadable(m: Machine, at: int)
    requires Inv(m)
    ensures RecordsOk(Reaped(m, at)) && 1 <= Reaped(m, at).nextGeneration
  {
    ReapedFewer(m, at);
    FewerRecords(m, Reaped(m, at));
  }

  lemma AliveInside(m: Machine, at: int, p: Id)
    ensures var mine := Filter(Reaped(m, at).leases, LeaseIn(p)); Filter(mine, AliveAt(at)) == mine
  {
    FilterAll(Filter(Reaped(m, at).leases, LeaseIn(p)), AliveAt(at));
  }

  lemma HeldOutright(m: Machine, l: Lease)
    requires Consistent(m) && l in m.leases
    ensures l.route.key.projectId !in m.absent
    ensures forall b | b in m.bindings && b.route.tab == l.route.tab :: b.route.key.projectId == l.route.key.projectId
  {
    RoutesElements(m);
    assert RouteOk(m, l.route);
  }

  // When the page was first bound can be found in the project's own entries.
  lemma FoundInside(m: Machine, l: Lease, at: int)
    requires Consistent(m) && l in m.leases
    ensures var inside := Filter(m.bindings, BindingIn(l.route.key.projectId));
      var existing, previous := Find(inside, OnTab(l.route.tab)), Find(inside, BindingOf(l.route.key));
      BoundAt(m, l, at) == if existing.Some? then existing.value.boundAt else if previous.Some? then previous.value.boundAt else at
  {
    HeldOutright(m, l);
    hide Filter, Find, Consistent;
    FindFilter(m.bindings, BindingIn(l.route.key.projectId), OnTab(l.route.tab));
    FindFilter(m.bindings, BindingIn(l.route.key.projectId), BindingOf(l.route.key));
  }

  // Publishing looks only at the mirror's entries.
  lemma SamePublished(m: Machine, a: Mirror, b: Mirror, p: Id)
    requires a.leases == b.leases && a.bindings == b.bindings
    ensures Published(m, a, p) == Published(m, b, p) && Published(m, a, p).nextGeneration == m.nextGeneration
  {}

  lemma GrantWithin(m: Machine, q: Request)
    ensures forall l | l in GrantMirror(m, q).leases :: l.route.key.projectId == q.route.key.projectId
    ensures forall b | b in GrantMirror(m, q).bindings :: b.route.key.projectId == q.route.key.projectId
  {}

  lemma AtLeastOne(m: Machine)
    requires Inv(m)
    ensures 1 <= m.nextGeneration
  {}

  lemma ReapedLists(m: Machine, at: int)
    ensures var r := Reaped(m, at);
      && r.leases == Filter(m.leases, AliveAt(at)) && r.bindings == m.bindings
      && r.absent == m.absent && r.nextGeneration == m.nextGeneration
  {}

  lemma AbsentEmpty(m: Machine, p: Id)
    requires Consistent(m)
    ensures p in m.absent ==> Filter(m.leases, LeaseIn(p)) == [] && Filter(m.bindings, BindingIn(p)) == []
    ensures Filter<Lease>([], LeaseNotOf(Key(p, ""))) == []
  {
    if p in m.absent {
      AbsentHoldsNothing(m, p);
    }
  }

  lemma AbsentUnbound(m: Machine, k: Key)
    requires Consistent(m)
    ensures k.projectId in m.absent ==> Find(m.bindings, BindingOf(k)).None?
  {
    RoutesElements(m);
    assert forall r | r in Routes(m) :: RouteOk(m, r);
  }

  lemma ReplacedWithin(leases: seq<Lease>, from: Lease, to: Lease, p: Id)
    requires to.route.key.projectId == p && forall l | l in leases :: l.route.key.projectId == p
    ensures forall l | l in Replaced(leases, from, to) :: l.route.key.projectId == p
  {}

  class SurfaceIndex {
    var saved: Machine
    var mirrors: map<Id, Mirror>

    ghost predicate Valid()
      reads this
    {
      Inv(saved)
    }

    /** A first start: no index yet, and whatever mirrors the checkouts brought along. */
    constructor (found: map<Id, Mirror>)
      ensures Valid() && saved == EMPTY && mirrors == found
    {
      saved, mirrors := EMPTY, found;
      new;
      assert Routes(EMPTY) == {};
    }

    function MirrorAt(p: Id): Mirror
      reads this
    {
      if p in mirrors then mirrors[p] else Mirror([], [], map[])
    }

    /** `syncProjectIntoMachineState`: the mirror is replaced by what the index says of the project. */
    method Sync(machine: MachineState, project: ProjectState, p: Id, allowAbsent: bool) returns (ok: bool)
      requires 1 <= machine.nextGeneration
      modifies machine, project
      ensures machine.Value() == Synced(old(machine.Value()), p, allowAbsent)
      ensures ok <==> Consistent(machine.Value())
      ensures ok && RecordsOk(old(machine.Value())) ==> project.Shows(machine.Value(), p)
    {
      if p in machine.absent && !allowAbsent {
        project.leases, project.bindings, project.generations := [], [], map[];
        assert machine.initialized == old(machine.initialized);
        ok := AssertMachineOwnershipConsistency(machine.Value());
        if ok {
          AbsentHoldsNothing(machine.Value(), p);
        }
        return;
      }
      machine.absent := machine.absent - {p};
      if p !in machine.initialized {
        ghost var before := machine.Value();
        machine.initialized := machine.initialized + {p};
        project.leases, project.bindings, project.generations := [], [], map[];
      } else {
        assert machine.initialized + {p} == machine.initialized;
        project.leases := Filter(machine.leases, LeaseIn(p));
        project.bindings := Filter(machine.bindings, BindingIn(p));
        project.generations := MirrorOf(machine.Value(), p).generations;
      }
      ok := AssertMachineOwnershipConsistency(machine.Value());
      if RecordsOk(old(machine.Value())) && p !in old(machine.initialized) {
        NewProjectHoldsNothing(old(machine.Value()), p);
      }
    }

    method Publish(machine: MachineState, project: ProjectState, p: Id) returns (ok: bool)
      requires 1 <= machine.nextGeneration
      modifies machine
      ensures machine.Value() == Published(old(machine.Value()), project.Value(), p)
      ensures ok <==> Consistent(machine.Value())
    {
      if p in machine.absent {
        machine.leases := Filter(machine.leases, LeaseOutside(p));
        machine.bindings := Filter(machine.bindings, BindingOutside(p));
      } else {
        machine.initialized := machine.initialized + {p};
        machine.leases := Filter(machine.leases, LeaseOutside(p));
        machine.bindings := Filter(machine.bindings, BindingOutside(p));
        machine.leases := machine.leases + project.leases;
        machine.bindings := machine.bindings + project.bindings;
      }
      machine.Prune();
      ok := AssertMachineOwnershipConsistency(machine.Value());
    }

    /** Saves the index first and the mirror after it, unless the index fails its closing check. */
    method SyncAndSave(machine: MachineState, project: ProjectState, p: Id) returns (ok: bool)
      requires 1 <= machine.nextGeneration && project.Shows(machine.Value(), p)
      modifies this, project
      ensures ok <==> Consistent(machine.Value())
      ensures if ok then saved == machine.Value() && mirrors == old(mirrors)[p := MirrorOf(saved, p)]
              else saved == old(saved) && mirrors == old(mirrors)
    {
      project.generations := MirrorOf(machine.Value(), p).generations;
      ok := AssertMachineOwnershipConsistency(machine.Value());
      if ok {
        saved := machine.Value();
        mirrors := mirrors[p := project.Value()];
      }
    }

    /** Publishes the project's entries and saves, or fails the closing check and saves nothing. */
    method PublishAndSave(machine: MachineState, project: ProjectState, p: Id) returns (ok: bool)
      requires 1 <= machine.nextGeneration && project.Within(p)
      requires p in machine.absent ==> project.leases == [] && project.bindings == []
      modifies this, machine, project
      ensures var m := Published(old(machine.Value()), old(project.Value()), p);
        && (ok <==> Consistent(m))
        && (if ok then saved == m && mirrors == old(mirrors)[p := MirrorOf(m, p)] else saved == old(saved) && mirrors == old(mirrors))
    {
      hide Consistent, Published, MirrorOf;
      SamePublished(machine.Value(), project.Value(), project.Value(), p);
      PublishedShows(machine.Value(), project.Value(), p);
      ok := Publish(machine, project, p);
      if ok {
        ok := SyncAndSave(machine, project, p);
      }
    }

    /** `assertMachineRequestAvailable` */
    method RequestAvailable(machine: MachineState, r: Route) returns (code: Option<Code>)
      ensures code == Unavailable(machine.Value(), r)
    {
      var p := r.key.projectId;
      if p in machine.projectUrls && machine.projectUrls[p] != r.projectUrl {
        return Some(ProjectBindingConflict);
      }
      if exists q | q in machine.projectUrls :: q != p && machine.projectUrls[q] == r.projectUrl {
        return Some(ProjectBindingConflict);
      }
      for i := 0 to |machine.leases|
        invariant LeaseClash(machine.leases, r) == LeaseClash(machine.leases[i..], r)
      {
        var s := machine.leases[i].route;
        if s.key.projectId != p {
          if s.projectUrl == r.projectUrl {
            return Some(ProjectBindingConflict);
          }
          if s.tab == r.tab {
            return Some(SurfaceAlreadyOwned);
          }
        }
      }
      for i := 0 to |machine.bindings|
        invariant BindingClash(machine.bindings, r) == BindingClash(machine.bindings[i..], r)
      {
        var s := machine.bindings[i].route;
        if s.key.projectId != p {
          if s.projectUrl == r.projectUrl {
            return Some(ProjectBindingConflict);
          }
          if s.tab == r.tab {
            return Some(SurfaceBoundToAnotherSession);
          }
        }
      }
      return None;
    }

    /** `assertRequestedProjectBinding`, on the project's own entries. */
    method RequestedProjectBound(machine: MachineState, project: ProjectState, r: Route) returns (bound: bool)
      requires project.Shows(machine.Value(), r.key.projectId)
      ensures bound <==> OtherProject(machine.Value(), r)
    {
      hide OtherProject;
      OtherProjectInside(machine.Value(), r);
      for i := 0 to |project.leases|
        invariant forall j | 0 <= j < i :: project.leases[j].route.projectUrl == r.projectUrl
      {
        if project.leases[i].route.projectUrl != r.projectUrl {
          assert Filter(machine.leases, LeaseIn(r.key.projectId))[i].route.projectUrl != r.projectUrl;
          return true;
        }
      }
      for i := 0 to |project.bindings|
        invariant forall j | 0 <= j < i :: project.bindings[j].route.projectUrl == r.projectUrl
      {
        if project.bindings[i].route.projectUrl != r.projectUrl {
          assert Filter(machine.bindings, BindingIn(r.key.projectId))[i].route.projectUrl != r.projectUrl;
          return true;
        }
      }
      return false;
    }

    /** The checks of a claim against other sessions, the chats only inside the project. */
    method ClaimRefused(machine: MachineState, project: ProjectState, r: Route) returns (code: Option<Code>)
      requires project.Shows(machine.Value(), r.key.projectId)
      ensures code == ClaimConflict(machine.Value(), r)
    {
      hide Unavailable;
      var bound := RequestedProjectBound(machine, project, r);
      if bound {
        return Some(ProjectBindingConflict);
      }
      code := RequestAvailable(machine, r);
      if code.Some? {
        return;
      }
      RivalInside(machine.Value(), r);
      if exists l | l in project.leases :: l.route.key != r.key && Collides(l.route, r) {
        return Some(SurfaceAlreadyOwned);
      }
      if exists b | b in project.bindings :: b.route.key != r.key && Collides(b.route, r) {
        return Some(SurfaceBoundToAnotherSession);
      }
      return None;
    }

    predicate MirrorsFollow(before: map<Id, Mirror>, p: Id)
      reads this
    {
      mirrors == before || mirrors == before[p := MirrorOf(saved, p)]
    }

    // ------------------------------------------------------------------------ claim

    /** Working copies of the index, reaped and synced, and of the project's mirror. */
    method OpenReaped(p: Id, at: int, allowAbsent: bool) returns (machine: MachineState, project: ProjectState, ok: bool)
      requires Valid()
      ensures fresh(machine) && fresh(project)
      ensures machine.Value() == Synced(Reaped(saved, at), p, allowAbsent) && 1 <= machine.nextGeneration
      ensures ok <==> Consistent(machine.Value())
      ensures ok ==> project.Shows(machine.Value(), p)
    {
      hide Inv, Consistent, RecordsOk;
      project := new ProjectState(MirrorAt(p));
      machine := new MachineState(saved);
      ReapedReadable(saved, at);
      var _ := machine.ReapExpired(at);
      ok := Sync(machine, project, p, allowAbsent);
      if ok {
        project.ReapExpired(at);
        AliveInside(saved, at, p);
      }
    }

    method Claim(q: Request) returns (outcome: Outcome)
      requires Valid()
      modifies this
      ensures Valid() && (saved, outcome) == Apply(old(saved), SurfaceOwnership.Claim(q))
      ensures MirrorsFollow(old(mirrors), q.route.key.projectId)
    {
      hide Inv, Consistent, ClaimSynced, Reaped;
      ApplyKeepsInv(saved, SurfaceOwnership.Claim(q));
      if !ChatFits(q.route) || !TtlOk(q.ttlMs) {
        return Err(InvalidRequest);
      }
      var machine, project, ok := OpenReaped(q.route.key.projectId, q.now, true);
      if !ok {
        return Err(InvalidState);
      }
      outcome := ClaimOnCopies(machine, project, q);
    }

    method ClaimOnCopies(machine: MachineState, project: ProjectState, q: Request) returns (outcome: Outcome)
      requires Consistent(machine.Value()) && 1 <= machine.nextGeneration && q.route.key.projectId !in machine.absent
      requires project.Shows(machine.Value(), q.route.key.projectId)
      modifies this, machine, project
      ensures (saved, outcome) == ClaimSynced(old(saved), old(machine.Value()), q)
      ensures MirrorsFollow(old(mirrors), q.route.key.projectId)
    {
      hide Consistent, ClaimConflict, Granted, MirrorOf, Unavailable;
      ghost var s := machine.Value();
      var k, p := q.route.key, q.route.key.projectId;
      var conflict := ClaimRefused(machine, project, q.route);
      if conflict.Some? {
        return Err(conflict.value);
      }
      FindFilter(s.leases, LeaseIn(p), LeaseOf(k));
      FindFilter(s.bindings, BindingIn(p), BindingOf(k));
      var active, binding := Find(project.leases, LeaseOf(k)), Find(project.bindings, BindingOf(k));
      if active.Some? && active.value.route == q.route && active.value.owner == q.owner {
        var _ := SyncAndSave(machine, project, p);
        return Ok(Owned(active.value));
      }
      if active.Some? {
        if q.rotates.None? || !SameRef(active.value, q.rotates.value) {
          return Err(SessionAlreadyOwned);
        }
      } else {
        if binding.Some? && binding.value.route != q.route && (q.rotates.None? || !BindingSameRef(binding.value, q.rotates.value)) {
          return Err(SessionAlreadyOwned);
        }
        if |machine.leases| >= MAX_ACTIVE_SURFACE_SESSIONS {
          return Err(SessionCapacityReached);
        }
      }
      if machine.nextGeneration >= MAX_SAFE_INTEGER {
        return Err(Exhausted);
      }
      outcome := GrantOnCopies(machine, project, q);
    }

    method GrantOnCopies(machine: MachineState, project: ProjectState, q: Request) returns (outcome: Outcome)
      requires 1 <= machine.nextGeneration && q.route.key.projectId !in machine.absent
      requires project.Shows(machine.Value(), q.route.key.projectId)
      modifies this, machine, project
      ensures var s := old(machine.Value());
        (saved, outcome) == if Consistent(Granted(s, q)) then (Granted(s, q), Ok(Owned(FreshLease(s, q)))) else (old(saved), Err(InvalidState))
      ensures MirrorsFollow(old(mirrors), q.route.key.projectId)
    {
      hide Consistent, Published, MirrorOf, Filter;
      ghost var s := machine.Value();
      var k, p := q.route.key, q.route.key.projectId;
      GrantWithin(s, q);
      var lease := Lease(q.route, machine.nextGeneration, q.now + q.ttlMs, q.owner, q.now, q.now);
      project.leases := Filter(project.leases, LeaseNotOf(k)) + [lease];
      machine.generations := machine.generations[k := machine.nextGeneration];
      project.generations := project.generations[k := machine.nextGeneration];
      machine.nextGeneration := machine.nextGeneration + 1;
      SamePublished(machine.Value(), project.Value(), GrantMirror(s, q), p);
      var ok := PublishAndSave(machine, project, p);
      return if ok then Ok(Owned(lease)) else Err(InvalidState);
    }

    // ------------------------------------------------------------------------ commit and renew

    /** What has been reaped is saved even when the lease asked for is not there. */
    method LeaseMissing(machine: MachineState, project: ProjectState, p: Id) returns (outcome: Outcome)
      requires Consistent(machine.Value()) && 1 <= machine.nextGeneration && project.Shows(machine.Value(), p)
      modifies this, project
      ensures (saved, outcome) == NotFound(old(saved), old(machine.Value()))
      ensures MirrorsFollow(old(mirrors), p)
    {
      hide Consistent, MirrorOf;
      if |machine.leases| < |saved.leases| {
        var _ := SyncAndSave(machine, project, p);
      }
      return Err(LeaseNotFound);
    }

    /** Binds the verified page; the session route of the checkout is written between the two saves. */
    method Commit(ref: LeaseRef, observed: Option<Chat>, at: int) returns (outcome: Outcome)
      requires Valid()
      modifies this
      ensures Valid() && (saved, outcome) == Apply(old(saved), SurfaceOwnership.Commit(ref, observed, at))
      ensures MirrorsFollow(old(mirrors), ref.key.projectId)
    {
      hide Inv, Consistent, CommitSynced, Reaped, NotFound;
      ApplyKeepsInv(saved, SurfaceOwnership.Commit(ref, observed, at));
      if ref.generation < 1 {
        return Err(InvalidRequest);
      }
      var p := ref.key.projectId;
      var machine, project, ok := OpenReaped(p, at, false);
      if !ok {
        return Err(InvalidState);
      }
      FindFilter(machine.leases, LeaseIn(p), Named(ref));
      var current := Find(project.leases, Named(ref));
      if current.None? {
        outcome := LeaseMissing(machine, project, p);
      } else {
        outcome := CommitOnCopies(machine, project, current.value, observed, at);
      }
    }

    method CommitOnCopies(machine: MachineState, project: ProjectState, current: Lease, observed: Option<Chat>, at: int)
      returns (outcome: Outcome)
      requires Consistent(machine.Value()) && 1 <= machine.nextGeneration && current in machine.leases
      requires project.Shows(machine.Value(), current.route.key.projectId)
      modifies this, machine, project
      ensures (saved, outcome) == CommitSynced(old(saved), old(machine.Value()), current, observed, at)
      ensures MirrorsFollow(old(mirrors), current.route.key.projectId)
    {
      hide Consistent, CommitConflict, Committed, MirrorOf, NewBinding;
      var known := current.route.chat;
      if observed.None? && known.None? {
        return Err(InvalidRequest);
      }
      var chat := if observed.Some? then observed.value else known.value;
      if known.Some? && known.value != chat {
        return Err(StaleSurfaceGeneration);
      }
      if chat.projectUrl != current.route.projectUrl {
        return Err(InvalidRequest);
      }
      var conflict := CommitRefused(machine, project, current, chat);
      if conflict.Some? {
        return Err(conflict.value);
      }
      outcome := BindOnCopies(machine, project, current, chat, at);
    }

    method CommitRefused(machine: MachineState, project: ProjectState, current: Lease, chat: Chat) returns (code: Option<Code>)
      requires project.Shows(machine.Value(), current.route.key.projectId)
      ensures code == CommitConflict(machine.Value(), current, chat)
    {
      hide Unavailable;
      var r := current.route.(chat := Some(chat));
      var bound := RequestedProjectBound(machine, project, r);
      if bound {
        return Some(ProjectBindingConflict);
      }
      code := RequestAvailable(machine, r);
      if code.Some? {
        return;
      }
      RivalInside(machine.Value(), r);
      if exists b | b in project.bindings :: b.route.key != r.key && Collides(b.route, r) {
        return Some(SurfaceBoundToAnotherSession);
      }
      return None;
    }

    method BindOnCopies(machine: MachineState, project: ProjectState, current: Lease, chat: Chat, at: int) returns (outcome: Outcome)
      requires Consistent(machine.Value()) && 1 <= machine.nextGeneration && current in machine.leases
      requires project.Shows(machine.Value(), current.route.key.projectId)
      modifies this, machine, project
      ensures var s := old(machine.Value());
        (saved, outcome) ==
          if Consistent(Committed(s, current, chat, at)) then (Committed(s, current, chat, at), Ok(Bound(NewBinding(s, current, chat, at))))
          else (old(saved), Err(InvalidState))
      ensures MirrorsFollow(old(mirrors), current.route.key.projectId)
    {
      hide Consistent, Published, MirrorOf, Filter, Find, Replaced;
      ghost var s := machine.Value();
      var k, p := current.route.key, current.route.key.projectId;
      hide BoundAt;
      HeldOutright(s, current);
      FoundInside(s, current, at);
      if p !in machine.projectUrls {
        machine.projectUrls := machine.projectUrls[p := current.route.projectUrl];
      }
      var existing, previous := Find(project.bindings, OnTab(current.route.tab)), Find(project.bindings, BindingOf(k));
      var boundAt := if existing.Some? then existing.value.boundAt else if previous.Some? then previous.value.boundAt else at;
      assert boundAt == BoundAt(s, current, at);
      var binding := Binding(current.route.(chat := Some(chat)), current.generation, boundAt, at);
      project.bindings := Filter(project.bindings, BindingNotOf(k)) + [binding];
      project.leases := Replaced(project.leases, current, CommittedLease(current, chat, at));
      SamePublished(machine.Value(), project.Value(), CommitMirror(s, current, chat, at), p);
      ReplacedWithin(Filter(s.leases, LeaseIn(p)), current, CommittedLease(current, chat, at), p);
      var ok := PublishAndSave(machine, project, p);
      return if ok then Ok(Bound(binding)) else Err(InvalidState);
    }

    method Renew(ref: LeaseRef, ttlMs: int, at: int) returns (outcome: Outcome)
      requires Valid()
      modifies this
      ensures Valid() && (saved, outcome) == Apply(old(saved), SurfaceOwnership.Renew(ref, ttlMs, at))
      ensures MirrorsFollow(old(mirrors), ref.key.projectId)
    {
      hide Inv, Consistent, Reaped, NotFound, Renewed;
      ApplyKeepsInv(saved, SurfaceOwnership.Renew(ref, ttlMs, at));
      if !TtlOk(ttlMs) {
        return Err(InvalidRequest);
      }
      var p := ref.key.projectId;
      var machine, project, ok := OpenReaped(p, at, false);
      if !ok {
        return Err(InvalidState);
      }
      FindFilter(machine.leases, LeaseIn(p), Named(ref));
      var current := Find(project.leases, Named(ref));
      if current.None? {
        outcome := LeaseMissing(machine, project, p);
      } else {
        outcome := RenewOnCopies(machine, project, current.value, ttlMs, at);
      }
    }

    method RenewOnCopies(machine: MachineState, project: ProjectState, current: Lease, ttlMs: int, at: int) returns (outcome: Outcome)
      requires Consistent(machine.Value()) && 1 <= machine.nextGeneration && current in machine.leases
      requires project.Shows(machine.Value(), current.route.key.projectId)
      modifies this, machine, project
      ensures var s := Renewed(old(machine.Value()), current, ttlMs, at);
        (saved, outcome) == if Consistent(s) then (s, Ok(Owned(RenewedLease(current, ttlMs, at)))) else (old(saved), Err(InvalidState))
      ensures MirrorsFollow(old(mirrors), current.route.key.projectId)
    {
      hide Consistent, Published, MirrorOf, Filter, Find, Replaced;
      ghost var s := machine.Value();
      var p := current.route.key.projectId;
      HeldOutright(s, current);
      var updated := current.(expiresAt := at + ttlMs, updatedAt := at);
      project.leases := Replaced(project.leases, current, updated);
      SamePublished(machine.Value(), project.Value(), RenewMirror(s, current, updated), p);
      ReplacedWithin(Filter(s.leases, LeaseIn(p)), current, updated, p);
      var ok := PublishAndSave(machine, project, p);
      return if ok then Ok(Owned(updated)) else Err(InvalidState);
    }

    // ------------------------------------------------------------------------ recover and release

    /** Working copies of the index as saved, synced but not reaped, and of the project's mirror. */
    method OpenSynced(p: Id) returns (machine: MachineState, project: ProjectState)
      requires Valid()
      ensures fresh(machine) && fresh(project)
      ensures machine.Value() == Synced(saved, p, false) && Inv(machine.Value())
      ensures Consistent(machine.Value()) && 1 <= machine.nextGeneration
      ensures project.Shows(machine.Value(), p)
    {
      hide Consistent;
      SyncedInv(saved, p, false);
      InvConsistent(Synced(saved, p, false));
      project := new ProjectState(MirrorAt(p));
      machine := new MachineState(saved);
      var _ := Sync(machine, project, p, false);
    }

    method Recover(b: Binding, owner: string, ttlMs: int, at: int) returns (outcome: Outcome)
      requires Valid()
      modifies this
      ensures Valid() && (saved, outcome) == Apply(old(saved), SurfaceOwnership.Recover(b, owner, ttlMs, at))
      ensures MirrorsFollow(old(mirrors), b.route.key.projectId)
    {
      hide Inv, Consistent, Reaped, RecoverReaped, Filter, Find;
      hide ClaimOn, CommitOn, RenewOn, ReleaseOn, ReapOn, ReadBindingOn, RetireOn, UnregisterOn;
      ApplyKeepsInv(saved, SurfaceOwnership.Recover(b, owner, ttlMs, at));
      if !TtlOk(ttlMs) {
        return Err(InvalidRequest);
      }
      var k, p := b.route.key, b.route.key.projectId;
      var machine, project := OpenSynced(p);
      ghost var s := machine.Value();
      FindFilter(s.bindings, BindingIn(p), BindingOf(k));
      var current := Find(project.bindings, BindingOf(k));
      AbsentUnbound(s, k);
      if current.None? || current.value.route != b.route || current.value.generation != b.generation ||
         k !in machine.generations || machine.generations[k] != b.generation
      {
        return Err(SessionAlreadyOwned);
      }
      var _ := machine.ReapExpired(at);
      project.ReapExpired(at);
      FilterCommutes(s.leases, LeaseIn(p), AliveAt(at));
      ReapedLists(s, at);
      outcome := RecoverOnCopies(machine, project, b, owner, ttlMs, at);
    }

    method RecoverOnCopies(machine: MachineState, project: ProjectState, b: Binding, owner: string, ttlMs: int, at: int)
      returns (outcome: Outcome)
      requires 1 <= machine.nextGeneration && b.route.key.projectId !in machine.absent
      requires project.Shows(machine.Value(), b.route.key.projectId)
      modifies this, machine, project
      ensures (saved, outcome) == RecoverReaped(old(saved), old(machine.Value()), b, owner, ttlMs, at)
      ensures MirrorsFollow(old(mirrors), b.route.key.projectId)
    {
      hide Consistent, Published, MirrorOf, Unavailable, Filter, Find;
      ghost var s := machine.Value();
      var k, p := b.route.key, b.route.key.projectId;
      var code := RequestAvailable(machine, b.route);
      if code.Some? {
        return Err(code.value);
      }
      FindFilter(s.leases, LeaseIn(p), LeaseOf(k));
      var existing := Find(project.leases, LeaseOf(k));
      if existing.Some? {
        var l := existing.value;
        return if l.generation != b.generation || l.route != b.route || l.owner != owner then Err(SessionAlreadyOwned) else Ok(Owned(l));
      }
      if |machine.leases| >= MAX_ACTIVE_SURFACE_SESSIONS {
        return Err(SessionCapacityReached);
      }
      var lease := Lease(b.route, b.generation, at + ttlMs, owner, at, at);
      project.leases := project.leases + [lease];
      SamePublished(machine.Value(), project.Value(), RecoverMirror(s, lease), p);
      var ok := PublishAndSave(machine, project, p);
      return if ok then Ok(Owned(lease)) else Err(InvalidState);
    }

    method Release(ref: LeaseRef, at: int) returns (outcome: Outcome)
      requires Valid()
      modifies this
      ensures Valid() && (saved, outcome) == Apply(old(saved), SurfaceOwnership.Release(ref, at))
      ensures MirrorsFollow(old(mirrors), ref.key.projectId)
    {
      hide Inv, Consistent, Reaped, Dropped, Filter, Find;
      hide ClaimOn, CommitOn, RenewOn, RecoverOn, ReapOn, ReadBindingOn, RetireOn, UnregisterOn;
      ApplyKeepsInv(saved, SurfaceOwnership.Release(ref, at));
      if ref.generation < 1 {
        return Err(InvalidRequest);
      }
      var p := ref.key.projectId;
      var machine, project := OpenSynced(p);
      FindFilter(machine.leases, LeaseIn(p), Named(ref));
      var current := Find(project.leases, Named(ref));
      if current.None? {
        var _ := SyncAndSave(machine, project, p);
        return Ok(Released(false));
      }
      outcome := ReleaseOnCopies(machine, project, current.value, ref, at);
    }

    // The lease is dropped only if it is still live; an expired one goes with everything else that has expired.
    method ReleaseOnCopies(machine: MachineState, project: ProjectState, l: Lease, ref: LeaseRef, at: int) returns (outcome: Outcome)
      requires Inv(machine.Value()) && l in machine.leases && SameRef(l, ref)
      requires project.Shows(machine.Value(), ref.key.projectId)
      modifies this, machine, project
      ensures var s := old(machine.Value());
        (saved, outcome) == if l.expiresAt <= at then SaveAnd(old(saved), Reaped(s, at), Released(false))
                            else SaveAnd(old(saved), Dropped(s, l), Released(true))
      ensures MirrorsFollow(old(mirrors), ref.key.projectId)
    {
      hide Inv, Consistent, Reaped, Published, MirrorOf, Filter, Find;
      ghost var s := machine.Value();
      var p := ref.key.projectId;
      InvConsistent(s);
      HeldOutright(s, l);
      if l.expiresAt <= at {
        FilterCommutes(s.leases, LeaseIn(p), AliveAt(at));
        ReapedLists(s, at);
        ReapedReadable(s, at);
        var _ := machine.ReapExpired(at);
        project.ReapExpired(at);
        var ok := SyncAndSave(machine, project, p);
        return if ok then Ok(Released(false)) else Err(InvalidState);
      }
      AtLeastOne(s);
      project.leases := Filter(project.leases, LeaseNotOf(ref.key));
      SamePublished(machine.Value(), project.Value(), DropMirror(s, ref.key), p);
      var ok := PublishAndSave(machine, project, p);
      return if ok then Ok(Released(true)) else Err(InvalidState);
    }

    // ------------------------------------------------------------------------ reading, retiring, unregistering

    /** `listSurfaceLeases`, `reapExpiredSurfaceLeases` and the saving half of `reconcileSurfaceSessionRoute`. */
    method List(p: Id, at: int) returns (outcome: Outcome)
      requires Valid()
      modifies this
      ensures Valid() && (saved, outcome) == Apply(old(saved), SurfaceOwnership.Reap(p, at))
      ensures MirrorsFollow(old(mirrors), p)
    {
      hide Inv, Consistent, Reaped, MirrorOf;
      ApplyKeepsInv(saved, SurfaceOwnership.Reap(p, at));
      var machine, project, ok := OpenReaped(p, at, false);
      if !ok {
        return Err(InvalidState);
      }
      var leases := project.leases;
      var _ := SyncAndSave(machine, project, p);
      return Ok(Listed(leases));
    }

    method CurrentBinding(k: Key) returns (outcome: Outcome)
      requires Valid()
      modifies this
      ensures Valid() && (saved, outcome) == Apply(old(saved), SurfaceOwnership.ReadBinding(k))
      ensures MirrorsFollow(old(mirrors), k.projectId)
    {
      hide Inv, Consistent, MirrorOf, Filter, Find;
      hide ClaimOn, CommitOn, RenewOn, RecoverOn, ReleaseOn, ReapOn, RetireOn, UnregisterOn;
      ApplyKeepsInv(saved, SurfaceOwnership.ReadBinding(k));
      var machine, project := OpenSynced(k.projectId);
      FindFilter(machine.bindings, BindingIn(k.projectId), BindingOf(k));
      var found := Find(project.bindings, BindingOf(k));
      var _ := SyncAndSave(machine, project, k.projectId);
      return Ok(Found(found));
    }

    /** Removes every record of the session; the session route of the checkout is removed between the two saves. */
    method Retire(k: Key) returns (outcome: Outcome)
      requires Valid()
      modifies this
      ensures Valid() && (saved, outcome) == Apply(old(saved), SurfaceOwnership.Retire(k))
      ensures MirrorsFollow(old(mirrors), k.projectId)
    {
      hide Inv, Consistent, Published, MirrorOf, Filter;
      ApplyKeepsInv(saved, SurfaceOwnership.Retire(k));
      var p := k.projectId;
      var machine, project := OpenSynced(p);
      ghost var s := machine.Value();
      AbsentEmpty(s, p);
      var leaseCount, bindingCount := |Filter(machine.leases, LeaseOf(k))|, |Filter(machine.bindings, BindingOf(k))|;
      machine.leases := Filter(machine.leases, LeaseNotOf(k));
      machine.bindings := Filter(machine.bindings, BindingNotOf(k));
      machine.generations := machine.generations - {k};
      project.leases := Filter(project.leases, LeaseNotOf(k));
      project.bindings := Filter(project.bindings, BindingNotOf(k));
      project.generations := project.generations - {k};
      SamePublished(machine.Value(), project.Value(), RetireMirror(s, k), p);
      var ok := PublishAndSave(machine, project, p);
      return if ok then Ok(Retired(leaseCount, bindingCount)) else Err(InvalidState);
    }

    /** Needs no mirror: the checkout may be gone. */
    method Unregister(p: Id) returns (outcome: Outcome)
      requires Valid()
      modifies this`saved
      ensures Valid() && (saved, outcome) == Apply(old(saved), SurfaceOwnership.Unregister(p))
    {
      hide Inv, Consistent, Filter;
      ApplyKeepsInv(saved, SurfaceOwnership.Unregister(p));
      AtLeastOne(saved);
      var machine := new MachineState(saved);
      var removed := |Filter(machine.leases, LeaseIn(p))| + |Filter(machine.bindings, BindingIn(p))|;
      machine.leases := Filter(machine.leases, LeaseOutside(p));
      machine.bindings := Filter(machine.bindings, BindingOutside(p));
      machine.projectUrls := machine.projectUrls - {p};
      machine.generations := map k | k in machine.generations && k.projectId != p :: machine.generations[k];
      machine.initialized := machine.initialized - {p};
      machine.absent := machine.absent + {p};
      var ok := AssertMachineOwnershipConsistency(machine.Value());
      if !ok {
        return Err(InvalidState);
      }
      saved := machine.Value();
      return Ok(Removed(removed));
    }
  }
}
