/**
 What the operations on the index achieve, and exactly when, in terms of the records before and after:
 which leases stand, until when, and which sessions and pages are left alone.
 */
module SurfaceOutcomes {
  import opened Wrappers
  import opened Lists
  import opened SurfaceOwnership
  import opened SurfaceInvariants
  import opened SurfaceRuns

  /** The leases that have not run out. */
  function Standing(m: Machine, at: int): set<Lease> { set l | l in m.leases && l.expiresAt > at }

  // Every binding is as it was, and the leases are exactly these.
  ghost predicate Leaves(m: Machine, m': Machine, leases: set<Lease>) {
    (forall l :: l in m'.leases <==> l in leases) && (forall b :: b in m'.bindings <==> b in m.bindings)
  }

  // The index an operation works on once it has reaped and synced.
  ghost predicate View(m: Machine, s: Machine, at: int) {
    && s.bindings == m.bindings && s.projectUrls == m.projectUrls && s.nextGeneration == m.nextGeneration
    && (forall l :: l in s.leases <==> l in Standing(m, at)) && |s.leases| == |Standing(m, at)|
  }

  lemma {:induction false} DistinctCount(leases: seq<Lease>)
    requires Distinct(leases, LeaseKey)
    ensures |set l | l in leases| == |leases|
  {
    if leases != [] {
      var n := |leases| - 1;
      var rest := set l | l in leases[..n];
      DistinctCount(leases[..n]);
      assert leases[n] !in rest by {
        assert forall i | 0 <= i < n :: LeaseKey(leases[i]) != LeaseKey(leases[n]);
      }
      assert (set l | l in leases) == rest + {leases[n]};
    }
  }

  lemma Viewed(m: Machine, p: Id, allow: bool, at: int)
    requires Distinct(m.leases, LeaseKey)
    ensures View(m, Synced(Reaped(m, at), p, allow), at)
  {
    var s := Synced(Reaped(m, at), p, allow);
    FilterDistinct(m.leases, LeaseKey, AliveAt(at));
    DistinctCount(s.leases);
    assert (set l | l in s.leases) == Standing(m, at);
  }

  lemma InvDistinct(m: Machine)
    requires Inv(m)
    ensures Distinct(m.leases, LeaseKey) && Distinct(m.bindings, BindingKey)
    ensures forall l, x | l in m.leases && x in m.leases && l.route.key == x.route.key :: l == x
    ensures forall b, x | b in m.bindings && x in m.bindings && b.route.key == x.route.key :: b == x
  {
    forall l, x | l in m.leases && x in m.leases && l.route.key == x.route.key ensures l == x {
      SameKeySame(m.leases, LeaseKey, l, x);
    }
    forall b, x | b in m.bindings && x in m.bindings && b.route.key == x.route.key ensures b == x {
      SameKeySame(m.bindings, BindingKey, b, x);
    }
  }

  // -------------------------------------------------------------------------- claim

  /** The route goes with every standing lease, every binding and every known Project URL. */
  predicate Fits(m: Machine, leases: set<Lease>, r: Route) {
    && (r.chat.Some? ==> r.chat.value.projectUrl == r.projectUrl)
    && (forall p | p in m.projectUrls :: p == r.key.projectId <==> m.projectUrls[p] == r.projectUrl)
    && (forall l | l in leases :: Compatible(l.route, r))
    && (forall b | b in m.bindings :: Compatible(b.route, r))
  }

  predicate Repeated(leases: set<Lease>, q: Request, l: Lease) {
    l in leases && l.route == q.route && l.owner == q.owner
  }

  /** The claim names the session's standing lease, or else its binding of another route; a further lease has room. */
  predicate Entitled(m: Machine, leases: set<Lease>, q: Request) {
    && (forall l | l in leases && l.route.key == q.route.key ::
          q.rotates == Some(LeaseRef(l.route.key, l.route.tab, l.generation, l.owner)))
    && ((forall l | l in leases :: l.route.key != q.route.key) ==>
          && |leases| < 100
          && forall b | b in m.bindings && b.route.key == q.route.key && b.route != q.route ::
               && q.rotates.Some? && q.rotates.value.key == b.route.key
               && q.rotates.value.tab == b.route.tab && q.rotates.value.generation == b.generation)
    && m.nextGeneration < 9_007_199_254_740_991
  }

  lemma {:induction false} NoLeaseClashes(leases: seq<Lease>, r: Route)
    requires forall l | l in leases :: Compatible(l.route, r)
    ensures LeaseClash(leases, r).None?
  {
    if leases != [] {
      assert Compatible(leases[0].route, r);
      NoLeaseClashes(leases[1..], r);
    }
  }

  lemma {:induction false} NoBindingClashes(bindings: seq<Binding>, r: Route)
    requires forall b | b in bindings :: Compatible(b.route, r)
    ensures BindingClash(bindings, r).None?
  {
    if bindings != [] {
      assert Compatible(bindings[0].route, r);
      NoBindingClashes(bindings[1..], r);
    }
  }

  lemma ClaimConflictIff(s: Machine, leases: set<Lease>, r: Route)
    requires ProjectsOk(s) && ChatFits(r) && forall l :: l in s.leases <==> l in leases
    ensures ClaimConflict(s, r).None? <==> Fits(s, leases, r)
  {
    hide ProjectsOk, ClaimConflict;
    if Fits(s, leases, r) {
      FitsFree(s, leases, r);
    }
    if ClaimConflict(s, r).None? {
      ClaimConflictNone(s, r);
      RouteFits(s, r);
      RoutesElements(s);
    }
  }

  lemma FitsFree(s: Machine, leases: set<Lease>, r: Route)
    requires Fits(s, leases, r) && forall l :: l in s.leases <==> l in leases
    ensures ClaimConflict(s, r).None?
  {
    NoLeaseClashes(s.leases, r);
    NoBindingClashes(s.bindings, r);
    assert !OtherProject(s, r) by {
      RoutesElements(s);
    }
    hide LeaseClash, BindingClash, OtherProject;
  }

  lemma RepeatsIff(s: Machine, leases: set<Lease>, q: Request)
    requires (forall l :: l in s.leases <==> l in leases)
    requires forall l, x | l in s.leases && x in s.leases && l.route.key == x.route.key :: l == x
    ensures Repeats(s, q) <==> exists l :: Repeated(leases, q, l)
    ensures forall l | Repeated(leases, q, l) :: Find(s.leases, LeaseOf(q.route.key)) == Some(l)
  {
    if Repeats(s, q) {
      assert Repeated(leases, q, Find(s.leases, LeaseOf(q.route.key)).value);
    }
  }

  lemma EntitledIff(s: Machine, leases: set<Lease>, q: Request)
    requires (forall l :: l in s.leases <==> l in leases) && |s.leases| == |leases|
    requires forall l, x | l in s.leases && x in s.leases && l.route.key == x.route.key :: l == x
    requires forall b, x | b in s.bindings && x in s.bindings && b.route.key == x.route.key :: b == x
    ensures (RotationConflict(s, q).None? && s.nextGeneration < MAX_SAFE_INTEGER) <==> Entitled(s, leases, q)
  {}

  // A claim on an index that has been reaped and synced.
  lemma ClaimsOn(m: Machine, s: Machine, leases: set<Lease>, q: Request)
    requires Inv(s) && ChatFits(q.route) && q.route.key.projectId !in s.absent
    requires (forall l :: l in s.leases <==> l in leases) && |s.leases| == |leases|
    ensures var (m', outcome) := ClaimSynced(m, s, q);
      && (outcome.Ok? <==> Fits(s, leases, q.route) && ((exists l :: Repeated(leases, q, l)) || Entitled(s, leases, q)))
      && (forall l | Repeated(leases, q, l) :: outcome.Ok? ==> outcome.value == Owned(l) && m' == s)
      && (outcome.Ok? && (forall l :: !Repeated(leases, q, l)) ==>
            && outcome.value == Owned(Lease(q.route, s.nextGeneration, q.now + q.ttlMs, q.owner, q.now, q.now))
            && GrantShape(s, q, m'))
  {
    hide Inv, Consistent, Granted, Fits, Entitled, ClaimConflict, RotationConflict, Repeats, GrantShape, Repeated, ChatFits;
    ClaimChecks(s, leases, q);
    if ClaimConflict(s, q.route).None? && RotationConflict(s, q).None? && s.nextGeneration < MAX_SAFE_INTEGER {
      GrantsOn(s, q);
    }
  }

  lemma ClaimChecks(s: Machine, leases: set<Lease>, q: Request)
    requires Inv(s) && ChatFits(q.route) && (forall l :: l in s.leases <==> l in leases) && |s.leases| == |leases|
    ensures ClaimConflict(s, q.route).None? <==> Fits(s, leases, q.route)
    ensures Repeats(s, q) <==> exists l :: Repeated(leases, q, l)
    ensures forall l | Repeated(leases, q, l) :: Find(s.leases, LeaseOf(q.route.key)) == Some(l)
    ensures (RotationConflict(s, q).None? && s.nextGeneration < MAX_SAFE_INTEGER) <==> Entitled(s, leases, q)
  {
    hide Inv, Fits, Entitled, ClaimConflict, RotationConflict, Repeats, Repeated, Distinct;
    InvDistinct(s);
    InvConsistent(s);
    ClaimConflictIff(s, leases, q.route);
    RepeatsIff(s, leases, q);
    EntitledIff(s, leases, q);
  }

  lemma GrantsOn(s: Machine, q: Request)
    requires Inv(s) && ChatFits(q.route) && q.route.key.projectId !in s.absent
    requires ClaimConflict(s, q.route).None? && RotationConflict(s, q).None? && s.nextGeneration < MAX_SAFE_INTEGER
    ensures Consistent(Granted(s, q)) && GrantShape(s, q, Granted(s, q))
  {
    hide Inv, Consistent, Granted, ClaimConflict, RotationConflict, GrantShape;
    GrantedInv(s, q);
    InvConsistent(Granted(s, q));
    InvRelations(s);
    GrantedShape(s, q);
  }

  lemma ClaimUnfolds(m: Machine, q: Request)
    requires Inv(m)
    ensures var s := Synced(Reaped(m, q.now), q.route.key.projectId, true);
      && q.route.key.projectId !in s.absent
      && (Inv(s) || Stranded(m, q.now))
      && Apply(m, Claim(q)) == if !ChatFits(q.route) || !(1_000 <= q.ttlMs <= 86_400_000) then (m, Err(InvalidRequest))
                               else if Stranded(m, q.now) then (m, Err(InvalidState))
                               else ClaimSynced(m, s, q)
  {
    hide Inv, Consistent, Reaped, ClaimSynced, Stranded, ChatFits;
    ReapAndSync(m, q.route.key.projectId, true, q.now);
  }

  ghost predicate ClaimGoes(m: Machine, q: Request) {
    var leases := Standing(m, q.now);
    && 1_000 <= q.ttlMs <= 86_400_000 && !Stranded(m, q.now) && Fits(m, leases, q.route)
    && ((exists l :: Repeated(leases, q, l)) || Entitled(m, leases, q))
  }

  /**
   A claim succeeds exactly when the route fits and it repeats the session's standing lease or names it, or
   else a binding it leaves, while there is room.  A repetition is answered with the lease it repeats; any
   other claim gets a lease of a new generation for its full time, in place of the session's own.
   */
  lemma ClaimAnswers(m: Machine, q: Request)
    requires Inv(m)
    ensures var (m', outcome) := Apply(m, Claim(q));
      var leases := Standing(m, q.now);
      && (outcome.Ok? <==> ClaimGoes(m, q))
      && (forall l | Repeated(leases, q, l) :: outcome.Ok? ==> outcome.value == Owned(l) && Leaves(m, m', leases))
      && (outcome.Ok? && (forall l :: !Repeated(leases, q, l)) ==>
            var granted := Lease(q.route, m.nextGeneration, q.now + q.ttlMs, q.owner, q.now, q.now);
            && outcome.value == Owned(granted) && m'.nextGeneration == m.nextGeneration + 1
            && Leaves(m, m', (set l | l in leases && l.route.key != q.route.key) + {granted}))
  {
    var leases, p := Standing(m, q.now), q.route.key.projectId;
    var s := Synced(Reaped(m, q.now), p, true);
    hide Inv, Apply, Synced, Reaped, ClaimSynced, Stranded, Fits, Entitled, Standing, Repeated, GrantShape, Leaves, Distinct, ChatFits;
    InvDistinct(m);
    Viewed(m, p, true, q.now);
    ClaimUnfolds(m, q);
    FitsSame(m, s, leases, q);
    if !Stranded(m, q.now) && ChatFits(q.route) {
      assert forall l :: l in s.leases <==> l in leases;
      ClaimsOn(m, s, leases, q);
      GrantLeaves(m, s, leases, q, ClaimSynced(m, s, q).0);
    }
  }

  lemma GrantLeaves(m: Machine, s: Machine, leases: set<Lease>, q: Request, g: Machine)
    requires s.bindings == m.bindings && s.nextGeneration == m.nextGeneration && forall l :: l in s.leases <==> l in leases
    ensures Leaves(m, s, leases)
    ensures GrantShape(s, q, g) ==>
      && g.nextGeneration == m.nextGeneration + 1
      && Leaves(m, g, (set l | l in leases && l.route.key != q.route.key) + {Lease(q.route, m.nextGeneration, q.now + q.ttlMs, q.owner, q.now, q.now)})
  {
    hide GenerationsFrom, Distinct;
  }

  lemma FitsSame(m: Machine, s: Machine, leases: set<Lease>, q: Request)
    requires s.bindings == m.bindings && s.projectUrls == m.projectUrls && s.nextGeneration == m.nextGeneration
    ensures Fits(s, leases, q.route) <==> Fits(m, leases, q.route)
    ensures Entitled(s, leases, q) <==> Entitled(m, leases, q)
    ensures Fits(m, leases, q.route) ==> ChatFits(q.route)
  {}

  // -------------------------------------------------------------------------- renew

  function RefOf(l: Lease): LeaseRef { LeaseRef(l.route.key, l.route.tab, l.generation, l.owner) }

  lemma NamedIff(s: Machine, leases: set<Lease>, ref: LeaseRef)
    requires (forall l :: l in s.leases <==> l in leases)
    requires forall l, x | l in s.leases && x in s.leases && l.route.key == x.route.key :: l == x
    ensures Find(s.leases, Named(ref)).Some? <==> exists l :: l in leases && RefOf(l) == ref
    ensures forall l | l in leases && RefOf(l) == ref :: Find(s.leases, Named(ref)) == Some(l)
  {
    var found := Find(s.leases, Named(ref));
    if found.Some? {
      assert RefOf(found.value) == ref;
    }
  }

  lemma FindsNamed(s: Machine, leases: set<Lease>, ref: LeaseRef)
    requires Inv(s) && forall l :: l in s.leases <==> l in leases
    ensures Find(s.leases, Named(ref)).Some? <==> exists l :: l in leases && RefOf(l) == ref
    ensures forall l | l in leases && RefOf(l) == ref :: Find(s.leases, Named(ref)) == Some(l)
  {
    hide Inv, Distinct;
    InvDistinct(s);
    NamedIff(s, leases, ref);
  }

  lemma RenewUnfolds(m: Machine, ref: LeaseRef, ttlMs: int, at: int)
    requires Inv(m)
    ensures var s := Synced(Reaped(m, at), ref.key.projectId, false);
      var current := Find(s.leases, Named(ref));
      && (Inv(s) || Stranded(m, at))
      && Apply(m, Renew(ref, ttlMs, at)) ==
           if !(1_000 <= ttlMs <= 86_400_000) then (m, Err(InvalidRequest))
           else if Stranded(m, at) then (m, Err(InvalidState))
           else if current.None? then NotFound(m, s)
           else if !Consistent(Renewed(s, current.value, ttlMs, at)) then (m, Err(InvalidState))
           else (Renewed(s, current.value, ttlMs, at), Ok(Owned(RenewedLease(current.value, ttlMs, at))))
  {
    hide Inv, Consistent, Reaped, Synced, Stranded, Renewed, NotFound;
    ReapAndSync(m, ref.key.projectId, false, at);
  }

  lemma RenewsOn(s: Machine, l: Lease, ttlMs: int, at: int)
    requires Inv(s) && l in s.leases
    ensures Consistent(Renewed(s, l, ttlMs, at))
    ensures RenewShape(s, l, l.(expiresAt := at + ttlMs, updatedAt := at), Renewed(s, l, ttlMs, at))
    ensures RenewedLease(l, ttlMs, at) == l.(expiresAt := at + ttlMs, updatedAt := at)
  {
    hide Inv, Consistent, RenewShape, Published, Distinct;
    RenewalKeepsInv(s, l, ttlMs, at);
    InvConsistent(Renewed(s, l, ttlMs, at));
    HeldNotAbsent(s, l);
    InvRelations(s);
    RenewedShape(s, l, RenewedLease(l, ttlMs, at));
  }

  /** A renewal succeeds exactly for a standing lease named in full, unless the index is blocked, and gives it its full time again. */
  lemma RenewAnswers(m: Machine, ref: LeaseRef, ttlMs: int, at: int)
    requires Inv(m)
    ensures var (m', outcome) := Apply(m, Renew(ref, ttlMs, at));
      var leases := Standing(m, at);
      && (outcome.Ok? <==> 1_000 <= ttlMs <= 86_400_000 && !Stranded(m, at) && exists l :: l in leases && RefOf(l) == ref)
      && (forall l | l in leases && RefOf(l) == ref :: outcome.Ok? ==>
            var renewed := l.(expiresAt := at + ttlMs, updatedAt := at);
            outcome.value == Owned(renewed) && Leaves(m, m', leases - {l} + {renewed}))
  {
    hide Inv, Apply, Synced, Reaped, Stranded, Standing, Leaves, Distinct, Renewed, Consistent, RenewedLease, RenewShape;
    var s, leases := Synced(Reaped(m, at), ref.key.projectId, false), Standing(m, at);
    RenewUnfolds(m, ref, ttlMs, at);
    InvDistinct(m);
    Viewed(m, ref.key.projectId, false, at);
    if !Stranded(m, at) {
      assert forall l :: l in s.leases <==> l in leases;
      FindsNamed(s, leases, ref);
      var current := Find(s.leases, Named(ref));
      if current.Some? {
        RenewsOn(s, current.value, ttlMs, at);
        RenewLeaves(m, s, leases, current.value, current.value.(expiresAt := at + ttlMs, updatedAt := at), Renewed(s, current.value, ttlMs, at));
      }
    }
  }

  lemma RenewLeaves(m: Machine, s: Machine, leases: set<Lease>, l: Lease, rl: Lease, r: Machine)
    requires s.bindings == m.bindings && (forall x :: x in s.leases <==> x in leases) && RenewShape(s, l, rl, r)
    ensures Leaves(m, r, leases - {l} + {rl})
  {
    hide GenerationsFrom, Distinct;
  }

  // -------------------------------------------------------------------------- recover

  lemma RecoverUnfolds(m: Machine, b: Binding, owner: string, ttlMs: int, at: int)
    requires Inv(m)
    ensures var s := Synced(m, b.route.key.projectId, false);
      && Inv(s) && s.leases == m.leases && s.bindings == m.bindings && s.generations == m.generations && s.absent == m.absent
      && Apply(m, Recover(b, owner, ttlMs, at)) ==
           if !(1_000 <= ttlMs <= 86_400_000) then (m, Err(InvalidRequest))
           else if b.route.key.projectId in s.absent || !StillCurrent(s, b) then (m, Err(SessionAlreadyOwned))
           else RecoverReaped(m, Reaped(s, at), b, owner, ttlMs, at)
  {
    hide Inv, Consistent, Reaped, StillCurrent, RecoverReaped;
    SyncedInv(m, b.route.key.projectId, false);
    InvConsistent(Synced(m, b.route.key.projectId, false));
  }

  /** The saved route is still there and nothing newer has been handed out to its session. */
  predicate Current(m: Machine, b: Binding) {
    && (exists c :: c in m.bindings && c.route == b.route && c.generation == b.generation)
    && b.route.key in m.generations && m.generations[b.route.key] == b.generation
  }

  lemma CurrentIff(s: Machine, b: Binding)
    requires Inv(s)
    ensures StillCurrent(s, b) <==> Current(s, b)
  {
    hide Inv, Distinct;
    InvDistinct(s);
    var found := Find(s.bindings, BindingOf(b.route.key));
    if found.Some? && found.value.route == b.route && found.value.generation == b.generation {
      assert found.value in s.bindings;
    }
  }

  // What goes with a binding of the index stands in nobody's way.
  lemma BindingFree(s: Machine, at: int, c: Binding)
    requires Inv(s) && c in s.bindings
    ensures Unavailable(Reaped(s, at), c.route).None? && c.route.key.projectId !in s.absent
  {
    hide Inv, Compatible, LeaseClash, BindingClash;
    var r := Reaped(s, at);
    BindingFits(s, c);
    NoLeaseClashes(r.leases, c.route);
    NoBindingClashes(r.bindings, c.route);
  }

  lemma BindingFits(s: Machine, c: Binding)
    requires Inv(s) && c in s.bindings
    ensures c.route.key.projectId !in s.absent
    ensures forall p | p in s.projectUrls :: p == c.route.key.projectId <==> s.projectUrls[p] == c.route.projectUrl
    ensures forall l | l in s.leases :: Compatible(l.route, c.route)
    ensures forall b | b in s.bindings :: Compatible(b.route, c.route)
  {
    hide RelationsOk, RecordsOk, WithinLimits, Routes;
    RoutesElements(s);
    assert RouteOk(s, c.route);
  }

  lemma RecoversOn(m: Machine, s: Machine, b: Binding, owner: string, ttlMs: int, at: int)
    requires Inv(m) && s == Synced(m, b.route.key.projectId, false) && Inv(s) && StillCurrent(s, b)
    ensures var r := Reaped(s, at);
      && b.route.key.projectId !in s.absent && Unavailable(r, b.route).None?
      && (Find(r.leases, LeaseOf(b.route.key)).None? && |r.leases| < 100 ==>
            && (Consistent(Recovered(r, b, owner, ttlMs, at)) <==> !Stranded(m, at))
            && RecoverShape(r, RecoveredLease(b, owner, ttlMs, at), Recovered(r, b, owner, ttlMs, at)))
  {
    hide Inv, Consistent, Recovered, Stranded, Unavailable, RecoverShape, Distinct, Reaped;
    var found := Find(s.bindings, BindingOf(b.route.key)).value;
    BindingFree(s, at, found);
    if RecoveryWrites(m, b, at) {
      RecoverWrites(m, s, b, owner, ttlMs, at);
      RecoversShape(s, b, owner, ttlMs, at);
    }
  }

  lemma RecoversShape(s: Machine, b: Binding, owner: string, ttlMs: int, at: int)
    requires Inv(s) && b.route.key.projectId !in s.absent && Find(Reaped(s, at).leases, LeaseOf(b.route.key)).None?
    ensures RecoverShape(Reaped(s, at), RecoveredLease(b, owner, ttlMs, at), Recovered(Reaped(s, at), b, owner, ttlMs, at))
  {
    hide Inv, RecoverShape, RecoverMirror, Published, Distinct, Sessions;
    InvDistinct(s);
    FilterDistinct(s.leases, LeaseKey, AliveAt(at));
    RecoveredShape(Reaped(s, at), RecoveredLease(b, owner, ttlMs, at));
  }

  // The session has no standing lease, or just one of this route and generation with this owner.
  predicate FreeOrOwn(leases: set<Lease>, b: Binding, owner: string) {
    forall l | l in leases && l.route.key == b.route.key :: l.route == b.route && l.generation == b.generation && l.owner == owner
  }

  // No standing lease belongs to the session.
  predicate NoneOf(leases: set<Lease>, k: Key) { forall l | l in leases :: l.route.key != k }

  ghost predicate RecoverGoes(m: Machine, b: Binding, owner: string, ttlMs: int, at: int) {
    var leases := Standing(m, at);
    && 1_000 <= ttlMs <= 86_400_000 && Current(m, b) && FreeOrOwn(leases, b, owner)
    && (NoneOf(leases, b.route.key) ==> |leases| < 100 && !Stranded(m, at))
  }

  /**
   A recovery succeeds exactly when the saved route is the session's latest and its standing lease, if any, is
   of this route, generation and owner: that one is the answer then and nothing changes.  Else there must be
   room and nothing stranded, and the route is leased again with its old generation for the full time.
   */
  lemma RecoverAnswers(m: Machine, b: Binding, owner: string, ttlMs: int, at: int)
    requires Inv(m)
    ensures var (m', outcome) := Apply(m, Recover(b, owner, ttlMs, at));
      var leases, k := Standing(m, at), b.route.key;
      && (outcome.Ok? <==> RecoverGoes(m, b, owner, ttlMs, at))
      && (forall l | l in leases && l.route.key == k :: outcome.Ok? ==> m' == m && outcome.value == Owned(l))
      && (outcome.Ok? && NoneOf(leases, k) ==>
            var recovered := Lease(b.route, b.generation, at + ttlMs, owner, at, at);
            outcome.value == Owned(recovered) && Leaves(m, m', leases + {recovered}))
  {
    hide Inv, Apply, Synced, Reaped, Stranded, Standing, Leaves, Distinct, RecoverReaped, RecoverShape, StillCurrent, FreeOrOwn, NoneOf, Current;
    var s := Synced(m, b.route.key.projectId, false);
    RecoverUnfolds(m, b, owner, ttlMs, at);
    CurrentIff(s, b);
    CurrentSame(m, s, b);
    if Current(m, b) {
      RecoversAt(m, s, b, owner, ttlMs, at);
    }
  }

  lemma CurrentSame(m: Machine, s: Machine, b: Binding)
    requires s.bindings == m.bindings && s.generations == m.generations
    ensures Current(s, b) <==> Current(m, b)
  {}

  lemma ReapedView(m: Machine, s: Machine, at: int)
    requires Inv(m) && s.leases == m.leases && s.bindings == m.bindings
    ensures var r := Reaped(s, at);
      && r.bindings == m.bindings && (forall l :: l in r.leases <==> l in Standing(m, at)) && |r.leases| == |Standing(m, at)|
      && (forall l, x | l in r.leases && x in r.leases && l.route.key == x.route.key :: l == x)
  {
    hide Inv, Distinct;
    InvDistinct(m);
    FilterDistinct(s.leases, LeaseKey, AliveAt(at));
    DistinctCount(Reaped(s, at).leases);
    assert (set l | l in Reaped(s, at).leases) == Standing(m, at);
  }

  lemma RecoversAt(m: Machine, s: Machine, b: Binding, owner: string, ttlMs: int, at: int)
    requires Inv(m) && s == Synced(m, b.route.key.projectId, false) && Inv(s) && StillCurrent(s, b)
    requires s.leases == m.leases && s.bindings == m.bindings
    ensures var (m', outcome) := RecoverReaped(m, Reaped(s, at), b, owner, ttlMs, at);
      var leases, k := Standing(m, at), b.route.key;
      && b.route.key.projectId !in s.absent
      && (outcome.Ok? <==> FreeOrOwn(leases, b, owner) && (NoneOf(leases, k) ==> |leases| < 100 && !Stranded(m, at)))
      && (forall l | l in leases && l.route.key == k :: outcome.Ok? ==> m' == m && outcome.value == Owned(l))
      && (outcome.Ok? && NoneOf(leases, k) ==>
            var recovered := Lease(b.route, b.generation, at + ttlMs, owner, at, at);
            outcome.value == Owned(recovered) && Leaves(m, m', leases + {recovered}))
  {
    hide Inv, Consistent, Reaped, Stranded, Standing, Leaves, Distinct, RecoverShape, StillCurrent, Recovered, Unavailable, Synced;
    var r := Reaped(s, at);
    ReapedView(m, s, at);
    RecoversOn(m, s, b, owner, ttlMs, at);
    if Find(r.leases, LeaseOf(b.route.key)).None? && |r.leases| < 100 {
      RecoverLeaves(m, r, Standing(m, at), RecoveredLease(b, owner, ttlMs, at), Recovered(r, b, owner, ttlMs, at));
    }
  }

  lemma RecoverLeaves(m: Machine, s: Machine, leases: set<Lease>, l: Lease, r: Machine)
    requires s.bindings == m.bindings && (forall x :: x in s.leases <==> x in leases) && RecoverShape(s, l, r)
    ensures Leaves(m, r, leases + {l})
  {
    hide GenerationsFrom, Distinct;
  }

  // -------------------------------------------------------------------------- commit

  /** The chat observed, else the one the page was claimed with: they agree, and it is of the lease's Project. */
  predicate Binds(l: Lease, observed: Option<Chat>, chat: Chat) {
    && (if observed.Some? then observed == Some(chat) else l.route.chat == Some(chat))
    && (l.route.chat.Some? ==> l.route.chat == Some(chat))
    && chat.projectUrl == l.route.projectUrl
  }

  /** No standing lease and no binding of another session has the chat. */
  predicate Unshared(m: Machine, leases: set<Lease>, k: Key, chat: Chat) {
    && (forall l | l in leases && l.route.key != k :: l.route.chat != Some(chat))
    && (forall b | b in m.bindings && b.route.key != k :: b.route.chat != Some(chat))
  }

  predicate Committable(m: Machine, leases: set<Lease>, ref: LeaseRef, observed: Option<Chat>, l: Lease, chat: Chat) {
    l in leases && RefOf(l) == ref && Binds(l, observed, chat) && Unshared(m, leases, l.route.key, chat)
  }

  lemma CommitUnfolds(m: Machine, ref: LeaseRef, observed: Option<Chat>, at: int)
    requires Inv(m)
    ensures var s := Synced(Reaped(m, at), ref.key.projectId, false);
      var current := Find(s.leases, Named(ref));
      && (Inv(s) || Stranded(m, at))
      && Apply(m, Commit(ref, observed, at)) ==
           if ref.generation < 1 then (m, Err(InvalidRequest))
           else if Stranded(m, at) then (m, Err(InvalidState))
           else if current.None? then NotFound(m, s)
           else CommitSynced(m, s, current.value, observed, at)
  {
    hide Inv, Consistent, Reaped, Synced, Stranded, CommitSynced, NotFound;
    ReapAndSync(m, ref.key.projectId, false, at);
  }

  // A standing lease may take the chat exactly if no other session has it.
  lemma CommitFreeIff(s: Machine, leases: set<Lease>, l: Lease, chat: Chat)
    requires Inv(s) && l in s.leases && (forall x :: x in s.leases <==> x in leases)
    requires chat.projectUrl == l.route.projectUrl
    ensures (CommitConflict(s, l, chat).None? && !ChatHeld(s, l.route.key, chat)) <==> Unshared(s, leases, l.route.key, chat)
  {
    hide RelationsOk, RecordsOk, WithinLimits, CommitConflict, ChatHeld, Unshared, Routes, Exclusive;
    if Unshared(s, leases, l.route.key, chat) {
      UnsharedFits(s, leases, l, chat);
      FitsFree(s, leases, l.route.(chat := Some(chat)));
      FreeCommits(s, leases, l, chat);
    }
    if CommitConflict(s, l, chat).None? && !ChatHeld(s, l.route.key, chat) {
      CommitConflictNone(s, l, chat);
      RouteFits(s, l.route.(chat := Some(chat)));
      CompatibleUnshared(s, leases, l, chat);
    }
  }

  lemma UnsharedFits(s: Machine, leases: set<Lease>, l: Lease, chat: Chat)
    requires ProjectsOk(s) && l in s.leases && (forall x :: x in s.leases <==> x in leases)
    requires chat.projectUrl == l.route.projectUrl && Unshared(s, leases, l.route.key, chat)
    ensures Fits(s, leases, l.route.(chat := Some(chat)))
  {
    hide Routes;
    RoutesElements(s);
    assert RouteOk(s, l.route);
  }

  lemma FreeCommits(s: Machine, leases: set<Lease>, l: Lease, chat: Chat)
    requires ClaimConflict(s, l.route.(chat := Some(chat))).None? && Unshared(s, leases, l.route.key, chat)
    requires forall x :: x in s.leases <==> x in leases
    ensures CommitConflict(s, l, chat).None? && !ChatHeld(s, l.route.key, chat)
  {
    hide Unavailable, OtherProject;
  }

  lemma CompatibleUnshared(s: Machine, leases: set<Lease>, l: Lease, chat: Chat)
    requires (forall x :: x in s.leases <==> x in leases)
    requires forall r | r in Routes(s) :: Compatible(r, l.route.(chat := Some(chat)))
    ensures Unshared(s, leases, l.route.key, chat)
  {
    hide Routes;
    RoutesElements(s);
  }

  lemma ChatChosen(l: Lease, observed: Option<Chat>)
    ensures forall chat :: CommitChat(l, observed) == Ok(chat) <==> Binds(l, observed, chat)
  {}

  lemma CommitsOn(m: Machine, s: Machine, leases: set<Lease>, l: Lease, observed: Option<Chat>, at: int)
    requires Inv(m) && Inv(s) && l in s.leases && (forall x :: x in s.leases <==> x in leases)
    ensures var (m', outcome) := CommitSynced(m, s, l, observed, at);
      && (outcome.Ok? <==> exists chat :: Binds(l, observed, chat) && Unshared(s, leases, l.route.key, chat))
      && (forall chat | Binds(l, observed, chat) :: outcome.Ok? ==>
            m' == Committed(s, l, chat, at) && outcome.value == Bound(NewBinding(s, l, chat, at)))
  {
    hide Inv, Consistent, Committed, CommitConflict, ChatHeld, Unshared, Binds, NewBinding;
    ChatChosen(l, observed);
    CommitSyncedStep(m, s, l, observed, at);
    var choice := CommitChat(l, observed);
    if choice.Ok? {
      assert Binds(l, observed, choice.value);
      ChatOfProject(l, observed, choice.value);
      CommitFreeIff(s, leases, l, choice.value);
    }
  }

  lemma ChatOfProject(l: Lease, observed: Option<Chat>, chat: Chat)
    requires Binds(l, observed, chat)
    ensures chat.projectUrl == l.route.projectUrl
  {}

  // The binding keeps the time at which the session was first bound.
  predicate KeepsTime(m: Machine, nb: Binding, at: int) {
    && (forall b | b in m.bindings && b.route.key == nb.route.key :: nb.boundAt == b.boundAt)
    && ((forall b | b in m.bindings :: b.route.key != nb.route.key) ==> nb.boundAt == at)
  }

  lemma TimeKept(s: Machine, l: Lease, chat: Chat, at: int)
    requires Inv(s) && l in s.leases
    ensures KeepsTime(s, NewBinding(s, l, chat, at), at)
  {
    hide RelationsOk, RecordsOk, WithinLimits, Routes, Distinct;
    RoutesElements(s);
    InvDistinct(s);
    var ofPage := Find(s.bindings, OnTab(l.route.tab));
    if ofPage.Some? {
      assert ofPage.value.route.key == l.route.key;
    }
  }

  /** The standing lease has the chat, its session just this binding of the same route and generation, and its project the Project URL. */
  ghost predicate BoundTo(m: Machine, m': Machine, leases: set<Lease>, l: Lease, chat: Chat, nb: Binding, at: int) {
    && nb == Binding(l.route.(chat := Some(chat)), l.generation, nb.boundAt, at) && KeepsTime(m, nb, at)
    && (forall x :: x in m'.leases <==> x == l.(route := nb.route, updatedAt := at) || (x in leases && x != l))
    && (forall b :: b in m'.bindings <==> b == nb || (b in m.bindings && b.route.key != l.route.key))
    && m'.projectUrls == m.projectUrls[l.route.key.projectId := l.route.projectUrl]
  }

  lemma CommitsShape(s: Machine, leases: set<Lease>, l: Lease, chat: Chat, at: int)
    requires Inv(s) && l in s.leases && (forall x :: x in s.leases <==> x in leases)
    ensures BoundTo(s, Committed(s, l, chat, at), leases, l, chat, NewBinding(s, l, chat, at), at)
  {
    hide Inv, Published, Distinct, RelationsOk, BoundAt, KeepsTime, GenerationsFrom, CommitMirror;
    TimeKept(s, l, chat, at);
    InvRelations(s);
    HeldNotAbsent(s, l);
    CommittedShape(s, l, chat, at);
    UrlKnown(s, l);
  }

  lemma UrlKnown(s: Machine, l: Lease)
    requires Inv(s) && l in s.leases
    ensures WithProjectUrl(s, l.route.key.projectId, l.route.projectUrl).projectUrls == s.projectUrls[l.route.key.projectId := l.route.projectUrl]
  {
    RoutesElements(s);
    assert RouteOk(s, l.route);
  }

  /**
   A commit succeeds exactly for a standing lease named in full with a chat that fits it and that no other
   session has.  The lease then has the chat, the session's binding is of its route and generation in place of
   any older one, and keeps the time at which the session was first bound.
   */
  lemma CommitAnswers(m: Machine, ref: LeaseRef, observed: Option<Chat>, at: int)
    requires Inv(m)
    ensures var (m', outcome) := Apply(m, Commit(ref, observed, at));
      var leases := Standing(m, at);
      && (outcome.Ok? <==> !Stranded(m, at) && exists l, chat :: Committable(m, leases, ref, observed, l, chat))
      && (forall l, chat | Committable(m, leases, ref, observed, l, chat) :: outcome.Ok? ==>
            outcome.value.Bound? && BoundTo(m, m', leases, l, chat, outcome.value.binding, at))
  {
    hide Inv, Apply, Synced, Reaped, Stranded, Standing, Distinct, CommitSynced, Binds, Unshared, BoundTo;
    var s, leases := Synced(Reaped(m, at), ref.key.projectId, false), Standing(m, at);
    CommitUnfolds(m, ref, observed, at);
    InvDistinct(m);
    Viewed(m, ref.key.projectId, false, at);
    if !Stranded(m, at) {
      assert forall l :: l in s.leases <==> l in leases;
      FindsNamed(s, leases, ref);
      SameBindingsSame(m, s, leases);
      var current := Find(s.leases, Named(ref));
      if current.Some? {
        var l, outcome := current.value, CommitSynced(m, s, current.value, observed, at).1;
        CommitsAt(m, s, leases, l, observed, at);
        GenerationPositive(s, l);
        if outcome.Ok? {
          var chat :| Binds(l, observed, chat) && Unshared(s, leases, l.route.key, chat);
          assert Committable(m, leases, ref, observed, l, chat);
          BindsSame(m, s, CommitSynced(m, s, l, observed, at).0, leases, l, outcome.value.binding, at);
        }
      }
    }
  }

  lemma GenerationPositive(s: Machine, l: Lease)
    requires Inv(s) && l in s.leases
    ensures 1 <= l.generation
  {}

  lemma SameBindingsSame(m: Machine, s: Machine, leases: set<Lease>)
    requires s.bindings == m.bindings
    ensures forall k, chat :: Unshared(s, leases, k, chat) <==> Unshared(m, leases, k, chat)
  {}

  lemma BindsSame(m: Machine, s: Machine, m': Machine, leases: set<Lease>, l: Lease, nb: Binding, at: int)
    requires s.bindings == m.bindings && s.projectUrls == m.projectUrls
    ensures forall chat :: BoundTo(s, m', leases, l, chat, nb, at) <==> BoundTo(m, m', leases, l, chat, nb, at)
  {}

  lemma CommitsAt(m: Machine, s: Machine, leases: set<Lease>, l: Lease, observed: Option<Chat>, at: int)
    requires Inv(m) && Inv(s) && l in s.leases && (forall x :: x in s.leases <==> x in leases)
    ensures var (m', outcome) := CommitSynced(m, s, l, observed, at);
      && (outcome.Ok? <==> exists chat :: Binds(l, observed, chat) && Unshared(s, leases, l.route.key, chat))
      && (forall chat | Binds(l, observed, chat) :: outcome.Ok? ==>
            outcome.value.Bound? && BoundTo(s, m', leases, l, chat, outcome.value.binding, at))
  {
    hide Inv, CommitSynced, Committed, Binds, Unshared, BoundTo, NewBinding;
    CommitsOn(m, s, leases, l, observed, at);
    forall chat | Binds(l, observed, chat) ensures BoundTo(s, Committed(s, l, chat, at), leases, l, chat, NewBinding(s, l, chat, at), at) {
      CommitsShape(s, leases, l, chat, at);
    }
  }

  // -------------------------------------------------------------------------- the rest

  lemma ReleaseUnfolds(m: Machine, ref: LeaseRef, at: int)
    requires Inv(m)
    ensures var s := Synced(m, ref.key.projectId, false);
      var current := Find(s.leases, Named(ref));
      && Inv(s) && Consistent(s) && s.leases == m.leases && s.bindings == m.bindings
      && (Consistent(Reaped(s, at)) <==> !Stranded(m, at))
      && (current.Some? ==> (Consistent(Dropped(s, current.value)) <==> !Awaiting(m, current.value)))
      && (current.Some? ==> Leaves(m, Dropped(s, current.value), (set l | l in m.leases && l != current.value)))
      && Apply(m, Release(ref, at)) ==
           if ref.generation < 1 then (m, Err(InvalidRequest))
           else if current.None? then SaveAnd(m, s, Released(false))
           else if current.value.expiresAt <= at then SaveAnd(m, Reaped(s, at), Released(false))
           else SaveAnd(m, Dropped(s, current.value), Released(true))
  {
    hide Inv, Consistent, Reaped, Dropped, Stranded, Awaiting, Orphans, Fewer, SaveAnd;
    var s := Synced(m, ref.key.projectId, false);
    SyncedInv(m, ref.key.projectId, false);
    InvConsistent(s);
    SyncedSame(m, ref.key.projectId, false);
    ReapConsistentIff(s, at);
    var l := Find(s.leases, Named(ref));
    if l.Some? {
      DroppedShape(s, l.value);
      FewerInv(s, Dropped(s, l.value));
    }
  }

  /**
   A release drops exactly the standing lease it names in full, unless that still awaits a commit over an
   older binding; a release of a lease that is not standing says so and, if there is one, clears what has run out.
   */
  lemma ReleaseAnswers(m: Machine, ref: LeaseRef, at: int)
    requires Inv(m)
    ensures var (m', outcome) := Apply(m, Release(ref, at));
      && (forall l | l in Standing(m, at) && RefOf(l) == ref ::
            && (outcome == Ok(Released(true)) <==> !Awaiting(m, l)) && (outcome.Ok? <==> !Awaiting(m, l))
            && (outcome.Ok? ==> Leaves(m, m', set x | x in m.leases && x != l)))
      && ((forall l | l in Standing(m, at) :: RefOf(l) != ref) ==>
            && (outcome.Ok? <==> 1 <= ref.generation && ((exists l :: l in m.leases && RefOf(l) == ref) ==> !Stranded(m, at)))
            && (outcome.Ok? ==>
                  && outcome.value == Released(false)
                  && Leaves(m, m', if exists l :: l in m.leases && RefOf(l) == ref then Standing(m, at) else set l | l in m.leases)))
  {
    hide Inv, Apply, Consistent, Reaped, Dropped, Stranded, Awaiting, Synced;
    var s := Synced(m, ref.key.projectId, false);
    ReleaseUnfolds(m, ref, at);
    var leases := set l | l in m.leases;
    FindsNamed(s, leases, ref);
    ReapedView(m, s, at);
    var current := Find(s.leases, Named(ref));
    if current.Some? {
      GenerationPositive(s, current.value);
    }
  }

  lemma ReapUnfolds(m: Machine, p: Id, at: int)
    requires Inv(m)
    ensures var s := Synced(Reaped(m, at), p, false);
      && Apply(m, Reap(p, at)) == if Stranded(m, at) then (m, Err(InvalidState)) else (s, Ok(Listed(Filter(s.leases, LeaseIn(p)))))
  {
    hide Inv, Consistent, Reaped, Synced, Stranded;
    ReapAndSync(m, p, false, at);
  }

  /** A listing gives the project's standing leases and keeps those of every project, and no others. */
  lemma ReapAnswers(m: Machine, p: Id, at: int)
    requires Inv(m)
    ensures var (m', outcome) := Apply(m, Reap(p, at));
      && (outcome.Ok? <==> !Stranded(m, at))
      && (outcome.Ok? ==>
            && Leaves(m, m', Standing(m, at)) && outcome.value.Listed?
            && (forall l :: l in outcome.value.leases <==> l in Standing(m, at) && l.route.key.projectId == p))
  {
    hide Inv, Apply, Synced, Reaped, Stranded, Standing, Distinct;
    ReapUnfolds(m, p, at);
    InvDistinct(m);
    Viewed(m, p, false, at);
  }

  lemma ReadUnfolds(m: Machine, k: Key)
    requires Inv(m)
    ensures var s := Synced(m, k.projectId, false);
      && s.leases == m.leases && s.bindings == m.bindings
      && Apply(m, ReadBinding(k)) == (s, Ok(Found(Find(m.bindings, BindingOf(k)))))
  {
    hide Inv, Consistent;
    SyncedInv(m, k.projectId, false);
    InvConsistent(Synced(m, k.projectId, false));
  }

  lemma ReadLeaves(m: Machine, k: Key)
    requires Inv(m)
    ensures var m' := Apply(m, ReadBinding(k)).0;
      && Inv(m') && m'.leases == m.leases && m'.bindings == m.bindings && m'.generations == m.generations
      && forall b, owner, ttlMs, at :: RecoverGoes(m', b, owner, ttlMs, at) <==> RecoverGoes(m, b, owner, ttlMs, at)
  {
    hide Inv, Apply;
    ReadUnfolds(m, k);
    ApplyKeepsInv(m, ReadBinding(k));
  }

  /** Reading finds the session's binding exactly if it has one, and changes no record. */
  lemma ReadAnswers(m: Machine, k: Key)
    requires Inv(m)
    ensures var (m', outcome) := Apply(m, ReadBinding(k));
      && Leaves(m, m', set l | l in m.leases)
      && (forall b | b in m.bindings && b.route.key == k :: outcome == Ok(Found(Some(b))))
      && ((forall b | b in m.bindings :: b.route.key != k) ==> outcome == Ok(Found(None)))
  {
    hide Inv, Apply, Synced, Distinct;
    InvDistinct(m);
    ReadUnfolds(m, k);
  }

  lemma RetireUnfolds(m: Machine, k: Key)
    requires Inv(m)
    ensures var s := Synced(m, k.projectId, false);
      && Inv(s) && s.leases == m.leases && s.bindings == m.bindings && s.generations == m.generations && s.nextGeneration == m.nextGeneration
      && Apply(m, Retire(k)) ==
           (WithoutSession(s, k), Ok(Retired(|Filter(m.leases, LeaseOf(k))|, |Filter(m.bindings, BindingOf(k))|)))
  {
    hide Inv, Consistent, WithoutSession;
    var s := Synced(m, k.projectId, false);
    SyncedInv(m, k.projectId, false);
    InvConsistent(s);
    RetiredInv(s, k);
    InvConsistent(WithoutSession(s, k));
  }

  /** Retiring always succeeds, and takes exactly the records and the generation of its session. */
  lemma RetireAnswers(m: Machine, k: Key)
    requires Inv(m)
    ensures var (m', outcome) := Apply(m, Retire(k));
      && outcome == Ok(Retired(|set l | l in m.leases && l.route.key == k|, |set b | b in m.bindings && b.route.key == k|))
      && (forall l :: l in m'.leases <==> l in m.leases && l.route.key != k)
      && (forall b :: b in m'.bindings <==> b in m.bindings && b.route.key != k)
      && m'.generations == m.generations - {k} && m'.nextGeneration == m.nextGeneration
  {
    hide Inv, Apply, Synced, WithoutSession, Distinct;
    RetireUnfolds(m, k);
    var s := Synced(m, k.projectId, false);
    RetiredShape(s, k);
    RetiredCounts(m, k);
    RetiredGenerations(s, k, WithoutSession(s, k));
  }

  lemma RetiredGenerations(m: Machine, k: Key, s: Machine)
    requires Inv(m) && RetireShape(m, k, s)
    ensures s.generations == m.generations - {k}
  {
    hide ProjectsOk, RecordsOk, WithinLimits, Distinct, Routes;
    RoutesElements(m);
    RoutesElements(s);
    forall j | j in m.generations && j != k ensures j in Sessions(s) {
      var r :| r in Routes(m) && r.key == j;
    }
  }

  lemma RetiredCounts(m: Machine, k: Key)
    requires Inv(m)
    ensures |Filter(m.leases, LeaseOf(k))| == |set l | l in m.leases && l.route.key == k|
    ensures |Filter(m.bindings, BindingOf(k))| == |set b | b in m.bindings && b.route.key == k|
  {
    hide Inv, Distinct, Filter;
    InvDistinct(m);
    FilterCount(m, LeaseOf(k), BindingOf(k));
    assert (set l | l in m.leases && LeaseOf(k)(l)) == set l | l in m.leases && l.route.key == k;
    assert (set b | b in m.bindings && BindingOf(k)(b)) == set b | b in m.bindings && b.route.key == k;
  }

  lemma FilterCount(m: Machine, f: Lease -> bool, g: Binding -> bool)
    requires Distinct(m.leases, LeaseKey) && Distinct(m.bindings, BindingKey)
    ensures |Filter(m.leases, f)| == |set l | l in m.leases && f(l)|
    ensures |Filter(m.bindings, g)| == |set b | b in m.bindings && g(b)|
  {
    hide Distinct;
    FilterDistinct(m.leases, LeaseKey, f);
    FilterDistinct(m.bindings, BindingKey, g);
    DistinctCount(Filter(m.leases, f));
    DistinctBindings(Filter(m.bindings, g));
    assert (set l | l in Filter(m.leases, f)) == set l | l in m.leases && f(l);
    assert (set b | b in Filter(m.bindings, g)) == set b | b in m.bindings && g(b);
  }

  lemma {:induction false} DistinctBindings(bindings: seq<Binding>)
    requires Distinct(bindings, BindingKey)
    ensures |set b | b in bindings| == |bindings|
  {
    if bindings != [] {
      var n := |bindings| - 1;
      var rest := set b | b in bindings[..n];
      DistinctBindings(bindings[..n]);
      assert bindings[n] !in rest by {
        assert forall i | 0 <= i < n :: BindingKey(bindings[i]) != BindingKey(bindings[n]);
      }
      assert (set b | b in bindings) == rest + {bindings[n]};
    }
  }

  /** Unregistering always succeeds, and takes exactly the records, generations and Project URL of its project, which is then absent. */
  lemma UnregisterAnswers(m: Machine, p: Id)
    requires Inv(m)
    ensures var (m', outcome) := Apply(m, Unregister(p));
      && outcome == Ok(Removed(|set l | l in m.leases && l.route.key.projectId == p| + |set b | b in m.bindings && b.route.key.projectId == p|))
      && (forall l :: l in m'.leases <==> l in m.leases && l.route.key.projectId != p)
      && (forall b :: b in m'.bindings <==> b in m.bindings && b.route.key.projectId != p)
      && (forall k :: k in m'.generations <==> k in m.generations && k.projectId != p)
      && (forall k | k in m'.generations :: m'.generations[k] == m.generations[k])
      && m'.projectUrls == m.projectUrls - {p} && p in m'.absent && m'.nextGeneration == m.nextGeneration
  {
    hide Inv, Consistent, Filter, LeaseIn, BindingIn, WithoutProject;
    UnregisteredInv(m, p);
    InvConsistent(WithoutProject(m, p));
    UnregisteredCounts(m, p);
    Unregisters(m, p);
  }

  lemma Unregisters(m: Machine, p: Id)
    ensures var s := WithoutProject(m, p);
      && (forall l :: l in s.leases <==> l in m.leases && l.route.key.projectId != p)
      && (forall b :: b in s.bindings <==> b in m.bindings && b.route.key.projectId != p)
      && (forall k :: k in s.generations <==> k in m.generations && k.projectId != p)
      && (forall k | k in s.generations :: s.generations[k] == m.generations[k])
      && s.projectUrls == m.projectUrls - {p} && p in s.absent && s.nextGeneration == m.nextGeneration
  {}

  lemma UnregisteredCounts(m: Machine, p: Id)
    requires Inv(m)
    ensures |Filter(m.leases, LeaseIn(p))| == |set l | l in m.leases && l.route.key.projectId == p|
    ensures |Filter(m.bindings, BindingIn(p))| == |set b | b in m.bindings && b.route.key.projectId == p|
  {
    hide Inv, Distinct, Filter;
    InvDistinct(m);
    FilterCount(m, LeaseIn(p), BindingIn(p));
    assert (set l | l in m.leases && LeaseIn(p)(l)) == set l | l in m.leases && l.route.key.projectId == p;
    assert (set b | b in m.bindings && BindingIn(p)(b)) == set b | b in m.bindings && b.route.key.projectId == p;
  }
}
