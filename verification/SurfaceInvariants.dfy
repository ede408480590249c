/** What every operation on the ownership index keeps, and exactly when one fails its closing check. */
module SurfaceInvariants {
  import opened Wrappers
  import opened Lists
  import opened SurfaceOwnership

  // -------------------------------------------------------------------------- parts of the index

  lemma RoutesElements(m: Machine)
    ensures forall l | l in m.leases :: l.route in Routes(m) && l.route.key in Sessions(m)
    ensures forall b | b in m.bindings :: b.route in Routes(m) && b.route.key in Sessions(m)
    ensures forall r | r in Routes(m) ::
      (exists l :: l in m.leases && l.route == r) || (exists b :: b in m.bindings && b.route == r)
  {}

  lemma InvConsistent(m: Machine)
    requires Inv(m)
    ensures Consistent(m)
  {}

  // The clauses about pages, chats and Projects only get easier when records go.
  lemma FewerRoutes(m: Machine, m': Machine)
    requires ProjectsOk(m) && Routes(m') <= Routes(m)
    requires m'.initialized !! m'.absent && Injective(m'.projectUrls) && m'.projectUrls.Items <= m.projectUrls.Items
    requires forall r | r in Routes(m') :: r.key.projectId !in m'.absent
    requires forall b | b in m'.bindings :: b.route.key.projectId in m'.projectUrls
    ensures ProjectsOk(m')
  {
    forall r | r in Routes(m') ensures RouteOk(m', r) {
      assert RouteOk(m, r);
      forall p | p in m'.projectUrls ensures p == r.key.projectId <==> m'.projectUrls[p] == r.projectUrl {
        assert (p, m'.projectUrls[p]) in m'.projectUrls.Items;
      }
    }
  }

  lemma ClashNone(leases: seq<Lease>, r: Route)
    requires LeaseClash(leases, r).None?
    ensures forall l | l in leases && l.route.key.projectId != r.key.projectId ::
      l.route.projectUrl != r.projectUrl && l.route.tab != r.tab
  {}

  lemma BindingClashNone(bindings: seq<Binding>, r: Route)
    requires BindingClash(bindings, r).None?
    ensures forall b | b in bindings && b.route.key.projectId != r.key.projectId ::
      b.route.projectUrl != r.projectUrl && b.route.tab != r.tab
  {}

  // Another session's route differs from r in page and chat, and in Project exactly when in project.
  predicate Compatible(s: Route, r: Route) {
    && (s.key != r.key ==> s.tab != r.tab && (r.chat.Some? ==> s.chat != r.chat))
    && (s.key.projectId == r.key.projectId <==> s.projectUrl == r.projectUrl)
  }

  lemma CompatibleExclusive(routes: set<Route>, r: Route)
    requires Exclusive(routes) && forall s | s in routes :: Compatible(s, r)
    ensures Exclusive(routes + {r})
  {}

  // A route that passed the explicit checks fits in: it is compared on its chat only inside its own
  // project, and the chats of other projects belong to other Projects.
  lemma RouteFits(m: Machine, r: Route)
    requires ProjectsOk(m) && ChatFits(r) && !OtherProject(m, r) && Unavailable(m, r).None?
    requires forall s | s in Routes(m) :: !Rival(s, r)
    ensures forall s | s in Routes(m) :: Compatible(s, r)
    ensures forall p | p in m.projectUrls :: p == r.key.projectId <==> m.projectUrls[p] == r.projectUrl
  {
    forall s | s in Routes(m) ensures Compatible(s, r) {
      RouteFitsOne(m, r, s);
    }
  }

  lemma RouteFitsOne(m: Machine, r: Route, s: Route)
    requires ProjectsOk(m) && ChatFits(r) && !OtherProject(m, r) && Unavailable(m, r).None?
    requires s in Routes(m) && !Rival(s, r)
    ensures Compatible(s, r)
  {
    assert RouteOk(m, s);
    if s.key.projectId != r.key.projectId {
      ClashNone(m.leases, r);
      BindingClashNone(m.bindings, r);
    }
  }

  // -------------------------------------------------------------------------- dropping records

  // The generations of the sessions that still have a record.
  ghost predicate GenerationsFrom(gens: map<Key, nat>, m': Machine) {
    forall k :: (k in m'.generations <==> k in gens && k in Sessions(m')) && (k in m'.generations ==> m'.generations[k] == gens[k])
  }

  // s holds some of the records of m, and the generations of their sessions.
  ghost predicate Fewer(m: Machine, s: Machine) {
    && Distinct(s.leases, LeaseKey) && Distinct(s.bindings, BindingKey)
    && (forall l | l in s.leases :: l in m.leases) && (forall b | b in s.bindings :: b in m.bindings)
    && |s.leases| <= |m.leases|
    && GenerationsFrom(m.generations, s) && s.nextGeneration == m.nextGeneration
    && s.initialized !! s.absent && Injective(s.projectUrls) && s.projectUrls.Items <= m.projectUrls.Items
    && s.projectUrls.Keys <= s.initialized
    && (forall r | r in Routes(s) :: r.key.projectId in s.initialized)
    && (forall b | b in s.bindings :: b.route.key.projectId in s.projectUrls)
  }

  /** A lease that awaited its commit is gone, and the older binding of its session is not. */
  predicate Orphans(m: Machine, s: Machine) {
    exists l, b | l in m.leases && b in s.bindings ::
      l !in s.leases && l.route.key == b.route.key && b.generation < l.generation
  }

  lemma OrphanedBinding(m: Machine, s: Machine, l: Lease, b: Binding)
    requires RelationsOk(m) && Fewer(m, s) && l in m.leases && l !in s.leases && b in s.bindings
    requires l.route.key == b.route.key && b.generation < l.generation
    ensures !BindingOk(s, b)
  {
    assert LeaseOk(m, l);
    forall l' | l' in s.leases ensures l'.route.key != b.route.key {
      if l'.route.key == b.route.key {
        SameKeySame(m.leases, LeaseKey, l, l');
      }
    }
  }

  lemma KeptBinding(m: Machine, s: Machine, b: Binding)
    requires RelationsOk(m) && Fewer(m, s) && !Orphans(m, s) && b in s.bindings
    ensures BindingOk(s, b)
  {
    RoutesElements(s);
    assert BindingOk(m, b);
  }

  lemma FewerRelations(m: Machine, s: Machine)
    requires RelationsOk(m) && Fewer(m, s) && !Orphans(m, s)
    ensures RelationsOk(s)
  {
    RoutesElements(s);
    forall l | l in s.leases ensures LeaseOk(s, l) {
      assert LeaseOk(m, l);
    }
    forall b | b in s.bindings ensures BindingOk(s, b) {
      KeptBinding(m, s, b);
    }
    forall l, b | l in s.leases && b in s.bindings ensures PairOk(l, b) {
      assert PairOk(l, b);
    }
  }

  lemma FewerRecords(m: Machine, s: Machine)
    requires RecordsOk(m) && WithinLimits(m) && Fewer(m, s)
    ensures RecordsOk(s) && WithinLimits(s)
  {}

  lemma FewerProjects(m: Machine, s: Machine)
    requires ProjectsOk(m) && Fewer(m, s)
    ensures ProjectsOk(s)
  {
    RoutesElements(s);
    RoutesElements(m);
    FewerRoutes(m, s);
  }

  /** Dropping records keeps the index consistent exactly when it orphans no binding. */
  lemma FewerInv(m: Machine, s: Machine)
    requires Inv(m) && Fewer(m, s)
    ensures RelationsOk(s) <==> !Orphans(m, s)
    ensures Consistent(s) <==> !Orphans(m, s)
    ensures Consistent(s) ==> Inv(s)
  {
    FewerProjects(m, s);
    FewerRecords(m, s);
    if Orphans(m, s) {
      var l, b :| l in m.leases && b in s.bindings && l !in s.leases && l.route.key == b.route.key && b.generation < l.generation;
      OrphanedBinding(m, s, l, b);
    } else {
      FewerRelations(m, s);
    }
  }

  // -------------------------------------------------------------------------- reaping

  /** Some lease that awaited its commit, newer than the binding of its session, is over. */
  predicate Stranded(m: Machine, at: int) {
    exists l, b | l in m.leases && b in m.bindings ::
      l.route.key == b.route.key && l.expiresAt <= at && b.generation < l.generation
  }

  lemma ReapedFewer(m: Machine, at: int)
    requires Inv(m)
    ensures Fewer(m, Reaped(m, at)) && (Orphans(m, Reaped(m, at)) <==> Stranded(m, at))
  {
    FilterDistinct(m.leases, LeaseKey, AliveAt(at));
    RoutesElements(m);
    RoutesElements(Reaped(m, at));
  }

  /** Dropping expired leases keeps the index consistent exactly when none of them awaits its commit over an older binding. */
  lemma ReapConsistentIff(m: Machine, at: int)
    requires Inv(m)
    ensures Consistent(Reaped(m, at)) <==> !Stranded(m, at)
    ensures !Stranded(m, at) ==> Inv(Reaped(m, at))
    ensures RelationsOk(Reaped(m, at)) <==> !Stranded(m, at)
  {
    ReapedFewer(m, at);
    FewerInv(m, Reaped(m, at));
  }

  // -------------------------------------------------------------------------- syncing and publishing

  // The clauses about generations do not look at the Projects.
  lemma RelationsSame(m: Machine, m': Machine)
    requires m' == m.(projectUrls := m'.projectUrls, absent := m'.absent, initialized := m'.initialized)
    ensures RelationsOk(m') <==> RelationsOk(m)
  {
    assert Sessions(m') == Sessions(m);
    assert forall l | l in m.leases :: LeaseOk(m, l) <==> LeaseOk(m', l);
    assert forall b | b in m.bindings :: BindingOk(m, b) <==> BindingOk(m', b);
  }

  lemma SyncedInv(m: Machine, p: Id, allow: bool)
    requires Inv(m)
    ensures Inv(Synced(m, p, allow))
  {
    var s := Synced(m, p, allow);
    RelationsSame(m, s);
    assert Routes(s) == Routes(m);
    FewerRoutes(m, s);
  }

  /** The first consistency check of an operation that has reaped fails exactly when a lease is stranded. */
  lemma ReapAndSync(m: Machine, p: Id, allow: bool, at: int)
    requires Inv(m)
    ensures var s := Synced(Reaped(m, at), p, allow);
      && (Consistent(s) <==> !Stranded(m, at))
      && (Consistent(s) ==> Inv(s))
  {
    ReapConsistentIff(m, at);
    if Stranded(m, at) {
      RelationsSame(Reaped(m, at), Synced(Reaped(m, at), p, allow));
    } else {
      SyncedInv(Reaped(m, at), p, allow);
    }
  }

  // What publishing a project that is not absent does.
  ghost predicate PublishShape(m: Machine, project: Mirror, p: Id, s: Machine) {
    && Distinct(s.leases, LeaseKey) && Distinct(s.bindings, BindingKey)
    && (forall l :: l in s.leases <==> l in project.leases || (l in m.leases && l.route.key.projectId != p))
    && (forall b :: b in s.bindings <==> b in project.bindings || (b in m.bindings && b.route.key.projectId != p))
    && |s.leases| == |m.leases| - |Filter(m.leases, LeaseIn(p))| + |project.leases|
    && s.projectUrls == m.projectUrls && s.absent == m.absent && s.initialized == m.initialized + {p}
    && s.nextGeneration == m.nextGeneration
    && GenerationsFrom(m.generations, s)
  }

  ghost predicate MirrorOk(project: Mirror, p: Id) {
    && (forall l | l in project.leases :: l.route.key.projectId == p)
    && (forall b | b in project.bindings :: b.route.key.projectId == p)
    && Distinct(project.leases, LeaseKey) && Distinct(project.bindings, BindingKey)
  }

  lemma PublishedShape(m: Machine, project: Mirror, p: Id)
    requires p !in m.absent && MirrorOk(project, p)
    requires Distinct(m.leases, LeaseKey) && Distinct(m.bindings, BindingKey)
    ensures PublishShape(m, project, p, Published(m, project, p))
  {
    FilterDistinct(m.leases, LeaseKey, LeaseOutside(p));
    FilterDistinct(m.bindings, BindingKey, BindingOutside(p));
    AppendDistinct(Filter(m.leases, LeaseOutside(p)), project.leases, LeaseKey);
    AppendDistinct(Filter(m.bindings, BindingOutside(p)), project.bindings, BindingKey);
    FilterSplits(m.leases, LeaseIn(p), LeaseOutside(p));
  }

  // -------------------------------------------------------------------------- claiming

  ghost predicate SameBindings(m: Machine, m': Machine) {
    && Distinct(m'.bindings, BindingKey)
    && (forall b :: b in m'.bindings <==> b in m.bindings)
    && m'.projectUrls == m.projectUrls && m'.absent == m.absent
  }

  // The index after a granted claim.
  ghost predicate GrantShape(m: Machine, q: Request, g: Machine) {
    && SameBindings(m, g) && Distinct(g.leases, LeaseKey)
    && (forall l :: l in g.leases <==> l == FreshLease(m, q) || (l in m.leases && l.route.key != q.route.key))
    && g.initialized == m.initialized + {q.route.key.projectId}
    && g.nextGeneration == m.nextGeneration + 1
    && GenerationsFrom(m.generations[q.route.key := m.nextGeneration], g)
  }

  lemma GrantMirrorOk(m: Machine, q: Request)
    requires Distinct(m.leases, LeaseKey) && Distinct(m.bindings, BindingKey)
    ensures var project := GrantMirror(m, q);
      && MirrorOk(project, q.route.key.projectId)
      && |project.leases| <= |Filter(m.leases, LeaseIn(q.route.key.projectId))|
                             + (if Find(m.leases, LeaseOf(q.route.key)).Some? then 0 else 1)
  {
    var k, f := q.route.key, FreshLease(m, q);
    var mine := Filter(m.leases, LeaseIn(k.projectId));
    FilterDistinct(m.leases, LeaseKey, LeaseIn(k.projectId));
    FilterDistinct(mine, LeaseKey, LeaseNotOf(k));
    AppendDistinct(Filter(mine, LeaseNotOf(k)), [f], LeaseKey);
    FilterDistinct(m.bindings, BindingKey, BindingIn(k.projectId));
    var active := Find(m.leases, LeaseOf(k));
    if active.Some? {
      FilterDrops(mine, LeaseNotOf(k), active.value);
    }
  }

  lemma GrantedShape(m: Machine, q: Request)
    requires RelationsOk(m) && q.route.key.projectId !in m.absent
    ensures GrantShape(m, q, Granted(m, q))
    ensures |Granted(m, q).leases| <= |m.leases| + (if Find(m.leases, LeaseOf(q.route.key)).Some? then 0 else 1)
  {
    GrantMirrorOk(m, q);
    PublishedShape(Allocated(m, q.route.key), GrantMirror(m, q), q.route.key.projectId);
  }

  lemma GrantedRelations(m: Machine, q: Request, g: Machine)
    requires RelationsOk(m) && GrantShape(m, q, g) && !OtherProject(m, q.route)
    ensures RelationsOk(g)
  {
    var k, f := q.route.key, FreshLease(m, q);
    RoutesElements(m);
    RoutesElements(g);
    assert f in g.leases;
    forall l | l in g.leases ensures LeaseOk(g, l) {
      assert l != f ==> LeaseOk(m, l);
    }
    forall b | b in g.bindings ensures BindingOk(g, b) {
      GrantedBinding(m, q, g, b);
    }
    forall l, b | l in g.leases && b in g.bindings ensures PairOk(l, b) {
      assert l != f ==> PairOk(l, b);
      assert BindingOk(m, b);
    }
  }

  lemma GrantedBinding(m: Machine, q: Request, g: Machine, b: Binding)
    requires GrantShape(m, q, g) && b in m.bindings && BindingOk(m, b)
    ensures BindingOk(g, b)
  {
    RoutesElements(g);
    assert b in g.bindings && b.route.key in Sessions(g);
    if b.route.key == q.route.key {
      assert FreshLease(m, q) in g.leases;
    } else if b.generation != m.generations[b.route.key] {
      var l :| l in m.leases && l.route.key == b.route.key && b.generation < l.generation;
      assert l in g.leases;
    }
  }

  lemma ClaimConflictNone(m: Machine, r: Route)
    requires ClaimConflict(m, r).None?
    ensures !OtherProject(m, r) && Unavailable(m, r).None?
    ensures forall s | s in Routes(m) :: !Rival(s, r)
  {
    RoutesElements(m);
  }

  lemma GrantedRoutes(m: Machine, q: Request, g: Machine)
    requires GrantShape(m, q, g)
    ensures Routes(g) <= Routes(m) + {q.route}
  {
    RoutesElements(m);
    RoutesElements(g);
  }

  // Adding a compatible route to an index, and perhaps dropping others.
  lemma OneMoreRoute(m: Machine, r: Route, g: Machine)
    requires ProjectsOk(m) && Routes(g) <= Routes(m) + {r}
    requires ChatFits(r) && r.key.projectId !in g.absent && forall s | s in Routes(m) :: Compatible(s, r)
    requires g.projectUrls == m.projectUrls && g.absent == m.absent && g.initialized !! g.absent
    requires forall p | p in m.projectUrls :: p == r.key.projectId <==> m.projectUrls[p] == r.projectUrl
    requires forall b | b in g.bindings :: b.route.key.projectId in g.projectUrls
    ensures ProjectsOk(g)
  {
    CompatibleExclusive(Routes(m), r);
    forall s | s in Routes(g) ensures RouteOk(g, s) {
      assert s != r ==> RouteOk(m, s);
    }
  }

  lemma GrantedProjects(m: Machine, q: Request, g: Machine)
    requires Inv(m) && GrantShape(m, q, g)
    requires q.route.key.projectId !in m.absent && ChatFits(q.route) && ClaimConflict(m, q.route).None?
    ensures ProjectsOk(g)
  {
    GrantedRoutes(m, q, g);
    ClaimConflictNone(m, q.route);
    RouteFits(m, q.route);
    OneMoreRoute(m, q.route, g);
  }

  lemma GrantedRecords(m: Machine, q: Request, g: Machine)
    requires RecordsOk(m) && GrantShape(m, q, g) && m.nextGeneration < MAX_SAFE_INTEGER
    ensures RecordsOk(g)
  {
    GrantedRoutes(m, q, g);
    assert forall b | b in g.bindings :: b in m.bindings;
  }

  /** A claim that passed its explicit checks keeps every clause, although it compared chats only inside its project. */
  lemma GrantedInv(m: Machine, q: Request)
    requires Inv(m) && q.route.key.projectId !in m.absent && ChatFits(q.route)
    requires ClaimConflict(m, q.route).None? && RotationConflict(m, q).None? && m.nextGeneration < MAX_SAFE_INTEGER
    ensures Inv(Granted(m, q))
  {
    var g := Granted(m, q);
    GrantedShape(m, q);
    GrantedClosing(m, q, g);
  }

  lemma GrantedClosing(m: Machine, q: Request, g: Machine)
    requires Inv(m) && q.route.key.projectId !in m.absent && ChatFits(q.route) && GrantShape(m, q, g)
    requires ClaimConflict(m, q.route).None? && RotationConflict(m, q).None? && m.nextGeneration < MAX_SAFE_INTEGER
    requires |g.leases| <= |m.leases| + (if Find(m.leases, LeaseOf(q.route.key)).Some? then 0 else 1)
    ensures Inv(g)
  {
    hide GrantShape, ClaimConflict, RotationConflict, ProjectsOk, RelationsOk, RecordsOk, WithinLimits;
    ClaimConflictNone(m, q.route);
    GrantedRelations(m, q, g);
    GrantedProjects(m, q, g);
    GrantedRecords(m, q, g);
    GrantedLimits(m, q, g);
  }

  lemma GrantedLimits(m: Machine, q: Request, g: Machine)
    requires WithinLimits(m) && GrantShape(m, q, g) && RotationConflict(m, q).None?
    requires |g.leases| <= |m.leases| + (if Find(m.leases, LeaseOf(q.route.key)).Some? then 0 else 1)
    ensures WithinLimits(g)
  {
    hide SameRef, BindingSameRef;
  }

  // -------------------------------------------------------------------------- committing

  /** Another session's live lease was claimed with the chat; the explicit checks of a commit look only at bindings. */
  predicate ChatHeld(m: Machine, k: Key, chat: Chat) {
    exists l | l in m.leases :: l.route.key != k && l.route.chat == Some(chat)
  }

  // The index after a commit, relative to the index that already knows the Project URL.
  ghost predicate CommitShape(m: Machine, current: Lease, cl: Lease, nb: Binding, c: Machine) {
    && Distinct(c.leases, LeaseKey) && Distinct(c.bindings, BindingKey)
    && (forall l :: l in c.leases <==> l == cl || (l in m.leases && l != current))
    && (forall b :: b in c.bindings <==> b == nb || (b in m.bindings && b.route.key != current.route.key))
    && |c.leases| == |m.leases|
    && c.projectUrls == m.projectUrls && c.absent == m.absent
    && c.initialized == m.initialized + {current.route.key.projectId}
    && c.nextGeneration == m.nextGeneration
    && GenerationsFrom(m.generations, c)
  }

  lemma ReplacedDistinct(leases: seq<Lease>, from: Lease, to: Lease)
    requires Distinct(leases, LeaseKey) && from.route.key == to.route.key && from in leases
    ensures Distinct(Replaced(leases, from, to), LeaseKey)
    ensures forall l :: l in Replaced(leases, from, to) <==> l == to || (l in leases && l != from)
  {
    var r := Replaced(leases, from, to);
    forall l | l in leases && l != from ensures l in r {
      var i :| 0 <= i < |leases| && leases[i] == l;
      assert r[i] == l;
    }
    var i :| 0 <= i < |leases| && leases[i] == from;
    assert r[i] == to;
    assert forall i | 0 <= i < |r| :: LeaseKey(r[i]) == LeaseKey(leases[i]);
    forall l | l in r ensures l == to || (l in leases && l != from) {
      var i :| 0 <= i < |r| && r[i] == l;
    }
  }

  lemma CommitMirrorOk(m: Machine, current: Lease, chat: Chat, at: int)
    requires Distinct(m.leases, LeaseKey) && Distinct(m.bindings, BindingKey) && current in m.leases
    ensures var p, project := current.route.key.projectId, CommitMirror(m, current, chat, at);
      && MirrorOk(project, p) && |project.leases| == |Filter(m.leases, LeaseIn(p))|
      && (forall l :: l in project.leases <==>
            l == CommittedLease(current, chat, at) || (l in m.leases && l != current && l.route.key.projectId == p))
  {
    var k := current.route.key;
    var mine := Filter(m.bindings, BindingIn(k.projectId));
    FilterDistinct(m.leases, LeaseKey, LeaseIn(k.projectId));
    ReplacedDistinct(Filter(m.leases, LeaseIn(k.projectId)), current, CommittedLease(current, chat, at));
    FilterDistinct(m.bindings, BindingKey, BindingIn(k.projectId));
    FilterDistinct(mine, BindingKey, BindingNotOf(k));
    AppendDistinct(Filter(mine, BindingNotOf(k)), [NewBinding(m, current, chat, at)], BindingKey);
  }

  lemma CommittedShape(m: Machine, current: Lease, chat: Chat, at: int)
    requires RelationsOk(m) && current in m.leases && current.route.key.projectId !in m.absent
    ensures CommitShape(WithProjectUrl(m, current.route.key.projectId, current.route.projectUrl), current,
                        CommittedLease(current, chat, at), NewBinding(m, current, chat, at), Committed(m, current, chat, at))
  {
    var p := current.route.key.projectId;
    CommitMirrorOk(m, current, chat, at);
    PublishedShape(WithProjectUrl(m, p, current.route.projectUrl), CommitMirror(m, current, chat, at), p);
  }

  predicate CommitPair(current: Lease, cl: Lease, nb: Binding) {
    && cl.route == nb.route && cl.generation == nb.generation == current.generation
    && cl.route == current.route.(chat := cl.route.chat) && cl.route.chat.Some? && ChatFits(cl.route)
    && (current.route.chat.Some? ==> cl.route == current.route)
  }

  lemma CommittedBinding(m: Machine, current: Lease, cl: Lease, nb: Binding, c: Machine, b: Binding)
    requires CommitShape(m, current, cl, nb, c) && b in m.bindings && BindingOk(m, b)
    requires current in m.leases && b.route.key != current.route.key
    ensures BindingOk(c, b)
  {
    RoutesElements(c);
    assert b in c.bindings && b.route.key in Sessions(c);
    if b.generation != m.generations[b.route.key] {
      var l :| l in m.leases && l.route.key == b.route.key && b.generation < l.generation;
      assert l in c.leases;
    }
  }

  lemma CommittedRelations(m: Machine, current: Lease, cl: Lease, nb: Binding, c: Machine)
    requires RelationsOk(m) && current in m.leases && CommitShape(m, current, cl, nb, c) && CommitPair(current, cl, nb)
    ensures RelationsOk(c)
  {
    RoutesElements(m);
    RoutesElements(c);
    assert cl in c.leases && nb in c.bindings && LeaseOk(m, current);
    forall l | l in c.leases ensures LeaseOk(c, l) {
      assert l != cl ==> LeaseOk(m, l);
    }
    forall b | b in c.bindings ensures BindingOk(c, b) {
      if b != nb {
        assert BindingOk(m, b);
        CommittedBinding(m, current, cl, nb, c, b);
      }
    }
    forall l, b | l in c.leases && b in c.bindings ensures PairOk(l, b) {
      CommittedPair(m, current, cl, nb, c, l, b);
    }
  }

  lemma CommittedPair(m: Machine, current: Lease, cl: Lease, nb: Binding, c: Machine, l: Lease, b: Binding)
    requires RelationsOk(m) && current in m.leases && CommitShape(m, current, cl, nb, c) && CommitPair(current, cl, nb)
    requires l in c.leases && b in c.bindings
    ensures PairOk(l, b)
  {
    if l.route.key == b.route.key {
      if b == nb {
        if l != cl {
          SameKeySame(m.leases, LeaseKey, l, current);
        }
      } else {
        assert PairOk(l, b);
      }
    }
  }

  lemma CommittedRoutes(m: Machine, current: Lease, cl: Lease, nb: Binding, c: Machine)
    requires CommitShape(m, current, cl, nb, c) && cl.route == nb.route
    ensures Routes(c) <= Routes(m) + {cl.route}
  {
    RoutesElements(m);
    RoutesElements(c);
  }

  lemma NoLeaseRival(m: Machine, current: Lease, chat: Chat, l: Lease)
    requires Exclusive(Routes(m)) && current in m.leases && l in m.leases && !ChatHeld(m, current.route.key, chat)
    ensures !Rival(l.route, current.route.(chat := Some(chat)))
  {
    assert l.route in Routes(m) && current.route in Routes(m);
  }

  lemma CommitConflictNone(m: Machine, current: Lease, chat: Chat)
    requires Exclusive(Routes(m)) && current in m.leases && CommitConflict(m, current, chat).None?
    requires !ChatHeld(m, current.route.key, chat)
    ensures var r := current.route.(chat := Some(chat));
      && !OtherProject(m, r) && Unavailable(m, r).None? && forall s | s in Routes(m) :: !Rival(s, r)
  {
    var r := current.route.(chat := Some(chat));
    assert forall b | b in m.bindings :: !Rival(b.route, r);
    forall s | s in Routes(m) ensures !Rival(s, r) {
      if exists l :: l in m.leases && l.route == s {
        var l :| l in m.leases && l.route == s;
        NoLeaseRival(m, current, chat, l);
      } else {
        var b :| b in m.bindings && b.route == s;
      }
    }
  }

  // Noting the Project URL of a candidate page at its first commit.
  lemma UrlNoted(m: Machine, l: Lease)
    requires Inv(m) && l in m.leases && Unavailable(m, l.route).None?
    ensures Inv(WithProjectUrl(m, l.route.key.projectId, l.route.projectUrl))
  {
    var m' := WithProjectUrl(m, l.route.key.projectId, l.route.projectUrl);
    RelationsSame(m, m');
    RoutesElements(m);
    UrlNotedProjects(m, l.route, m');
  }

  lemma UrlNotedProjects(m: Machine, r: Route, m': Machine)
    requires ProjectsOk(m) && r in Routes(m) && Unavailable(m, r).None?
    requires m' == WithProjectUrl(m, r.key.projectId, r.projectUrl)
    ensures ProjectsOk(m')
  {
    assert Routes(m') == Routes(m);
    forall s | s in Routes(m') ensures RouteOk(m', s) {
      assert RouteOk(m, s);
    }
  }

  lemma CommittedInv(m: Machine, current: Lease, chat: Chat, at: int)
    requires Inv(m) && current in m.leases && chat.projectUrl == current.route.projectUrl
    requires current.route.chat.Some? ==> current.route.chat.value == chat
    requires CommitConflict(m, current, chat).None? && !ChatHeld(m, current.route.key, chat)
    ensures Inv(Committed(m, current, chat, at))
  {
    RoutesElements(m);
    assert RouteOk(m, current.route);
    CommittedShape(m, current, chat, at);
    CommittedClosing(m, current, chat, CommittedLease(current, chat, at), NewBinding(m, current, chat, at),
                     Committed(m, current, chat, at));
  }

  lemma CommittedClosing(m: Machine, current: Lease, chat: Chat, cl: Lease, nb: Binding, c: Machine)
    requires Inv(m) && current in m.leases && current.route.key.projectId !in m.absent
    requires CommitPair(current, cl, nb) && cl.route.chat == Some(chat)
    requires CommitShape(WithProjectUrl(m, current.route.key.projectId, current.route.projectUrl), current, cl, nb, c)
    requires CommitConflict(m, current, chat).None? && !ChatHeld(m, current.route.key, chat)
    ensures Inv(c)
  {
    CommitConflictNone(m, current, chat);
    UnavailableSame(m, current.route, cl.route);
    UrlNoted(m, current);
    CommittedOn(m, WithProjectUrl(m, current.route.key.projectId, current.route.projectUrl), current, cl, nb, c);
  }

  // Availability does not depend on the chat.
  lemma UnavailableSame(m: Machine, r: Route, s: Route)
    requires r.key == s.key && r.projectUrl == s.projectUrl && r.tab == s.tab
    ensures Unavailable(m, r) == Unavailable(m, s)
  {
    LeaseClashSame(m.leases, r, s);
    BindingClashSame(m.bindings, r, s);
  }

  lemma LeaseClashSame(leases: seq<Lease>, r: Route, s: Route)
    requires r.key == s.key && r.projectUrl == s.projectUrl && r.tab == s.tab
    ensures LeaseClash(leases, r) == LeaseClash(leases, s)
  {}

  lemma BindingClashSame(bindings: seq<Binding>, r: Route, s: Route)
    requires r.key == s.key && r.projectUrl == s.projectUrl && r.tab == s.tab
    ensures BindingClash(bindings, r) == BindingClash(bindings, s)
  {}

  lemma CommittedOn(m: Machine, m': Machine, current: Lease, cl: Lease, nb: Binding, c: Machine)
    requires Inv(m) && Inv(m') && m' == m.(projectUrls := m'.projectUrls) && current.route.key.projectId in m'.projectUrls
    requires current in m.leases && CommitPair(current, cl, nb) && CommitShape(m', current, cl, nb, c)
    requires !OtherProject(m, cl.route) && Unavailable(m, cl.route).None? && forall s | s in Routes(m) :: !Rival(s, cl.route)
    ensures Inv(c)
  {
    RouteFits(m, cl.route);
    assert Routes(m') == Routes(m);
    CommittedRelations(m', current, cl, nb, c);
    CommittedProjects(m', current, cl, nb, c);
    CommittedRecords(m', current, cl, nb, c);
  }

  lemma CommittedProjects(m: Machine, current: Lease, cl: Lease, nb: Binding, c: Machine)
    requires Inv(m) && current.route.key.projectId in m.projectUrls
    requires current in m.leases && CommitPair(current, cl, nb) && CommitShape(m, current, cl, nb, c)
    requires forall s | s in Routes(m) :: Compatible(s, cl.route)
    ensures ProjectsOk(c)
  {
    hide RelationsOk, Exclusive, Compatible;
    RoutesElements(m);
    CommittedRoutes(m, current, cl, nb, c);
    assert RouteOk(m, current.route);
    hide ProjectsOk;
    OneMoreRoute(m, cl.route, c);
  }

  lemma CommittedRecords(m: Machine, current: Lease, cl: Lease, nb: Binding, c: Machine)
    requires RecordsOk(m) && WithinLimits(m) && current.route.key.projectId in m.projectUrls
    requires current in m.leases && CommitPair(current, cl, nb) && CommitShape(m, current, cl, nb, c)
    ensures RecordsOk(c) && WithinLimits(c)
  {
    CommittedRoutes(m, current, cl, nb, c);
    forall l | l in c.leases ensures 1 <= l.generation {
      assert l == cl || l in m.leases;
    }
    forall b | b in c.bindings ensures 1 <= b.generation && b.route.chat.Some? && b.route.key.projectId in c.projectUrls {
      assert b == nb || b in m.bindings;
    }
  }

  lemma CommittedClash(m: Machine, current: Lease, chat: Chat, at: int)
    requires Inv(m) && current in m.leases && ChatHeld(m, current.route.key, chat)
    ensures !Consistent(Committed(m, current, chat, at))
  {
    RoutesElements(m);
    assert RouteOk(m, current.route);
    CommittedShape(m, current, chat, at);
    ClashShown(WithProjectUrl(m, current.route.key.projectId, current.route.projectUrl), current, chat,
               CommittedLease(current, chat, at), NewBinding(m, current, chat, at), Committed(m, current, chat, at));
  }

  lemma ClashShown(m: Machine, current: Lease, chat: Chat, cl: Lease, nb: Binding, c: Machine)
    requires CommitShape(m, current, cl, nb, c) && nb.route.key == current.route.key && nb.route.chat == Some(chat)
    requires ChatHeld(m, current.route.key, chat)
    ensures !ProjectsOk(c)
  {
    RoutesElements(c);
    var l :| l in m.leases && l.route.key != current.route.key && l.route.chat == Some(chat);
    assert l in c.leases && nb in c.bindings;
  }

  // -------------------------------------------------------------------------- renewing and recovering

  // One lease takes the place of another of the same route and generation.
  ghost predicate RenewShape(m: Machine, current: Lease, rl: Lease, s: Machine) {
    && SameBindings(m, s) && Distinct(s.leases, LeaseKey)
    && (forall l :: l in s.leases <==> l == rl || (l in m.leases && l != current))
    && |s.leases| == |m.leases|
    && s.initialized == m.initialized + {current.route.key.projectId} && s.nextGeneration == m.nextGeneration
    && GenerationsFrom(m.generations, s)
  }

  lemma RenewedShape(m: Machine, current: Lease, rl: Lease)
    requires RelationsOk(m) && current in m.leases && current.route.key.projectId !in m.absent
    requires rl.route == current.route
    ensures RenewShape(m, current, rl, Published(m, RenewMirror(m, current, rl), current.route.key.projectId))
  {
    var p := current.route.key.projectId;
    FilterDistinct(m.leases, LeaseKey, LeaseIn(p));
    ReplacedDistinct(Filter(m.leases, LeaseIn(p)), current, rl);
    FilterDistinct(m.bindings, BindingKey, BindingIn(p));
    PublishedShape(m, RenewMirror(m, current, rl), p);
  }

  lemma RenewedBinding(m: Machine, current: Lease, rl: Lease, s: Machine, b: Binding)
    requires RenewShape(m, current, rl, s) && rl.route == current.route && rl.generation == current.generation
    requires b in m.bindings && BindingOk(m, b)
    ensures BindingOk(s, b)
  {
    RoutesElements(s);
    assert b in s.bindings;
    if b.generation != m.generations[b.route.key] {
      var l :| l in m.leases && l.route.key == b.route.key && b.generation < l.generation;
      assert l in s.leases || rl in s.leases;
    }
  }

  lemma RenewedInv(m: Machine, current: Lease, rl: Lease, s: Machine)
    requires Inv(m) && current in m.leases && RenewShape(m, current, rl, s)
    requires rl.route == current.route && rl.generation == current.generation
    ensures Inv(s)
  {
    RoutesElements(m);
    RenewedRoutes(m, current, rl, s);
    assert RouteOk(m, current.route);
    RepeatedRoutes(m, s, current.route.key.projectId);
    RenewedRelations(m, current, rl, s);
    RenewedRecords(m, current, rl, s);
  }

  // Repeating or dropping routes of a project that is not absent.
  lemma RepeatedRoutes(m: Machine, s: Machine, p: Id)
    requires ProjectsOk(m) && WithinLimits(m) && p !in m.absent
    requires Routes(s) <= Routes(m) && SameBindings(m, s) && s.initialized == m.initialized + {p}
    ensures ProjectsOk(s)
  {
    assert forall r | r in Routes(s) :: RouteOk(m, r);
    FewerRoutes(m, s);
  }

  lemma RenewedRoutes(m: Machine, current: Lease, rl: Lease, s: Machine)
    requires current in m.leases && RenewShape(m, current, rl, s) && rl.route == current.route
    ensures Routes(s) <= Routes(m)
  {
    RoutesElements(m);
    RoutesElements(s);
  }

  lemma RenewedRecords(m: Machine, current: Lease, rl: Lease, s: Machine)
    requires RecordsOk(m) && WithinLimits(m) && current in m.leases && RenewShape(m, current, rl, s)
    requires rl.route == current.route && rl.generation == current.generation
    ensures RecordsOk(s) && WithinLimits(s)
  {
    RenewedRoutes(m, current, rl, s);
    assert forall l | l in s.leases :: l == rl || l in m.leases;
    assert forall b | b in s.bindings :: b in m.bindings;
  }

  lemma RenewedRelations(m: Machine, current: Lease, rl: Lease, s: Machine)
    requires RelationsOk(m) && current in m.leases && RenewShape(m, current, rl, s)
    requires rl.route == current.route && rl.generation == current.generation
    ensures RelationsOk(s)
  {
    RoutesElements(s);
    forall l | l in s.leases ensures LeaseOk(s, l) {
      assert LeaseOk(m, if l == rl then current else l);
    }
    forall b | b in s.bindings ensures BindingOk(s, b) {
      RenewedBinding(m, current, rl, s, b);
    }
    forall l, b | l in s.leases && b in s.bindings ensures PairOk(l, b) {
      assert PairOk(if l == rl then current else l, b);
    }
  }

  // A recovered lease joins the binding it repeats.
  ghost predicate RecoverShape(m: Machine, l: Lease, s: Machine) {
    && SameBindings(m, s) && Distinct(s.leases, LeaseKey)
    && (forall x :: x in s.leases <==> x == l || x in m.leases)
    && |s.leases| == |m.leases| + 1
    && s.initialized == m.initialized + {l.route.key.projectId} && s.nextGeneration == m.nextGeneration
    && GenerationsFrom(m.generations, s)
  }

  lemma RecoveredShape(m: Machine, l: Lease)
    requires Distinct(m.leases, LeaseKey) && Distinct(m.bindings, BindingKey) && l.route.key.projectId !in m.absent
    requires forall x | x in m.leases :: x.route.key != l.route.key
    ensures RecoverShape(m, l, Published(m, RecoverMirror(m, l), l.route.key.projectId))
  {
    var p := l.route.key.projectId;
    FilterDistinct(m.leases, LeaseKey, LeaseIn(p));
    AppendDistinct(Filter(m.leases, LeaseIn(p)), [l], LeaseKey);
    FilterDistinct(m.bindings, BindingKey, BindingIn(p));
    PublishedShape(m, RecoverMirror(m, l), p);
  }

  lemma RecoveredRelations(m: Machine, b: Binding, l: Lease, s: Machine)
    requires RelationsOk(m) && b in m.bindings && b.generation == m.generations[b.route.key]
    requires l.route == b.route && l.generation == b.generation && RecoverShape(m, l, s)
    ensures RelationsOk(s)
  {
    RoutesElements(s);
    assert b in s.bindings && BindingOk(m, b);
    forall x | x in s.leases ensures LeaseOk(s, x) {
      assert x != l ==> LeaseOk(m, x);
    }
    forall c | c in s.bindings ensures BindingOk(s, c) {
      assert BindingOk(m, c);
    }
    forall x, c | x in s.leases && c in s.bindings ensures PairOk(x, c) {
      if x != l {
        assert PairOk(x, c);
      } else if c.route.key == b.route.key {
        SameKeySame(m.bindings, BindingKey, b, c);
      }
    }
  }

  lemma RecoveredRoutes(m: Machine, b: Binding, l: Lease, s: Machine)
    requires b in m.bindings && l.route == b.route && RecoverShape(m, l, s)
    ensures Routes(s) == Routes(m)
  {
    RoutesElements(m);
    RoutesElements(s);
    forall r | r in Routes(m) ensures r in Routes(s) {
      if exists x :: x in m.leases && x.route == r {
        var x :| x in m.leases && x.route == r;
        assert x in s.leases;
      } else {
        var c :| c in m.bindings && c.route == r;
        assert c in s.bindings;
      }
    }
  }

  lemma RecoveredInv(m: Machine, b: Binding, l: Lease, s: Machine)
    requires Inv(m) && b in m.bindings && b.generation == m.generations[b.route.key]
    requires l.route == b.route && l.generation == b.generation && RecoverShape(m, l, s)
    requires |m.leases| < MAX_ACTIVE_SURFACE_SESSIONS
    ensures Inv(s)
  {
    RecoveredRoutes(m, b, l, s);
    RoutesElements(m);
    assert RouteOk(m, b.route);
    RepeatedRoutes(m, s, b.route.key.projectId);
    RecoveredRelations(m, b, l, s);
    RecoveredRecords(m, b, l, s);
  }

  lemma RecoveredRecords(m: Machine, b: Binding, l: Lease, s: Machine)
    requires RecordsOk(m) && WithinLimits(m) && b in m.bindings && Routes(s) == Routes(m)
    requires l.generation == b.generation && RecoverShape(m, l, s) && |m.leases| < MAX_ACTIVE_SURFACE_SESSIONS
    ensures RecordsOk(s) && WithinLimits(s)
  {
    assert forall x | x in s.leases :: x == l || x in m.leases;
    assert forall c | c in s.bindings :: c in m.bindings;
  }

  // A recovery does not repair the sessions that reaping has orphaned.
  lemma RecoveredStranded(m: Machine, r: Machine, b: Binding, l: Lease, s: Machine)
    requires RelationsOk(m) && Fewer(m, r) && Orphans(m, r) && b in m.bindings && b.generation == m.generations[b.route.key]
    requires l.route == b.route && l.generation == b.generation && RecoverShape(r, l, s)
    ensures !RelationsOk(s)
  {
    var x, c :| x in m.leases && c in r.bindings && x !in r.leases && x.route.key == c.route.key && c.generation < x.generation;
    OrphanedBinding(m, r, x, c);
    StillOrphaned(m, r, b, l, s, x, c);
    assert c in s.bindings;
  }

  lemma StillOrphaned(m: Machine, r: Machine, b: Binding, l: Lease, s: Machine, x: Lease, c: Binding)
    requires RelationsOk(m) && b in m.bindings && b.generation == m.generations[b.route.key]
    requires x in m.leases && c in m.bindings && x.route.key == c.route.key && c.generation < x.generation
    requires l.route == b.route && RecoverShape(r, l, s) && c in r.bindings && !BindingOk(r, c)
    requires GenerationsFrom(m.generations, r) && r.nextGeneration == m.nextGeneration
    ensures !BindingOk(s, c)
  {
    assert LeaseOk(m, x) && BindingOk(m, c);
    if c.route.key == b.route.key {
      SameKeySame(m.bindings, BindingKey, b, c);
    }
    RoutesElements(r);
  }

  // -------------------------------------------------------------------------- releasing, retiring, unregistering

  // A part of the records, of projects that keep their Project URL.
  lemma PartFewer(m: Machine, s: Machine)
    requires RecordsOk(m) && WithinLimits(m)
    requires Distinct(s.leases, LeaseKey) && Distinct(s.bindings, BindingKey) && |s.leases| <= |m.leases|
    requires (forall l | l in s.leases :: l in m.leases) && (forall b | b in s.bindings :: b in m.bindings)
    requires GenerationsFrom(m.generations, s) && s.nextGeneration == m.nextGeneration
    requires s.projectUrls == m.projectUrls && Injective(m.projectUrls)
    requires m.initialized <= s.initialized && s.initialized !! s.absent
    ensures Fewer(m, s)
  {
    RoutesElements(m);
    RoutesElements(s);
  }

  predicate Awaiting(m: Machine, l: Lease) {
    exists b | b in m.bindings :: b.route.key == l.route.key && b.generation < l.generation
  }

  lemma DroppedShape(m: Machine, l: Lease)
    requires Inv(m) && l in m.leases
    ensures var s := Dropped(m, l);
      && Fewer(m, s) && (Orphans(m, s) <==> Awaiting(m, l))
      && (forall x :: x in s.leases <==> x in m.leases && x != l)
      && (forall b :: b in s.bindings <==> b in m.bindings)
  {
    hide Dropped, RecordsOk, WithinLimits, Fewer, Orphans, Awaiting;
    var s := Dropped(m, l);
    RoutesElements(m);
    assert RouteOk(m, l.route);
    DroppedPublished(m, l);
    forall x | x in m.leases && x.route.key == l.route.key ensures x == l {
      SameKeySame(m.leases, LeaseKey, x, l);
    }
    DroppedLists(m, l, s);
    PartFewer(m, s);
    DroppedOrphans(m, l, s);
  }

  lemma DroppedPublished(m: Machine, l: Lease)
    requires Distinct(m.leases, LeaseKey) && Distinct(m.bindings, BindingKey) && l.route.key.projectId !in m.absent
    ensures PublishShape(m, DropMirror(m, l.route.key), l.route.key.projectId, Dropped(m, l))
    ensures Dropped(m, l).absent == m.absent && |Dropped(m, l).leases| <= |m.leases|
  {
    var k, p := l.route.key, l.route.key.projectId;
    FilterDistinct(m.leases, LeaseKey, LeaseIn(p));
    FilterDistinct(Filter(m.leases, LeaseIn(p)), LeaseKey, LeaseNotOf(k));
    FilterDistinct(m.bindings, BindingKey, BindingIn(p));
    PublishedShape(m, DropMirror(m, k), p);
  }

  lemma DroppedLists(m: Machine, l: Lease, s: Machine)
    requires l in m.leases && PublishShape(m, DropMirror(m, l.route.key), l.route.key.projectId, s)
    requires forall x | x in m.leases && x.route.key == l.route.key :: x == l
    ensures forall x :: x in s.leases <==> x in m.leases && x != l
    ensures forall b :: b in s.bindings <==> b in m.bindings
  {}

  lemma DroppedOrphans(m: Machine, l: Lease, s: Machine)
    requires l in m.leases && (forall x :: x in s.leases <==> x in m.leases && x != l)
    requires forall b :: b in s.bindings <==> b in m.bindings
    ensures Orphans(m, s) <==> Awaiting(m, l)
  {}

  // What retiring a session leaves, whether or not its project is absent.
  ghost predicate RetireShape(m: Machine, k: Key, s: Machine) {
    && Distinct(s.leases, LeaseKey) && Distinct(s.bindings, BindingKey) && |s.leases| <= |m.leases|
    && (forall l :: l in s.leases <==> l in m.leases && l.route.key != k)
    && (forall b :: b in s.bindings <==> b in m.bindings && b.route.key != k)
    && GenerationsFrom(m.generations - {k}, s) && s.nextGeneration == m.nextGeneration
    && s.projectUrls == m.projectUrls && s.absent == m.absent
    && s.initialized == m.initialized + (if k.projectId in m.absent then {} else {k.projectId})
  }

  lemma RetiredShape(m: Machine, k: Key)
    requires Inv(m)
    ensures RetireShape(m, k, WithoutSession(m, k))
  {
    FilterDistinct(m.leases, LeaseKey, LeaseNotOf(k));
    FilterDistinct(m.bindings, BindingKey, BindingNotOf(k));
    if k.projectId in m.absent {
      assert forall r | r in Routes(m) :: RouteOk(m, r);
      RoutesElements(m);
      RetiredAbsent(m, k);
    } else {
      RetiredPresent(m, k, Forgotten(m, k));
    }
  }

  lemma RetiredAbsent(m: Machine, k: Key)
    requires k.projectId in m.absent
    requires Distinct(Forgotten(m, k).leases, LeaseKey) && Distinct(Forgotten(m, k).bindings, BindingKey)
    requires forall l | l in m.leases :: l.route.key.projectId != k.projectId
    requires forall b | b in m.bindings :: b.route.key.projectId != k.projectId
    ensures RetireShape(m, k, WithoutSession(m, k))
  {
    var f, p := Forgotten(m, k), k.projectId;
    FilterAll(m.leases, LeaseNotOf(k));
    FilterAll(m.bindings, BindingNotOf(k));
    FilterAll(f.leases, LeaseOutside(p));
    FilterAll(f.bindings, BindingOutside(p));
  }

  lemma RetiredPresent(m: Machine, k: Key, f: Machine)
    requires k.projectId !in m.absent && f == Forgotten(m, k)
    requires Distinct(f.leases, LeaseKey) && Distinct(f.bindings, BindingKey)
    requires Distinct(m.leases, LeaseKey) && Distinct(m.bindings, BindingKey)
    ensures RetireShape(m, k, WithoutSession(m, k))
  {
    var p := k.projectId;
    FilterDistinct(m.leases, LeaseKey, LeaseIn(p));
    FilterDistinct(Filter(m.leases, LeaseIn(p)), LeaseKey, LeaseNotOf(k));
    FilterDistinct(m.bindings, BindingKey, BindingIn(p));
    FilterDistinct(Filter(m.bindings, BindingIn(p)), BindingKey, BindingNotOf(k));
    PublishedShape(f, RetireMirror(m, k), p);
    RetiredCount(m, k);
    PublishedRetired(m, k, f, WithoutSession(m, k));
  }

  lemma PublishedRetired(m: Machine, k: Key, f: Machine, s: Machine)
    requires f == Forgotten(m, k) && k.projectId !in m.absent && PublishShape(f, RetireMirror(m, k), k.projectId, s)
    requires |Filter(f.leases, LeaseIn(k.projectId))| == |RetireMirror(m, k).leases|
    ensures RetireShape(m, k, s)
  {}

  lemma RetiredCount(m: Machine, k: Key)
    ensures Filter(Filter(m.leases, LeaseNotOf(k)), LeaseIn(k.projectId)) == Filter(Filter(m.leases, LeaseIn(k.projectId)), LeaseNotOf(k))
  {
    FilterCommutes(m.leases, LeaseNotOf(k), LeaseIn(k.projectId));
  }

  lemma RetiredInv(m: Machine, k: Key)
    requires Inv(m)
    ensures Inv(WithoutSession(m, k))
  {
    var s := WithoutSession(m, k);
    RetiredShape(m, k);
    RetiredFewer(m, k, s);
    FewerInv(m, s);
  }

  lemma RetiredFewer(m: Machine, k: Key, s: Machine)
    requires Inv(m) && RetireShape(m, k, s)
    ensures Fewer(m, s) && !Orphans(m, s)
  {
    RoutesElements(s);
    assert k !in Sessions(s);
    PartFewer(m, s);
  }

  lemma UnregisteredInv(m: Machine, p: Id)
    requires Inv(m)
    ensures Inv(WithoutProject(m, p))
  {
    var s := WithoutProject(m, p);
    FilterDistinct(m.leases, LeaseKey, LeaseOutside(p));
    FilterDistinct(m.bindings, BindingKey, BindingOutside(p));
    UnregisteredFewer(m, p, s);
    FewerInv(m, s);
  }

  lemma UnregisteredFewer(m: Machine, p: Id, s: Machine)
    requires Inv(m) && s == WithoutProject(m, p) && Distinct(s.leases, LeaseKey) && Distinct(s.bindings, BindingKey)
    ensures Fewer(m, s) && !Orphans(m, s)
  {
    UnregisteredRoutes(m, p);
    UnregisteredGenerations(m, p);
    UnregisteredProjects(m, p, s);
    UnregisteredOrphans(m, p);
  }

  lemma UnregisteredProjects(m: Machine, p: Id, s: Machine)
    requires RecordsOk(m) && WithinLimits(m) && s == WithoutProject(m, p)
    requires m.initialized !! m.absent && Injective(m.projectUrls)
    requires forall r :: r in Routes(s) <==> r in Routes(m) && r.key.projectId != p
    ensures s.initialized !! s.absent && Injective(s.projectUrls) && s.projectUrls.Items <= m.projectUrls.Items
    ensures s.projectUrls.Keys <= s.initialized
    ensures forall r | r in Routes(s) :: r.key.projectId in s.initialized
    ensures forall b | b in s.bindings :: b.route.key.projectId in s.projectUrls
  {}

  lemma UnregisteredOrphans(m: Machine, p: Id)
    ensures !Orphans(m, WithoutProject(m, p))
  {
    var s := WithoutProject(m, p);
    forall l, b | l in m.leases && b in s.bindings && l !in s.leases ensures l.route.key != b.route.key {
      assert b.route.key.projectId != p && l.route.key.projectId == p;
    }
  }

  lemma UnregisteredRoutes(m: Machine, p: Id)
    ensures forall r :: r in Routes(WithoutProject(m, p)) <==> r in Routes(m) && r.key.projectId != p
  {
    var s := WithoutProject(m, p);
    RoutesElements(m);
    RoutesElements(s);
    forall r | r in Routes(m) && r.key.projectId != p ensures r in Routes(s) {
      if exists l :: l in m.leases && l.route == r {
        var l :| l in m.leases && l.route == r;
        assert l in s.leases;
      } else {
        var b :| b in m.bindings && b.route == r;
        assert b in s.bindings;
      }
    }
  }

  lemma UnregisteredGenerations(m: Machine, p: Id)
    requires RelationsOk(m)
    ensures GenerationsFrom(m.generations, WithoutProject(m, p))
  {
    UnregisteredRoutes(m, p);
    var s := WithoutProject(m, p);
    forall k ensures k in s.generations <==> k in m.generations && k in Sessions(s) {
      if k in s.generations {
        var r :| r in Routes(m) && r.key == k;
        assert r in Routes(s);
      }
    }
  }
}
