/**
 The consistency check of src/session/surface-ownership.ts as the source performs it, with loops over
 the records and tables of the owners met so far, proved to accept exactly the consistent indexes.
 */
module SurfaceChecks {
  import opened Wrappers
  import opened Lists
  import opened SurfaceOwnership
  import opened SurfaceInvariants

  // -------------------------------------------------------------------------- pages and chats

  // No two of the routes share a page or a chat across sessions, and every chat is of its Project.
  ghost predicate PagesOk(routes: set<Route>) {
    && (forall r | r in routes :: ChatFits(r))
    && (forall r, s | r in routes && s in routes ::
          (r.tab == s.tab ==> r.key == s.key) && (r.chat.Some? && r.chat == s.chat ==> r.key == s.key))
  }

  // The tables say who owns each page and chat of the routes met so far.
  ghost predicate PageOwners(pages: map<string, Key>, seen: set<Route>) {
    && (forall r | r in seen :: r.tab in pages && pages[r.tab] == r.key)
    && (forall t | t in pages :: exists r :: r in seen && r.tab == t)
  }

  ghost predicate ChatOwners(chats: map<Chat, Key>, seen: set<Route>) {
    && (forall r | r in seen && r.chat.Some? :: r.chat.value in chats && chats[r.chat.value] == r.key)
    && (forall c | c in chats :: exists r :: r in seen && r.chat == Some(c))
  }

  ghost predicate OwnersOf(pages: map<string, Key>, chats: map<Chat, Key>, seen: set<Route>) {
    PageOwners(pages, seen) && ChatOwners(chats, seen)
  }

  lemma OneMorePage(r: Route, seen: set<Route>)
    requires PagesOk(seen)
    ensures PagesOk(seen + {r}) <==>
      && ChatFits(r)
      && forall s | s in seen :: (r.tab == s.tab ==> r.key == s.key) && (r.chat.Some? && r.chat == s.chat ==> r.key == s.key)
  {
    assert r in seen + {r};
  }

  lemma OneMorePageOwner(pages: map<string, Key>, r: Route, seen: set<Route>)
    requires PageOwners(pages, seen) && forall s | s in seen :: r.tab == s.tab ==> r.key == s.key
    ensures PageOwners(pages[r.tab := r.key], seen + {r})
  {
    var pages' := pages[r.tab := r.key];
    forall t | t in pages' ensures exists s :: s in seen + {r} && s.tab == t {
      if t == r.tab {
        assert r in seen + {r};
      } else {
        var s :| s in seen && s.tab == t;
        assert s in seen + {r};
      }
    }
  }

  lemma OneMoreChatOwner(chats: map<Chat, Key>, r: Route, seen: set<Route>)
    requires ChatOwners(chats, seen) && forall s | s in seen :: r.chat.Some? && r.chat == s.chat ==> r.key == s.key
    ensures ChatOwners(if r.chat.Some? then chats[r.chat.value := r.key] else chats, seen + {r})
  {
    var chats' := if r.chat.Some? then chats[r.chat.value := r.key] else chats;
    forall c | c in chats' ensures exists s :: s in seen + {r} && s.chat == Some(c) {
      if r.chat == Some(c) {
        assert r in seen + {r};
      } else {
        var s :| s in seen && s.chat == Some(c);
        assert s in seen + {r};
      }
    }
  }

  method NoteRoute(pages: map<string, Key>, chats: map<Chat, Key>, r: Route, ghost seen: set<Route>)
    returns (ok: bool, pages': map<string, Key>, chats': map<Chat, Key>)
    requires PagesOk(seen) && OwnersOf(pages, chats, seen)
    ensures ok <==> PagesOk(seen + {r})
    ensures ok ==> OwnersOf(pages', chats', seen + {r})
  {
    hide PagesOk;
    OneMorePage(r, seen);
    pages', chats' := pages, chats;
    if r.tab in pages && pages[r.tab] != r.key {
      return false, pages, chats;
    }
    pages' := pages[r.tab := r.key];
    if r.chat.Some? {
      if r.chat.value.projectUrl != r.projectUrl {
        return false, pages, chats;
      }
      if r.chat.value in chats && chats[r.chat.value] != r.key {
        return false, pages, chats;
      }
      chats' := chats[r.chat.value := r.key];
    }
    OneMorePageOwner(pages, r, seen);
    OneMoreChatOwner(chats, r, seen);
    ok := true;
  }

  function LeaseRoutes(leases: seq<Lease>): set<Route> { set l | l in leases :: l.route }
  function BindingRoutes(bindings: seq<Binding>): set<Route> { set b | b in bindings :: b.route }

  lemma NotPagesOk(routes: set<Route>, more: set<Route>)
    requires !PagesOk(routes) && routes <= more
    ensures !PagesOk(more)
  {}

  lemma LeaseRoutesStep(leases: seq<Lease>, i: nat)
    requires i < |leases|
    ensures LeaseRoutes(leases[..i + 1]) == LeaseRoutes(leases[..i]) + {leases[i].route}
    ensures LeaseRoutes(leases[..i + 1]) <= LeaseRoutes(leases)
    ensures LeaseGenerations(leases[..i + 1]) == LeaseGenerations(leases[..i]) + {leases[i].generation}
  {
    assert leases[..i + 1] == leases[..i] + [leases[i]];
    assert forall l | l in leases[..i + 1] :: l in leases;
  }

  lemma BindingRoutesStep(bindings: seq<Binding>, i: nat)
    requires i < |bindings|
    ensures BindingRoutes(bindings[..i + 1]) == BindingRoutes(bindings[..i]) + {bindings[i].route}
    ensures BindingRoutes(bindings[..i + 1]) <= BindingRoutes(bindings)
    ensures BindingGenerations(bindings[..i + 1]) == BindingGenerations(bindings[..i]) + {bindings[i].generation}
  {
    assert bindings[..i + 1] == bindings[..i] + [bindings[i]];
    assert forall b | b in bindings[..i + 1] :: b in bindings;
  }

  lemma RoutesBeforeStep(before: set<Route>, bindings: seq<Binding>, i: nat)
    requires i < |bindings|
    ensures before + BindingRoutes(bindings[..i + 1]) == before + BindingRoutes(bindings[..i]) + {bindings[i].route}
    ensures before + BindingRoutes(bindings[..i + 1]) <= before + BindingRoutes(bindings)
    ensures BindingGenerations(bindings[..i + 1]) == BindingGenerations(bindings[..i]) + {bindings[i].generation}
  {
    BindingRoutesStep(bindings, i);
  }

  // -------------------------------------------------------------------------- one record per session

  // The table of the leases met so far, by session.
  ghost predicate LeaseTable(table: map<Key, Lease>, seen: seq<Lease>) {
    && (forall l | l in seen :: l.route.key in table && table[l.route.key] == l)
    && (forall k | k in table :: table[k] in seen && table[k].route.key == k)
  }

  ghost predicate BindingTable(table: map<Key, Binding>, seen: seq<Binding>) {
    && (forall b | b in seen :: b.route.key in table && table[b.route.key] == b)
    && (forall k | k in table :: table[k] in seen && table[k].route.key == k)
  }

  lemma LeaseMet(table: map<Key, Lease>, leases: seq<Lease>, i: nat)
    requires i < |leases| && LeaseTable(table, leases[..i]) && Distinct(leases[..i], LeaseKey)
    ensures leases[i].route.key in table ==> !Distinct(leases, LeaseKey)
    ensures leases[i].route.key !in table ==>
      LeaseTable(table[leases[i].route.key := leases[i]], leases[..i + 1]) && Distinct(leases[..i + 1], LeaseKey)
  {
    var k := leases[i].route.key;
    assert leases[..i + 1] == leases[..i] + [leases[i]];
    if k in table {
      var j :| 0 <= j < i && leases[..i][j] == table[k];
      assert LeaseKey(leases[j]) == LeaseKey(leases[i]);
    } else {
      AppendDistinct(leases[..i], [leases[i]], LeaseKey);
    }
  }

  lemma BindingMet(table: map<Key, Binding>, bindings: seq<Binding>, i: nat)
    requires i < |bindings| && BindingTable(table, bindings[..i]) && Distinct(bindings[..i], BindingKey)
    ensures bindings[i].route.key in table ==> !Distinct(bindings, BindingKey)
    ensures bindings[i].route.key !in table ==>
      BindingTable(table[bindings[i].route.key := bindings[i]], bindings[..i + 1]) && Distinct(bindings[..i + 1], BindingKey)
  {
    var k := bindings[i].route.key;
    assert bindings[..i + 1] == bindings[..i] + [bindings[i]];
    if k in table {
      var j :| 0 <= j < i && bindings[..i][j] == table[k];
      assert BindingKey(bindings[j]) == BindingKey(bindings[i]);
    } else {
      AppendDistinct(bindings[..i], [bindings[i]], BindingKey);
    }
  }

  // The greatest of the generations met so far, 0 if there is none.
  ghost predicate Greatest(g: nat, seen: set<nat>) { (forall x | x in seen :: x <= g) && (g == 0 || g in seen) }

  lemma GreatestOf(g: nat, seen: set<nat>, x: nat)
    requires Greatest(g, seen)
    ensures Greatest(if g < x then x else g, seen + {x})
  {}

  function LeaseGenerations(leases: seq<Lease>): set<nat> { set l | l in leases :: l.generation }
  function BindingGenerations(bindings: seq<Binding>): set<nat> { set b | b in bindings :: b.generation }

  /** The first loop of the source's check: owners of pages and chats, one lease and one binding per session. */
  method MeetRecords(m: Machine)
    returns (ok: bool, leaseOf: map<Key, Lease>, bindingOf: map<Key, Binding>, greatest: nat)
    ensures ok <==> PagesOk(Routes(m)) && Distinct(m.leases, LeaseKey) && Distinct(m.bindings, BindingKey)
    ensures ok ==> LeaseTable(leaseOf, m.leases) && BindingTable(bindingOf, m.bindings)
    ensures ok ==> Greatest(greatest, LeaseGenerations(m.leases) + BindingGenerations(m.bindings))
  {
    var pages, chats;
    ok, pages, chats, leaseOf, greatest := MeetLeases(m.leases);
    bindingOf := map[];
    assert LeaseRoutes(m.leases) <= Routes(m);
    if !ok {
      if !PagesOk(LeaseRoutes(m.leases)) {
        NotPagesOk(LeaseRoutes(m.leases), Routes(m));
      }
      return;
    }
    ok, bindingOf, greatest := MeetBindings(m.bindings, pages, chats, LeaseRoutes(m.leases), greatest, LeaseGenerations(m.leases));
    assert Routes(m) == LeaseRoutes(m.leases) + BindingRoutes(m.bindings);
  }

  lemma NothingMet(leases: seq<Lease>)
    ensures PagesOk(LeaseRoutes(leases[..0])) && OwnersOf(map[], map[], LeaseRoutes(leases[..0]))
    ensures Distinct(leases[..0], LeaseKey) && LeaseTable(map[], leases[..0]) && Greatest(0, LeaseGenerations(leases[..0]))
    ensures leases[..|leases|] == leases
  {
    assert leases[..0] == [];
  }

  method MeetLeases(leases: seq<Lease>)
    returns (ok: bool, pages: map<string, Key>, chats: map<Chat, Key>, leaseOf: map<Key, Lease>, greatest: nat)
    ensures ok <==> PagesOk(LeaseRoutes(leases)) && Distinct(leases, LeaseKey)
    ensures ok ==> OwnersOf(pages, chats, LeaseRoutes(leases)) && LeaseTable(leaseOf, leases)
    ensures ok ==> Greatest(greatest, LeaseGenerations(leases))
  {
    ok, pages, chats, leaseOf, greatest := true, map[], map[], map[], 0;
    hide *;
    NothingMet(leases);
    for i := 0 to |leases|
      invariant PagesOk(LeaseRoutes(leases[..i])) && OwnersOf(pages, chats, LeaseRoutes(leases[..i]))
      invariant Distinct(leases[..i], LeaseKey) && LeaseTable(leaseOf, leases[..i])
      invariant Greatest(greatest, LeaseGenerations(leases[..i]))
    {
      var l := leases[i];
      LeaseRoutesStep(leases, i);
      ok, pages, chats := NoteRoute(pages, chats, l.route, LeaseRoutes(leases[..i]));
      LeaseMet(leaseOf, leases, i);
      if !ok {
        NotPagesOk(LeaseRoutes(leases[..i + 1]), LeaseRoutes(leases));
        return;
      }
      if l.route.key in leaseOf {
        ok := false;
        return;
      }
      GreatestOf(greatest, LeaseGenerations(leases[..i]), l.generation);
      greatest := if greatest < l.generation then l.generation else greatest;
      leaseOf := leaseOf[l.route.key := l];
    }
  }

  lemma NothingBound(bindings: seq<Binding>, before: set<Route>, gens: set<nat>)
    ensures before + BindingRoutes(bindings[..0]) == before && gens + BindingGenerations(bindings[..0]) == gens
    ensures Distinct(bindings[..0], BindingKey) && BindingTable(map[], bindings[..0])
    ensures bindings[..|bindings|] == bindings
  {
    assert bindings[..0] == [];
  }

  lemma GenerationsStep(bindings: seq<Binding>, gens: set<nat>, i: nat)
    requires i < |bindings|
    ensures gens + BindingGenerations(bindings[..i + 1]) == gens + BindingGenerations(bindings[..i]) + {bindings[i].generation}
  {
    assert bindings[..i + 1] == bindings[..i] + [bindings[i]];
  }

  method MeetBindings(bindings: seq<Binding>, pages0: map<string, Key>, chats0: map<Chat, Key>, ghost before: set<Route>,
                      greatest0: nat, ghost gens: set<nat>)
    returns (ok: bool, bindingOf: map<Key, Binding>, greatest: nat)
    requires PagesOk(before) && OwnersOf(pages0, chats0, before) && Greatest(greatest0, gens)
    ensures ok <==> PagesOk(before + BindingRoutes(bindings)) && Distinct(bindings, BindingKey)
    ensures ok ==> BindingTable(bindingOf, bindings) && Greatest(greatest, gens + BindingGenerations(bindings))
  {
    var pages, chats := pages0, chats0;
    ok, bindingOf, greatest := true, map[], greatest0;
    hide *;
    NothingBound(bindings, before, gens);
    for i := 0 to |bindings|
      invariant PagesOk(before + BindingRoutes(bindings[..i])) && OwnersOf(pages, chats, before + BindingRoutes(bindings[..i]))
      invariant Distinct(bindings[..i], BindingKey) && BindingTable(bindingOf, bindings[..i])
      invariant Greatest(greatest, gens + BindingGenerations(bindings[..i]))
    {
      var b := bindings[i];
      RoutesBeforeStep(before, bindings, i);
      GenerationsStep(bindings, gens, i);
      ok, pages, chats := NoteRoute(pages, chats, b.route, before + BindingRoutes(bindings[..i]));
      BindingMet(bindingOf, bindings, i);
      if !ok {
        NotPagesOk(before + BindingRoutes(bindings[..i + 1]), before + BindingRoutes(bindings));
        return;
      }
      if b.route.key in bindingOf {
        ok := false;
        return;
      }
      GreatestOf(greatest, gens + BindingGenerations(bindings[..i]), b.generation);
      greatest := if greatest < b.generation then b.generation else greatest;
      bindingOf := bindingOf[b.route.key := b];
    }
  }

  // -------------------------------------------------------------------------- generations

  // A recorded generation is the greater of those of the session's lease and binding.
  predicate GenerationFits(gens: map<Key, nat>, leaseOf: map<Key, Lease>, bindingOf: map<Key, Binding>, k: Key)
    requires k in gens
  {
    var l := if k in leaseOf then leaseOf[k].generation else 0;
    var b := if k in bindingOf then bindingOf[k].generation else 0;
    (k in leaseOf || k in bindingOf) && gens[k] == if l < b then b else l
  }

  predicate PairFits(leaseOf: map<Key, Lease>, bindingOf: map<Key, Binding>, k: Key) {
    k in leaseOf && k in bindingOf ==>
      var l, b := leaseOf[k], bindingOf[k];
      && l.route.projectUrl == b.route.projectUrl
      && l.generation >= b.generation
      && (l.generation == b.generation ==> l.route.tab == b.route.tab && l.route.chat == b.route.chat)
  }

  ghost predicate TablesOk(m: Machine, leaseOf: map<Key, Lease>, bindingOf: map<Key, Binding>) {
    && (forall k | k in m.generations :: GenerationFits(m.generations, leaseOf, bindingOf, k))
    && leaseOf.Keys + bindingOf.Keys <= m.generations.Keys
    && (forall k | k in leaseOf :: PairFits(leaseOf, bindingOf, k))
    && (forall g | g in AllGenerations(m) :: g < m.nextGeneration)
  }

  function AllGenerations(m: Machine): set<nat> {
    LeaseGenerations(m.leases) + BindingGenerations(m.bindings) + m.generations.Values
  }

  lemma TableSessions(m: Machine, leaseOf: map<Key, Lease>, bindingOf: map<Key, Binding>)
    requires LeaseTable(leaseOf, m.leases) && BindingTable(bindingOf, m.bindings)
    ensures forall k :: k in Sessions(m) <==> k in leaseOf || k in bindingOf
  {
    RoutesElements(m);
    forall k | k in Sessions(m) ensures k in leaseOf || k in bindingOf {
      var r :| r in Routes(m) && r.key == k;
      assert (exists l :: l in m.leases && l.route == r) || (exists b :: b in m.bindings && b.route == r);
    }
  }

  lemma TablesSound(m: Machine, leaseOf: map<Key, Lease>, bindingOf: map<Key, Binding>)
    requires LeaseTable(leaseOf, m.leases) && BindingTable(bindingOf, m.bindings)
    requires Distinct(m.leases, LeaseKey) && Distinct(m.bindings, BindingKey) && TablesOk(m, leaseOf, bindingOf)
    ensures RelationsOk(m)
  {
    TableSessions(m, leaseOf, bindingOf);
    forall l | l in m.leases ensures LeaseOk(m, l) {
      var k := l.route.key;
      assert k in leaseOf.Keys + bindingOf.Keys;
      assert GenerationFits(m.generations, leaseOf, bindingOf, k) && PairFits(leaseOf, bindingOf, k);
      assert l.generation in AllGenerations(m);
    }
    forall b | b in m.bindings ensures BindingOk(m, b) {
      SoundBinding(m, leaseOf, bindingOf, b);
    }
    forall l, b | l in m.leases && b in m.bindings ensures PairOk(l, b) {
      assert PairFits(leaseOf, bindingOf, l.route.key);
    }
  }

  lemma SoundBinding(m: Machine, leaseOf: map<Key, Lease>, bindingOf: map<Key, Binding>, b: Binding)
    requires LeaseTable(leaseOf, m.leases) && BindingTable(bindingOf, m.bindings)
    requires TablesOk(m, leaseOf, bindingOf) && b in m.bindings
    ensures BindingOk(m, b)
  {
    var k := b.route.key;
    assert k in leaseOf.Keys + bindingOf.Keys;
    assert GenerationFits(m.generations, leaseOf, bindingOf, k) && PairFits(leaseOf, bindingOf, k);
    assert b.generation in AllGenerations(m);
    if k in leaseOf && leaseOf[k].generation > b.generation {
      assert leaseOf[k] in m.leases;
    }
  }

  lemma TablesComplete(m: Machine, leaseOf: map<Key, Lease>, bindingOf: map<Key, Binding>)
    requires LeaseTable(leaseOf, m.leases) && BindingTable(bindingOf, m.bindings) && RelationsOk(m)
    ensures TablesOk(m, leaseOf, bindingOf)
  {
    TableSessions(m, leaseOf, bindingOf);
    forall k | k in m.generations ensures GenerationFits(m.generations, leaseOf, bindingOf, k) && m.generations[k] < m.nextGeneration {
      CompleteAt(m, leaseOf, bindingOf, k);
    }
    forall k | k in leaseOf ensures k in m.generations && PairFits(leaseOf, bindingOf, k) {
      assert LeaseOk(m, leaseOf[k]);
      assert k in bindingOf ==> PairOk(leaseOf[k], bindingOf[k]);
    }
    forall k | k in bindingOf ensures k in m.generations {
      assert BindingOk(m, bindingOf[k]);
    }
    AllBelow(m);
  }

  lemma AllBelow(m: Machine)
    requires RelationsOk(m) && forall k | k in m.generations :: m.generations[k] < m.nextGeneration
    ensures forall g | g in AllGenerations(m) :: g < m.nextGeneration
  {
    assert forall l | l in m.leases :: LeaseOk(m, l);
    assert forall b | b in m.bindings :: BindingOk(m, b);
  }

  lemma CompleteAt(m: Machine, leaseOf: map<Key, Lease>, bindingOf: map<Key, Binding>, k: Key)
    requires LeaseTable(leaseOf, m.leases) && BindingTable(bindingOf, m.bindings) && RelationsOk(m)
    requires k in m.generations && (k in leaseOf || k in bindingOf)
    ensures GenerationFits(m.generations, leaseOf, bindingOf, k) && m.generations[k] < m.nextGeneration
  {
    if k in leaseOf {
      assert LeaseOk(m, leaseOf[k]);
      assert k in bindingOf ==> PairOk(leaseOf[k], bindingOf[k]);
    } else {
      assert BindingOk(m, bindingOf[k]);
    }
  }

  /** The remaining loops of the source's check, over the tables. */
  method CheckGenerations(m: Machine, leaseOf: map<Key, Lease>, bindingOf: map<Key, Binding>, greatest0: nat) returns (ok: bool)
    requires 1 <= m.nextGeneration
    requires Greatest(greatest0, LeaseGenerations(m.leases) + BindingGenerations(m.bindings))
    ensures ok <==> TablesOk(m, leaseOf, bindingOf)
  {
    hide LeaseGenerations, BindingGenerations;
    var greatest: nat := greatest0;
    var left := m.generations.Keys;
    ghost var met: set<nat> := {};
    while left != {}
      invariant left <= m.generations.Keys
      invariant forall k | k in m.generations && k !in left :: GenerationFits(m.generations, leaseOf, bindingOf, k)
      invariant forall k | k in m.generations && k !in left :: m.generations[k] in met
      invariant met <= m.generations.Values
      invariant Greatest(greatest, LeaseGenerations(m.leases) + BindingGenerations(m.bindings) + met)
    {
      var k :| k in left;
      if !GenerationFits(m.generations, leaseOf, bindingOf, k) {
        return false;
      }
      greatest := if greatest < m.generations[k] then m.generations[k] else greatest;
      met := met + {m.generations[k]};
      left := left - {k};
    }
    assert met == m.generations.Values;
    if !(leaseOf.Keys + bindingOf.Keys <= m.generations.Keys) {
      return false;
    }
    var pairs := leaseOf.Keys;
    while pairs != {}
      invariant pairs <= leaseOf.Keys
      invariant forall k | k in leaseOf && k !in pairs :: PairFits(leaseOf, bindingOf, k)
    {
      var k :| k in pairs;
      if !PairFits(leaseOf, bindingOf, k) {
        return false;
      }
      pairs := pairs - {k};
    }
    assert AllGenerations(m) == LeaseGenerations(m.leases) + BindingGenerations(m.bindings) + met;
    ok := greatest < m.nextGeneration;
  }

  /** `assertOwnershipRelations`: pages, chats, sessions and generations. */
  method AssertOwnershipRelations(m: Machine) returns (ok: bool)
    requires 1 <= m.nextGeneration
    ensures ok <==> PagesOk(Routes(m)) && RelationsOk(m)
  {
    hide TablesOk, PagesOk, LeaseTable, BindingTable, Greatest;
    var leaseOf, bindingOf, greatest;
    ok, leaseOf, bindingOf, greatest := MeetRecords(m);
    if ok {
      ok := CheckGenerations(m, leaseOf, bindingOf, greatest);
      if ok {
        TablesSound(m, leaseOf, bindingOf);
      } else if RelationsOk(m) {
        TablesComplete(m, leaseOf, bindingOf);
      }
    }
  }

  // -------------------------------------------------------------------------- local projects and Projects

  predicate Fits(urls: map<Id, Url>, r: Route) {
    forall p | p in urls :: p == r.key.projectId <==> urls[p] == r.projectUrl
  }

  // Local projects and Projects pair up, in the table of Project URLs and over the routes.
  ghost predicate PairsOk(urls: map<Id, Url>, routes: set<Route>) {
    && (forall r | r in routes :: Fits(urls, r))
    && (forall r, s | r in routes && s in routes :: r.key.projectId == s.key.projectId <==> r.projectUrl == s.projectUrl)
  }

  ghost predicate UrlSource(urls: map<Id, Url>, seen: set<Route>, p: Id, u: Url) {
    (p in urls && urls[p] == u) || exists r :: r in seen && r.key.projectId == p && r.projectUrl == u
  }

  // The two tables hold the Project URLs and the routes met so far, and nothing else.
  ghost predicate PairTables(urlOf: map<Id, Url>, projectOf: map<Url, Id>, urls: map<Id, Url>, seen: set<Route>) {
    && (forall p | p in urls :: p in urlOf && urlOf[p] == urls[p] && urls[p] in projectOf && projectOf[urls[p]] == p)
    && (forall r | r in seen :: r.key.projectId in urlOf && urlOf[r.key.projectId] == r.projectUrl)
    && (forall r | r in seen :: r.projectUrl in projectOf && projectOf[r.projectUrl] == r.key.projectId)
    && (forall p | p in urlOf :: UrlSource(urls, seen, p, urlOf[p]))
    && (forall u | u in projectOf :: UrlSource(urls, seen, projectOf[u], u))
  }

  lemma OneMorePair(urlOf: map<Id, Url>, projectOf: map<Url, Id>, urls: map<Id, Url>, seen: set<Route>, r: Route)
    requires PairsOk(urls, seen) && PairTables(urlOf, projectOf, urls, seen)
    requires r.key.projectId in urlOf ==> urlOf[r.key.projectId] == r.projectUrl
    requires r.projectUrl in projectOf ==> projectOf[r.projectUrl] == r.key.projectId
    ensures PairsOk(urls, seen + {r})
  {
    forall s | s in seen ensures s.key.projectId == r.key.projectId <==> s.projectUrl == r.projectUrl {
      assert s.key.projectId in urlOf && s.projectUrl in projectOf;
    }
  }

  lemma NoMorePair(urlOf: map<Id, Url>, projectOf: map<Url, Id>, urls: map<Id, Url>, seen: set<Route>, r: Route)
    requires PairTables(urlOf, projectOf, urls, seen)
    requires || (r.key.projectId in urlOf && urlOf[r.key.projectId] != r.projectUrl)
             || (r.projectUrl in projectOf && projectOf[r.projectUrl] != r.key.projectId)
    ensures !PairsOk(urls, seen + {r})
  {
    assert r in seen + {r};
    if r.key.projectId in urlOf && urlOf[r.key.projectId] != r.projectUrl {
      assert UrlSource(urls, seen, r.key.projectId, urlOf[r.key.projectId]);
    } else {
      assert UrlSource(urls, seen, projectOf[r.projectUrl], r.projectUrl);
    }
  }

  lemma SourceStays(urls: map<Id, Url>, seen: set<Route>, r: Route, p: Id, u: Url)
    requires UrlSource(urls, seen, p, u)
    ensures UrlSource(urls, seen + {r}, p, u)
  {
    if !(p in urls && urls[p] == u) {
      var s :| s in seen && s.key.projectId == p && s.projectUrl == u;
      assert s in seen + {r};
    }
  }

  lemma PairTablesStep(urlOf: map<Id, Url>, projectOf: map<Url, Id>, urls: map<Id, Url>, seen: set<Route>, r: Route)
    requires PairTables(urlOf, projectOf, urls, seen) && PairsOk(urls, seen + {r})
    ensures PairTables(urlOf[r.key.projectId := r.projectUrl], projectOf[r.projectUrl := r.key.projectId], urls, seen + {r})
  {
    hide UrlSource;
    var urlOf', projectOf' := urlOf[r.key.projectId := r.projectUrl], projectOf[r.projectUrl := r.key.projectId];
    assert r in seen + {r} && Fits(urls, r);
    NewSource(urls, seen, r);
    forall p | p in urlOf' ensures UrlSource(urls, seen + {r}, p, urlOf'[p]) {
      if p != r.key.projectId {
        SourceStays(urls, seen, r, p, urlOf[p]);
      }
    }
    forall u | u in projectOf' ensures UrlSource(urls, seen + {r}, projectOf'[u], u) {
      if u != r.projectUrl {
        SourceStays(urls, seen, r, projectOf[u], u);
      }
    }
  }

  lemma NewSource(urls: map<Id, Url>, seen: set<Route>, r: Route)
    ensures UrlSource(urls, seen + {r}, r.key.projectId, r.projectUrl)
  {
    assert r in seen + {r};
  }

  lemma NotPairsOk(urls: map<Id, Url>, routes: set<Route>, more: set<Route>)
    requires !PairsOk(urls, routes) && routes <= more
    ensures !PairsOk(urls, more)
  {}

  method NoteProject(urlOf: map<Id, Url>, projectOf: map<Url, Id>, r: Route, ghost urls: map<Id, Url>, ghost seen: set<Route>)
    returns (ok: bool, urlOf': map<Id, Url>, projectOf': map<Url, Id>)
    requires PairsOk(urls, seen) && PairTables(urlOf, projectOf, urls, seen)
    ensures ok <==> PairsOk(urls, seen + {r})
    ensures ok ==> PairTables(urlOf', projectOf', urls, seen + {r}) && urlOf'.Keys == urlOf.Keys + {r.key.projectId}
    ensures ok && r.key.projectId in urlOf ==> urlOf'.Keys == urlOf.Keys
  {
    hide PairsOk, PairTables;
    var p, u := r.key.projectId, r.projectUrl;
    if (p in urlOf && urlOf[p] != u) || (u in projectOf && projectOf[u] != p) {
      NoMorePair(urlOf, projectOf, urls, seen, r);
      return false, urlOf, projectOf;
    }
    OneMorePair(urlOf, projectOf, urls, seen, r);
    PairTablesStep(urlOf, projectOf, urls, seen, r);
    return true, urlOf[p := u], projectOf[u := p];
  }

  /** Inverts the table of Project URLs, unless two local projects share one. */
  method InvertUrls(urls: map<Id, Url>) returns (ok: bool, projectOf: map<Url, Id>)
    ensures ok <==> Injective(urls)
    ensures ok ==> PairTables(urls, projectOf, urls, {})
  {
    ok, projectOf := true, map[];
    var left := urls.Keys;
    while left != {}
      invariant left <= urls.Keys
      invariant forall p | p in urls && p !in left :: urls[p] in projectOf && projectOf[urls[p]] == p
      invariant forall u | u in projectOf :: projectOf[u] in urls && projectOf[u] !in left && urls[projectOf[u]] == u
    {
      var p :| p in left;
      if urls[p] in projectOf {
        assert projectOf[urls[p]] != p;
        return false, projectOf;
      }
      projectOf := projectOf[urls[p] := p];
      left := left - {p};
    }
  }

  predicate LeasePresent(m: Machine, upTo: nat)
    requires upTo <= |m.leases|
  {
    forall l | l in m.leases[..upTo] :: l.route.key.projectId !in m.absent
  }

  lemma PresentStep(m: Machine, i: nat)
    requires i < |m.leases|
    ensures LeasePresent(m, i + 1) <==> LeasePresent(m, i) && m.leases[i].route.key.projectId !in m.absent
    ensures LeasePresent(m, |m.leases|) ==> LeasePresent(m, i + 1)
    ensures LeasePresent(m, 0)
  {
    assert m.leases[..i + 1] == m.leases[..i] + [m.leases[i]];
    assert forall l | l in m.leases[..i + 1] :: l in m.leases[..|m.leases|];
  }

  lemma PlacedStep(m: Machine, i: nat, known: set<Id>)
    requires i < |m.bindings|
    ensures BindingsPlaced(m, i + 1, known) <==>
      BindingsPlaced(m, i, known) && m.bindings[i].route.key.projectId !in m.absent && m.bindings[i].route.key.projectId in known
    ensures BindingsPlaced(m, |m.bindings|, known) ==> BindingsPlaced(m, i + 1, known)
  {
    assert m.bindings[..i + 1] == m.bindings[..i] + [m.bindings[i]];
    assert forall b | b in m.bindings[..i + 1] :: b in m.bindings[..|m.bindings|];
  }

  // The projects with a Project URL, recorded or of one of the first leases.
  function Known(m: Machine, upTo: nat): set<Id>
    requires upTo <= |m.leases|
  {
    m.projectUrls.Keys + set l | l in m.leases[..upTo] :: l.route.key.projectId
  }

  lemma KnownStep(m: Machine, i: nat)
    requires i < |m.leases|
    ensures Known(m, i + 1) == Known(m, i) + {m.leases[i].route.key.projectId}
    ensures Known(m, 0) == m.projectUrls.Keys
  {
    assert m.leases[..i + 1] == m.leases[..i] + [m.leases[i]];
  }

  lemma LeaseProjectsStart(m: Machine)
    ensures LeaseRoutes(m.leases[..0]) == {} && PairsOk(m.projectUrls, {}) && LeasePresent(m, 0)
    ensures Known(m, 0) == m.projectUrls.Keys && LeaseRoutes(m.leases[..|m.leases|]) == LeaseRoutes(m.leases)
  {
    assert m.leases[..0] == [] && m.leases[..|m.leases|] == m.leases;
  }

  method CheckLeaseProjects(m: Machine, projectOf0: map<Url, Id>)
    returns (ok: bool, urlOf: map<Id, Url>, projectOf: map<Url, Id>)
    requires PairTables(m.projectUrls, projectOf0, m.projectUrls, {})
    ensures ok <==> PairsOk(m.projectUrls, LeaseRoutes(m.leases)) && LeasePresent(m, |m.leases|)
    ensures ok ==> PairTables(urlOf, projectOf, m.projectUrls, LeaseRoutes(m.leases)) && urlOf.Keys == Known(m, |m.leases|)
  {
    hide *;
    ok, urlOf, projectOf := true, m.projectUrls, projectOf0;
    LeaseProjectsStart(m);
    for i := 0 to |m.leases|
      invariant PairsOk(m.projectUrls, LeaseRoutes(m.leases[..i])) && LeasePresent(m, i) && ok
      invariant PairTables(urlOf, projectOf, m.projectUrls, LeaseRoutes(m.leases[..i]))
      invariant urlOf.Keys == Known(m, i)
    {
      var r := m.leases[i].route;
      ghost var seen, after := LeaseRoutes(m.leases[..i]), LeaseRoutes(m.leases[..i + 1]);
      LeaseRoutesStep(m.leases, i);
      KnownStep(m, i);
      PresentStep(m, i);
      if r.key.projectId in m.absent {
        return false, urlOf, projectOf;
      }
      ok, urlOf, projectOf := NoteProject(urlOf, projectOf, r, m.projectUrls, seen);
      if !ok {
        NotPairsOk(m.projectUrls, after, LeaseRoutes(m.leases));
        return;
      }
    }
  }

  // The bindings met so far are of projects that are present and have a Project URL, recorded or of a lease.
  predicate BindingsPlaced(m: Machine, upTo: nat, known: set<Id>)
    requires upTo <= |m.bindings|
  {
    forall b | b in m.bindings[..upTo] :: b.route.key.projectId !in m.absent && b.route.key.projectId in known
  }

  method CheckBindingProjects(m: Machine, urlOf0: map<Id, Url>, projectOf0: map<Url, Id>, ghost before: set<Route>) returns (ok: bool)
    requires PairTables(urlOf0, projectOf0, m.projectUrls, before) && PairsOk(m.projectUrls, before)
    ensures ok <==> PairsOk(m.projectUrls, before + BindingRoutes(m.bindings)) && BindingsPlaced(m, |m.bindings|, urlOf0.Keys)
  {
    var urlOf, projectOf := urlOf0, projectOf0;
    ok := true;
    assert before + BindingRoutes([]) == before && m.bindings[..0] == [];
    assert BindingsPlaced(m, 0, urlOf0.Keys);
    hide *;
    for i := 0 to |m.bindings|
      invariant PairsOk(m.projectUrls, before + BindingRoutes(m.bindings[..i])) && BindingsPlaced(m, i, urlOf0.Keys)
      invariant PairTables(urlOf, projectOf, m.projectUrls, before + BindingRoutes(m.bindings[..i]))
      invariant urlOf.Keys == urlOf0.Keys && ok
    {
      var r := m.bindings[i].route;
      ghost var seen, after := before + BindingRoutes(m.bindings[..i]), before + BindingRoutes(m.bindings[..i + 1]);
      RoutesBeforeStep(before, m.bindings, i);
      PlacedStep(m, i, urlOf0.Keys);
      if r.key.projectId in m.absent || r.key.projectId !in urlOf {
        return false;
      }
      ok, urlOf, projectOf := NoteProject(urlOf, projectOf, r, m.projectUrls, seen);
      if !ok {
        NotPairsOk(m.projectUrls, after, before + BindingRoutes(m.bindings));
        return;
      }
    }
    assert m.bindings[..|m.bindings|] == m.bindings;
  }

  lemma ProjectsParts(m: Machine)
    ensures ProjectsOk(m) <==>
      && m.initialized !! m.absent && Injective(m.projectUrls)
      && PairsOk(m.projectUrls, Routes(m)) && PagesOk(Routes(m))
      && LeasePresent(m, |m.leases|) && BindingsPlaced(m, |m.bindings|, Known(m, |m.leases|))
  {
    assert m.leases[..|m.leases|] == m.leases && m.bindings[..|m.bindings|] == m.bindings;
    RoutesElements(m);
    PairsAndPages(m.projectUrls, Routes(m));
    PresentRoutes(m);
  }

  lemma PairsAndPages(urls: map<Id, Url>, routes: set<Route>)
    ensures PairsOk(urls, routes) && PagesOk(routes) <==>
      (forall r | r in routes :: Fits(urls, r) && ChatFits(r)) && Exclusive(routes)
  {}

  lemma PresentRoutes(m: Machine)
    ensures (forall r | r in Routes(m) :: r.key.projectId !in m.absent) <==>
      (forall l | l in m.leases :: l.route.key.projectId !in m.absent) &&
      (forall b | b in m.bindings :: b.route.key.projectId !in m.absent)
  {
    RoutesElements(m);
  }

  /** `assertMachineOwnershipConsistency` accepts exactly the consistent indexes. */
  method AssertMachineOwnershipConsistency(m: Machine) returns (ok: bool)
    requires 1 <= m.nextGeneration
    ensures ok <==> Consistent(m)
  {
    hide PairsOk, PairTables, PagesOk, RelationsOk, ProjectsOk, LeasePresent, BindingsPlaced, Known;
    ProjectsParts(m);
    if !(m.initialized !! m.absent) {
      return false;
    }
    var projectOf, urlOf;
    ok, projectOf := InvertUrls(m.projectUrls);
    if !ok {
      return;
    }
    assert Routes(m) == LeaseRoutes(m.leases) + BindingRoutes(m.bindings);
    ok, urlOf, projectOf := CheckLeaseProjects(m, projectOf);
    if !ok {
      if !PairsOk(m.projectUrls, LeaseRoutes(m.leases)) {
        NotPairsOk(m.projectUrls, LeaseRoutes(m.leases), Routes(m));
      }
      return;
    }
    ok := CheckBindingProjects(m, urlOf, projectOf, LeaseRoutes(m.leases));
    if !ok {
      return;
    }
    ok := AssertOwnershipRelations(m);
  }
}
