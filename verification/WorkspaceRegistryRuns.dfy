/**
 The membership file and the clean-ups of WorkspaceRegistries over runs in which the process may die
 between any two effects: a project whose last checkout is gone is not forgotten before its clean-up
 has returned, and no clean-up runs for a project that has a checkout.
 */
module WorkspaceRegistryRuns {
  import opened Wrappers
  import opened WorkspaceRegistries

  // -------------------------------------------------------------------------- watching the effects

  /** The file, and the projects that lost their last checkout and were neither cleaned up nor regained one. */
  datatype Watch = Watch(disk: Durable, owed: set<Id>)

  function Observe(w: Watch, e: Effect): Watch {
    match e
    case Wrote(state) => Watch(state, (w.owed + Projects(w.disk.memberships)) - Projects(state.memberships))
    case Returned(p) => w.(owed := w.owed - {p})
    case _ => w
  }

  function ObserveAll(w: Watch, effects: seq<Effect>): Watch
    decreases |effects|
  {
    if effects == [] then w else Observe(ObserveAll(w, effects[..|effects| - 1]), effects[|effects| - 1])
  }

  // What the file is checked for when it is read.
  ghost predicate Keyed(memberships: map<Id, Membership>) {
    && (forall id | id in memberships :: memberships[id].workspaceId == id)
    && (forall a, b | a in memberships && b in memberships && memberships[a].fingerprint == memberships[b].fingerprint :: a == b)
  }

  // Everything owed is written down, in a file that can be read; a clean-up runs only for a project without checkout.
  ghost predicate Remembered(w: Watch) {
    w.owed <= w.disk.pending && w.owed !! Projects(w.disk.memberships) && Keyed(w.disk.memberships)
  }

  predicate Proper(w: Watch, e: Effect) { e.Started? ==> e.project !in Projects(w.disk.memberships) }

  /** At every point of the effects. */
  ghost predicate SafeThrough(w: Watch, effects: seq<Effect>) {
    forall n: nat | n <= |effects| ::
      Remembered(ObserveAll(w, effects[..n])) && (n < |effects| ==> Proper(ObserveAll(w, effects[..n]), effects[n]))
  }

  lemma {:induction false} ObserveSplit(w: Watch, a: seq<Effect>, b: seq<Effect>)
    ensures ObserveAll(w, a + b) == ObserveAll(ObserveAll(w, a), b)
    decreases |b|
  {
    if b == [] {
      assert a + b == a;
    } else {
      ObserveSplit(w, a, b[..|b| - 1]);
      assert (a + b)[..|a + b| - 1] == a + b[..|b| - 1];
    }
  }

  lemma SafeSplit(w: Watch, a: seq<Effect>, b: seq<Effect>)
    requires SafeThrough(w, a) && SafeThrough(ObserveAll(w, a), b)
    ensures SafeThrough(w, a + b)
  {
    forall n: nat | n <= |a + b|
      ensures Remembered(ObserveAll(w, (a + b)[..n])) && (n < |a + b| ==> Proper(ObserveAll(w, (a + b)[..n]), (a + b)[n])) {
      if n < |a| {
        assert (a + b)[..n] == a[..n];
      } else {
        assert (a + b)[..n] == a + b[..n - |a|];
        ObserveSplit(w, a, b[..n - |a|]);
      }
    }
  }

  lemma SafePrefix(w: Watch, effects: seq<Effect>, cut: nat)
    requires SafeThrough(w, effects) && cut <= |effects|
    ensures SafeThrough(w, effects[..cut])
  {
    forall n: nat | n <= cut
      ensures Remembered(ObserveAll(w, effects[..cut][..n])) && (n < cut ==> Proper(ObserveAll(w, effects[..cut][..n]), effects[..cut][n])) {
      assert effects[..cut][..n] == effects[..n];
    }
  }

  lemma ObserveOne(w: Watch, e: Effect)
    ensures ObserveAll(w, [e]) == Observe(w, e)
    ensures Remembered(w) && Proper(w, e) && Remembered(Observe(w, e)) ==> SafeThrough(w, [e])
  {
    assert [e][..0] == [] && [e][..1] == [e];
    assert ObserveAll(w, []) == w;
  }

  lemma SafeOneMore(w: Watch, effects: seq<Effect>, e: Effect)
    requires SafeThrough(w, effects)
    requires var v := ObserveAll(w, effects); Proper(v, e) && Remembered(Observe(v, e))
    ensures SafeThrough(w, effects + [e]) && ObserveAll(w, effects + [e]) == Observe(ObserveAll(w, effects), e)
  {
    assert effects[..|effects|] == effects;
    ObserveOne(ObserveAll(w, effects), e);
    ObserveSplit(w, effects, [e]);
    SafeSplit(w, effects, [e]);
  }

  lemma SafeNone(w: Watch)
    requires Remembered(w)
    ensures SafeThrough(w, []) && ObserveAll(w, []) == w
  {
    var none: seq<Effect> := [];
    assert forall n: nat | n <= 0 :: none[..n] == none;
  }

  lemma SafeEnd(w: Watch, effects: seq<Effect>)
    requires SafeThrough(w, effects)
    ensures Remembered(ObserveAll(w, effects))
  {
    assert effects[..|effects|] == effects;
  }

  // -------------------------------------------------------------------------- the memory

  // The memory and the file hold the same, and every registration is of a checkout in the file.
  ghost predicate Sound(m: Memory, disk: Durable) {
    && m.memberships == disk.memberships && m.pending == disk.pending
    && m.pending !! Projects(m.memberships)
    && Keyed(m.memberships)
    && (forall id | id in m.entries :: id in m.memberships && m.entries[id].membership == m.memberships[id])
  }

  // -------------------------------------------------------------------------- clean-ups

  function SetOf(done: seq<Id>): set<Id> { set p | p in done }

  lemma {:induction false} CallsSafe(w: Watch, done: seq<Id>)
    requires Remembered(w) && (forall p | p in done :: p !in Projects(w.disk.memberships))
    ensures SafeThrough(w, CallEffects(done))
    ensures ObserveAll(w, CallEffects(done)) == w.(owed := w.owed - SetOf(done))
  {
    hide SafeThrough, ObserveAll, Projects;
    if done == [] {
      SafeNone(w);
      assert SetOf(done) == {};
    } else {
      var front, p := done[..|done| - 1], done[|done| - 1];
      CallsSafe(w, front);
      var calls := CallEffects(front);
      SafeEnd(w, calls);
      SafeOneMore(w, calls, Started(p));
      SafeOneMore(w, calls + [Started(p)], Returned(p));
      assert CallEffects(done) == calls + [Started(p)] + [Returned(p)];
      assert SetOf(done) == SetOf(front) + {p};
      assert (w.owed - SetOf(front)) - {p} == w.owed - SetOf(done);
    }
  }

  lemma DrainSafe(w: Watch, m: Memory, world: World, effects: seq<Effect>, m': Memory, ok: bool)
    requires Remembered(w) && w.disk == Durable(m.memberships, m.pending) && Drained(m, world, effects, m', ok)
    ensures SafeThrough(w, effects)
    ensures var v := ObserveAll(w, effects);
      v.disk == Durable(m'.memberships, m'.pending) && m'.memberships == m.memberships && m'.entries == m.entries && m'.pending <= m.pending
    ensures ok ==> m'.pending == {}
  {
    hide SafeThrough, ObserveAll, Projects, CallEffects;
    var done: seq<Id> :| DrainedBy(m, world, done, effects, m', ok);
    if m.pending == {} {
      SafeNone(w);
    } else {
      CallsSafe(w, done);
      var calls := CallEffects(done);
      SafeEnd(w, calls);
      if exists p | p in Due(m) :: world.throws(p) {
        var p :| p in Due(m) && world.throws(p) && effects == calls + [Started(p), Threw(p)];
        SafeOneMore(w, calls, Started(p));
        SafeOneMore(w, calls + [Started(p)], Threw(p));
        assert effects == calls + [Started(p)] + [Threw(p)];
      } else if world.savesAgain {
        assert w.owed - SetOf(done) == {} by {
          assert forall p | p in w.owed :: p in Due(m);
        }
        assert {} + Projects(m.memberships) - Projects(m.memberships) == {};
        SafeOneMore(w, calls, Wrote(Durable(m.memberships, {})));
      }
    }
  }

  // -------------------------------------------------------------------------- reconciling

  lemma PlanKeepsOwed(m: Memory, candidate: Option<Membership>, explicit: set<Id>, world: World, owed: set<Id>)
    requires PlanFor(m, candidate, explicit, world).Ok? && owed <= m.pending
    ensures var plan := PlanFor(m, candidate, explicit, world).value;
      (owed + Projects(m.memberships)) - Projects(plan.next) <= PendingAfter(m, plan)
  {
    var plan := PlanFor(m, candidate, explicit, world).value;
    forall id | id in m.memberships && m.memberships[id].projectId !in Projects(plan.next) ensures m.memberships[id].projectId in plan.projects {
      PlanDrops(m, candidate, explicit, world, id);
    }
  }

  // A membership that is not kept as it is has its project among the projects that lost one.
  lemma PlanDrops(m: Memory, candidate: Option<Membership>, explicit: set<Id>, world: World, id: Id)
    requires PlanFor(m, candidate, explicit, world).Ok? && id in m.memberships
    ensures var plan := PlanFor(m, candidate, explicit, world).value;
      m.memberships[id].projectId in plan.projects || (id in plan.next && plan.next[id] == m.memberships[id])
  {
    var base := Removal(m, explicit, world);
    assert id in base.next ==> base.next[id] == m.memberships[id];
  }

  lemma PlanKeyed(m: Memory, candidate: Option<Membership>, explicit: set<Id>, world: World)
    requires PlanFor(m, candidate, explicit, world).Ok? && Keyed(m.memberships)
    ensures Keyed(PlanFor(m, candidate, explicit, world).value.next)
  {}

  lemma PlanEntries(m: Memory, candidate: Option<Membership>, explicit: set<Id>, world: World, id: Id)
    requires PlanFor(m, candidate, explicit, world).Ok?
    requires id in m.entries && id in m.memberships && m.entries[id].membership == m.memberships[id]
    ensures var plan := PlanFor(m, candidate, explicit, world).value;
      id !in plan.removed ==> id in plan.next && plan.next[id] == m.memberships[id]
  {}

  lemma ReconcileSafe(w: Watch, m: Memory, candidate: Option<Membership>, explicit: set<Id>, world: World,
                      effects: seq<Effect>, m': Memory, outcome: Result<(), Error>)
    requires Remembered(w) && Sound(m, w.disk) && Reconciled(m, candidate, explicit, world, effects, m', outcome)
    ensures SafeThrough(w, effects) && Sound(m', ObserveAll(w, effects).disk)
    ensures outcome.Ok? && effects != [] ==> m'.pending == {}
  {
    hide Drained, SafeThrough, ObserveAll, Projects, PlanFor, Committed, PendingAfter, NothingToDo, Remembered, Sound;
    if effects == [] {
      SafeNone(w);
    } else {
      var plan := PlanFor(m, candidate, explicit, world).value;
      var mid := Committed(m, plan);
      var wrote, revoked := Wrote(Durable(mid.memberships, mid.pending)), Revoked(RegistrationsOf(m.entries, plan.removed));
      var rest: seq<Effect> :| effects == [wrote, revoked] + rest && Drained(mid, world, rest, m', outcome.Ok?);
      CommitSafe(w, m, candidate, explicit, world);
      SafeEnd(w, [wrote]);
      SafeOneMore(w, [wrote], revoked);
      assert [wrote] + [revoked] == [wrote, revoked];
      SafeEnd(w, [wrote, revoked]);
      var v := ObserveAll(w, [wrote, revoked]);
      DrainSafe(v, mid, world, rest, m', outcome.Ok?);
      SafeSplit(w, [wrote, revoked], rest);
      ObserveSplit(w, [wrote, revoked], rest);
      SoundDrained(mid, v.disk, m', ObserveAll(v, rest).disk);
    }
  }

  lemma SoundDrained(m: Memory, disk: Durable, m': Memory, disk': Durable)
    requires Sound(m, disk) && m'.memberships == m.memberships && m'.entries == m.entries && m'.pending <= m.pending
    requires disk' == Durable(m'.memberships, m'.pending)
    ensures Sound(m', disk')
  {}

  lemma CommitSafe(w: Watch, m: Memory, candidate: Option<Membership>, explicit: set<Id>, world: World)
    requires Remembered(w) && Sound(m, w.disk) && PlanFor(m, candidate, explicit, world).Ok?
    ensures var mid := Committed(m, PlanFor(m, candidate, explicit, world).value);
      var wrote := Wrote(Durable(mid.memberships, mid.pending));
      && SafeThrough(w, [wrote]) && ObserveAll(w, [wrote]) == Observe(w, wrote)
      && Sound(mid, Observe(w, wrote).disk)
  {
    var plan := PlanFor(m, candidate, explicit, world).value;
    PlanKeepsOwed(m, candidate, explicit, world, w.owed);
    PlanKeyed(m, candidate, explicit, world);
    forall id | id in m.entries ensures id !in plan.removed ==> id in plan.next && plan.next[id] == m.memberships[id] {
      PlanEntries(m, candidate, explicit, world, id);
    }
    hide PlanFor;
    var mid := Committed(m, plan);
    ObserveOne(w, Wrote(Durable(mid.memberships, mid.pending)));
  }

  // -------------------------------------------------------------------------- runs

  lemma {:induction false} DiskObserved(w: Watch, effects: seq<Effect>)
    ensures DiskAfter(w.disk, effects) == ObserveAll(w, effects).disk
    decreases |effects|
  {
    if effects != [] {
      DiskObserved(w, effects[..|effects| - 1]);
    }
  }

  lemma RegisterKeepsSound(m: Memory, disk: Durable, candidate: Membership, registrationId: Id, m': Memory, answer: Result<Answer, Error>)
    requires Sound(m, disk) && candidate.workspaceId in m.memberships && m.memberships[candidate.workspaceId] == candidate
    requires RegisteredIn(m, candidate, registrationId, m', answer)
    ensures Sound(m', disk)
    ensures answer.Ok? && answer.value.Registered? && answer.value.entry.membership == candidate
    ensures candidate.workspaceId in m'.entries && m'.entries[candidate.workspaceId] == answer.value.entry
  {
    if exists id :: RegisteredCheckout(m.entries, id, candidate) {
      var id :| RegisteredCheckout(m.entries, id, candidate) && answer == Ok(Registered(m.entries[id]));
      assert m.memberships[id].fingerprint == candidate.fingerprint;
    } else {
      assert candidate.workspaceId in m.entries ==> RegisteredCheckout(m.entries, candidate.workspaceId, candidate);
    }
  }

  lemma CandidateKept(m: Memory, candidate: Membership, world: World, effects: seq<Effect>, m': Memory, outcome: Result<(), Error>)
    requires Reconciled(m, Some(candidate), {}, world, effects, m', outcome) && outcome.Ok?
    ensures candidate.workspaceId in m'.memberships && m'.memberships[candidate.workspaceId] == candidate
  {
    var plan := PlanFor(m, Some(candidate), {}, world).value;
    assert plan.next[candidate.workspaceId] == candidate;
    assert m'.memberships == plan.next;
  }

  lemma PerformSafe(w: Watch, m: Memory, op: Op, world: World, effects: seq<Effect>, m': Memory, answer: Result<Answer, Error>)
    requires Remembered(w) && Sound(m, w.disk) && Performed(m, op, world, effects, m', answer)
    ensures SafeThrough(w, effects) && Sound(m', ObserveAll(w, effects).disk)
  {
    hide Reconciled, SafeThrough, ObserveAll, Sound, Remembered, RegisteredIn;
    SafeNone(w);
    match op
    case Register(candidate, registrationId) =>
      var mid: Memory, outcome: Result<(), Error> :|
        && Reconciled(m, Some(candidate), {}, world, effects, mid, outcome)
        && (if outcome.Err? then m' == mid && answer == Err(outcome.error) else RegisteredIn(mid, candidate, registrationId, m', answer));
      ReconcileSafe(w, m, Some(candidate), {}, world, effects, mid, outcome);
      if outcome.Ok? {
        CandidateKept(m, candidate, world, effects, mid, outcome);
        RegisterKeepsSound(mid, ObserveAll(w, effects).disk, candidate, registrationId, m', answer);
      }
    case HasProject(_) =>
      var outcome: Result<(), Error> :| Reconciled(m, None, {}, world, effects, m', outcome);
      ReconcileSafe(w, m, None, {}, world, effects, m', outcome);
    case Unregister(id, p, r) =>
      if id in m.entries && Mismatch(m.entries[id], p, r).None? {
        var outcome: Result<(), Error> :| Reconciled(m, None, {id}, world, effects, m', outcome);
        ReconcileSafe(w, m, None, {id}, world, effects, m', outcome);
      }
    case Lookup(id, p, r) =>
      if id in m.entries && world.entryStatus(m.entries[id].membership) == Stale {
        var outcome: Result<(), Error> :| Reconciled(m, None, {id}, world, effects, m', outcome);
        ReconcileSafe(w, m, None, {id}, world, effects, m', outcome);
      }
  }

  ghost predicate SoundSystem(s: System) {
    Keyed(s.disk.memberships) && (s.memory.Some? ==> Sound(s.memory.value, s.disk))
  }

  lemma CompleteSafe(w: Watch, s: System, effects: seq<Effect>, s': System)
    requires Remembered(w) && w.disk == s.disk && SoundSystem(s) && Completes(s, effects, s')
    ensures SafeThrough(w, effects) && SoundSystem(s') && ObserveAll(w, effects).disk == s'.disk
  {
    hide Drained, Performed, SafeThrough, ObserveAll, Remembered, DiskAfter;
    DiskObserved(w, effects);
    if s.memory.Some? && exists op: Op, world: World, m': Memory, answer: Result<Answer, Error> ::
         Performed(s.memory.value, op, world, effects, m', answer) && s' == System(DiskAfter(s.disk, effects), Some(m')) {
      var op: Op, world: World, m': Memory, answer: Result<Answer, Error> :|
        Performed(s.memory.value, op, world, effects, m', answer) && s' == System(DiskAfter(s.disk, effects), Some(m'));
      PerformSafe(w, s.memory.value, op, world, effects, m', answer);
    } else {
      var world: World, m': Memory, ok: bool :|
        Restarted(s.disk, world, effects, m', ok) && s' == System(DiskAfter(s.disk, effects), if ok then Some(m') else None);
      DrainSafe(w, Memory(map[], s.disk.memberships, s.disk.pending), world, effects, m', ok);
    }
  }

  lemma MoveSafe(w: Watch, s: System, effects: seq<Effect>, s': System)
    requires Remembered(w) && w.disk == s.disk && SoundSystem(s) && Moves(s, effects, s')
    ensures SafeThrough(w, effects) && SoundSystem(s') && ObserveAll(w, effects).disk == s'.disk
  {
    hide Completes, SafeThrough, ObserveAll, DiskAfter, Sound;
    DiskObserved(w, effects);
    if Completes(s, effects, s') {
      CompleteSafe(w, s, effects, s');
    } else {
      var all: seq<Effect>, cut: nat, done: System :|
        && Completes(s, all, done) && cut <= |all| && effects == all[..cut]
        && s' == System(DiskAfter(s.disk, effects), None);
      CompleteSafe(w, s, all, done);
      SafePrefix(w, all, cut);
      SafeEnd(w, effects);
    }
  }

  /**
   At every point of every run, however often the process dies and is started again: a project that
   lost its last checkout is pending in the file until its clean-up has returned or it has a checkout
   again, and no clean-up starts for a project that has a checkout.
   */
  lemma {:induction false} CleanUpsAreRemembered(states: seq<System>, traces: seq<seq<Effect>>)
    requires Run(states, traces) && states[0].memory.None? && Keyed(states[0].disk.memberships)
    ensures SafeThrough(Watch(states[0].disk, {}), Flatten(traces))
    ensures ObserveAll(Watch(states[0].disk, {}), Flatten(traces)).disk == states[|traces|].disk && SoundSystem(states[|traces|])
    decreases |traces|
  {
    hide SafeThrough, ObserveAll, Moves, Sound;
    var w := Watch(states[0].disk, {});
    if traces == [] {
      SafeNone(w);
    } else {
      var n := |traces| - 1;
      CleanUpsAreRemembered(states[..n + 1], traces[..n]);
      var before := Flatten(traces[..n]);
      SafeEnd(w, before);
      MoveSafe(ObserveAll(w, before), states[n], traces[n], states[n + 1]);
      SafeSplit(w, before, traces[n]);
      ObserveSplit(w, before, traces[n]);
    }
  }

  // -------------------------------------------------------------------------- what an operation achieves

  /** Which clean-ups ran to their end. */
  function Cleaned(effects: seq<Effect>): set<Id> { set e | e in effects && e.Returned? :: e.project }

  lemma {:induction false} CallsClean(done: seq<Id>)
    ensures Cleaned(CallEffects(done)) == SetOf(done)
  {
    if done == [] {
      assert Cleaned([]) == {} && SetOf(done) == {};
    } else {
      var front, p := done[..|done| - 1], done[|done| - 1];
      CallsClean(front);
      CleanedJoin(CallEffects(front), [Started(p), Returned(p)]);
      assert Returned(p) in [Started(p), Returned(p)];
      assert Cleaned([Started(p), Returned(p)]) == {p};
      assert SetOf(done) == SetOf(front) + {p};
    }
  }

  lemma CleanedJoin(a: seq<Effect>, b: seq<Effect>)
    ensures Cleaned(a + b) == Cleaned(a) + Cleaned(b)
  {
    assert forall e :: e in a + b <==> e in a || e in b;
    forall p | p in Cleaned(a) + Cleaned(b) ensures p in Cleaned(a + b) {
      assert Returned(p) in a + b;
    }
  }

  /**
   A restart settles everything exactly if no clean-up that is due throws and the file can be written;
   it then has run the clean-up of every pending project that has no checkout, and of no other.
   */
  lemma {:induction false} RestartSettles(disk: Durable, world: World, effects: seq<Effect>, m': Memory, ok: bool)
    requires Restarted(disk, world, effects, m', ok)
    ensures var due := disk.pending - Projects(disk.memberships);
      ok <==> disk.pending == {} || (world.savesAgain && forall p | p in due :: !world.throws(p))
    ensures ok ==> DiskAfter(disk, effects) == Durable(disk.memberships, {}) &&
                   Cleaned(effects) == disk.pending - Projects(disk.memberships)
    ensures !ok ==> DiskAfter(disk, effects) == disk && Cleaned(effects) <= disk.pending - Projects(disk.memberships)
  {
    hide Projects, CallEffects, Cleaned, DiskAfter, SetOf, NoRepeats;
    var m := Memory(map[], disk.memberships, disk.pending);
    var done: seq<Id> :| DrainedBy(m, world, done, effects, m', ok);
    CleanedNone(disk);
    if disk.pending != {} {
      CallsClean(done);
      CallsWriteNothing(disk, done);
      DoneAre(done);
      var calls := CallEffects(done);
      if exists p | p in Due(m) :: world.throws(p) {
        var p :| p in Due(m) && world.throws(p) && effects == calls + [Started(p), Threw(p)];
        ThrewCleansNothing(disk, calls, p);
      } else if world.savesAgain {
        WriteCleansNothing(disk, calls, Durable(m.memberships, {}));
        assert SetOf(done) == Due(m);
      }
    }
  }

  lemma CleanedNone(disk: Durable)
    ensures Cleaned([]) == {} && DiskAfter(disk, []) == disk
  {}

  lemma DoneAre(done: seq<Id>)
    ensures forall p :: p in SetOf(done) <==> p in done
  {}

  lemma ThrewCleansNothing(disk: Durable, calls: seq<Effect>, p: Id)
    ensures Cleaned(calls + [Started(p), Threw(p)]) == Cleaned(calls)
    ensures DiskAfter(disk, calls + [Started(p), Threw(p)]) == DiskAfter(disk, calls)
  {
    var all := calls + [Started(p), Threw(p)];
    CleanedJoin(calls, [Started(p), Threw(p)]);
    assert Cleaned([Started(p), Threw(p)]) == {};
    assert all[..|all| - 1] == calls + [Started(p)] && (calls + [Started(p)])[..|calls|] == calls;
  }

  lemma WriteCleansNothing(disk: Durable, calls: seq<Effect>, state: Durable)
    ensures Cleaned(calls + [Wrote(state)]) == Cleaned(calls)
    ensures DiskAfter(disk, calls + [Wrote(state)]) == state
  {
    CleanedJoin(calls, [Wrote(state)]);
    assert Cleaned([Wrote(state)]) == {};
  }

  lemma {:induction false} CallsWriteNothing(disk: Durable, done: seq<Id>)
    ensures DiskAfter(disk, CallEffects(done)) == disk
  {
    if done != [] {
      var front := CallEffects(done[..|done| - 1]);
      CallsWriteNothing(disk, done[..|done| - 1]);
      var all := CallEffects(done);
      assert all[..|all| - 1][..|front|] == front && all[..|all| - 1][|front|].Started?;
      assert DiskAfter(disk, all[..|all| - 1]) == DiskAfter(disk, all[..|all| - 1][..|front|]);
    }
  }

  /**
   A registration that is handed out is of the very checkout asked for, and in force.  A collision is
   only ever reported before anything was changed: the second check for one never fires.
   */
  lemma RegistrationIsFaithful(m: Memory, disk: Durable, candidate: Membership, registrationId: Id, world: World,
                               effects: seq<Effect>, m': Memory, answer: Result<Answer, Error>)
    requires Sound(m, disk) && Keyed(disk.memberships) && Performed(m, Register(candidate, registrationId), world, effects, m', answer)
    ensures answer.Ok? ==>
      && answer.value.Registered? && answer.value.entry.membership == candidate
      && candidate.workspaceId in m'.entries && m'.entries[candidate.workspaceId] == answer.value.entry
      && candidate.workspaceId in m'.memberships && m'.memberships[candidate.workspaceId] == candidate
    ensures answer == Err(IdCollision) ==> effects == [] && m' == m
  {
    hide Reconciled, RegisteredIn, Sound;
    var mid: Memory, outcome: Result<(), Error> :|
      && Reconciled(m, Some(candidate), {}, world, effects, mid, outcome)
      && (if outcome.Err? then m' == mid && answer == Err(outcome.error) else RegisteredIn(mid, candidate, registrationId, m', answer));
    var w := Watch(disk, {});
    ReconcileSafe(w, m, Some(candidate), {}, world, effects, mid, outcome);
    if outcome.Ok? {
      CandidateKept(m, candidate, world, effects, mid, outcome);
      RegisterKeepsSound(mid, ObserveAll(w, effects).disk, candidate, registrationId, m', answer);
      SameMemberships(mid, candidate, registrationId, m', answer);
    } else {
      RefusedUntouched(m, candidate, world, effects, mid, outcome);
    }
  }

  lemma SameMemberships(m: Memory, candidate: Membership, registrationId: Id, m': Memory, answer: Result<Answer, Error>)
    requires RegisteredIn(m, candidate, registrationId, m', answer)
    ensures m'.memberships == m.memberships
  {}

  lemma RefusedUntouched(m: Memory, candidate: Membership, world: World, effects: seq<Effect>, m': Memory, outcome: Result<(), Error>)
    requires Reconciled(m, Some(candidate), {}, world, effects, m', outcome)
    ensures outcome.Err? && outcome.error == IdCollision ==> effects == [] && m' == m
  {}

  // A clean-up that returned, and a file that could not be written behind it.
  lemma CleanedUnsaved(project: Id)
    ensures var s := System(Durable(map[], {project}), None); Completes(s, [Started(project), Returned(project)], s)
  {
    var m := Memory(map[], map[], {project});
    var calls := [Started(project), Returned(project)];
    var world := World(_ => Current, _ => Current, false, false, _ => false);
    assert [project][..0] == [] && CallEffects([]) == [] && CallEffects([project]) == [] + calls == calls;
    assert Due(m) == {project};
    CallsWriteNothing(Durable(map[], {project}), [project]);
    assert DrainedBy(m, world, [project], calls, m, false);
    assert Restarted(Durable(map[], {project}), world, calls, m, false);
  }

  /** A clean-up may run twice: when the file cannot be written behind it, the next process runs it again. */
  lemma CleanUpsMayRepeat(project: Id)
    ensures exists states: seq<System>, traces: seq<seq<Effect>> ::
      && Run(states, traces) && states[0] == System(Durable(map[], {project}), None)
      && Flatten(traces) == [Started(project), Returned(project), Started(project), Returned(project)]
  {
    hide Completes;
    CleanedUnsaved(project);
    var s, calls := System(Durable(map[], {project}), None), [Started(project), Returned(project)];
    var states, traces := [s, s, s], [calls, calls];
    assert Run(states, traces);
    assert traces[..1] == [calls] && traces[..1][..0] == [];
    assert Flatten(traces[..1]) == [] + calls == calls;
    assert Flatten(traces) == calls + calls;
  }
}
