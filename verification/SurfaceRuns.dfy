/** What holds of the ownership index over whole runs, from the empty index on. */
module SurfaceRuns {
  import opened Wrappers
  import opened Lists
  import opened SurfaceOwnership
  import opened SurfaceInvariants

  // -------------------------------------------------------------------------- one operation

  /**
   Exactly when an operation fails a consistency check, in terms of guards a caller could look at.
   A claim that gets past a stranded lease never does; a commit does when another session's live
   lease was claimed with the chat; a release does when its lease awaits a commit over an older binding.
   */
  predicate FailsClosed(m: Machine, op: Op) {
    match op
    case Claim(q) => ChatFits(q.route) && TtlOk(q.ttlMs) && Stranded(m, q.now)
    case Commit(ref, observed, at) => ref.generation >= 1 && (Stranded(m, at) || CommitClashes(m, ref, observed, at))
    case Renew(_, ttl, at) => TtlOk(ttl) && Stranded(m, at)
    case Recover(b, _, ttl, at) => TtlOk(ttl) && Stranded(m, at) && RecoveryWrites(m, b, at)
    case Release(ref, at) =>
      var l := Find(m.leases, Named(ref));
      ref.generation >= 1 && l.Some? && if l.value.expiresAt <= at then Stranded(m, at) else Awaiting(m, l.value)
    case Reap(_, at) => Stranded(m, at)
    case ReadBinding(_) => false
    case Retire(_) => false
    case Unregister(_) => false
  }

  predicate CommitClashes(m: Machine, ref: LeaseRef, observed: Option<Chat>, at: int) {
    var s := Synced(Reaped(m, at), ref.key.projectId, false);
    var l := Find(s.leases, Named(ref));
    && l.Some? && CommitChat(l.value, observed).Ok?
    && CommitConflict(s, l.value, CommitChat(l.value, observed).value).None?
    && ChatHeld(s, l.value.route.key, CommitChat(l.value, observed).value)
  }

  // Recovery gets as far as adding a lease.
  predicate RecoveryWrites(m: Machine, b: Binding, at: int) {
    var s := Synced(m, b.route.key.projectId, false);
    var r := Reaped(s, at);
    && b.route.key.projectId !in s.absent && StillCurrent(s, b) && Unavailable(r, b.route).None?
    && Find(r.leases, LeaseOf(b.route.key)).None? && |r.leases| < MAX_ACTIVE_SURFACE_SESSIONS
  }

  // One operation keeps the invariant and fails its checks exactly when predicted.
  ghost predicate StepOk(m: Machine, op: Op) {
    && Inv(Apply(m, op).0)
    && (Apply(m, op).1 == Err(InvalidState) <==> FailsClosed(m, op))
  }

  lemma NoInvalid(m: Machine, r: Route)
    ensures Unavailable(m, r) != Some(InvalidState)
  {
    LeaseClashCodes(m.leases, r);
    BindingClashCodes(m.bindings, r);
  }

  lemma LeaseClashCodes(leases: seq<Lease>, r: Route)
    ensures LeaseClash(leases, r) in {None, Some(ProjectBindingConflict), Some(SurfaceAlreadyOwned)}
  {}

  lemma BindingClashCodes(bindings: seq<Binding>, r: Route)
    ensures BindingClash(bindings, r) in {None, Some(ProjectBindingConflict), Some(SurfaceBoundToAnotherSession)}
  {}

  lemma ClaimSyncedStep(m: Machine, s: Machine, q: Request)
    requires Inv(m) && Inv(s) && ChatFits(q.route) && q.route.key.projectId !in s.absent
    ensures Inv(ClaimSynced(m, s, q).0) && ClaimSynced(m, s, q).1 != Err(InvalidState)
  {
    hide Inv, Consistent, Granted, Unavailable;
    NoInvalid(s, q.route);
    if ClaimConflict(s, q.route).None? && RotationConflict(s, q).None? && s.nextGeneration < MAX_SAFE_INTEGER {
      GrantedInv(s, q);
      InvConsistent(Granted(s, q));
    }
  }

  lemma ClaimStep(m: Machine, q: Request)
    requires Inv(m)
    ensures StepOk(m, Claim(q))
  {
    hide Inv, Consistent, Reaped, ClaimSynced, Stranded;
    var p := q.route.key.projectId;
    ReapAndSync(m, p, true, q.now);
    if !Stranded(m, q.now) && ChatFits(q.route) {
      ClaimSyncedStep(m, Synced(Reaped(m, q.now), p, true), q);
    }
  }

  lemma CommitSyncedStep(m: Machine, s: Machine, l: Lease, observed: Option<Chat>, at: int)
    requires Inv(m) && Inv(s) && l in s.leases
    ensures Inv(CommitSynced(m, s, l, observed, at).0)
    ensures CommitSynced(m, s, l, observed, at).1 == Err(InvalidState) <==>
      && CommitChat(l, observed).Ok? && CommitConflict(s, l, CommitChat(l, observed).value).None?
      && ChatHeld(s, l.route.key, CommitChat(l, observed).value)
  {
    match CommitChat(l, observed)
    case Err(_) =>
    case Ok(chat) =>
      NoInvalid(s, l.route.(chat := Some(chat)));
      if CommitConflict(s, l, chat).None? {
        if ChatHeld(s, l.route.key, chat) {
          CommittedClash(s, l, chat, at);
        } else {
          CommittedInv(s, l, chat, at);
        }
      }
  }

  lemma CommitStep(m: Machine, ref: LeaseRef, observed: Option<Chat>, at: int)
    requires Inv(m)
    ensures StepOk(m, Commit(ref, observed, at))
  {
    hide Inv, Consistent, Reaped, Synced, CommitSynced, Stranded, CommitConflict, ChatHeld;
    var s := Synced(Reaped(m, at), ref.key.projectId, false);
    ReapAndSync(m, ref.key.projectId, false, at);
    var l := Find(s.leases, Named(ref));
    if !Stranded(m, at) && l.Some? {
      CommitSyncedStep(m, s, l.value, observed, at);
    }
  }

  lemma HeldNotAbsent(m: Machine, l: Lease)
    requires Inv(m) && l in m.leases
    ensures l.route.key.projectId !in m.absent
  {
    RoutesElements(m);
    assert RouteOk(m, l.route);
  }

  lemma RenewStep(m: Machine, ref: LeaseRef, ttlMs: int, at: int)
    requires Inv(m)
    ensures StepOk(m, Renew(ref, ttlMs, at))
  {
    hide Inv, Consistent, Reaped, Synced, Stranded, Published;
    var s := Synced(Reaped(m, at), ref.key.projectId, false);
    ReapAndSync(m, ref.key.projectId, false, at);
    var l := Find(s.leases, Named(ref));
    if !Stranded(m, at) && l.Some? {
      RenewalKeepsInv(s, l.value, ttlMs, at);
      InvConsistent(Renewed(s, l.value, ttlMs, at));
    }
  }

  lemma RenewalKeepsInv(s: Machine, l: Lease, ttlMs: int, at: int)
    requires Inv(s) && l in s.leases
    ensures Inv(Renewed(s, l, ttlMs, at))
  {
    HeldNotAbsent(s, l);
    RenewedShape(s, l, RenewedLease(l, ttlMs, at));
    RenewedInv(s, l, RenewedLease(l, ttlMs, at), Renewed(s, l, ttlMs, at));
  }

  lemma ReleaseStep(m: Machine, ref: LeaseRef, at: int)
    requires Inv(m)
    ensures StepOk(m, Release(ref, at))
  {
    hide Inv, Consistent, Reaped, Dropped, Stranded, Awaiting, Orphans, Fewer;
    var s := Synced(m, ref.key.projectId, false);
    SyncedInv(m, ref.key.projectId, false);
    InvConsistent(s);
    SyncedSame(m, ref.key.projectId, false);
    ReapConsistentIff(s, at);
    var l := Find(s.leases, Named(ref));
    if l.Some? {
      DroppedShape(s, l.value);
      FewerInv(s, Dropped(s, l.value));
    }
  }

  lemma SyncedSame(m: Machine, p: Id, allow: bool)
    ensures forall at :: Stranded(Synced(m, p, allow), at) <==> Stranded(m, at)
    ensures forall l :: Awaiting(Synced(m, p, allow), l) <==> Awaiting(m, l)
  {}

  lemma RecoverStep(m: Machine, b: Binding, owner: string, ttlMs: int, at: int)
    requires Inv(m)
    ensures StepOk(m, Recover(b, owner, ttlMs, at))
  {
    hide Inv, Consistent, Reaped, Recovered, Stranded, Unavailable, StillCurrent;
    var s := Synced(m, b.route.key.projectId, false);
    SyncedInv(m, b.route.key.projectId, false);
    InvConsistent(s);
    NoInvalid(Reaped(s, at), b.route);
    if RecoveryWrites(m, b, at) {
      RecoverWrites(m, s, b, owner, ttlMs, at);
    }
  }

  lemma RecoverWrites(m: Machine, s: Machine, b: Binding, owner: string, ttlMs: int, at: int)
    requires Inv(m) && s == Synced(m, b.route.key.projectId, false) && Inv(s) && RecoveryWrites(m, b, at)
    ensures var r := Recovered(Reaped(s, at), b, owner, ttlMs, at);
      (Consistent(r) <==> !Stranded(m, at)) && (Consistent(r) ==> Inv(r))
  {
    var r, l := Reaped(s, at), RecoveredLease(b, owner, ttlMs, at);
    ReapedFewer(s, at);
    FewerInv(s, r);
    RecoveredShape(r, l);
    var own := Find(s.bindings, BindingOf(b.route.key)).value;
    if Stranded(m, at) {
      RecoveredStranded(s, r, own, l, Recovered(r, b, owner, ttlMs, at));
    } else {
      RecoveredInv(r, own, l, Recovered(r, b, owner, ttlMs, at));
    }
  }

  // Reaping on its own, reading a binding, retiring and unregistering.
  lemma OtherStep(m: Machine, op: Op)
    requires Inv(m) && (op.Reap? || op.ReadBinding? || op.Retire? || op.Unregister?)
    ensures StepOk(m, op)
  {
    hide Inv, Consistent, Reaped, Synced, Stranded, WithoutSession, WithoutProject;
    match op
    case Reap(p, at) => ReapAndSync(m, p, false, at);
    case ReadBinding(k) =>
      SyncedInv(m, k.projectId, false);
      InvConsistent(Synced(m, k.projectId, false));
    case Retire(k) =>
      var s := Synced(m, k.projectId, false);
      SyncedInv(m, k.projectId, false);
      InvConsistent(s);
      RetiredInv(s, k);
      InvConsistent(WithoutSession(s, k));
    case Unregister(p) =>
      UnregisteredInv(m, p);
      InvConsistent(WithoutProject(m, p));
  }

  /** Every operation keeps the invariant, and fails a consistency check exactly when `FailsClosed` says so. */
  lemma ApplyKeepsInv(m: Machine, op: Op)
    requires Inv(m)
    ensures Inv(Apply(m, op).0)
    ensures Apply(m, op).1 == Err(InvalidState) <==> FailsClosed(m, op)
  {
    hide Inv, Apply, FailsClosed;
    match op
    case Claim(q) => ClaimStep(m, q);
    case Commit(ref, observed, at) => CommitStep(m, ref, observed, at);
    case Renew(ref, ttl, at) => RenewStep(m, ref, ttl, at);
    case Recover(b, owner, ttl, at) => RecoverStep(m, b, owner, ttl, at);
    case Release(ref, at) => ReleaseStep(m, ref, at);
    case _ => OtherStep(m, op);
  }

  // The lease a commit or a renewal names, and when.
  function Names(op: Op): Option<(LeaseRef, int)> {
    match op
    case Commit(ref, _, at) => Some((ref, at))
    case Renew(ref, _, at) => Some((ref, at))
    case _ => None
  }

  /**
   An operation that is refused saves nothing; only a commit or a renewal whose lease is missing saves
   the index without the expired leases, if there were any.
   */
  lemma RefusalSavesNothing(m: Machine, op: Op)
    requires Apply(m, op).1.Err?
    ensures Apply(m, op).1 != Err(LeaseNotFound) ==> Apply(m, op).0 == m
    ensures Apply(m, op).1 == Err(LeaseNotFound) ==>
      && Names(op).Some?
      && var (ref, at) := Names(op).value;
         var s := Synced(Reaped(m, at), ref.key.projectId, false);
         Find(s.leases, Named(ref)).None? && Apply(m, op).0 == if |s.leases| < |m.leases| then s else m
  {
    hide Consistent, Reaped, Synced, ClaimConflict, RotationConflict, CommitConflict, StillCurrent;
    hide Granted, Committed, Renewed, Recovered, Dropped, WithoutSession, WithoutProject;
    match op
    case Claim(q) => ClaimCodes(Synced(Reaped(m, q.now), q.route.key.projectId, true), q);
    case Commit(ref, _, at) =>
      forall l: Lease, chat ensures CommitConflict(Synced(Reaped(m, at), ref.key.projectId, false), l, chat) != Some(LeaseNotFound) {
        CommitCodes(Synced(Reaped(m, at), ref.key.projectId, false), l, chat);
      }
    case Recover(b, _, _, at) => UnavailableCodes(Reaped(Synced(m, b.route.key.projectId, false), at), b.route);
    case _ =>
  }

  lemma UnavailableCodes(m: Machine, r: Route)
    ensures Unavailable(m, r) != Some(LeaseNotFound)
  {
    LeaseClashCodes(m.leases, r);
    BindingClashCodes(m.bindings, r);
  }

  lemma ClaimCodes(m: Machine, q: Request)
    ensures ClaimConflict(m, q.route) != Some(LeaseNotFound) && RotationConflict(m, q) != Some(LeaseNotFound)
  {
    UnavailableCodes(m, q.route);
  }

  lemma CommitCodes(m: Machine, l: Lease, chat: Chat)
    ensures CommitConflict(m, l, chat) != Some(LeaseNotFound)
  {
    UnavailableCodes(m, l.route.(chat := Some(chat)));
  }

  // -------------------------------------------------------------------------- runs

  /** The index after the given operations, started empty. */
  function After(ops: seq<Op>): Machine {
    if ops == [] then EMPTY else Apply(After(ops[..|ops| - 1]), ops[|ops| - 1]).0
  }

  lemma {:induction false} RunInv(ops: seq<Op>)
    ensures Inv(After(ops))
  {
    if ops == [] {
      assert Routes(EMPTY) == {};
    } else {
      hide Inv, Apply;
      RunInv(ops[..|ops| - 1]);
      ApplyKeepsInv(After(ops[..|ops| - 1]), ops[|ops| - 1]);
    }
  }

  /** In every reachable index a page and a chat belong to one session machine-wide, and each session has one lease and one binding at most. */
  lemma {:induction false} OwnershipOverRuns(ops: seq<Op>)
    ensures var m := After(ops);
      && (forall r, s | r in Routes(m) && s in Routes(m) && r.key != s.key :: r.tab != s.tab && (r.chat.Some? ==> r.chat != s.chat))
      && (forall i, j | 0 <= i < j < |m.leases| :: m.leases[i].route.key != m.leases[j].route.key)
      && (forall i, j | 0 <= i < j < |m.bindings| :: m.bindings[i].route.key != m.bindings[j].route.key)
      && |m.leases| <= MAX_ACTIVE_SURFACE_SESSIONS
      && (forall l | l in m.leases :: l.generation < m.nextGeneration)
      && (forall b | b in m.bindings :: b.generation < m.nextGeneration)
  {
    hide Apply;
    RunInv(ops);
    var m := After(ops);
    assert forall l | l in m.leases :: LeaseOk(m, l);
    assert forall b | b in m.bindings :: BindingOk(m, b);
    assert forall i | 0 <= i < |m.leases| :: LeaseKey(m.leases[i]) == m.leases[i].route.key;
    assert forall i | 0 <= i < |m.bindings| :: BindingKey(m.bindings[i]) == m.bindings[i].route.key;
  }

  // -------------------------------------------------------------------------- generations

  /** A session's generation never goes back, and a session that appears gets a new one. */
  ghost predicate Advances(m: Machine, m': Machine) {
    && m.nextGeneration <= m'.nextGeneration
    && forall k | k in m'.generations ::
         (k in m.generations && m.generations[k] <= m'.generations[k]) || m.nextGeneration <= m'.generations[k]
  }

  lemma AdvancesTransitive(a: Machine, b: Machine, c: Machine)
    requires Advances(a, b) && Advances(b, c)
    ensures Advances(a, c)
  {}

  lemma ReapedAdvances(m: Machine, p: Id, allow: bool, at: int)
    ensures Advances(m, Synced(Reaped(m, at), p, allow)) && Advances(m, Reaped(Synced(m, p, allow), at))
  {}

  lemma StepsAdvance(s: Machine)
    ensures forall q :: Advances(s, Granted(s, q))
    ensures forall l, chat, at :: Advances(s, Committed(s, l, chat, at))
    ensures forall l, ttl, at :: Advances(s, Renewed(s, l, ttl, at))
    ensures forall b, owner, ttl, at :: Advances(s, Recovered(s, b, owner, ttl, at))
    ensures forall l :: Advances(s, Dropped(s, l))
    ensures forall k :: Advances(s, WithoutSession(s, k))
    ensures forall p :: Advances(s, WithoutProject(s, p))
  {}

  lemma AdvancesOn(m: Machine, s: Machine)
    requires Advances(m, s)
    ensures forall t :: Advances(s, t) ==> Advances(m, t)
  {}

  lemma StepsAdvanceOn(m: Machine, s: Machine)
    requires Advances(m, s)
    ensures forall q :: Advances(m, Granted(s, q))
    ensures forall l, chat, at :: Advances(m, Committed(s, l, chat, at))
    ensures forall l, ttl, at :: Advances(m, Renewed(s, l, ttl, at))
    ensures forall b, owner, ttl, at :: Advances(m, Recovered(s, b, owner, ttl, at))
    ensures forall l :: Advances(m, Dropped(s, l))
    ensures forall k :: Advances(m, WithoutSession(s, k))
    ensures forall p :: Advances(m, WithoutProject(s, p))
  {
    StepsAdvance(s);
    AdvancesOn(m, s);
    hide Advances, Granted, Committed, Renewed, Recovered, Dropped, WithoutSession, WithoutProject;
  }

  lemma ApplyAdvances(m: Machine, op: Op)
    ensures Advances(m, Apply(m, op).0)
  {
    hide Consistent, Reaped, Synced, ClaimConflict, RotationConflict, CommitConflict, Unavailable, StillCurrent;
    assert Advances(m, m);
    hide Advances, Granted, Committed, Renewed, Recovered, Dropped, WithoutSession, WithoutProject;
    match op
    case Claim(q) =>
      ReapedAdvances(m, q.route.key.projectId, true, q.now);
      StepsAdvanceOn(m, Synced(Reaped(m, q.now), q.route.key.projectId, true));
    case Commit(ref, _, at) =>
      ReapedAdvances(m, ref.key.projectId, false, at);
      StepsAdvanceOn(m, Synced(Reaped(m, at), ref.key.projectId, false));
    case Renew(ref, _, at) =>
      ReapedAdvances(m, ref.key.projectId, false, at);
      StepsAdvanceOn(m, Synced(Reaped(m, at), ref.key.projectId, false));
    case Recover(b, _, _, at) =>
      ReapedAdvances(m, b.route.key.projectId, false, at);
      StepsAdvanceOn(m, Reaped(Synced(m, b.route.key.projectId, false), at));
    case Release(ref, at) =>
      ReapedAdvances(m, ref.key.projectId, false, at);
      SyncedAdvances(m, ref.key.projectId);
      StepsAdvanceOn(m, Synced(m, ref.key.projectId, false));
    case Reap(p, at) => ReapedAdvances(m, p, false, at);
    case ReadBinding(k) => SyncedAdvances(m, k.projectId);
    case Retire(k) =>
      SyncedAdvances(m, k.projectId);
      StepsAdvanceOn(m, Synced(m, k.projectId, false));
    case Unregister(p) => StepsAdvanceOn(m, m);
  }

  lemma SyncedAdvances(m: Machine, p: Id)
    ensures Advances(m, Synced(m, p, false))
  {}

  lemma {:induction false} RunAdvances(ops: seq<Op>, i: nat, j: nat)
    requires i <= j <= |ops|
    ensures Advances(After(ops[..i]), After(ops[..j]))
    decreases j
  {
    hide Apply, Advances;
    if i < j {
      RunAdvances(ops, i, j - 1);
      assert ops[..j][..j - 1] == ops[..j - 1];
      ApplyAdvances(After(ops[..j - 1]), ops[j - 1]);
      AdvancesTransitive(After(ops[..i]), After(ops[..j - 1]), After(ops[..j]));
    } else {
      AdvancesReflexive(After(ops[..i]));
    }
  }

  lemma AdvancesReflexive(m: Machine)
    ensures Advances(m, m)
  {}

  lemma HeldWhenSaved(m: Machine)
    requires Inv(m)
    ensures forall q: Request | q.route.key.projectId !in m.absent :: FreshLease(m, q) in Granted(m, q).leases
    ensures forall l, ttl, at | l in m.leases :: RenewedLease(l, ttl, at) in Renewed(m, l, ttl, at).leases
  {
    forall q: Request | q.route.key.projectId !in m.absent ensures FreshLease(m, q) in Granted(m, q).leases {
      GrantedShape(m, q);
    }
    forall l, ttl, at | l in m.leases ensures RenewedLease(l, ttl, at) in Renewed(m, l, ttl, at).leases {
      HeldNotAbsent(m, l);
      RenewedShape(m, l, RenewedLease(l, ttl, at));
    }
  }

  lemma RecoveredHeld(m: Machine, b: Binding, owner: string, ttlMs: int, at: int)
    requires b.route.key.projectId !in m.absent
    ensures RecoveredLease(b, owner, ttlMs, at) in Recovered(m, b, owner, ttlMs, at).leases
  {}

  /** A lease handed out by a claim, a renewal or a recovery is in the saved index. */
  lemma AnswerIsHeld(m: Machine, op: Op, l: Lease)
    requires Inv(m) && Apply(m, op).1 == Ok(Owned(l))
    ensures l in Apply(m, op).0.leases
  {
    hide Inv, Consistent, Reaped, Granted, Renewed, Recovered, ClaimConflict, RotationConflict, Unavailable, StillCurrent;
    match op
    case Claim(q) =>
      var s := Synced(Reaped(m, q.now), q.route.key.projectId, true);
      ReapAndSync(m, q.route.key.projectId, true, q.now);
      HeldWhenSaved(s);
    case Renew(ref, _, at) =>
      ReapAndSync(m, ref.key.projectId, false, at);
      HeldWhenSaved(Synced(Reaped(m, at), ref.key.projectId, false));
    case Recover(b, owner, ttl, at) =>
      var s := Synced(m, b.route.key.projectId, false);
      ReapedSubset(s, at);
      RecoveredHeld(Reaped(s, at), b, owner, ttl, at);
    case _ =>
  }

  lemma ReapedSubset(m: Machine, at: int)
    ensures Reaped(m, at).absent == m.absent && forall l | l in Reaped(m, at).leases :: l in m.leases
  {}

  /** A claim that is not a repetition gets a generation that no record of any session has ever had. */
  lemma {:induction false} FreshGeneration(ops: seq<Op>, q: Request, l: Lease, i: nat)
    requires i <= |ops| && Apply(After(ops), Claim(q)).1 == Ok(Owned(l)) && l !in After(ops).leases
    ensures var m := After(ops[..i]);
      && (forall x | x in m.leases :: x.generation < l.generation)
      && (forall b | b in m.bindings :: b.generation < l.generation)
  {
    hide Inv, Consistent;
    FreshLeaseGeneration(After(ops), q, l);
    RunAdvances(ops, i, |ops|);
    assert ops[..|ops|] == ops;
    OwnershipOverRuns(ops[..i]);
  }

  lemma FreshLeaseGeneration(m: Machine, q: Request, l: Lease)
    requires Apply(m, Claim(q)).1 == Ok(Owned(l)) && l !in m.leases
    ensures l.generation == m.nextGeneration
  {}

  /** Once a session has held a generation, no later lease of it, claimed or recovered, carries an older one. */
  lemma {:induction false} NoOlderGeneration(ops: seq<Op>, i: nat, j: nat, l: Lease, l': Lease)
    requires i <= j <= |ops| && l.route.key == l'.route.key
    requires l in After(ops[..i]).leases && l' in After(ops[..j]).leases
    ensures l.generation <= l'.generation
  {
    hide Apply;
    RunInv(ops[..i]);
    RunInv(ops[..j]);
    RunAdvances(ops, i, j);
    assert LeaseOk(After(ops[..i]), l) && LeaseOk(After(ops[..j]), l');
  }

  // -------------------------------------------------------------------------- a stranded lease

  // The session's lease awaited its commit over an older binding and was over at the given time.
  predicate StrandedBy(m: Machine, k: Key, at: int) {
    exists l, b | l in m.leases && b in m.bindings ::
      l.route.key == k && b.route.key == k && l.expiresAt <= at && b.generation < l.generation
  }

  // The clock reading of an operation, if it takes one.
  function TimeOf(op: Op): Option<int> {
    match op
    case Claim(q) => Some(q.now)
    case Commit(_, _, at) => Some(at)
    case Renew(_, _, at) => Some(at)
    case Recover(_, _, _, at) => Some(at)
    case Release(_, at) => Some(at)
    case Reap(_, at) => Some(at)
    case _ => None
  }

  predicate NotBefore(op: Op, at: int) { TimeOf(op).Some? ==> TimeOf(op).value >= at }

  predicate Clears(op: Op, k: Key) { op == Retire(k) || op == Unregister(k.projectId) }

  predicate WellPosed(op: Op) {
    match op
    case Claim(q) => ChatFits(q.route) && TtlOk(q.ttlMs)
    case Commit(ref, _, _) => ref.generation >= 1
    case Renew(_, ttl, _) => TtlOk(ttl)
    case _ => true
  }

  /** One stranded lease makes every claim, commit, renewal and reaping of every project fail, and change nothing. */
  lemma StrandedBlocksEveryProject(m: Machine, k: Key, at: int, op: Op)
    requires Inv(m) && StrandedBy(m, k, at) && NotBefore(op, at) && WellPosed(op)
    requires op.Claim? || op.Commit? || op.Renew? || op.Reap?
    ensures Apply(m, op) == (m, Err(InvalidState))
  {
    hide Inv, Apply;
    StrandedLater(m, k, at, TimeOf(op).value);
    ApplyKeepsInv(m, op);
    RefusalSavesNothing(m, op);
  }

  lemma StrandedLater(m: Machine, k: Key, at: int, later: int)
    requires StrandedBy(m, k, at) && at <= later
    ensures Stranded(m, later)
  {}

  lemma KeepsStranded(m: Machine, m': Machine, k: Key, at: int)
    requires StrandedBy(m, k, at)
    requires forall l | l in m.leases && l.route.key == k && l.expiresAt <= at :: l in m'.leases
    requires forall b | b in m.bindings && b.route.key == k :: b in m'.bindings
    ensures StrandedBy(m', k, at)
  {}

  lemma StrandedStays(m: Machine, k: Key, at: int, op: Op)
    requires Inv(m) && StrandedBy(m, k, at) && NotBefore(op, at) && !Clears(op, k)
    ensures StrandedBy(Apply(m, op).0, k, at)
  {
    hide Inv, Consistent, Stranded, StrandedBy, Recovered, Dropped, WithoutSession, WithoutProject;
    if TimeOf(op).Some? {
      StrandedLater(m, k, at, TimeOf(op).value);
    }
    match op
    case Retire(j) =>
      var s := Synced(m, j.projectId, false);
      SyncedInv(m, j.projectId, false);
      RetiredShape(s, j);
      KeepsStranded(m, WithoutSession(s, j), k, at);
    case Unregister(p) => UnregisterKeepsStranded(m, p, k, at);
    case ReadBinding(j) => KeepsStranded(m, Synced(m, j.projectId, false), k, at);
    case Release(ref, now) => ReleaseKeepsStranded(m, ref, k, at, now);
    case Recover(b, owner, ttl, now) => RecoverKeepsStranded(m, b, owner, ttl, now);
    case _ =>
      if WellPosed(op) {
        StrandedBlocksEveryProject(m, k, at, op);
      }
  }

  lemma UnregisterKeepsStranded(m: Machine, p: Id, k: Key, at: int)
    requires StrandedBy(m, k, at) && p != k.projectId
    ensures StrandedBy(WithoutProject(m, p), k, at)
  {
    KeepsStranded(m, WithoutProject(m, p), k, at);
  }

  lemma RecoverKeepsStranded(m: Machine, b: Binding, owner: string, ttlMs: int, now: int)
    requires Inv(m) && Stranded(m, now)
    ensures Apply(m, Recover(b, owner, ttlMs, now)).0 == m
  {
    hide Inv, Consistent, Stranded, Recovered, Unavailable, StillCurrent, Reaped;
    ApplyKeepsInv(m, Recover(b, owner, ttlMs, now));
  }

  lemma ReleaseKeepsStranded(m: Machine, ref: LeaseRef, k: Key, at: int, now: int)
    requires Inv(m) && StrandedBy(m, k, at) && at <= now
    ensures StrandedBy(Apply(m, Release(ref, now)).0, k, at)
  {
    hide Inv, Consistent, Stranded, StrandedBy, Dropped, Reaped;
    var s := Synced(m, ref.key.projectId, false);
    StrandedLater(m, k, at, now);
    SyncedInv(m, ref.key.projectId, false);
    SyncedSame(m, ref.key.projectId, false);
    ReapConsistentIff(s, now);
    KeepsStranded(m, s, k, at);
    var l := Find(s.leases, Named(ref));
    if l.Some? && l.value.expiresAt > now {
      DroppedShape(s, l.value);
      KeepsStranded(s, Dropped(s, l.value), k, at);
    }
  }

  /** Only retiring the session or unregistering its project frees the index of a stranded lease. */
  lemma {:induction false} StrandedUntilCleared(ops: seq<Op>, more: seq<Op>, k: Key, at: int)
    requires StrandedBy(After(ops), k, at)
    requires forall i | 0 <= i < |more| :: NotBefore(more[i], at) && !Clears(more[i], k)
    ensures StrandedBy(After(ops + more), k, at)
    ensures forall op | NotBefore(op, at) && WellPosed(op) && (op.Claim? || op.Commit? || op.Renew? || op.Reap?) ::
      Apply(After(ops + more), op) == (After(ops + more), Err(InvalidState))
  {
    hide Apply, Inv, StrandedBy, WellPosed;
    if more == [] {
      assert ops + more == ops;
    } else {
      var n := |more| - 1;
      StrandedUntilCleared(ops, more[..n], k, at);
      assert (ops + more)[..|ops + more| - 1] == ops + more[..n];
      RunInv(ops + more[..n]);
      StrandedStays(After(ops + more[..n]), k, at, more[n]);
    }
    RunInv(ops + more);
    forall op | NotBefore(op, at) && WellPosed(op) && (op.Claim? || op.Commit? || op.Renew? || op.Reap?)
      ensures Apply(After(ops + more), op) == (After(ops + more), Err(InvalidState))
    {
      StrandedBlocksEveryProject(After(ops + more), k, at, op);
    }
  }

  // -------------------------------------------------------------------------- both failures happen

  lemma ClaimGranted(m: Machine, q: Request)
    requires Inv(m) && !Stranded(m, q.now) && ChatFits(q.route) && TtlOk(q.ttlMs)
    requires var s := Synced(Reaped(m, q.now), q.route.key.projectId, true);
      && ClaimConflict(s, q.route).None? && !Repeats(s, q) && RotationConflict(s, q).None? && s.nextGeneration < MAX_SAFE_INTEGER
    ensures var s := Synced(Reaped(m, q.now), q.route.key.projectId, true);
      && Inv(Granted(s, q)) && GrantShape(s, q, Granted(s, q))
      && Apply(m, Claim(q)) == (Granted(s, q), Ok(Owned(FreshLease(s, q))))
  {
    hide Inv, Consistent, Granted, ClaimConflict, RotationConflict, Repeats, Stranded, Reaped;
    var s := Synced(Reaped(m, q.now), q.route.key.projectId, true);
    ReapAndSync(m, q.route.key.projectId, true, q.now);
    GrantedInv(s, q);
    InvConsistent(Granted(s, q));
    InvRelations(s);
    GrantedShape(s, q);
  }

  lemma InvRelations(m: Machine)
    requires Inv(m)
    ensures RelationsOk(m)
  {}

  // An index whose records are exactly these, all of one project and its Project URL.
  ghost predicate Holds(m: Machine, p: Id, url: Url, leases: set<Lease>, bindings: set<Binding>, next: nat) {
    && (forall l :: l in m.leases <==> l in leases) && (forall b :: b in m.bindings <==> b in bindings)
    && (forall r | r in Routes(m) :: r.key.projectId == p && r.projectUrl == url)
    && m.projectUrls.Keys <= {p} && (p in m.projectUrls ==> m.projectUrls[p] == url)
    && m.absent == {} && m.nextGeneration == next && |m.leases| < 10
  }

  lemma OneProjectFree(m: Machine, p: Id, url: Url, leases: set<Lease>, bindings: set<Binding>, next: nat, r: Route)
    requires Holds(m, p, url, leases, bindings, next) && r.key.projectId == p && r.projectUrl == url
    ensures !OtherProject(m, r) && Unavailable(m, r).None?
  {
    RoutesElements(m);
    NoLeaseClash(m.leases, r);
    NoBindingClash(m.bindings, r);
  }

  lemma NoLeaseClash(leases: seq<Lease>, r: Route)
    requires forall l | l in leases :: l.route.key.projectId == r.key.projectId
    ensures LeaseClash(leases, r).None?
  {}

  lemma NoBindingClash(bindings: seq<Binding>, r: Route)
    requires forall b | b in bindings :: b.route.key.projectId == r.key.projectId
    ensures BindingClash(bindings, r).None?
  {}

  lemma ReapedHolds(m: Machine, p: Id, url: Url, leases: set<Lease>, bindings: set<Binding>, next: nat, at: int)
    requires Holds(m, p, url, leases, bindings, next) && forall l | l in leases :: l.expiresAt > at
    ensures Holds(Synced(Reaped(m, at), p, true), p, url, leases, bindings, next)
    ensures Holds(Synced(Reaped(m, at), p, false), p, url, leases, bindings, next)
    ensures !Stranded(m, at)
  {
    FilterAll(m.leases, AliveAt(at));
    assert Routes(Synced(Reaped(m, at), p, true)) == Routes(m);
    assert Routes(Synced(Reaped(m, at), p, false)) == Routes(m);
  }

  lemma GrantedHolds(m: Machine, q: Request, g: Machine, leases: set<Lease>, bindings: set<Binding>, next: nat)
    requires Holds(m, q.route.key.projectId, q.route.projectUrl, leases, bindings, next) && GrantShape(m, q, g) && |g.leases| < 10
    ensures Holds(g, q.route.key.projectId, q.route.projectUrl,
                  (set l | l in leases && l.route.key != q.route.key) + {FreshLease(m, q)}, bindings, next + 1)
  {
    GrantedRoutes(m, q, g);
  }

  const A := Key("project", "one")
  const B := Key("project", "two")
  const URL := "g-p-1"
  const CHAT := Chat(URL, "chat")
  const REF := LeaseRef(A, "t1", 1, "epoch")

  function Asks(k: Key, tab: string, chat: Option<Chat>, now: int, rotates: Option<LeaseRef>): Request {
    Request(Route(k, tab, URL, chat), "epoch", rotates, 1_000, now)
  }

  function Gets(q: Request, generation: nat): Lease {
    Lease(q.route, generation, q.now + q.ttlMs, q.owner, q.now, q.now)
  }

  lemma EmptyHolds()
    ensures Holds(EMPTY, "project", URL, {}, {}, 1) && Inv(EMPTY)
  {
    assert Routes(EMPTY) == {};
  }

  // A claim of a page, and perhaps a chat, that nobody holds, by a session that holds nothing.
  ghost predicate Free(q: Request, leases: set<Lease>) {
    && q.route.key.projectId == "project" && q.route.projectUrl == URL && ChatFits(q.route) && q.ttlMs == 1_000
    && forall l | l in leases :: l.expiresAt > q.now && l.route.key != q.route.key && !Collides(l.route, q.route)
  }

  // Nothing stands in its way ...
  lemma FreeToClaim(m: Machine, q: Request, leases: set<Lease>, next: nat)
    requires Inv(m) && Holds(m, "project", URL, leases, {}, next) && Free(q, leases)
    ensures var s := Synced(Reaped(m, q.now), "project", true);
      && Inv(s) && Holds(s, "project", URL, leases, {}, next) && |s.leases| <= |m.leases|
      && !Stranded(m, q.now) && ClaimConflict(s, q.route).None? && !Repeats(s, q) && RotationConflict(s, q).None?
  {
    hide Inv, Reaped, Synced;
    var s := Synced(Reaped(m, q.now), "project", true);
    ReapedHolds(m, "project", URL, leases, {}, next, q.now);
    OneProjectFree(s, "project", URL, leases, {}, next, q.route);
    assert |s.leases| <= |m.leases| by {
      ReapedFewerLeases(m, q.now);
    }
    ReapAndSync(m, "project", true, q.now);
    hide Consistent, Unavailable, OtherProject;
  }

  lemma ReapedFewerLeases(m: Machine, at: int)
    ensures forall p, allow :: |Synced(Reaped(m, at), p, allow).leases| <= |m.leases|
  {}

  // ... and this is what it leaves.
  lemma FreeGrant(s: Machine, q: Request, leases: set<Lease>, next: nat)
    requires Inv(s) && Inv(Granted(s, q)) && Holds(s, "project", URL, leases, {}, next) && Free(q, leases) && |s.leases| < 9
    ensures Holds(Granted(s, q), "project", URL, leases + {Gets(q, next)}, {}, next + 1) && |Granted(s, q).leases| <= |s.leases| + 1
  {
    hide Inv, Granted, RelationsOk;
    InvRelations(s);
    GrantedShape(s, q);
    GrantedHolds(s, q, Granted(s, q), leases, {}, next);
    assert (set l | l in leases && l.route.key != q.route.key) == leases;
  }

  lemma FreeClaim(m: Machine, q: Request, leases: set<Lease>, next: nat)
    requires Inv(m) && Holds(m, "project", URL, leases, {}, next) && next < 10 && |m.leases| < 9 && Free(q, leases)
    ensures var m' := Apply(m, Claim(q)).0;
      Inv(m') && Holds(m', "project", URL, leases + {Gets(q, next)}, {}, next + 1) && |m'.leases| <= |m.leases| + 1
  {
    var s := Synced(Reaped(m, q.now), "project", true);
    FreeToClaim(m, q, leases, next);
    assert s.nextGeneration == next;
    hide Inv, Granted, Apply, Holds, Reaped, Synced, Stranded, ClaimConflict, Repeats, RotationConflict;
    ClaimGranted(m, q);
    FreeGrant(s, q, leases, next);
  }

  const FIRST := Asks(A, "t1", None, 0, None)
  const RIVAL := Asks(B, "t2", Some(CHAT), 0, None)
  const ROTATION := Asks(A, "t2", None, 2, Some(REF))

  lemma FirstClaim() returns (m: Machine)
    ensures m == After([Claim(FIRST)]) && Inv(m)
    ensures Holds(m, "project", URL, {Gets(FIRST, 1)}, {}, 2) && |m.leases| <= 1
  {
    hide Apply, Inv, Holds;
    EmptyHolds();
    assert [Claim(FIRST)][..0] == [];
    m := Apply(EMPTY, Claim(FIRST)).0;
    FreeClaim(EMPTY, FIRST, {}, 1);
    assert {} + {Gets(FIRST, 1)} == {Gets(FIRST, 1)};
  }

  /**
   A commit can fail its closing check: here the chat it observes is the one another live session
   claimed its own page with.
   */
  lemma CommitCanClash()
    ensures Apply(After([Claim(FIRST), Claim(RIVAL)]), Commit(REF, Some(CHAT), 1)).1 == Err(InvalidState)
    ensures !Stranded(After([Claim(FIRST), Claim(RIVAL)]), 1)
  {
    hide Apply, Inv, Holds, Stranded;
    var m1 := FirstClaim();
    var m2 := After([Claim(FIRST), Claim(RIVAL)]);
    assert [Claim(FIRST), Claim(RIVAL)][..1] == [Claim(FIRST)];
    FreeClaim(m1, RIVAL, {Gets(FIRST, 1)}, 2);
    assert {Gets(FIRST, 1)} + {Gets(RIVAL, 2)} == {Gets(FIRST, 1), Gets(RIVAL, 2)};
    ReapedHolds(m2, "project", URL, {Gets(FIRST, 1), Gets(RIVAL, 2)}, {}, 3, 1);
    ClashWith(m2, Synced(Reaped(m2, 1), "project", false));
    ApplyKeepsInv(m2, Commit(REF, Some(CHAT), 1));
  }

  lemma ClashWith(m: Machine, s: Machine)
    requires s == Synced(Reaped(m, 1), "project", false)
    requires Holds(s, "project", URL, {Gets(FIRST, 1), Gets(RIVAL, 2)}, {}, 3)
    ensures FailsClosed(m, Commit(REF, Some(CHAT), 1))
  {
    hide Reaped, Synced, Unavailable;
    var l := Gets(FIRST, 1);
    assert l in s.leases && Gets(RIVAL, 2) in s.leases;
    assert Find(s.leases, Named(REF)) == Some(l);
    OneProjectFree(s, "project", URL, {Gets(FIRST, 1), Gets(RIVAL, 2)}, {}, 3, l.route.(chat := Some(CHAT)));
    assert forall b :: b !in s.bindings;
  }

  // The first session's lease and binding once its page has been committed.
  const COMMITTED := CommittedLease(Gets(FIRST, 1), CHAT, 1)
  const BOUND := Binding(COMMITTED.route, 1, 1, 1)

  lemma FirstCommit() returns (m: Machine)
    ensures m == After([Claim(FIRST), Commit(REF, Some(CHAT), 1)]) && Inv(m)
    ensures Holds(m, "project", URL, {COMMITTED}, {BOUND}, 2) && |m.leases| <= 1
  {
    hide Apply, Inv, Consistent, Holds, Stranded;
    var m1 := FirstClaim();
    assert [Claim(FIRST), Commit(REF, Some(CHAT), 1)][..1] == [Claim(FIRST)];
    m := Apply(m1, Commit(REF, Some(CHAT), 1)).0;
    ReapedHolds(m1, "project", URL, {Gets(FIRST, 1)}, {}, 2, 1);
    ReapAndSync(m1, "project", false, 1);
    var s := Synced(Reaped(m1, 1), "project", false);
    assert |s.leases| <= 1;
    hide Reaped, Synced;
    CommitGranted(m1, s);
    ApplyKeepsInv(m1, Commit(REF, Some(CHAT), 1));
  }

  lemma CommitGranted(m: Machine, s: Machine)
    requires s == Synced(Reaped(m, 1), "project", false) && Inv(s) && |s.leases| <= 1
    requires Holds(s, "project", URL, {Gets(FIRST, 1)}, {}, 2)
    ensures var m' := Apply(m, Commit(REF, Some(CHAT), 1)).0;
      Holds(m', "project", URL, {COMMITTED}, {BOUND}, 2) && |m'.leases| <= 1
  {
    hide Inv, Consistent, RelationsOk, Reaped, Synced, Unavailable, Committed, CommitShape;
    var l := Gets(FIRST, 1);
    assert l in s.leases;
    assert Find(s.leases, Named(REF)) == Some(l);
    OneProjectFree(s, "project", URL, {l}, {}, 2, l.route.(chat := Some(CHAT)));
    assert forall b :: b !in s.bindings;
    CommittedInv(s, l, CHAT, 1);
    InvConsistent(Committed(s, l, CHAT, 1));
    InvConsistent(s);
    InvRelations(s);
    CommittedShape(s, l, CHAT, 1);
    CommittedHolds(WithProjectUrl(s, "project", URL), l, Committed(s, l, CHAT, 1));
  }

  lemma CommittedHolds(m: Machine, l: Lease, c: Machine)
    requires l == Gets(FIRST, 1) && Holds(m, "project", URL, {l}, {}, 2) && CommitShape(m, l, COMMITTED, BOUND, c)
    requires |m.leases| <= 1
    ensures Holds(c, "project", URL, {COMMITTED}, {BOUND}, 2) && |c.leases| <= 1
  {
    CommittedRoutes(m, l, COMMITTED, BOUND, c);
  }

  /**
   A lease can be stranded: a session commits a page, starts to move to another and never commits
   that.  Once the new lease is over, every project's claims, commits, renewals and reaping fail.
   */
  lemma LeasesCanBeStranded()
    ensures StrandedBy(After([Claim(FIRST), Commit(REF, Some(CHAT), 1), Claim(ROTATION)]), A, 1_002)
  {
    hide Apply, Inv, Holds, Stranded, GrantShape;
    var m2 := FirstCommit();
    var ops := [Claim(FIRST), Commit(REF, Some(CHAT), 1), Claim(ROTATION)];
    assert ops[..2] == [Claim(FIRST), Commit(REF, Some(CHAT), 1)];
    ReapedHolds(m2, "project", URL, {COMMITTED}, {BOUND}, 2, 2);
    Rotation(m2, Synced(Reaped(m2, 2), "project", true));
  }

  lemma Rotation(m: Machine, s: Machine)
    requires Inv(m) && !Stranded(m, 2) && s == Synced(Reaped(m, 2), "project", true)
    requires Holds(s, "project", URL, {COMMITTED}, {BOUND}, 2)
    ensures StrandedBy(Apply(m, Claim(ROTATION)).0, A, 1_002)
  {
    hide Inv, Reaped, Unavailable, Granted, Apply;
    OneProjectFree(s, "project", URL, {COMMITTED}, {BOUND}, 2, ROTATION.route);
    assert COMMITTED in s.leases;
    assert Find(s.leases, LeaseOf(A)) == Some(COMMITTED);
    ClaimGranted(m, ROTATION);
    var g := Granted(s, ROTATION);
    assert FreshLease(s, ROTATION) in g.leases && BOUND in g.bindings;
  }
}
