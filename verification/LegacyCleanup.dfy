/**
 The crash-safe removal of the migrated legacy mailbox of src/control/requests.ts, beside the use of
 the request store and its pruning.

 A clean-up call runs under the maintenance lock as a few steps; each step looks at the directories
 and the store, and then renames, removes or saves the migration record.  A call may die between any
 two steps, and between any two steps requests may be used, time passes, and anything else may
 change, move or replace the directories.  A removal takes files away one by one.  A manifest is the
 set of a directory's files, standing for its hash.
 */
module LegacyCleanup {
  import opened Wrappers
  import opened WaitPolicy
  import opened ControlRequests
  import opened ControlRequestRuns
  import opened ControlRecords
  import opened LegacyEvidence

  type File = nat
  type Inode = nat
  type RetirementId = nat

  datatype Dir = Dir(inode: Inode, files: set<File>)

  datatype Stage = Reserved | Deleting

  datatype Retirement = Retirement(id: RetirementId, inode: Inode, stage: Stage)

  /** The migration record. */
  datatype Record = Record(
    source: Option<set<File>>,
    migrated: map<RequestId, Original>,
    authorised: bool,
    retirement: Option<Retirement>)

  /** How far a call is; hadLegacy is whether it found the legacy directory when it started. */
  datatype Pc =
    | Idle
    | Entered(hadLegacy: bool)
    | Reserving
    | Retiring(hadLegacy: bool)
    | Renaming
    | Verifying
    | Removing
    | Erasing
    | Forgetting

  /** What one step of a removal took: of which directory, at which retirement path, and which files. */
  datatype Removal = Removal(id: RetirementId, inode: Inode, files: set<File>)

  /**
   What a scan of the migrated source gives never changes.  The last two fields are history: what was
   verified at each authorisation, and what removals took.
   */
  datatype World = World(
    record: Record,
    scanned: map<RequestId, Original>,
    legacy: Option<Dir>,
    retired: map<RetirementId, Dir>,
    store: Store,
    now: int,
    nextId: RetirementId,
    pc: Pc,
    verified: map<RetirementId, Dir>,
    removals: set<Removal>)

  datatype Step =
    | Go
    | RemoveFile(file: File)
    | Crash
    | PruneRequest(request: RequestId, written: nat)
    | Use(op: Op, kept: nat)
    | Tick(ms: nat)
    | Outside(legacy: Option<Dir>, retired: map<RetirementId, Dir>)

  // -------------------------------------------------------------------------- the checks of a call

  predicate SourceMatches(w: World, d: Dir) { w.record.source == Some(d.files) }

  predicate SourceOk(w: World) {
    match w.legacy
    case Some(d) => SourceMatches(w, d) && w.record.migrated == w.scanned
    case None => w.record.source.Some? ==> w.record.authorised
  }

  predicate AllValid(w: World) { forall id | id in w.record.migrated :: Validates(w.store, id, w.record.migrated[id]) }

  // A migrated request that its own files say is still open.
  predicate LegacyLive(o: Original, now: int) {
    o.marker.None? && now <= if o.renewal.Some? then o.renewal.value else o.request.expiresAt
  }

  predicate Live(w: World) {
    || (exists id | id in w.store.requests :: Unfinished(w.store, w.store.requests[id], w.now))
    || (w.legacy.Some? && exists id | id in w.scanned :: LegacyLive(w.scanned[id], w.now))
  }

  predicate MarkersReadable(s: Store) {
    forall id | id in s.requests && id in s.markers :: MarkerReadable(s.markers[id], s.requests[id])
  }

  /** The checks at the start of a call. */
  predicate MayEnter(w: World) { SourceOk(w) && AllValid(w) && MarkersReadable(w.store) && !Live(w) }

  // -------------------------------------------------------------------------- a clean-up call

  function Fail(w: World): World { w.(pc := Idle) }

  // Source and copies are checked once more before anything is recorded.
  function Recheck(w: World, hadLegacy: bool): World {
    if hadLegacy then
      if w.legacy.None? || !SourceMatches(w, w.legacy.value) || !AllValid(w) then Fail(w)
      else w.(pc := if w.record.retirement.None? then Reserving else Retiring(true))
    else w.(pc := if w.record.retirement.None? then Idle else Retiring(false))
  }

  function Reserve(w: World): World {
    if w.legacy.None? then Fail(w)
    else
      w.(record := w.record.(authorised := true,
                             retirement := Some(Retirement(w.nextId, w.legacy.value.inode, Reserved))),
         nextId := w.nextId + 1, pc := Retiring(true))
  }

  function StartRetiring(w: World, hadLegacy: bool): World
    requires w.record.retirement.Some?
  {
    var r := w.record.retirement.value;
    var legacy := hadLegacy && w.legacy.Some?;
    if r.stage == Deleting then if legacy then Fail(w) else w.(pc := Removing)
    else if legacy then
      if r.id in w.retired || w.legacy.value.inode != r.inode || !SourceMatches(w, w.legacy.value) then Fail(w)
      else w.(pc := Renaming)
    else if r.id !in w.retired then Fail(w)
    else w.(pc := Verifying)
  }

  // The rename moves whatever is at the path by then; it fails over a directory that is not empty.
  function Rename(w: World): World
    requires w.record.retirement.Some?
  {
    var r := w.record.retirement.value;
    if w.legacy.None? || (r.id in w.retired && w.retired[r.id].files != {}) then Fail(w)
    else w.(legacy := None, retired := w.retired[r.id := w.legacy.value], pc := Verifying)
  }

  // The manifest of the retired directory is checked once more before its deletion is recorded.
  function Verify(w: World): World
    requires w.record.retirement.Some?
  {
    var r := w.record.retirement.value;
    if r.id !in w.retired || w.retired[r.id].inode != r.inode || !SourceMatches(w, w.retired[r.id]) then Fail(w)
    else
      w.(record := w.record.(retirement := Some(r.(stage := Deleting))), pc := Removing,
         verified := w.verified[r.id := w.retired[r.id]])
  }

  // The identity is compared once; the removal that follows goes by the path alone.
  function StartRemoving(w: World): World
    requires w.record.retirement.Some?
  {
    var r := w.record.retirement.value;
    if r.id !in w.retired then w.(pc := Forgetting)
    else if w.retired[r.id].inode != r.inode then Fail(w)
    else w.(pc := Erasing)
  }

  // What a removal of one file, or of the directory, takes.
  function Taking(w: World, file: Option<File>): Option<Removal>
    requires w.record.retirement.Some?
  {
    var id := w.record.retirement.value.id;
    if id !in w.retired then None
    else
      var d := w.retired[id];
      Some(Removal(id, d.inode, if file.Some? then d.files * {file.value} else d.files))
  }

  function Erase(w: World, file: Option<File>): World
    requires w.record.retirement.Some?
  {
    var taken := Taking(w, file);
    if taken.None? then if file.Some? then w else Fail(w)
    else
      var id := w.record.retirement.value.id;
      var d, noted := w.retired[id], w.(removals := w.removals + {taken.value});
      if file.Some? then noted.(retired := w.retired[id := d.(files := d.files - {file.value})])
      else noted.(retired := w.retired - {id}, pc := Forgetting)
  }

  /** The next step of the call under way, or the start of one. */
  function Proceed(w: World): World {
    match w.pc
    case Idle => if MayEnter(w) then w.(pc := Entered(w.legacy.Some?)) else w
    case Entered(had) => Recheck(w, had)
    case Reserving => Reserve(w)
    case Forgetting => w.(record := w.record.(retirement := None), pc := Idle)
    case Retiring(had) => if w.record.retirement.Some? then StartRetiring(w, had) else Fail(w)
    case Renaming => if w.record.retirement.Some? then Rename(w) else Fail(w)
    case Verifying => if w.record.retirement.Some? then Verify(w) else Fail(w)
    case Removing => if w.record.retirement.Some? then StartRemoving(w) else Fail(w)
    case Erasing => if w.record.retirement.Some? then Erase(w, None) else Fail(w)
  }

  // -------------------------------------------------------------------------- pruning and use

  /** While a clean-up may still have to check the migrated requests, pruning keeps all of them. */
  predicate CleanupPending(w: World) {
    w.record.source.Some? && (!w.record.authorised || w.legacy.Some? || w.record.retirement.Some?)
  }

  function Pruning(w: World, id: RequestId): Op { Prune(id, if CleanupPending(w) then w.record.migrated.Keys else {}) }

  // A request leaves the record, which is the first write, before its files go; pruning takes the maintenance lock.
  function PruneStep(w: World, id: RequestId, written: nat): World {
    if w.pc != Idle || written == 0 || PlanFor(w.store, Pruning(w, id), w.now).0 == [] then w
    else
      w.(record :=
           if w.record.authorised && !CleanupPending(w) then w.record.(migrated := w.record.migrated - {id}) else w.record,
         store := ApplyAll(w.store, Writes(w.store, Call(Pruning(w, id), w.now, written - 1))))
  }

  // Any other call on the store; opening takes the maintenance lock as well.
  function UseStep(w: World, op: Op, kept: nat): World {
    if op.Prune? || (op.Open? && w.pc != Idle) then w
    else w.(store := ApplyAll(w.store, Writes(w.store, Call(op, w.now, kept))))
  }

  function Next(w: World, step: Step): World {
    match step
    case Go => Proceed(w)
    case RemoveFile(file) => if w.pc == Erasing && w.record.retirement.Some? then Erase(w, Some(file)) else w
    case Crash => w.(pc := Idle)
    case PruneRequest(id, written) => PruneStep(w, id, written)
    case Use(op, kept) => UseStep(w, op, kept)
    case Tick(ms) => w.(now := w.now + ms)
    case Outside(legacy, retired) => w.(legacy := legacy, retired := retired)
  }

  function Run(w: World, steps: seq<Step>): World
    decreases |steps|
  {
    if steps == [] then w else Run(Next(w, steps[0]), steps[1..])
  }

  /** The world after a migration, before any clean-up. */
  ghost predicate Migrated(w: World) {
    && w.pc == Idle && !w.record.authorised && w.record.retirement.None? && w.retired == map[]
    && w.verified == map[] && w.removals == {}
    && (match w.legacy case Some(d) => SourceMatches(w, d) case None => w.record.source.None?)
    && (w.record.source.None? ==> w.record.migrated == map[])
    && w.record.migrated == w.scanned == Originals(w.store)
    && Sound(w.store, w.now) && AllReadable(w.store)
    && (forall id | id in w.store.requests && id in w.store.observations :: Orderly(w.store.observations[id]))
  }

  // -------------------------------------------------------------------------- what is removed

  predicate Matches(w: World) {
    w.record.retirement.Some? && w.record.retirement.value.id in w.retired ==>
      w.retired[w.record.retirement.value.id].inode == w.record.retirement.value.inode
  }

  // Behind a verification, whatever is done to the directories.
  predicate Guarded(w: World) {
    && (forall id | id in w.verified :: w.record.source == Some(w.verified[id].files) && id < w.nextId)
    && (w.record.retirement.Some? ==>
          var r := w.record.retirement.value;
          && r.id < w.nextId
          && (r.stage == Deleting ==> r.id in w.verified && w.verified[r.id].inode == r.inode)
          && (r.stage == Reserved ==> r.id !in w.verified))
    && (w.pc == Reserving ==> w.record.retirement.None?)
    && (w.pc in {Renaming, Verifying} ==> w.record.retirement.Some? && w.record.retirement.value.stage == Reserved)
    && (w.pc in {Removing, Erasing} ==> w.record.retirement.Some? && w.record.retirement.value.stage == Deleting)
    && (forall r | r in w.removals :: r.id in w.verified)
  }

  lemma VerifyIsGuarded(w: World)
    requires Guarded(w) && w.pc == Verifying
    ensures Guarded(Verify(w)) && Verify(w).record.source == w.record.source
  {}

  lemma ErasureIsGuarded(w: World, file: Option<File>)
    requires Guarded(w) && w.pc == Erasing
    ensures Guarded(Erase(w, file)) && Erase(w, file).record.source == w.record.source
  {}

  lemma ReserveIsGuarded(w: World)
    requires Guarded(w) && w.pc == Reserving
    ensures Guarded(Reserve(w)) && Reserve(w).record.source == w.record.source
  {}

  lemma MovesAreGuarded(w: World, hadLegacy: bool)
    requires Guarded(w) && w.record.retirement.Some?
    ensures Guarded(StartRetiring(w, hadLegacy)) && StartRetiring(w, hadLegacy).record == w.record
    ensures w.pc == Renaming ==> Guarded(Rename(w)) && Rename(w).record == w.record
    ensures w.pc == Removing ==> Guarded(StartRemoving(w)) && StartRemoving(w).record == w.record
  {}

  lemma ProceedIsGuarded(w: World)
    requires Guarded(w)
    ensures Guarded(Proceed(w)) && Proceed(w).record.source == w.record.source
  {
    hide MayEnter, AllValid, Verify, Erase, Reserve, StartRetiring, Rename, StartRemoving;
    match w.pc
    case Retiring(had) => if w.record.retirement.Some? { MovesAreGuarded(w, had); }
    case Renaming => MovesAreGuarded(w, true);
    case Removing => MovesAreGuarded(w, true);
    case Reserving => ReserveIsGuarded(w);
    case Verifying => VerifyIsGuarded(w);
    case Erasing => ErasureIsGuarded(w, None);
    case _ =>
  }

  lemma StepIsGuarded(w: World, step: Step)
    requires Guarded(w)
    ensures Guarded(Next(w, step)) && Next(w, step).record.source == w.record.source
  {
    if step == Go {
      ProceedIsGuarded(w);
    } else {
      hide Proceed, PlanFor, Writes, ApplyAll;
    }
  }

  lemma {:induction false} RunIsGuarded(w: World, steps: seq<Step>)
    requires Guarded(w)
    ensures Guarded(Run(w, steps)) && Run(w, steps).record.source == w.record.source
    decreases |steps|
  {
    if steps != [] {
      StepIsGuarded(w, steps[0]);
      hide Guarded, Next;
      RunIsGuarded(Next(w, steps[0]), steps[1..]);
    }
  }

  // What was taken is of a directory that held exactly the migrated source when its deletion was authorised.
  predicate WasVerified(w: World, r: Removal) {
    r.id in w.verified && w.verified[r.id].inode == r.inode && w.record.source == Some(w.verified[r.id].files)
  }

  /** Everything taken so far is of verified directories, and, if contents count, was verified with them. */
  predicate Accounted(w: World, contents: bool) {
    forall r | r in w.removals :: WasVerified(w, r) && (contents ==> r.files <= w.verified[r.id].files)
  }

  function TakenBy(w: World, step: Step): Option<Removal> {
    if w.pc == Erasing && w.record.retirement.Some? then
      match step
      case Go => Taking(w, None)
      case RemoveFile(file) => Taking(w, Some(file))
      case _ => None
    else None
  }

  /** What the step takes stands at the path with the recorded identity, and, if contents count, is of the migrated source. */
  predicate Owned(w: World, step: Step, contents: bool) {
    var r := TakenBy(w, step);
    r.Some? ==>
      && r.value.inode == w.record.retirement.value.inode
      && (contents ==> w.record.source.Some? && r.value.files <= w.record.source.value)
  }

  predicate OwnRun(w: World, steps: seq<Step>, contents: bool)
    decreases |steps|
  {
    steps == [] || (Owned(w, steps[0], contents) && OwnRun(Next(w, steps[0]), steps[1..], contents))
  }

  // The history only grows.
  predicate Remembers(w: World, step: Step, w': World) {
    var r := TakenBy(w, step);
    && w'.removals == w.removals + (if r.Some? then {r.value} else {})
    && (forall id | id in w.verified :: id in w'.verified && w'.verified[id] == w.verified[id])
    && w'.record.source == w.record.source
  }

  lemma ProceedRemembers(w: World)
    requires Guarded(w)
    ensures Remembers(w, Go, Proceed(w))
  {
    hide MayEnter, AllValid, SourceMatches;
    assert w.pc == Verifying ==> w.record.retirement.value.id !in w.verified;
    hide Guarded;
  }

  lemma StepRemembers(w: World, step: Step)
    requires Guarded(w)
    ensures Remembers(w, step, Next(w, step))
  {
    if step == Go {
      ProceedRemembers(w);
    }
    hide Proceed, PlanFor, Writes, ApplyAll, Guarded;
  }

  lemma StepAccounts(w: World, step: Step, contents: bool)
    requires Guarded(w)
    ensures Accounted(Next(w, step), contents) <==> Accounted(w, contents) && Owned(w, step, contents)
  {
    StepRemembers(w, step);
    var r := TakenBy(w, step);
    assert r.Some? ==> r.value.id in w.verified && w.verified[r.value.id].inode == w.record.retirement.value.inode;
    assert forall id | id in w.verified :: w.record.source == Some(w.verified[id].files);
    assert forall r | r in w.removals :: r.id in w.verified;
    hide Next, Guarded, TakenBy;
    if r.Some? {
      assert r.value in Next(w, step).removals;
    }
  }

  lemma {:induction false} RunAccounts(w: World, steps: seq<Step>, contents: bool)
    requires Guarded(w)
    ensures Accounted(Run(w, steps), contents) <==> Accounted(w, contents) && OwnRun(w, steps, contents)
    decreases |steps|
  {
    if steps != [] {
      StepIsGuarded(w, steps[0]);
      StepAccounts(w, steps[0], contents);
      hide Guarded, Next, Accounted, Owned;
      RunAccounts(Next(w, steps[0]), steps[1..], contents);
    }
  }

  /**
   In any run, wherever calls die and whatever is done to the directories, everything taken is of
   directories that were verified when their deletion was authorised exactly if each removal behind the
   look finds the recorded directory at its path; and it was verified file by file exactly if, besides,
   each takes only files of the migrated source.
   */
  lemma {:induction false} RemovalsAccountedIff(w: World, steps: seq<Step>, contents: bool)
    requires Migrated(w)
    ensures Accounted(Run(w, steps), contents) <==> OwnRun(w, steps, contents)
  {
    assert Guarded(w);
    RunAccounts(w, steps, contents);
  }

  /** Nothing outside changes a directory between the look before a removal and the removal's end. */
  predicate Unswapped(w: World, steps: seq<Step>)
    decreases |steps|
  {
    steps == [] || ((w.pc == Erasing ==> !steps[0].Outside?) && Unswapped(Next(w, steps[0]), steps[1..]))
  }

  lemma StepKeepsMatch(w: World, step: Step)
    requires Guarded(w) && (w.pc == Erasing ==> Matches(w) && !step.Outside?)
    ensures Next(w, step).pc == Erasing ==> Matches(Next(w, step))
  {
    hide MayEnter, AllValid, SourceMatches, PlanFor, Writes, ApplyAll, Guarded;
  }

  lemma {:induction false} UnswappedIsOwn(w: World, steps: seq<Step>)
    requires Guarded(w) && (w.pc == Erasing ==> Matches(w)) && Unswapped(w, steps)
    ensures OwnRun(w, steps, false)
    decreases |steps|
  {
    if steps != [] {
      StepIsGuarded(w, steps[0]);
      StepKeepsMatch(w, steps[0]);
      hide Guarded, Next;
      UnswappedIsOwn(Next(w, steps[0]), steps[1..]);
    }
  }

  /**
   Whatever happens to the directories at any other time, and wherever calls die, only a directory of
   the recorded identity is touched by a removal, and only after a directory of that identity, at the
   retirement path, held exactly the migrated source when its deletion was authorised.
   */
  lemma {:induction false} RemovesOnlyWhatWasVerified(w: World, steps: seq<Step>, r: Removal)
    requires Migrated(w) && Unswapped(w, steps) && r in Run(w, steps).removals
    ensures WasVerified(Run(w, steps), r)
  {
    assert Guarded(w);
    UnswappedIsOwn(w, steps);
    RemovalsAccountedIff(w, steps, false);
  }

  const FOUND := Dir(7, {1})
  const SWAPPED := Dir(8, {2})

  // A mailbox of one file and no request.
  const MAILBOX := World(Record(Some({1}), map[], false, None), map[], Some(FOUND), map[], EMPTY_STORE, 0, 0, Idle, map[], {})

  function Goes(n: nat): seq<Step> { if n == 0 then [] else [Go] + Goes(n - 1) }

  function Proceeded(w: World, n: nat): World
    decreases n
  {
    if n == 0 then w else Proceeded(Next(w, Go), n - 1)
  }

  lemma {:induction false} RunGoes(w: World, n: nat, rest: seq<Step>)
    ensures Run(w, Goes(n) + rest) == Run(Proceeded(w, n), rest)
    decreases n
  {
    hide Next;
    if n == 0 {
      assert Goes(0) + rest == rest;
    } else {
      assert Goes(n) + rest == [Go] + (Goes(n - 1) + rest);
      RunGoes(Next(w, Go), n - 1, rest);
    }
  }

  // The call up to its verification, and up to its last look.
  lemma MailboxRemoving()
    ensures Proceeded(MAILBOX, 6) ==
      MAILBOX.(record := Record(Some({1}), map[], true, Some(Retirement(0, 7, Deleting))), legacy := None,
               retired := map[0 := FOUND], nextId := 1, pc := Removing, verified := map[0 := FOUND])
  {
    assert !Live(MAILBOX) && MayEnter(MAILBOX);
    var a := MAILBOX.(pc := Entered(true));
    var b := MAILBOX.(pc := Reserving);
    var c := MAILBOX.(record := Record(Some({1}), map[], true, Some(Retirement(0, 7, Reserved))), nextId := 1, pc := Retiring(true));
    var d := c.(pc := Renaming);
    var e := c.(legacy := None, retired := map[0 := FOUND], pc := Verifying);
    assert Next(MAILBOX, Go) == a;
    hide MayEnter;
    assert Next(a, Go) == b && Next(b, Go) == c && Next(c, Go) == d && Next(d, Go) == e;
    assert Proceeded(MAILBOX, 6) == Proceeded(a, 5) == Proceeded(b, 4) == Proceeded(c, 3) == Proceeded(d, 2) == Proceeded(e, 1);
    assert Proceeded(e, 1) == Next(e, Go);
  }

  lemma MailboxErasing()
    ensures Proceeded(MAILBOX, 7) == Proceeded(MAILBOX, 6).(pc := Erasing)
  {
    MailboxRemoving();
    hide MayEnter, Next;
    OneMoreGo(MAILBOX, 6);
    assert Next(Proceeded(MAILBOX, 6), Go) == Proceeded(MAILBOX, 6).(pc := Erasing) by {
      LooksOnce(Proceeded(MAILBOX, 6));
    }
  }

  lemma LooksOnce(w: World)
    requires w.pc == Removing && w.record.retirement.Some? && w.record.retirement.value.id in w.retired && Matches(w)
    ensures Next(w, Go) == w.(pc := Erasing)
  {}

  lemma {:induction false} OneMoreGo(w: World, n: nat)
    ensures Proceeded(w, n + 1) == Next(Proceeded(w, n), Go)
    decreases n
  {
    hide Next;
    if n > 0 {
      OneMoreGo(Next(w, Go), n - 1);
    } else {
      assert Proceeded(Next(w, Go), 0) == Next(w, Go);
    }
  }

  lemma MailboxMigrated()
    ensures Migrated(MAILBOX)
  {
    assert Originals(EMPTY_STORE) == map[];
  }

  // A removal under way takes whatever is at the path.
  lemma ErasesWhatIsThere(w: World, d: Dir)
    requires w.pc == Erasing && w.record.retirement.Some?
    ensures var id := w.record.retirement.value.id;
      var done := Next(Next(w, Outside(None, map[id := d])), Go);
      Removal(id, d.inode, d.files) in done.removals && done.verified == w.verified
  {}

  /** A directory put in place of the retired one between the look and the removal is removed instead. */
  lemma SwappedDirectoryIsRemoved()
    ensures var swap := Goes(7) + [Outside(None, map[0 := SWAPPED]), Go];
      Migrated(MAILBOX) && Removal(0, 8, {2}) in Run(MAILBOX, swap).removals && !WasVerified(Run(MAILBOX, swap), Removal(0, 8, {2}))
  {
    MailboxMigrated();
    hide Migrated, Proceeded, Goes, Run, Next;
    RunGoes(MAILBOX, 7, [Outside(None, map[0 := SWAPPED]), Go]);
    MailboxRemoving();
    MailboxErasing();
    ErasesWhatIsThere(Proceeded(MAILBOX, 7), SWAPPED);
    RunTwo(Proceeded(MAILBOX, 7), Outside(None, map[0 := SWAPPED]), Go);
  }

  /** A file put into the retired directory behind its verification is removed with it, without any swap. */
  lemma AddedFileIsRemoved()
    ensures var steps := Goes(6) + [Outside(None, map[0 := Dir(7, {1, 2})]), Go, Go];
      && Migrated(MAILBOX) && Unswapped(MAILBOX, steps)
      && Removal(0, 7, {1, 2}) in Run(MAILBOX, steps).removals && !Accounted(Run(MAILBOX, steps), true)
  {
    MailboxMigrated();
    var tail := [Outside(None, map[0 := Dir(7, {1, 2})]), Go, Go];
    RunGoes(MAILBOX, 6, tail);
    MailboxRemoving();
    var w := Proceeded(MAILBOX, 6);
    AddedThere(w, tail);
    UnswappedGoes(MAILBOX, 6, tail);
    hide Migrated, Goes, Run, Next, Proceeded, Unswapped;
  }

  lemma AddedThere(w: World, tail: seq<Step>)
    requires w == MAILBOX.(record := Record(Some({1}), map[], true, Some(Retirement(0, 7, Deleting))), legacy := None,
                           retired := map[0 := FOUND], nextId := 1, pc := Removing, verified := map[0 := FOUND])
    requires tail == [Outside(None, map[0 := Dir(7, {1, 2})]), Go, Go]
    ensures Unswapped(w, tail)
    ensures Removal(0, 7, {1, 2}) in Run(w, tail).removals && Run(w, tail).verified == map[0 := FOUND]
  {
    var a := Next(w, tail[0]);
    var b := Next(a, Go);
    var c := Next(b, Go);
    assert b.pc == Erasing && Removal(0, 7, {1, 2}) in c.removals && c.verified == map[0 := FOUND];
    assert a.pc == Removing;
    hide Next;
    assert tail[1..] == [Go, Go];
    RunTwo(a, Go, Go);
    assert [Go, Go][1..] == [Go] && [Go][1..] == [];
    assert Unswapped(b, [Go]) && Unswapped(a, [Go, Go]);
  }

  lemma {:induction false} UnswappedGoes(w: World, n: nat, rest: seq<Step>)
    requires Unswapped(Proceeded(w, n), rest)
    ensures Unswapped(w, Goes(n) + rest)
    decreases n
  {
    hide Next;
    if n == 0 {
      assert Goes(0) + rest == rest;
    } else {
      assert Goes(n) + rest == [Go] + (Goes(n - 1) + rest);
      UnswappedGoes(Next(w, Go), n - 1, rest);
    }
  }

  lemma RunTwo(w: World, a: Step, b: Step)
    ensures Run(w, [a, b]) == Next(Next(w, a), b)
  {
    hide Next;
    assert [a, b][1..] == [b] && [b][1..] == [];
    assert Run(w, [a, b]) == Run(Next(w, a), [b]) == Run(Next(Next(w, a), b), []);
  }

  /** Every run from a migration removes only verified directories; with swaps, runs with swapped directories as well. */
  ghost predicate AlwaysVerified(swaps: bool) {
    forall w, steps, r | Migrated(w) && (swaps || Unswapped(w, steps)) && r in Run(w, steps).removals ::
      WasVerified(Run(w, steps), r)
  }

  /** A removal is safe exactly if nothing is swapped between its one look at the directory and its end. */
  lemma RemovalSafeIffUnswapped(swaps: bool)
    ensures AlwaysVerified(swaps) <==> !swaps
  {
    if swaps {
      SwappedDirectoryIsRemoved();
      hide Goes, Run, Migrated, WasVerified;
    } else {
      forall w, steps, r | Migrated(w) && Unswapped(w, steps) && r in Run(w, steps).removals
        ensures WasVerified(Run(w, steps), r)
      {
        RemovesOnlyWhatWasVerified(w, steps, r);
      }
    }
  }

  // -------------------------------------------------------------------------- what pruning and use keep

  ghost predicate Keeps(w: World) {
    && Sound(w.store, w.now)
    && (w.record.source.None? ==> w.record.migrated == map[])
    && (forall id | id in w.record.migrated ::
          id in w.scanned && w.record.migrated[id] == w.scanned[id] && FilesKept(w.store, id, w.scanned[id]))
  }

  // The store call a step makes, if any.
  function CallOf(w: World, step: Step): Option<Call> {
    match step
    case PruneRequest(id, written) =>
      if w.pc != Idle || written == 0 || PlanFor(w.store, Pruning(w, id), w.now).0 == [] then None
      else Some(Call(Pruning(w, id), w.now, written - 1))
    case Use(op, kept) => if op.Prune? || (op.Open? && w.pc != Idle) then None else Some(Call(op, w.now, kept))
    case _ => None
  }

  predicate SameStore(w: World, w': World) {
    && w'.store == w.store && w'.now == w.now && w'.scanned == w.scanned
    && w'.record.migrated == w.record.migrated && w'.record.source == w.record.source
  }

  lemma LooksKeepStore(w: World, hadLegacy: bool)
    requires w.record.retirement.Some?
    ensures SameStore(w, StartRetiring(w, hadLegacy)) && SameStore(w, Rename(w)) && SameStore(w, Verify(w))
  {}

  lemma ProceedKeepsStore(w: World)
    ensures SameStore(w, Proceed(w))
  {
    hide MayEnter, AllValid, SourceMatches, StartRetiring, Rename, Verify;
    if w.record.retirement.Some? {
      LooksKeepStore(w, w.pc.Retiring? && w.pc.hadLegacy);
    }
  }

  // A step's effect on the store and on the list of migrated requests.
  ghost predicate OnStore(w: World, step: Step, w': World) {
    var call := CallOf(w, step);
    && w'.now == w.now + (if step.Tick? then step.ms else 0)
    && w'.scanned == w.scanned && w'.record.source == w.record.source
    && w'.store == (if call.Some? then ApplyAll(w.store, Writes(w.store, call.value)) else w.store)
    && (call.Some? ==> call.value.now == w.now)
    && (forall id | id in w'.record.migrated ::
          && id in w.record.migrated && w'.record.migrated[id] == w.record.migrated[id]
          && (call.Some? ==> !Prunes(call.value.op, id)))
  }

  lemma PruneOnStore(w: World, step: Step)
    requires step.PruneRequest? && (w.record.source.None? ==> w.record.migrated == map[])
    ensures OnStore(w, step, Next(w, step))
  {
    if CleanupPending(w) && step.request in w.record.migrated {
      assert PlanFor(w.store, Pruning(w, step.request), w.now).0 == [];
    }
    hide PlanFor, Writes, ApplyAll;
  }

  lemma StepOnStore(w: World, step: Step)
    requires w.record.source.None? ==> w.record.migrated == map[]
    ensures OnStore(w, step, Next(w, step))
  {
    hide Proceed, PruneStep, PlanFor, Writes, ApplyAll;
    if step == Go {
      ProceedKeepsStore(w);
    } else if step.PruneRequest? {
      PruneOnStore(w, step);
    }
  }

  lemma StepKeeps(w: World, step: Step)
    requires Keeps(w)
    ensures Keeps(Next(w, step)) && Next(w, step).scanned == w.scanned
  {
    StepOnStore(w, step);
    var w', call := Next(w, step), CallOf(w, step);
    hide Next, CallOf, Sound, FilesKept, Writes, ApplyAll, Prunes;
    if call.Some? {
      CallSound(w.store, call.value, w'.now);
      forall id | id in w'.record.migrated ensures FilesKept(w'.store, id, w.scanned[id]) {
        FilesStay(w.store, call.value, id, w.scanned[id]);
      }
    } else {
      SoundLater(w.store, w.now, w'.now);
    }
  }

  lemma {:induction false} RunKeeps(w: World, steps: seq<Step>)
    requires Keeps(w)
    ensures Keeps(Run(w, steps)) && Run(w, steps).scanned == w.scanned
    decreases |steps|
  {
    hide Keeps, Next;
    if steps != [] {
      StepKeeps(w, steps[0]);
      RunKeeps(Next(w, steps[0]), steps[1..]);
    }
  }

  lemma MigratedKeeps(w: World)
    requires Migrated(w)
    ensures Keeps(w)
  {}

  /**
   Over every run, whatever else happens, pruning never removes a request that a clean-up call would
   still check, and no call changes the request, its terminal marker or takes away from its expiry.
   */
  lemma {:induction false} PruningKeepsWhatCleanupChecks(w: World, steps: seq<Step>, id: RequestId)
    requires Migrated(w) && id in Run(w, steps).record.migrated
    ensures id in w.record.migrated && FilesKept(Run(w, steps).store, id, w.record.migrated[id])
  {
    MigratedKeeps(w);
    RunKeeps(w, steps);
    hide Run, FilesKept;
  }

  // -------------------------------------------------------------------------- quiet runs

  /** Nothing else touches the directories, and events come through the gateway. */
  predicate Quiet(w: World, step: Step) { !step.Outside? && (step.Use? ==> Checked(w.store, step.op, w.now)) }

  predicate QuietRun(w: World, steps: seq<Step>)
    decreases |steps|
  {
    steps == [] || (Quiet(w, steps[0]) && QuietRun(Next(w, steps[0]), steps[1..]))
  }

  // What quiet use makes of the store.
  ghost predicate Trusted(w: World) {
    Keeps(w) && AllReadable(w.store) && forall id | id in w.record.migrated :: Followed(w.store, id, w.record.migrated[id])
  }

  lemma StepIsTrusted(w: World, step: Step)
    requires Trusted(w) && Quiet(w, step)
    ensures Trusted(Next(w, step))
  {
    StepOnStore(w, step);
    StepKeeps(w, step);
    var w', call := Next(w, step), CallOf(w, step);
    if call.Some? {
      assert Checked(w.store, call.value.op, w.now);
      hide Next, CallOf, Sound, Checked, AllReadable, Followed, FilesKept, Writes, ApplyAll, Prunes;
      CallReadable(w.store, call.value);
      forall id | id in w'.record.migrated ensures Followed(w'.store, id, w'.record.migrated[id]) {
        FollowedStays(w.store, call.value, id, w.record.migrated[id]);
      }
    }
  }

  // Where an undisturbed clean-up can be.
  predicate Undisturbed(w: World) {
    && Guarded(w)
    && (w.record.source.None? ==> w.legacy.None? && w.record.retirement.None?)
    && (w.legacy.Some? ==> w.record.migrated == w.scanned)
    && (match w.record.retirement
        case None => (match w.legacy case Some(d) => SourceMatches(w, d) case None => w.record.source.Some? ==> w.record.authorised)
        case Some(r) =>
          w.record.authorised &&
          match r.stage
          case Reserved =>
            (match w.legacy
             case Some(d) => SourceMatches(w, d) && d.inode == r.inode && r.id !in w.retired
             case None => r.id in w.retired && SourceMatches(w, w.retired[r.id]) && w.retired[r.id].inode == r.inode)
          case Deleting => w.legacy.None? && Matches(w))
    && (forall id | id in w.retired :: id < w.nextId)
    && (match w.pc
        case Entered(had) => had == w.legacy.Some?
        case Reserving => w.legacy.Some?
        case Retiring(had) => had == w.legacy.Some? && w.record.retirement.Some?
        case Renaming => w.legacy.Some?
        case Verifying => w.legacy.None?
        case Erasing => w.record.retirement.value.id in w.retired
        case Forgetting =>
          w.record.retirement.Some? && w.record.retirement.value.stage == Deleting && w.record.retirement.value.id !in w.retired
        case _ => true)
  }

  lemma StartIsUndisturbed(w: World)
    requires Undisturbed(w) && (w.pc == Idle || w.pc.Entered? || w.pc == Reserving)
    ensures Undisturbed(Proceed(w))
  {
    ProceedIsGuarded(w);
    hide Guarded, MayEnter, AllValid;
  }

  lemma MoveIsUndisturbed(w: World)
    requires Undisturbed(w) && (w.pc.Retiring? || w.pc == Renaming || w.pc == Verifying)
    ensures Undisturbed(Proceed(w))
  {
    ProceedIsGuarded(w);
    assert w.pc == Renaming ==> w.record.retirement.Some? && w.record.retirement.value.stage == Reserved;
    hide Guarded;
  }

  lemma ProceedIsUndisturbed(w: World)
    requires Undisturbed(w)
    ensures Undisturbed(Proceed(w))
  {
    if w.pc == Idle || w.pc.Entered? || w.pc == Reserving {
      StartIsUndisturbed(w);
    } else if w.pc.Retiring? || w.pc == Renaming || w.pc == Verifying {
      MoveIsUndisturbed(w);
    } else {
      ProceedIsGuarded(w);
      hide StartRetiring, Rename, Verify, Recheck, Reserve;
    }
  }

  lemma StepIsUndisturbed(w: World, step: Step)
    requires Undisturbed(w) && !step.Outside?
    ensures Undisturbed(Next(w, step))
  {
    if step == Go {
      ProceedIsUndisturbed(w);
    } else {
      StepIsGuarded(w, step);
      hide Guarded, Proceed, PlanFor, Writes, ApplyAll;
    }
  }

  lemma {:induction false} QuietRunInv(w: World, steps: seq<Step>)
    requires Trusted(w) && Undisturbed(w) && QuietRun(w, steps)
    ensures Trusted(Run(w, steps)) && Undisturbed(Run(w, steps))
    decreases |steps|
  {
    hide Trusted, Undisturbed, Next;
    if steps != [] {
      StepIsTrusted(w, steps[0]);
      StepIsUndisturbed(w, steps[0]);
      QuietRunInv(Next(w, steps[0]), steps[1..]);
    }
  }

  lemma MigratedTrusted(w: World)
    requires Migrated(w)
    ensures Trusted(w) && Undisturbed(w)
  {
    MigratedKeeps(w);
    forall id | id in w.record.migrated ensures Followed(w.store, id, w.record.migrated[id]) {
      assert RecordsReadable(w.store, id);
      FollowedAtFirst(w.store, id);
    }
    hide Keeps, Followed;
  }

  // -------------------------------------------------------------------------- completion

  // A call run to its end.
  function Finish(w: World, fuel: nat): World
    decreases fuel
  {
    if w.pc == Idle || fuel == 0 then w else Finish(Proceed(w), fuel - 1)
  }

  predicate CleanedUp(w: World) {
    w.pc == Idle && w.legacy.None? && w.record.retirement.None? && (w.record.source.Some? ==> w.record.authorised)
  }

  // How many steps a call that passes its checks has left at most.
  function Left(pc: Pc): nat {
    match pc
    case Idle => 0
    case Entered(_) => 8
    case Reserving => 7
    case Retiring(_) => 6
    case Renaming => 5
    case Verifying => 4
    case Removing => 3
    case Erasing => 2
    case Forgetting => 1
  }

  // Undisturbed, no look of a call finds anything wrong.
  lemma NextLeft(w: World)
    requires Undisturbed(w) && w.pc != Idle && (w.pc.Entered? ==> AllValid(w))
    ensures Left(Proceed(w).pc) < Left(w.pc) && (Proceed(w).pc == Idle ==> CleanedUp(Proceed(w))) && !Proceed(w).pc.Entered?
  {
    hide AllValid, MayEnter;
  }

  lemma {:induction false} FinishCleansUp(w: World, fuel: nat)
    requires Undisturbed(w) && w.pc != Idle && (w.pc.Entered? ==> AllValid(w)) && fuel >= Left(w.pc)
    ensures CleanedUp(Finish(w, fuel))
    decreases fuel
  {
    NextLeft(w);
    ProceedIsUndisturbed(w);
    hide Undisturbed, AllValid, Proceed, CleanedUp;
    if Proceed(w).pc != Idle {
      FinishCleansUp(Proceed(w), fuel - 1);
    }
  }

  /** The migrated observation of a request has been overtaken. */
  predicate LostEvidence(w: World, id: RequestId) {
    && id in w.record.migrated && w.record.migrated[id].observation.Some? && id in w.store.observations
    && Overtaken(w.record.migrated[id].observation.value, w.store.observations[id])
  }

  lemma MayEnterIff(w: World)
    requires Trusted(w) && Undisturbed(w) && !Live(w)
    ensures MayEnter(w) <==> forall id | id in w.record.migrated :: !LostEvidence(w, id)
  {
    assert SourceOk(w) && MarkersReadable(w.store) by {
      assert forall id | id in w.store.requests :: RecordsReadable(w.store, id);
    }
    forall id | id in w.record.migrated ensures Validates(w.store, id, w.record.migrated[id]) <==> !LostEvidence(w, id) {
      assert RecordsReadable(w.store, id);
      ValidatesIff(w.store, id, w.record.migrated[id]);
    }
    hide Validates, LostEvidence, Undisturbed, Trusted, Live;
  }

  /**
   If nothing else touches the directories and no request is live, then wherever earlier calls died
   the next call completes within nine steps, and leaves neither the legacy directory nor a retirement
   record, exactly if no migrated observation has been overtaken: the page of a request whose response
   had been named was not lost since, nor its authority, and its latest event is not an unknown one.
   */
  lemma {:induction false} RerunCompletes(w: World, steps: seq<Step>)
    requires Migrated(w) && QuietRun(w, steps)
    requires Run(w, steps).pc == Idle && !Live(Run(w, steps))
    ensures var crashed := Run(w, steps);
      MayEnter(crashed) && CleanedUp(Finish(Proceed(crashed), 8)) <==>
      forall id | id in crashed.record.migrated :: !LostEvidence(crashed, id)
  {
    MigratedTrusted(w);
    QuietRunInv(w, steps);
    var crashed := Run(w, steps);
    MayEnterIff(crashed);
    hide Run, Trusted, LostEvidence, Migrated, Live;
    if MayEnter(crashed) {
      ProceedIsUndisturbed(crashed);
      assert AllValid(crashed) && Proceed(crashed) == crashed.(pc := Entered(crashed.legacy.Some?));
      FinishCleansUp(Proceed(crashed), 8);
    }
  }

  // -------------------------------------------------------------------------- a clean-up that is blocked for good

  /** The clean-up is still to come, and a migrated request has ended and lost its evidence. */
  predicate Stuck(w: World, id: RequestId) {
    w.pc == Idle && CleanupPending(w) && Settled(w.store, id, w.now) && LostEvidence(w, id)
  }

  lemma StuckCannotEnter(w: World, id: RequestId)
    requires Trusted(w) && Stuck(w, id)
    ensures !MayEnter(w)
  {
    assert RecordsReadable(w.store, id);
    ValidatesIff(w.store, id, w.record.migrated[id]);
    hide Validates, Settled, Followed;
  }

  predicate SameMailbox(w: World, w': World) {
    w'.legacy == w.legacy && w'.retired == w.retired && w'.record == w.record && w'.pc == w.pc
  }

  // While a clean-up is pending and none is under way, neither use nor pruning touches the record.
  lemma IdleStep(w: World, step: Step)
    requires w.pc == Idle && CleanupPending(w) && !MayEnter(w) && !step.Outside?
    ensures SameMailbox(w, Next(w, step))
  {
    hide MayEnter, PlanFor, Writes, ApplyAll;
  }

  lemma StuckStep(w: World, step: Step, id: RequestId)
    requires Trusted(w) && Stuck(w, id) && Quiet(w, step)
    ensures Stuck(Next(w, step), id) && SameMailbox(w, Next(w, step))
  {
    StuckCannotEnter(w, id);
    IdleStep(w, step);
    StepOnStore(w, step);
    var w', call := Next(w, step), CallOf(w, step);
    assert id in w'.record.migrated;
    hide Next, CallOf, MayEnter, Trusted, Followed, FilesKept, Writes, ApplyAll, Prunes, Quiet, Overtaken;
    if call.Some? {
      assert Sound(w.store, w.now) by {
        TrustedSound(w);
      }
      SettledStays(w.store, call.value, id, w'.now);
      hide Settled, Sound;
    }
  }

  lemma TrustedSound(w: World)
    requires Trusted(w)
    ensures Sound(w.store, w.now)
  {}

  lemma {:induction false} StuckStays(w: World, steps: seq<Step>, id: RequestId)
    requires Trusted(w) && Stuck(w, id) && QuietRun(w, steps)
    ensures !MayEnter(Run(w, steps)) && Stuck(Run(w, steps), id) && SameMailbox(w, Run(w, steps))
    decreases |steps|
  {
    hide Trusted, MayEnter, Stuck, Next, Quiet;
    if steps == [] {
      StuckCannotEnter(w, id);
    } else {
      StuckStep(w, steps[0], id);
      StepIsTrusted(w, steps[0]);
      StuckStays(Next(w, steps[0]), steps[1..], id);
    }
  }

  /**
   Once a migrated request has ended with its evidence lost, the clean-up refuses every later call,
   whatever requests are used, however much is pruned and even when nothing is live any more; the
   directories and the record stay as they are.
   */
  lemma {:induction false} StuckForGood(w: World, steps: seq<Step>, more: seq<Step>, id: RequestId)
    requires Migrated(w) && QuietRun(w, steps) && Stuck(Run(w, steps), id) && QuietRun(Run(w, steps), more)
    ensures var stuck := Run(w, steps);
      !MayEnter(Run(stuck, more)) && SameMailbox(stuck, Run(stuck, more))
  {
    MigratedTrusted(w);
    QuietRunInv(w, steps);
    hide Run, Trusted, QuietRun;
    StuckStays(Run(w, steps), more, id);
  }

  const ASKED := Request(0, "session", Correlation("task", 1, Phase.Plan), Some(Surface("one", 1)), 0, 1_000)
  const SEEN := Observation(Identity(0, "one", 1), 500, 3, Generating(Response("response", "url")))
  const PAGE_LOST := Observation(Identity(0, "one", 1), 600, 4, PageLost)

  // A migrated request whose response had been seen to start.
  const ASKING := Store(map[0 := ASKED], map[], map[], map[0 := Progress(SEEN, Some(SEEN), 500, Some(500))],
                        map["session" := ASKED], 1)

  const STARTED := World(Record(Some({1}), map[0 := OriginalOf(ASKING, 0)], false, None), map[0 := OriginalOf(ASKING, 0)],
                         Some(FOUND), map[], ASKING, 700, 0, Idle, map[], {})

  // Then its page is lost, which ends it.
  const LOSE := Use(Observe(0, "session", None, PAGE_LOST, None), 3)

  const ENDED := ASKING.(markers := map[0 := Marker(700, Some(PAGE_LOST), None)],
                         observations := map[0 := Progress(PAGE_LOST, Some(PAGE_LOST), 700, Some(700))], active := map[])

  lemma StartedMigrated()
    ensures Migrated(STARTED)
  {
    assert Originals(ASKING) == map[0 := OriginalOf(ASKING, 0)];
    assert PointerOk(ASKING, "session");
  }

  lemma LoseWrites()
    ensures ApplyAll(ASKING, Writes(ASKING, Call(LOSE.op, 700, 3))) == ENDED
  {
    var op := LOSE.op;
    var p := Progress(PAGE_LOST, Some(PAGE_LOST), 700, Some(700));
    var m := Marker(700, Some(PAGE_LOST), None);
    assert Advance(ObservationOf(ASKING, 0), PAGE_LOST, 700) == Ok(Advanced(p, false, Some(PAGE_LOST)));
    assert Ends(ASKING, op, 700);
    EndingWrites(ASKING, op, 700);
    Uninterrupted(ASKING, op, 700);
    assert Writes(ASKING, Call(op, 700, 3)) == PlanFor(ASKING, op, 700).0;
  }

  lemma LoseLeaves()
    ensures Run(STARTED, [LOSE, Tick(500)]) == STARTED.(store := ENDED, now := 1_200)
  {
    LoseWrites();
    hide PlanFor, Writes, ApplyAll;
    RunTwo(STARTED, LOSE, Tick(500));
  }

  /** A concrete run that gets there: nothing is live, nothing outside has changed, and no call ever cleans up. */
  lemma LostPageBlocksCleanup(more: seq<Step>)
    ensures var lost := Run(STARTED, [LOSE, Tick(500)]);
      && Migrated(STARTED) && QuietRun(STARTED, [LOSE, Tick(500)]) && !Live(lost)
      && (QuietRun(lost, more) ==> !MayEnter(Run(lost, more)))
  {
    StartedMigrated();
    LoseLeaves();
    var lost := Run(STARTED, [LOSE, Tick(500)]);
    assert Stuck(lost, 0) && !Live(lost);
    assert QuietRun(STARTED, [LOSE, Tick(500)]) by {
      assert [LOSE, Tick(500)][1..] == [Tick(500)] && [Tick(500)][1..] == [];
    }
    hide Run, Migrated, QuietRun, Stuck, MayEnter;
    if QuietRun(lost, more) {
      StuckForGood(STARTED, [LOSE, Tick(500)], more, 0);
    }
  }
}
