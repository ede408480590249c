/**
 The cross-process file lock of src/config/paths.ts as a state machine.

 Any number of threads of any number of processes run the same program on one lock path.
 One step of the machine is one file-system call (or one block of calls that read facts which
 never change back).  A process may die between any two steps; its open files are closed, the
 files it created stay.  Inode numbers may be reused as soon as a file is neither linked nor open.
 */
module FileLock {
  import opened Wrappers

  type Pid = nat
  type ThreadId = nat
  type Inode = nat
  type MarkerName = nat

  /** What a lock or marker file says: the process that wrote it, and when. */
  datatype File = File(pid: Pid, mtime: int)

  /**
   The reading position of one `activeReaperExists` call.  `candidate` is the lock file the thread
   has just created, if any; `pending` the directory entries still to look at, None before readdir.
   */
  datatype Scanner = Scanner(candidate: Option<Inode>, pending: Option<set<MarkerName>>, active: bool)

  datatype Pc =
    | Idle
    | Scan(scanner: Scanner)
    | ScanUnlink(scanner: Scanner, name: MarkerName)
    | Create
    | Publish(own: Inode)
    | BackOut(own: Inode)
    | BackOutUnlink(own: Inode)
    | Inside(own: Inode)
    | Leave(own: Inode)
    | LeaveUnlink(own: Inode)
    | ReapMark
    | ReapOpen(marker: MarkerName)
    | ReapInspect(marker: MarkerName, observed: Inode)
    | ReapStat(marker: MarkerName, observed: Inode)
    | ReapUnlink(marker: MarkerName, observed: Inode)
    | ReapRelease(marker: MarkerName, removed: bool)
    | Wait
    | Dead

  datatype Thread = Thread(pid: Pid, staleMs: nat, pc: Pc)

  datatype World = World(
    now: int,
    dead: set<Pid>,
    inodes: map<Inode, File>,
    lock: Option<Inode>,
    markers: map<MarkerName, File>,
    usedNames: set<MarkerName>,
    threads: map<ThreadId, Thread>)

  /** Whether a contender that backs out compares and unlinks its candidate in one step. */
  datatype Config = Config(atomicBackOut: bool)

  datatype Step =
    | Start(tid: ThreadId, pid: Pid, staleMs: nat)
    | Tick(elapsed: nat)
    | Crash(pid: Pid)
    | GiveUp(tid: ThreadId)
    | Run(tid: ThreadId, choice: nat)

  const ScanStart := Scan(Scanner(None, None, false))

  // The files a thread holds open: numbers that cannot be given to a new file.
  function OpenFiles(pc: Pc): set<Inode> {
    match pc
    case Scan(s) => if s.candidate.Some? then {s.candidate.value} else {}
    case ScanUnlink(s, _) => if s.candidate.Some? then {s.candidate.value} else {}
    case Publish(i) => {i}
    case BackOut(i) => {i}
    case BackOutUnlink(i) => {i}
    case Inside(i) => {i}
    case Leave(i) => {i}
    case LeaveUnlink(i) => {i}
    case ReapInspect(_, i) => {i}
    case ReapStat(_, i) => {i}
    case ReapUnlink(_, i) => {i}
    case _ => {}
  }

  // The lock file a thread created itself and still holds.
  function Candidate(pc: Pc): Option<Inode> {
    match pc
    case Scan(s) => s.candidate
    case ScanUnlink(s, _) => s.candidate
    case Publish(i) => Some(i)
    case BackOut(i) => Some(i)
    case BackOutUnlink(i) => Some(i)
    case Inside(i) => Some(i)
    case Leave(i) => Some(i)
    case LeaveUnlink(i) => Some(i)
    case _ => None
  }

  // The reaper marker a thread has published and not yet removed.
  function Marker(pc: Pc): Option<MarkerName> {
    match pc
    case ReapOpen(n) => Some(n)
    case ReapInspect(n, _) => Some(n)
    case ReapStat(n, _) => Some(n)
    case ReapUnlink(n, _) => Some(n)
    case ReapRelease(n, _) => Some(n)
    case _ => None
  }

  ghost predicate FreeInode(w: World, i: Inode) {
    && w.lock != Some(i)
    && forall t | t in w.threads :: i !in OpenFiles(w.threads[t].pc)
  }

  // A file that `activeReaperExists` and `removeAbandonedLock` regard as abandoned.
  predicate Abandoned(w: World, file: File, staleMs: nat) {
    w.now - file.mtime > staleMs && file.pid in w.dead
  }

  predicate InodeKnown(w: World, i: Inode) { i in w.inodes }

  ghost predicate CanRun(w: World, t: ThreadId, choice: nat)
    requires t in w.threads
  {
    match w.threads[t].pc
    case Idle => false
    case Dead => false
    case Scan(s) => s.pending.Some? && s.pending.value != {} ==> choice in s.pending.value
    case Create => w.lock.None? ==> FreeInode(w, choice)
    case ReapMark => choice !in w.usedNames
    case ReapInspect(_, i) => InodeKnown(w, i)
    case _ => true
  }

  ghost predicate Enabled(w: World, step: Step) {
    match step
    case Start(t, p, _) => t !in w.threads && p !in w.dead
    case Tick(_) => true
    case Crash(_) => true
    case GiveUp(t) => t in w.threads && w.threads[t].pc == Wait
    case Run(t, choice) => t in w.threads && CanRun(w, t, choice)
  }

  /** The one directory change a step makes, if any. */
  datatype Effect =
    | Nothing
    | Link(inode: Inode)          // exclusive create of the lock file
    | Unlink                      // remove whatever the lock path names
    | Mark(name: MarkerName)      // exclusive create of a reaper marker
    | Unmark(name: MarkerName)

  datatype Move = Move(pc: Pc, effect: Effect)

  // `activeReaperExists`, one directory entry at a time.
  function ScanMove(w: World, staleMs: nat, s: Scanner, choice: nat): Move {
    match s.pending
    case None => Move(Scan(s.(pending := Some(w.markers.Keys), active := false)), Nothing)
    case Some(names) =>
      if names == {} then
        Move(match s.candidate
             case None => if s.active then Wait else Create
             case Some(i) => if s.active then BackOut(i) else Publish(i),
             Nothing)
      else
        var rest := s.(pending := Some(names - {choice}));
        Move(if choice !in w.markers then Scan(rest)
             else if Abandoned(w, w.markers[choice], staleMs) then ScanUnlink(rest, choice)
             else Scan(rest.(active := true)),
             Nothing)
  }

  // One step of the program in `withFileLock`, `removeAbandonedLock` and `releaseOwnedLock`.
  function MoveOf(cfg: Config, w: World, thread: Thread, choice: nat): Move
    requires thread.pc.ReapInspect? ==> InodeKnown(w, thread.pc.observed)
  {
    match thread.pc
    case Idle => Move(Idle, Nothing)
    case Dead => Move(Dead, Nothing)
    case Wait => Move(ScanStart, Nothing)
    case Scan(s) => ScanMove(w, thread.staleMs, s, choice)
    case ScanUnlink(s, name) => Move(Scan(s), Unmark(name))
    case Create =>
      if w.lock.Some? then Move(ReapMark, Nothing)
      else Move(Scan(Scanner(Some(choice), None, false)), Link(choice))
    case Publish(i) => Move(if w.lock == Some(i) then Inside(i) else BackOut(i), Nothing)
    case BackOut(i) =>
      if w.lock != Some(i) then Move(ScanStart, Nothing)
      else if cfg.atomicBackOut then Move(ScanStart, Unlink)
      else Move(BackOutUnlink(i), Nothing)
    case BackOutUnlink(_) => Move(ScanStart, Unlink)
    case Inside(i) => Move(Leave(i), Nothing)
    case Leave(i) => Move(if w.lock == Some(i) then LeaveUnlink(i) else Idle, Nothing)
    case LeaveUnlink(_) => Move(Idle, Unlink)
    case ReapMark => Move(ReapOpen(choice), Mark(choice))
    case ReapOpen(n) =>
      Move(match w.lock case None => ReapRelease(n, true) case Some(i) => ReapInspect(n, i), Nothing)
    case ReapInspect(n, i) =>
      Move(if Abandoned(w, w.inodes[i], thread.staleMs) then ReapStat(n, i) else ReapRelease(n, false), Nothing)
    case ReapStat(n, i) =>
      Move(match w.lock
           case None => ReapRelease(n, true)
           case Some(j) => if i == j then ReapUnlink(n, i) else ReapRelease(n, false),
           Nothing)
    case ReapUnlink(n, _) => Move(ReapRelease(n, true), Unlink)
    case ReapRelease(n, removed) => Move(if removed then ScanStart else Wait, Unmark(n))
  }

  function Perform(w: World, pid: Pid, effect: Effect): World {
    match effect
    case Nothing => w
    case Link(i) => w.(inodes := w.inodes[i := File(pid, w.now)], lock := Some(i))
    case Unlink => w.(lock := None)
    case Mark(n) => w.(markers := w.markers[n := File(pid, w.now)], usedNames := w.usedNames + {n})
    case Unmark(n) => w.(markers := w.markers - {n})
  }

  function Goto(w: World, t: ThreadId, pc: Pc): World
    requires t in w.threads
  {
    w.(threads := w.threads[t := w.threads[t].(pc := pc)])
  }

  function RunThread(cfg: Config, w: World, t: ThreadId, choice: nat): World
    requires t in w.threads
    requires w.threads[t].pc.ReapInspect? ==> InodeKnown(w, w.threads[t].pc.observed)
  {
    var move := MoveOf(cfg, w, w.threads[t], choice);
    Goto(Perform(w, w.threads[t].pid, move.effect), t, move.pc)
  }

  ghost function Apply(cfg: Config, w: World, step: Step): World
    requires Enabled(w, step)
  {
    match step
    case Start(t, p, staleMs) => w.(threads := w.threads[t := Thread(p, staleMs, ScanStart)])
    case Tick(elapsed) => w.(now := w.now + elapsed)
    case Crash(p) =>
      w.(dead := w.dead + {p},
         threads := map t | t in w.threads ::
           if w.threads[t].pid == p then w.threads[t].(pc := Dead) else w.threads[t])
    case GiveUp(t) => Goto(w, t, Idle)
    case Run(t, choice) => RunThread(cfg, w, t, choice)
  }

  /** Nobody has started; the lock and any markers may be left over from earlier processes. */
  ghost predicate Initial(w: World) {
    && w.threads == map[]
    && w.markers.Keys <= w.usedNames
    && (w.lock.Some? ==> w.lock.value in w.inodes)
  }

  /** A finite run: `steps` taken one after the other lead from `first` to `last`. */
  ghost predicate Leads(cfg: Config, first: World, steps: seq<Step>, last: World)
    decreases |steps|
  {
    if steps == [] then first == last
    else Enabled(first, steps[0]) && Leads(cfg, Apply(cfg, first, steps[0]), steps[1..], last)
  }

  ghost predicate Reaches(cfg: Config, first: World, last: World) {
    exists steps :: Leads(cfg, first, steps, last)
  }

  predicate IsInside(w: World, t: ThreadId) {
    t in w.threads && w.threads[t].pc.Inside?
  }

  /** At most one thread is inside its action, and the lock path names the file it created. */
  ghost predicate Exclusive(w: World) {
    && (forall t, u :: IsInside(w, t) && IsInside(w, u) ==> t == u)
    && (forall t :: IsInside(w, t) ==> w.lock == Some(w.threads[t].pc.own))
  }

  /** Every run from every initial world keeps the lock exclusive. */
  ghost predicate AlwaysExclusive(cfg: Config) {
    forall first, last :: Initial(first) && Reaches(cfg, first, last) ==> Exclusive(last)
  }

  // ---------------------------------------------------------------------------------------------
  // Safety
  // ---------------------------------------------------------------------------------------------

  // From entering to the release the thread relies on its lock file.
  predicate Holding(pc: Pc) { pc.Inside? || pc.Leave? || pc.LeaveUnlink? }

  /**
   No back-out that was paused between its comparison and its unlink removes the file of a holder:
   it is still its own file, or nobody holds the lock.
   */
  ghost predicate Clean(w: World, step: Step) {
    step.Run? && step.tid in w.threads && w.threads[step.tid].pc.BackOutUnlink? ==>
      w.lock == Some(w.threads[step.tid].pc.own) || forall u | u in w.threads :: !Holding(w.threads[u].pc)
  }

  ghost predicate CleanRun(cfg: Config, w: World, steps: seq<Step>)
    decreases |steps|
  {
    steps == [] || (Clean(w, steps[0]) && (Enabled(w, steps[0]) ==> CleanRun(cfg, Apply(cfg, w, steps[0]), steps[1..])))
  }

  // What each thread's position guarantees about the files.
  ghost predicate ThreadOk(w: World, t: ThreadId)
    requires t in w.threads
  {
    var thread := w.threads[t];
    && (thread.pc.Dead? <==> thread.pid in w.dead)
    && OpenFiles(thread.pc) <= w.inodes.Keys
    && (Candidate(thread.pc).Some? ==> w.inodes[Candidate(thread.pc).value].pid == thread.pid)
    && (Marker(thread.pc).Some? ==>
          Marker(thread.pc).value in w.markers && w.markers[Marker(thread.pc).value].pid == thread.pid)
    && (Holding(thread.pc) ==> w.lock == Some(thread.pc.own))
    && (thread.pc.ReapStat? || thread.pc.ReapUnlink? ==> w.inodes[thread.pc.observed].pid in w.dead)
    && (thread.pc.ScanUnlink? ==>
          && thread.pc.name in w.usedNames
          && (thread.pc.name in w.markers ==> w.markers[thread.pc.name].pid in w.dead))
  }

  // Thread t still has the chance to notice the marker n before it enters.
  predicate WillNotice(pc: Pc, n: MarkerName) {
    match pc
    case Scan(s) => s.active || s.pending.None? || n in s.pending.value
    case ScanUnlink(s, _) => s.active || s.pending.None? || n in s.pending.value
    case BackOut(_) => true
    case BackOutUnlink(_) => true
    case _ => false
  }

  // While thread u is about to unlink the lock path, the owner of the file there will notice u's marker.
  ghost predicate Guarded(w: World, t: ThreadId, u: ThreadId)
    requires t in w.threads && u in w.threads
  {
    var own := Candidate(w.threads[t].pc);
    own.Some? && w.lock == own && w.threads[u].pc.ReapUnlink? ==> WillNotice(w.threads[t].pc, w.threads[u].pc.marker)
  }

  ghost predicate DistinctFiles(w: World, t: ThreadId, u: ThreadId)
    requires t in w.threads && u in w.threads
  {
    && (t != u && Candidate(w.threads[t].pc).Some? ==> Candidate(w.threads[t].pc) != Candidate(w.threads[u].pc))
    && (t != u && Marker(w.threads[t].pc).Some? ==> Marker(w.threads[t].pc) != Marker(w.threads[u].pc))
  }

  ghost predicate Inv(w: World) {
    && w.markers.Keys <= w.usedNames
    && (w.lock.Some? ==> w.lock.value in w.inodes)
    && (forall t | t in w.threads :: ThreadOk(w, t))
    && (forall t, u | t in w.threads && u in w.threads :: DistinctFiles(w, t, u))
    && (forall t, u | t in w.threads && u in w.threads :: Guarded(w, t, u))
  }

  lemma InitialInv(w: World)
    requires Initial(w)
    ensures Inv(w)
  {}

  lemma StepKeepsInv(cfg: Config, w: World, step: Step)
    requires Clean(w, step) && Inv(w) && Enabled(w, step)
    ensures Inv(Apply(cfg, w, step))
  {
    hide Inv, RunThread, Clean;
    match step
    case Start(_, _, _) => StartKeepsInv(cfg, w, step);
    case Tick(elapsed) => TickKeepsInv(w, elapsed);
    case Crash(p) => CrashKeepsInv(cfg, w, p);
    case GiveUp(t) => GiveUpKeepsInv(w, t);
    case Run(t, choice) => RunKeepsInv(cfg, w, t, choice);
  }

  lemma TickKeepsInv(w: World, elapsed: nat)
    requires Inv(w)
    ensures Inv(w.(now := w.now + elapsed))
  {
    var w' := w.(now := w.now + elapsed);
    forall u | u in w'.threads ensures ThreadOk(w', u) {
      assert ThreadOk(w, u);
    }
    forall u, v | u in w'.threads && v in w'.threads ensures DistinctFiles(w', u, v) && Guarded(w', u, v) {
      assert DistinctFiles(w, u, v) && Guarded(w, u, v);
    }
  }

  lemma StartKeepsInv(cfg: Config, w: World, step: Step)
    requires Inv(w) && step.Start? && Enabled(w, step)
    ensures Inv(Apply(cfg, w, step))
  {
    var w' := Apply(cfg, w, step);
    forall u | u in w'.threads ensures ThreadOk(w', u) {
      assert u != step.tid ==> ThreadOk(w, u);
    }
    forall u, v | u in w'.threads && v in w'.threads ensures DistinctFiles(w', u, v) && Guarded(w', u, v) {
      assert u != step.tid && v != step.tid ==> DistinctFiles(w, u, v) && Guarded(w, u, v);
    }
  }

  lemma CrashKeepsInv(cfg: Config, w: World, p: Pid)
    requires Inv(w)
    ensures Inv(Apply(cfg, w, Crash(p)))
  {
    var w' := Apply(cfg, w, Crash(p));
    forall u | u in w'.threads ensures ThreadOk(w', u) {
      assert ThreadOk(w, u);
    }
    forall u, v | u in w'.threads && v in w'.threads ensures DistinctFiles(w', u, v) && Guarded(w', u, v) {
      assert DistinctFiles(w, u, v) && Guarded(w, u, v);
    }
  }

  lemma GiveUpKeepsInv(w: World, t: ThreadId)
    requires Inv(w) && t in w.threads && w.threads[t].pc == Wait
    ensures Inv(Goto(w, t, Idle))
  {
    var w' := Goto(w, t, Idle);
    forall u | u in w'.threads ensures ThreadOk(w', u) {
      assert ThreadOk(w, u);
    }
    forall u, v | u in w'.threads && v in w'.threads ensures DistinctFiles(w', u, v) && Guarded(w', u, v) {
      assert DistinctFiles(w, u, v) && Guarded(w, u, v);
    }
  }

  lemma RunKeepsInv(cfg: Config, w: World, t: ThreadId, choice: nat)
    requires Clean(w, Run(t, choice)) && Inv(w) && t in w.threads && CanRun(w, t, choice)
    ensures Inv(RunThread(cfg, w, t, choice))
  {
    var move := MoveOf(cfg, w, w.threads[t], choice);
    var w' := RunThread(cfg, w, t, choice);
    MoveFacts(cfg, w, t, choice);
    forall u | u in w'.threads ensures ThreadOk(w', u) {
      if u == t {
        RunKeepsSelf(cfg, w, t, choice);
      } else {
        RunKeepsOther(w, t, move, u);
      }
    }
    forall u, v | u in w'.threads && v in w'.threads ensures DistinctFiles(w', u, v) {
      RunKeepsDistinct(w, t, move, u, v);
    }
    forall u, v | u in w'.threads && v in w'.threads ensures Guarded(w', u, v) {
      RunKeepsGuarded(cfg, w, t, choice, u, v);
    }
  }

  // What a step of thread t may do to the files other threads rely on.
  ghost predicate Harmless(w: World, t: ThreadId, move: Move)
    requires t in w.threads
  {
    && (Candidate(move.pc) in {None, Candidate(w.threads[t].pc)} ||
        (move.effect.Link? && Candidate(move.pc) == Some(move.effect.inode)))
    && (Marker(move.pc) in {None, Marker(w.threads[t].pc)} ||
        (move.effect.Mark? && Marker(move.pc) == Some(move.effect.name)))
    && (match move.effect
        case Nothing => true
        case Link(i) => w.lock.None? && FreeInode(w, i)
        case Unlink =>
          || w.threads[t].pc.ReapUnlink? || w.lock == Candidate(w.threads[t].pc)
          || forall u | u in w.threads :: !Holding(w.threads[u].pc)
        case Mark(n) => n !in w.usedNames
        case Unmark(n) => Marker(w.threads[t].pc) == Some(n) || (n in w.markers ==> w.markers[n].pid in w.dead))
  }

  lemma MoveFacts(cfg: Config, w: World, t: ThreadId, choice: nat)
    requires Clean(w, Run(t, choice)) && t in w.threads && CanRun(w, t, choice) && ThreadOk(w, t)
    ensures Harmless(w, t, MoveOf(cfg, w, w.threads[t], choice))
  {}

  lemma RunKeepsSelf(cfg: Config, w: World, t: ThreadId, choice: nat)
    requires t in w.threads && CanRun(w, t, choice) && ThreadOk(w, t)
    requires w.markers.Keys <= w.usedNames && (w.lock.Some? ==> w.lock.value in w.inodes)
    ensures ThreadOk(RunThread(cfg, w, t, choice), t)
  {}

  lemma RunKeepsOther(w: World, t: ThreadId, move: Move, u: ThreadId)
    requires Inv(w) && t in w.threads && u in w.threads && u != t && Harmless(w, t, move)
    ensures ThreadOk(Goto(Perform(w, w.threads[t].pid, move.effect), t, move.pc), u)
  {
    assert ThreadOk(w, t) && ThreadOk(w, u);
    assert DistinctFiles(w, u, t) && Guarded(w, u, t);
  }

  lemma RunKeepsDistinct(w: World, t: ThreadId, move: Move, u: ThreadId, v: ThreadId)
    requires Inv(w) && t in w.threads && u in w.threads && v in w.threads && Harmless(w, t, move)
    ensures DistinctFiles(Goto(Perform(w, w.threads[t].pid, move.effect), t, move.pc), u, v)
  {
    assert ThreadOk(w, u) && ThreadOk(w, v) && DistinctFiles(w, u, v);
  }

  // The step that matters is the stat of the lock path: a file whose writer is dead cannot be the
  // candidate of a thread that is still there to be surprised.
  lemma RunKeepsGuarded(cfg: Config, w: World, t: ThreadId, choice: nat, u: ThreadId, v: ThreadId)
    requires Inv(w) && t in w.threads && CanRun(w, t, choice)
    requires u in w.threads && v in w.threads
    ensures Guarded(RunThread(cfg, w, t, choice), u, v)
  {
    assert ThreadOk(w, u) && ThreadOk(w, v) && Guarded(w, u, v) && DistinctFiles(w, u, v);
  }

  lemma InvExclusive(w: World)
    requires Inv(w)
    ensures Exclusive(w)
  {
    forall t, u | IsInside(w, t) && IsInside(w, u) ensures t == u {
      assert ThreadOk(w, t) && ThreadOk(w, u) && DistinctFiles(w, t, u);
    }
    forall t | IsInside(w, t) ensures w.lock == Some(w.threads[t].pc.own) {
      assert ThreadOk(w, t);
    }
  }

  lemma {:induction false} RunsKeepInv(cfg: Config, first: World, steps: seq<Step>, last: World)
    requires CleanRun(cfg, first, steps) && Inv(first) && Leads(cfg, first, steps, last)
    ensures Inv(last)
    decreases |steps|
  {
    if steps != [] {
      StepKeepsInv(cfg, first, steps[0]);
      RunsKeepInv(cfg, Apply(cfg, first, steps[0]), steps[1..], last);
    }
  }

  /**
   Mutual exclusion whatever the back-out, any number of threads, crashes and leftovers included: it
   holds after every run in which each paused back-out still unlinks its own file, or does so while
   nobody holds the lock.
   */
  lemma {:induction false} CleanRunsAreExclusive(cfg: Config, first: World, steps: seq<Step>, last: World)
    requires Initial(first) && Leads(cfg, first, steps, last) && CleanRun(cfg, first, steps)
    ensures Exclusive(last)
  {
    InitialInv(first);
    RunsKeepInv(cfg, first, steps, last);
    InvExclusive(last);
  }

  /** Behind such a run, a paused back-out breaks the lock exactly if a thread is inside. */
  lemma {:induction false} PausedBackOutBreaksIff(cfg: Config, first: World, steps: seq<Step>, w: World, t: ThreadId, choice: nat)
    requires Initial(first) && Leads(cfg, first, steps, w) && CleanRun(cfg, first, steps)
    requires t in w.threads && w.threads[t].pc.BackOutUnlink?
    ensures Exclusive(RunThread(cfg, w, t, choice)) <==> forall u :: !IsInside(w, u)
  {
    CleanRunsAreExclusive(cfg, first, steps, w);
    var w' := RunThread(cfg, w, t, choice);
    forall u ensures IsInside(w', u) <==> IsInside(w, u) {}
    assert w'.lock.None?;
    hide Leads, CleanRun;
  }

  // With the comparison and the unlink in one step nobody is ever paused between them.
  lemma {:induction false} AtomicIsClean(cfg: Config, first: World, steps: seq<Step>, last: World)
    requires cfg.atomicBackOut && Leads(cfg, first, steps, last)
    requires forall t | t in first.threads :: !first.threads[t].pc.BackOutUnlink?
    ensures CleanRun(cfg, first, steps)
    decreases |steps|
  {
    if steps != [] {
      var next := Apply(cfg, first, steps[0]);
      forall t | t in next.threads ensures !next.threads[t].pc.BackOutUnlink? {
        assert t in first.threads ==> !first.threads[t].pc.BackOutUnlink?;
      }
      AtomicIsClean(cfg, next, steps[1..], last);
    }
  }

  /** Mutual exclusion over all runs if the back-out is one step. */
  lemma AtomicBackOutIsSafe(cfg: Config)
    requires cfg.atomicBackOut
    ensures AlwaysExclusive(cfg)
  {
    forall first, last | Initial(first) && Reaches(cfg, first, last) ensures Exclusive(last) {
      var steps :| Leads(cfg, first, steps, last);
      AtomicIsClean(cfg, first, steps, last);
      CleanRunsAreExclusive(cfg, first, steps, last);
    }
  }

  // ---------------------------------------------------------------------------------------------
  // Why the back-out must be atomic
  // ---------------------------------------------------------------------------------------------

  lemma {:induction false} LeadsAppend(cfg: Config, a: World, s: seq<Step>, b: World, r: seq<Step>, c: World)
    requires Leads(cfg, a, s, b) && Leads(cfg, b, r, c)
    ensures Leads(cfg, a, s + r, c)
    decreases |s|
  {
    if s == [] {
      assert s + r == r;
    } else {
      assert (s + r)[0] == s[0] && (s + r)[1..] == s[1..] + r;
      LeadsAppend(cfg, Apply(cfg, a, s[0]), s[1..], b, r, c);
    }
  }

  lemma Take(cfg: Config, a: World, b: World, step: Step) returns (c: World)
    requires Reaches(cfg, a, b) && Enabled(b, step)
    ensures c == Apply(cfg, b, step) && Reaches(cfg, a, c)
  {
    c := Apply(cfg, b, step);
    var s :| Leads(cfg, a, s, b);
    assert [step][1..] == [];
    assert Leads(cfg, b, [step], c);
    LeadsAppend(cfg, a, s, b, [step], c);
  }

  lemma Begin(cfg: Config, a: World, w: World, t: ThreadId, p: Pid) returns (w': World)
    requires Reaches(cfg, a, w) && t !in w.threads && p !in w.dead
    ensures Reaches(cfg, a, w') && w' == w.(threads := w.threads[t := Thread(p, 10, ScanStart)])
  {
    w' := Take(cfg, a, w, Start(t, p, 10));
  }

  lemma Go(cfg: Config, a: World, w: World, t: ThreadId, choice: nat, move: Move) returns (w': World)
    requires Reaches(cfg, a, w) && t in w.threads && CanRun(w, t, choice)
    requires move == MoveOf(cfg, w, w.threads[t], choice)
    ensures Reaches(cfg, a, w') && w' == Goto(Perform(w, w.threads[t].pid, move.effect), t, move.pc)
  {
    w' := Take(cfg, a, w, Run(t, choice));
  }

  // With no markers about, a thread that starts scanning gets to its attempt to create the lock.
  lemma Look(cfg: Config, a: World, w: World, t: ThreadId) returns (w': World)
    requires Reaches(cfg, a, w) && t in w.threads && w.threads[t].pc == ScanStart && w.markers == map[]
    ensures Reaches(cfg, a, w') && w' == Goto(w, t, Create)
  {
    assert w.markers.Keys == {};
    w' := Go(cfg, a, w, t, 0, Move(Scan(Scanner(None, Some({}), false)), Nothing));
    w' := Go(cfg, a, w', t, 0, Move(Create, Nothing));
  }

  // ... and, when the lock is free as well, enters with the file i.
  lemma Enter(cfg: Config, a: World, w: World, t: ThreadId, i: Inode) returns (w': World)
    requires Reaches(cfg, a, w) && t in w.threads && w.threads[t].pc == ScanStart && w.markers == map[]
    requires w.lock.None? && FreeInode(Goto(w, t, Create), i)
    ensures Reaches(cfg, a, w')
    ensures w' == Goto(Perform(w, w.threads[t].pid, Link(i)), t, Inside(i))
  {
    w' := Look(cfg, a, w, t);
    w' := Go(cfg, a, w', t, i, Move(Scan(Scanner(Some(i), None, false)), Link(i)));
    assert w'.markers.Keys == {};
    w' := Go(cfg, a, w', t, 0, Move(Scan(Scanner(Some(i), Some({}), false)), Nothing));
    w' := Go(cfg, a, w', t, 0, Move(Publish(i), Nothing));
    w' := Go(cfg, a, w', t, 0, Move(Inside(i), Nothing));
  }

  // A thread that finds an abandoned lock gets, behind its marker n, to the point of unlinking it.
  lemma Reap(cfg: Config, a: World, w: World, t: ThreadId, n: MarkerName) returns (w': World)
    requires Reaches(cfg, a, w) && t in w.threads && w.threads[t].pc == Create
    requires w.lock.Some? && w.lock.value in w.inodes && n !in w.usedNames
    requires Abandoned(w, w.inodes[w.lock.value], w.threads[t].staleMs)
    ensures Reaches(cfg, a, w')
    ensures w' == Goto(Perform(w, w.threads[t].pid, Mark(n)), t, ReapUnlink(n, w.lock.value))
  {
    w' := Go(cfg, a, w, t, 0, Move(ReapMark, Nothing));
    w' := Go(cfg, a, w', t, n, Move(ReapOpen(n), Mark(n)));
    w' := Go(cfg, a, w', t, 0, Move(ReapInspect(n, w.lock.value), Nothing));
    w' := Go(cfg, a, w', t, 0, Move(ReapStat(n, w.lock.value), Nothing));
    w' := Go(cfg, a, w', t, 0, Move(ReapUnlink(n, w.lock.value), Nothing));
  }

  // The reaper unlinks whatever the lock path names and withdraws its marker.
  lemma Remove(cfg: Config, a: World, w: World, t: ThreadId) returns (w': World)
    requires Reaches(cfg, a, w) && t in w.threads && w.threads[t].pc.ReapUnlink?
    ensures Reaches(cfg, a, w')
    ensures w' == Goto(w.(lock := None, markers := w.markers - {w.threads[t].pc.marker}), t, ScanStart)
  {
    w' := Go(cfg, a, w, t, 0, Move(ReapRelease(w.threads[t].pc.marker, true), Unlink));
    w' := Go(cfg, a, w', t, 0, Move(ScanStart, Unmark(w.threads[t].pc.marker)));
  }

  // A contender that creates the lock while a live reaper's marker is out checks that the file is
  // still its own, and stops just before it unlinks it.
  lemma BackOutSlowly(cfg: Config, a: World, w: World, t: ThreadId, i: Inode, n: MarkerName) returns (w': World)
    requires !cfg.atomicBackOut && Reaches(cfg, a, w) && t in w.threads && w.threads[t].pc == Create
    requires w.lock.None? && FreeInode(w, i) && w.markers.Keys == {n} && w.markers[n].pid !in w.dead
    ensures Reaches(cfg, a, w')
    ensures w' == Goto(Perform(w, w.threads[t].pid, Link(i)), t, BackOutUnlink(i))
  {
    w' := Go(cfg, a, w, t, i, Move(Scan(Scanner(Some(i), None, false)), Link(i)));
    w' := Go(cfg, a, w', t, 0, Move(Scan(Scanner(Some(i), Some({n}), false)), Nothing));
    assert {n} - {n} == {};
    w' := Go(cfg, a, w', t, n, Move(Scan(Scanner(Some(i), Some({}), true)), Nothing));
    w' := Go(cfg, a, w', t, 0, Move(BackOut(i), Nothing));
    w' := Go(cfg, a, w', t, 0, Move(BackOutUnlink(i), Nothing));
  }

  const Leftover := World(100, {9}, map[0 := File(9, 0)], Some(0), map[], {}, map[])

  // A process with one thread of the same number arrives while no marker is about.
  lemma Arrive(cfg: Config, a: World, w: World, t: ThreadId) returns (w': World)
    requires Reaches(cfg, a, w) && t !in w.threads && t !in w.dead && w.markers == map[]
    ensures Reaches(cfg, a, w') && w' == w.(threads := w.threads[t := Thread(t, 10, Create)])
  {
    w' := Begin(cfg, a, w, t, t);
    w' := Look(cfg, a, w', t);
  }

  // Threads 1, 2 and 3 start and find no marker; the lock file of the dead process 9 is still there.
  lemma ThreeContenders(cfg: Config) returns (w: World)
    ensures Reaches(cfg, Leftover, w)
    ensures w == Leftover.(threads :=
      map[1 := Thread(1, 10, Create), 2 := Thread(2, 10, Create), 3 := Thread(3, 10, Create)])
  {
    assert Leads(cfg, Leftover, [], Leftover);
    w := Arrive(cfg, Leftover, Leftover, 1);
    w := Arrive(cfg, Leftover, w, 2);
    w := Arrive(cfg, Leftover, w, 3);
  }

  // Threads 1 and 2 both decide to unlink the abandoned file; thread 2 does.
  lemma FirstReaper(cfg: Config) returns (w: World)
    ensures Reaches(cfg, Leftover, w)
    ensures w == World(100, {9}, map[0 := File(9, 0)], Some(0), map[1 := File(1, 100)], {1},
      map[1 := Thread(1, 10, ReapUnlink(1, 0)), 2 := Thread(2, 10, Create), 3 := Thread(3, 10, Create)])
  {
    w := ThreeContenders(cfg);
    w := Reap(cfg, Leftover, w, 1, 1);
    hide Reaches;
    assert w.markers == map[1 := File(1, 100)];
  }

  lemma TwoReapers(cfg: Config) returns (w: World)
    ensures Reaches(cfg, Leftover, w)
    ensures w == World(100, {9}, map[0 := File(9, 0)], None, map[1 := File(1, 100)], {1, 2},
      map[1 := Thread(1, 10, ReapUnlink(1, 0)), 2 := Thread(2, 10, ScanStart), 3 := Thread(3, 10, Create)])
  {
    hide Reaches;
    w := FirstReaper(cfg);
    w := Reap(cfg, Leftover, w, 2, 2);
    w := Remove(cfg, Leftover, w, 2);
    assert w.markers == map[1 := File(1, 100)];
  }

  // Thread 3 creates its own lock file 1, compares because of thread 1's marker, and pauses;
  // thread 1 unlinks file 1.
  lemma PausedContender(cfg: Config) returns (w: World)
    requires !cfg.atomicBackOut
    ensures Reaches(cfg, Leftover, w)
    ensures w == World(100, {9}, map[0 := File(9, 0), 1 := File(3, 100)], None, map[], {1, 2},
      map[1 := Thread(1, 10, ScanStart), 2 := Thread(2, 10, ScanStart), 3 := Thread(3, 10, BackOutUnlink(1))])
  {
    w := TwoReapers(cfg);
    w := BackOutSlowly(cfg, Leftover, w, 3, 1, 1);
    w := Remove(cfg, Leftover, w, 1);
    assert w.markers == map[];
  }

  // Thread 4 enters with file 2 while thread 3 is paused.
  lemma NewHolder(cfg: Config) returns (w: World)
    requires !cfg.atomicBackOut
    ensures Reaches(cfg, Leftover, w)
    ensures w == World(100, {9}, map[0 := File(9, 0), 1 := File(3, 100), 2 := File(4, 100)], Some(2), map[], {1, 2},
      map[1 := Thread(1, 10, ScanStart), 2 := Thread(2, 10, ScanStart), 3 := Thread(3, 10, BackOutUnlink(1)),
          4 := Thread(4, 10, Inside(2))])
  {
    w := PausedContender(cfg);
    w := Begin(cfg, Leftover, w, 4, 4);
    hide Reaches;
    w := Enter(cfg, Leftover, w, 4, 2);
  }

  // Thread 3 then unlinks file 2.
  lemma UnprotectedHolder(cfg: Config) returns (w: World)
    requires !cfg.atomicBackOut
    ensures Reaches(cfg, Leftover, w)
    ensures w == World(100, {9}, map[0 := File(9, 0), 1 := File(3, 100), 2 := File(4, 100)], None, map[], {1, 2},
      map[1 := Thread(1, 10, ScanStart), 2 := Thread(2, 10, ScanStart), 3 := Thread(3, 10, ScanStart),
          4 := Thread(4, 10, Inside(2))])
  {
    hide Reaches;
    w := NewHolder(cfg);
    w := Go(cfg, Leftover, w, 3, 0, Move(ScanStart, Unlink));
  }

  /**
   The run that breaks a back-out in two steps: thread 3, paused between its comparison and its
   unlink, removes the lock of thread 4, which is inside; thread 2 then enters as well.
   */
  lemma SplitBackOutIsUnsafe(cfg: Config)
    requires !cfg.atomicBackOut
    ensures !AlwaysExclusive(cfg)
  {
    var w := UnprotectedHolder(cfg);
    w := Enter(cfg, Leftover, w, 2, 3);
    assert IsInside(w, 2) && IsInside(w, 4);
    assert Initial(Leftover) && !Exclusive(w);
  }

  /** The lock is exclusive in every run exactly when the back-out is atomic. */
  lemma ExclusiveIffAtomicBackOut(cfg: Config)
    ensures AlwaysExclusive(cfg) <==> cfg.atomicBackOut
  {
    if cfg.atomicBackOut {
      AtomicBackOutIsSafe(cfg);
    } else {
      SplitBackOutIsUnsafe(cfg);
    }
  }

  // ---------------------------------------------------------------------------------------------
  // Recovery by one live contender
  // ---------------------------------------------------------------------------------------------

  /** Thread t and the clock are the only things that move. */
  predicate Solo(t: ThreadId, steps: seq<Step>) {
    forall k | 0 <= k < |steps| :: steps[k].Tick? || (steps[k].Run? && steps[k].tid == t)
  }

  function RunCount(steps: seq<Step>): nat {
    if steps == [] then 0 else (if steps[0].Run? then 1 else 0) + RunCount(steps[1..])
  }

  /** Whatever is on disk was left by dead processes longer ago than the contender's staleness bound. */
  ghost predicate AllAbandoned(w: World, staleMs: nat) {
    && (w.lock.Some? ==> w.lock.value in w.inodes && Abandoned(w, w.inodes[w.lock.value], staleMs))
    && (forall n | n in w.markers :: Abandoned(w, w.markers[n], staleMs))
  }

  // The positions a lone contender goes through, with what is on disk at each of them.
  ghost predicate OnTrack(w: World, t: ThreadId) {
    && t in w.threads
    && var thread := w.threads[t];
    && thread.pid !in w.dead
    && match thread.pc
       case Scan(s) =>
         && !s.active
         && (s.pending.Some? ==> s.pending.value == w.markers.Keys)
         && (if s.candidate.None? then AllAbandoned(w, thread.staleMs)
             else w.lock == s.candidate && w.markers.Keys == {})
       case ScanUnlink(s, n) =>
         && !s.active && s.candidate.None? && AllAbandoned(w, thread.staleMs)
         && s.pending.Some? && n in w.markers && s.pending.value == w.markers.Keys - {n}
       case Create => w.markers.Keys == {} && AllAbandoned(w, thread.staleMs)
       case Publish(i) => w.lock == Some(i)
       case Inside(_) => true
       case ReapMark => w.markers.Keys == {} && AllAbandoned(w, thread.staleMs) && w.lock.Some?
       case ReapOpen(n) => LoneReaper(w, thread.staleMs, n) && w.lock.Some?
       case ReapInspect(n, i) => LoneReaper(w, thread.staleMs, n) && w.lock == Some(i)
       case ReapStat(n, i) => LoneReaper(w, thread.staleMs, n) && w.lock == Some(i)
       case ReapUnlink(n, _) => w.markers.Keys == {n}
       case ReapRelease(n, removed) => w.markers.Keys == {n} && removed && w.lock.None?
       case _ => false
  }

  ghost predicate LoneReaper(w: World, staleMs: nat, n: MarkerName) {
    && w.markers.Keys == {n}
    && (w.lock.Some? ==> w.lock.value in w.inodes && Abandoned(w, w.inodes[w.lock.value], staleMs))
  }

  // The steps a lone contender still has to take before it is inside.
  function StepsToGo(w: World, t: ThreadId): nat
    requires t in w.threads
  {
    match w.threads[t].pc
    case Scan(s) =>
      if s.candidate.Some? then (if s.pending.None? then 3 else 2)
      else StepsFromCreate(w) + (if s.pending.None? then 2 else 1) + 2 * |w.markers|
    case ScanUnlink(_, _) => StepsFromCreate(w) + 2 * |w.markers|
    case Create => StepsFromCreate(w)
    case Publish(_) => 1
    case ReapMark => 12
    case ReapOpen(_) => 11
    case ReapInspect(_, _) => 10
    case ReapStat(_, _) => 9
    case ReapUnlink(_, _) => 8
    case ReapRelease(_, _) => 7
    case _ => 0
  }

  function StepsFromCreate(w: World): nat {
    if w.lock.Some? then 13 else 4
  }

  ghost predicate Advances(cfg: Config, w: World, t: ThreadId, choice: nat)
    requires OnTrack(w, t) && CanRun(w, t, choice)
  {
    var w' := RunThread(cfg, w, t, choice);
    OnTrack(w', t) && StepsToGo(w', t) == StepsToGo(w, t) - 1
  }

  lemma ScanAdvances(cfg: Config, w: World, t: ThreadId, choice: nat)
    requires OnTrack(w, t) && CanRun(w, t, choice) && w.threads[t].pc.Scan?
    ensures Advances(cfg, w, t, choice)
  {
    var s := w.threads[t].pc.scanner;
    if s.candidate.Some? && s.pending.Some? {
      assert s.pending.value == {};
    }
  }

  // Removing one marker takes one marker off the count.
  lemma UnmarkAdvances(cfg: Config, w: World, t: ThreadId, choice: nat)
    requires OnTrack(w, t) && (w.threads[t].pc.ScanUnlink? || w.threads[t].pc.ReapRelease?)
    ensures Advances(cfg, w, t, choice)
  {
    var n := MoveOf(cfg, w, w.threads[t], choice).effect.name;
    var rest := w.markers - {n};
    assert rest.Keys == w.markers.Keys - {n};
    assert |w.markers| == |w.markers.Keys| == |rest.Keys| + 1 && |rest| == |rest.Keys|;
  }

  lemma OtherAdvances(cfg: Config, w: World, t: ThreadId, choice: nat)
    requires OnTrack(w, t) && CanRun(w, t, choice) && !IsInside(w, t)
    requires !w.threads[t].pc.Scan? && !w.threads[t].pc.ScanUnlink? && !w.threads[t].pc.ReapRelease?
    ensures Advances(cfg, w, t, choice)
  {}

  lemma RunAdvances(cfg: Config, w: World, t: ThreadId, choice: nat)
    requires OnTrack(w, t) && CanRun(w, t, choice) && !IsInside(w, t)
    ensures Advances(cfg, w, t, choice)
  {
    match w.threads[t].pc
    case Scan(_) => ScanAdvances(cfg, w, t, choice);
    case ScanUnlink(_, _) => UnmarkAdvances(cfg, w, t, choice);
    case ReapRelease(_, _) => UnmarkAdvances(cfg, w, t, choice);
    case _ => OtherAdvances(cfg, w, t, choice);
  }

  lemma TickKeepsTrack(w: World, t: ThreadId, elapsed: nat)
    requires OnTrack(w, t)
    ensures var w' := w.(now := w.now + elapsed);
      OnTrack(w', t) && StepsToGo(w', t) == StepsToGo(w, t)
  {}

  lemma {:induction false} SoloAdvances(cfg: Config, w: World, t: ThreadId, steps: seq<Step>, last: World)
    requires OnTrack(w, t) && Leads(cfg, w, steps, last) && Solo(t, steps)
    requires RunCount(steps) <= StepsToGo(w, t)
    ensures OnTrack(last, t) && StepsToGo(last, t) == StepsToGo(w, t) - RunCount(steps)
    decreases |steps|
  {
    if steps != [] {
      if steps[0].Run? {
        RunAdvances(cfg, w, t, steps[0].choice);
      } else {
        TickKeepsTrack(w, t, steps[0].elapsed);
      }
      hide OnTrack, StepsToGo, CanRun;
      SoloAdvances(cfg, Apply(cfg, w, steps[0]), t, steps[1..], last);
    }
  }

  lemma {:induction false} Fresh(s: set<nat>) returns (n: nat)
    ensures n !in s && forall x | x in s :: x < n
  {
    n := 0;
    if s != {} {
      var x :| x in s;
      n := Fresh(s - {x});
      assert forall y | y in s :: y == x || y in s - {x};
      n := if x < n then n else x + 1;
    }
  }

  // What holds of every reachable world, exclusive or not.
  ghost predicate Sane(w: World) {
    && (w.lock.Some? ==> w.lock.value in w.inodes)
    && (forall t | t in w.threads :: (w.threads[t].pc.Dead? <==> w.threads[t].pid in w.dead) && OpenFiles(w.threads[t].pc) <= w.inodes.Keys)
  }

  lemma RunStaysSane(cfg: Config, w: World, t: ThreadId, choice: nat)
    requires Sane(w) && t in w.threads && CanRun(w, t, choice)
    ensures Sane(RunThread(cfg, w, t, choice))
  {
    var move := MoveOf(cfg, w, w.threads[t], choice);
    assert OpenFiles(move.pc) <= Perform(w, w.threads[t].pid, move.effect).inodes.Keys;
    hide MoveOf, OpenFiles;
  }

  lemma StepStaysSane(cfg: Config, w: World, step: Step)
    requires Sane(w) && Enabled(w, step)
    ensures Sane(Apply(cfg, w, step))
  {
    hide RunThread;
    if step.Run? {
      RunStaysSane(cfg, w, step.tid, step.choice);
    }
  }

  lemma {:induction false} RunsStaySane(cfg: Config, first: World, steps: seq<Step>, last: World)
    requires Sane(first) && Leads(cfg, first, steps, last)
    ensures Sane(last)
    decreases |steps|
  {
    hide Sane, Apply, Enabled;
    if steps != [] {
      StepStaysSane(cfg, first, steps[0]);
      RunsStaySane(cfg, Apply(cfg, first, steps[0]), steps[1..], last);
    }
  }

  lemma NeverStuck(w: World, t: ThreadId) returns (choice: nat)
    requires Sane(w) && OnTrack(w, t) && !IsInside(w, t)
    ensures CanRun(w, t, choice)
  {
    var pc := w.threads[t].pc;
    choice := 0;
    if pc.Scan? && pc.scanner.pending.Some? && pc.scanner.pending.value != {} {
      choice :| choice in pc.scanner.pending.value;
    } else if pc.Create? {
      choice := Fresh(w.inodes.Keys);
    } else if pc.ReapMark? {
      choice := Fresh(w.usedNames);
    }
  }

  /**
   From any reachable world in which the lock and every marker were abandoned by dead processes, a
   live contender that starts over and runs alone is inside after exactly two steps for each marker,
   two for its first scan and thirteen or four for the lock, depending on whether it was there; until
   then it can always take its next step.
   */
  lemma {:induction false} LoneContenderEnters(cfg: Config, first: World, w: World, t: ThreadId, steps: seq<Step>, last: World)
    requires Initial(first) && Reaches(cfg, first, w)
    requires t in w.threads && w.threads[t].pc == ScanStart && AllAbandoned(w, w.threads[t].staleMs)
    requires Leads(cfg, w, steps, last) && Solo(t, steps)
    ensures var bound := 2 * |w.markers| + (if w.lock.Some? then 15 else 6);
      && (RunCount(steps) == bound ==> IsInside(last, t))
      && (RunCount(steps) < bound ==> exists choice :: Enabled(last, Run(t, choice)))
  {
    var past :| Leads(cfg, first, past, w);
    RunsStaySane(cfg, first, past, w);
    assert OnTrack(w, t);
    if RunCount(steps) <= StepsToGo(w, t) {
      SoloAdvances(cfg, w, t, steps, last);
      RunsStaySane(cfg, w, steps, last);
      if !IsInside(last, t) {
        var choice := NeverStuck(last, t);
        assert Enabled(last, Run(t, choice));
      }
    }
  }
}