/**
 Whom the reapers of FileLock spare: nothing is taken for abandoned that a living process may still use
 or that is younger than the contender's bound, and a contender that meets it waits.
 */
module FileLockReaping {
  import opened Wrappers
  import opened FileLock

  // A thread that has found something abandoned is right about it, now and later.
  ghost predicate Justified(w: World, t: ThreadId)
    requires t in w.threads
  {
    var thread := w.threads[t];
    match thread.pc
    case ReapStat(_, i) => i in w.inodes && DeadAndOld(w, w.inodes[i], thread.staleMs)
    case ReapUnlink(_, i) => i in w.inodes && DeadAndOld(w, w.inodes[i], thread.staleMs)
    case ScanUnlink(_, n) => n in w.usedNames && (n in w.markers ==> DeadAndOld(w, w.markers[n], thread.staleMs))
    case _ => true
  }

  /** The process that wrote it has died, and the file is older than that. */
  predicate DeadAndOld(w: World, file: File, staleMs: nat) { file.pid in w.dead && file.mtime + staleMs < w.now }

  ghost predicate Fair(w: World) {
    w.markers.Keys <= w.usedNames && forall t | t in w.threads :: Justified(w, t)
  }

  // A move leaves every file a thread holds open, and every marker that stays, as it was.
  lemma MoveSpares(cfg: Config, w: World, t: ThreadId, choice: nat)
    requires t in w.threads && CanRun(w, t, choice) && w.markers.Keys <= w.usedNames
    ensures var w' := RunThread(cfg, w, t, choice);
      && w'.now == w.now && w'.dead == w.dead && w.usedNames <= w'.usedNames && w'.markers.Keys <= w'.usedNames
      && (forall i | i in w.inodes && (exists u | u in w.threads :: i in OpenFiles(w.threads[u].pc)) :: i in w'.inodes && w'.inodes[i] == w.inodes[i])
      && (forall n | n in w'.markers && n in w.usedNames :: n in w.markers && w'.markers[n] == w.markers[n])
  {}

  lemma OwnMove(cfg: Config, w: World, t: ThreadId, choice: nat)
    requires Fair(w) && t in w.threads && CanRun(w, t, choice)
    ensures Justified(RunThread(cfg, w, t, choice), t)
  {
    assert Justified(w, t);
    MoveSpares(cfg, w, t, choice);
    assert forall i | i in OpenFiles(w.threads[t].pc) :: exists u | u in w.threads :: i in OpenFiles(w.threads[u].pc);
  }

  lemma OthersMove(cfg: Config, w: World, t: ThreadId, choice: nat, u: ThreadId)
    requires Fair(w) && t in w.threads && CanRun(w, t, choice) && u in w.threads && u != t
    ensures Justified(RunThread(cfg, w, t, choice), u)
  {
    assert Justified(w, u);
    MoveSpares(cfg, w, t, choice);
    assert forall i | i in OpenFiles(w.threads[u].pc) :: exists v | v in w.threads :: i in OpenFiles(w.threads[v].pc);
    assert RunThread(cfg, w, t, choice).threads[u] == w.threads[u];
    hide MoveOf, RunThread, CanRun;
  }

  lemma StepStaysFair(cfg: Config, w: World, step: Step)
    requires Fair(w) && Enabled(w, step)
    ensures Fair(Apply(cfg, w, step))
  {
    var w' := Apply(cfg, w, step);
    if step.Run? {
      MoveSpares(cfg, w, step.tid, step.choice);
      forall u | u in w'.threads ensures Justified(w', u) {
        if u == step.tid {
          OwnMove(cfg, w, u, step.choice);
        } else {
          OthersMove(cfg, w, step.tid, step.choice, u);
        }
      }
      hide Justified, RunThread, CanRun;
    } else {
      assert forall u | u in w.threads :: Justified(w, u);
    }
  }

  lemma {:induction false} RunsStayFair(cfg: Config, w: World, steps: seq<Step>, last: World)
    requires Fair(w) && Leads(cfg, w, steps, last)
    ensures Fair(last)
    decreases |steps|
  {
    hide Fair, Apply, Enabled;
    if steps != [] {
      StepStaysFair(cfg, w, steps[0]);
      RunsStayFair(cfg, Apply(cfg, w, steps[0]), steps[1..], last);
    }
  }

  /**
   At every point of every run, whichever way back-outs are done: a thread about to remove an abandoned lock, or a
   marker that is still there, does so for a file of a process that has died, older than the thread's bound.
   */
  lemma {:induction false} OnlyAbandonedAreReaped(cfg: Config, first: World, steps: seq<Step>, w: World, t: ThreadId)
    requires Initial(first) && Leads(cfg, first, steps, w) && t in w.threads
    ensures forall n, i | w.threads[t].pc == ReapUnlink(n, i) ::
      i in w.inodes && w.inodes[i].pid in w.dead && w.now - w.inodes[i].mtime > w.threads[t].staleMs
    ensures forall s, n | w.threads[t].pc == ScanUnlink(s, n) && n in w.markers ::
      w.markers[n].pid in w.dead && w.now - w.markers[n].mtime > w.threads[t].staleMs
  {
    RunsStayFair(cfg, first, steps, w);
    assert Justified(w, t);
  }

  // -------------------------------------------------------------------------- waiting

  // The positions of a lone contender that meets a lock in use, with the steps it has left to its wait.
  ghost predicate Waiting(w: World, t: ThreadId, i: Inode) {
    && t in w.threads && w.lock == Some(i) && i in w.inodes && w.inodes[i].pid !in w.dead
    && match w.threads[t].pc
       case Scan(s) => s.candidate.None? && !s.active && w.markers == map[] && (s.pending.Some? ==> s.pending.value == {})
       case Create => w.markers == map[]
       case ReapMark => w.markers == map[]
       case ReapOpen(n) => w.markers.Keys == {n}
       case ReapInspect(n, j) => w.markers.Keys == {n} && j == i
       case ReapRelease(n, removed) => w.markers.Keys == {n} && !removed
       case Wait => w.markers == map[]
       case _ => false
  }

  function ToWait(pc: Pc): nat {
    match pc
    case Scan(s) => if s.pending.None? then 7 else 6
    case Create => 5
    case ReapMark => 4
    case ReapOpen(_) => 3
    case ReapInspect(_, _) => 2
    case ReapRelease(_, _) => 1
    case _ => 0
  }

  lemma WaitingStep(cfg: Config, w: World, t: ThreadId, i: Inode, step: Step)
    requires Waiting(w, t, i) && Enabled(w, step) && (step.Tick? || (step.Run? && step.tid == t && w.threads[t].pc != Wait))
    ensures var w' := Apply(cfg, w, step);
      && Waiting(w', t, i) && w'.inodes == w.inodes
      && ToWait(w'.threads[t].pc) == ToWait(w.threads[t].pc) - (if step.Run? then 1 else 0)
  {}

  lemma {:induction false} WaitingRun(cfg: Config, w: World, t: ThreadId, i: Inode, steps: seq<Step>, last: World)
    requires Waiting(w, t, i) && Leads(cfg, w, steps, last) && Solo(t, steps) && RunCount(steps) <= ToWait(w.threads[t].pc)
    ensures Waiting(last, t, i) && ToWait(last.threads[t].pc) == ToWait(w.threads[t].pc) - RunCount(steps) && last.inodes == w.inodes
    decreases |steps|
  {
    hide Waiting, Apply, Enabled;
    if steps != [] {
      assert steps[0].Tick? || (steps[0].Run? && steps[0].tid == t);
      assert forall k | 0 <= k < |steps[1..]| :: steps[1..][k] == steps[k + 1];
      WaitingStep(cfg, w, t, i, steps[0]);
      WaitingRun(cfg, Apply(cfg, w, steps[0]), t, i, steps[1..], last);
    }
  }

  /**
   A contender that starts over alone and meets the lock of a living process is waiting after exactly seven steps,
   where its deadline counts, with the lock and its file as they were and its own marker gone again.
   */
  lemma {:induction false} LivingLockIsWaitedFor(cfg: Config, w: World, t: ThreadId, i: Inode, steps: seq<Step>, last: World)
    requires t in w.threads && w.threads[t].pc == ScanStart && w.markers == map[]
    requires w.lock == Some(i) && i in w.inodes && w.inodes[i].pid !in w.dead
    requires Leads(cfg, w, steps, last) && Solo(t, steps) && RunCount(steps) <= 7
    ensures last.lock == Some(i) && i in last.inodes && last.inodes[i] == w.inodes[i]
    ensures RunCount(steps) == 7 ==> t in last.threads && last.threads[t].pc == Wait && last.markers == map[] && Enabled(last, GiveUp(t))
  {
    WaitingRun(cfg, w, t, i, steps, last);
  }
}
