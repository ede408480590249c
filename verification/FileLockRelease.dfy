/**
 What a thread that is done leaves of the lock of FileLock: the path names a file of a living process
 only while the thread that created it still holds it, and a thread inside that goes on alone is soon
 out, with the path free for the next one.
 */
module FileLockRelease {
  import opened Wrappers
  import opened FileLock

  ghost predicate Held(w: World, i: Inode) { exists t :: t in w.threads && Candidate(w.threads[t].pc) == Some(i) }

  // The lock is the very file that was left over before the run.
  predicate LeftOver(first: World, w: World) {
    w.lock.Some? && w.lock == first.lock && w.lock.value in first.inodes && w.lock.value in w.inodes
    && w.inodes[w.lock.value] == first.inodes[w.lock.value]
  }

  ghost predicate Owned(first: World, w: World) {
    w.lock.Some? ==>
      w.lock.value in w.inodes && (w.inodes[w.lock.value].pid in w.dead || LeftOver(first, w) || Held(w, w.lock.value))
  }

  // The holders of lock files are the living processes that wrote them.
  ghost predicate Attended(first: World, w: World) {
    && Sane(w) && Owned(first, w)
    && (forall t | t in w.threads :: Signed(w, t))
  }

  predicate Signed(w: World, t: ThreadId)
    requires t in w.threads
  {
    var own := Candidate(w.threads[t].pc);
    own.Some? ==> own.value in w.inodes && w.inodes[own.value].pid == w.threads[t].pid
  }

  // Whoever lets go of a file does so when the path names it no more, or takes it off the path.
  lemma LetsGo(cfg: Config, w: World, t: ThreadId, choice: nat)
    requires Sane(w) && t in w.threads && CanRun(w, t, choice)
    ensures var own, move := Candidate(w.threads[t].pc), MoveOf(cfg, w, w.threads[t], choice);
      && (own.Some? && Candidate(move.pc) != own ==> w.lock != own || move.effect.Unlink?)
      && (move.effect.Link? ==> w.lock.None? && FreeInode(w, move.effect.inode) && Candidate(move.pc) == Some(move.effect.inode))
      && (Candidate(move.pc) in {None, own} || (move.effect.Link? && own.None?))
  {}

  lemma RunAttended(cfg: Config, first: World, w: World, t: ThreadId, choice: nat)
    requires Attended(first, w) && t in w.threads && CanRun(w, t, choice)
    ensures Attended(first, RunThread(cfg, w, t, choice))
  {
    RunStaysSane(cfg, w, t, choice);
    LetsGo(cfg, w, t, choice);
    var move := MoveOf(cfg, w, w.threads[t], choice);
    var w' := RunThread(cfg, w, t, choice);
    hide MoveOf, Sane;
    forall u | u in w'.threads ensures Signed(w', u) {
      assert Signed(w, u);
      CandidateOpen(w.threads[u].pc);
    }
    if w'.lock.Some? {
      KeepsHeld(first, w, t, move);
    }
  }

  lemma CandidateOpen(pc: Pc)
    ensures Candidate(pc).Some? ==> Candidate(pc).value in OpenFiles(pc)
  {}

  // The step of a thread that does not clear the path.
  lemma KeepsHeld(first: World, w: World, t: ThreadId, move: Move)
    requires Owned(first, w) && t in w.threads
    requires var own := Candidate(w.threads[t].pc);
      && (own.Some? && Candidate(move.pc) != own ==> w.lock != own || move.effect.Unlink?)
      && (move.effect.Link? ==> w.lock.None? && Candidate(move.pc) == Some(move.effect.inode))
    requires Goto(Perform(w, w.threads[t].pid, move.effect), t, move.pc).lock.Some?
    ensures Owned(first, Goto(Perform(w, w.threads[t].pid, move.effect), t, move.pc))
  {
    var w' := Goto(Perform(w, w.threads[t].pid, move.effect), t, move.pc);
    if move.effect.Link? {
      assert Candidate(w'.threads[t].pc) == w'.lock;
    } else if Held(w, w.lock.value) {
      var u :| u in w.threads && Candidate(w.threads[u].pc) == w.lock;
      assert Candidate(w'.threads[u].pc) == w'.lock;
    }
  }

  lemma CrashAttended(cfg: Config, first: World, w: World, p: Pid)
    requires Attended(first, w)
    ensures Attended(first, Apply(cfg, w, Crash(p)))
  {
    var w' := Apply(cfg, w, Crash(p));
    StepStaysSane(cfg, w, Crash(p));
    forall u | u in w'.threads ensures Signed(w', u) {
      assert Signed(w, u);
    }
    if w.lock.Some? && Held(w, w.lock.value) {
      var u :| u in w.threads && Candidate(w.threads[u].pc) == w.lock;
      assert Signed(w, u);
      assert w.threads[u].pid != p ==> Candidate(w'.threads[u].pc) == w'.lock;
    }
  }

  lemma StepAttended(cfg: Config, first: World, w: World, step: Step)
    requires Attended(first, w) && Enabled(w, step)
    ensures Attended(first, Apply(cfg, w, step))
  {
    match step
    case Crash(p) => CrashAttended(cfg, first, w, p);
    case Run(t, choice) => RunAttended(cfg, first, w, t, choice);
    case _ =>
      StepStaysSane(cfg, w, step);
      QuietAttended(cfg, first, w, step);
  }

  lemma QuietAttended(cfg: Config, first: World, w: World, step: Step)
    requires Attended(first, w) && Enabled(w, step) && (step.Start? || step.Tick? || step.GiveUp?)
    ensures var w' := Apply(cfg, w, step); Owned(first, w') && forall t | t in w'.threads :: Signed(w', t)
  {
    var w' := Apply(cfg, w, step);
    forall u | u in w'.threads ensures Signed(w', u) {
      assert u in w.threads ==> Signed(w, u);
    }
    if w.lock.Some? && Held(w, w.lock.value) {
      var u :| u in w.threads && Candidate(w.threads[u].pc) == w.lock;
      assert Candidate(w'.threads[u].pc) == w'.lock;
    }
  }

  lemma {:induction false} RunsAttended(cfg: Config, first: World, w: World, steps: seq<Step>, last: World)
    requires Attended(first, w) && Leads(cfg, w, steps, last)
    ensures Attended(first, last)
    decreases |steps|
  {
    hide Attended, Apply, Enabled;
    if steps != [] {
      StepAttended(cfg, first, w, steps[0]);
      RunsAttended(cfg, first, Apply(cfg, w, steps[0]), steps[1..], last);
    }
  }

  /**
   Over every run, of either back-out, with crashes at any point: a lock file of a living process that
   was not there before the run has a thread of that process still holding it, on its way in, inside or
   on its way out.  Nobody goes away and leaves the path taken.
   */
  lemma {:induction false} NoForgottenLock(cfg: Config, first: World, steps: seq<Step>, w: World)
    requires Initial(first) && Leads(cfg, first, steps, w)
    requires w.lock.Some? && !LeftOver(first, w) && (w.lock.value in w.inodes ==> w.inodes[w.lock.value].pid !in w.dead)
    ensures w.lock.value in w.inodes
    ensures exists t :: t in w.threads && Candidate(w.threads[t].pc) == w.lock
                     && w.threads[t].pid == w.inodes[w.lock.value].pid && w.threads[t].pc != Idle
  {
    RunsAttended(cfg, first, first, steps, w);
    var t :| t in w.threads && Candidate(w.threads[t].pc) == w.lock;
    assert Signed(w, t);
  }

  // -------------------------------------------------------------------------- markers

  ghost predicate Announced(w: World, n: MarkerName) { exists t :: t in w.threads && Marker(w.threads[t].pc) == Some(n) }

  // The reapers of markers are the living processes that wrote them.
  ghost predicate MarkersAttended(first: World, w: World) {
    && (forall n | n in w.markers :: n in first.markers || w.markers[n].pid in w.dead || Announced(w, n))
    && (forall t | t in w.threads :: MarkerSigned(w, t))
    && (forall t | t in w.threads && w.threads[t].pid in w.dead :: w.threads[t].pc == Dead)
    && w.markers.Keys <= w.usedNames
    && (forall t | t in w.threads && Marker(w.threads[t].pc).Some? :: Marker(w.threads[t].pc).value in w.usedNames)
  }

  predicate MarkerSigned(w: World, t: ThreadId)
    requires t in w.threads
  {
    var n := Marker(w.threads[t].pc);
    n.Some? && n.value in w.markers ==> w.markers[n.value].pid == w.threads[t].pid
  }

  lemma Withdraws(cfg: Config, w: World, t: ThreadId, choice: nat)
    requires t in w.threads && CanRun(w, t, choice)
    ensures var mark, move := Marker(w.threads[t].pc), MoveOf(cfg, w, w.threads[t], choice);
      && (mark.Some? && Marker(move.pc) != mark ==> move.effect == Unmark(mark.value))
      && (move.effect.Mark? ==> move.effect.name !in w.usedNames && Marker(move.pc) == Some(move.effect.name))
      && (Marker(move.pc) in {None, mark} || (move.effect.Mark? && mark.None?))
  {}

  lemma RunMarkersSigned(cfg: Config, first: World, w: World, t: ThreadId, choice: nat)
    requires MarkersAttended(first, w) && t in w.threads && CanRun(w, t, choice)
    ensures var w' := RunThread(cfg, w, t, choice);
      && (forall u | u in w'.threads :: MarkerSigned(w', u))
      && (forall u | u in w'.threads && w'.threads[u].pid in w'.dead :: w'.threads[u].pc == Dead)
      && w'.markers.Keys <= w'.usedNames
      && (forall u | u in w'.threads && Marker(w'.threads[u].pc).Some? :: Marker(w'.threads[u].pc).value in w'.usedNames)
  {
    Withdraws(cfg, w, t, choice);
    var move := MoveOf(cfg, w, w.threads[t], choice);
    var w' := RunThread(cfg, w, t, choice);
    assert w.threads[t].pc == Dead ==> move.pc == Dead;
    hide MoveOf, Announced, Marker;
    forall u | u in w'.threads ensures MarkerSigned(w', u) {
      assert MarkerSigned(w, u);
    }
  }

  lemma RunAnnounced(cfg: Config, w: World, t: ThreadId, choice: nat, n: MarkerName)
    requires t in w.threads && CanRun(w, t, choice)
    requires n in RunThread(cfg, w, t, choice).markers && (n in w.markers ==> Announced(w, n))
    ensures Announced(RunThread(cfg, w, t, choice), n)
  {
    Withdraws(cfg, w, t, choice);
    var move := MoveOf(cfg, w, w.threads[t], choice);
    var w' := RunThread(cfg, w, t, choice);
    hide MoveOf, Marker;
    if n !in w.markers {
      assert Marker(w'.threads[t].pc) == Some(n);
    } else {
      var u :| u in w.threads && Marker(w.threads[u].pc) == Some(n);
      assert Marker(w'.threads[u].pc) == Some(n);
    }
  }

  lemma RunMarkersAttended(cfg: Config, first: World, w: World, t: ThreadId, choice: nat)
    requires MarkersAttended(first, w) && t in w.threads && CanRun(w, t, choice)
    ensures MarkersAttended(first, RunThread(cfg, w, t, choice))
  {
    var w' := RunThread(cfg, w, t, choice);
    RunMarkersSigned(cfg, first, w, t, choice);
    assert w'.dead == w.dead && forall n | n in w'.markers && n in w.markers :: w'.markers[n] == w.markers[n] by {
      Withdraws(cfg, w, t, choice);
      assert w.markers.Keys <= w.usedNames;
    }
    forall n | n in w'.markers ensures n in first.markers || w'.markers[n].pid in w'.dead || Announced(w', n) {
      if n !in w.markers || Announced(w, n) {
        RunAnnounced(cfg, w, t, choice, n);
      }
    }
  }

  lemma OtherAnnounced(cfg: Config, w: World, step: Step, n: MarkerName)
    requires Enabled(w, step) && !step.Run? && n in w.markers && Announced(w, n)
    requires forall t | t in w.threads :: MarkerSigned(w, t)
    ensures w.markers[n].pid in Apply(cfg, w, step).dead || Announced(Apply(cfg, w, step), n)
  {
    var w' := Apply(cfg, w, step);
    var u :| u in w.threads && Marker(w.threads[u].pc) == Some(n);
    assert MarkerSigned(w, u);
    hide Marker, MarkerSigned;
    assert w'.threads[u].pc == w.threads[u].pc || w.threads[u].pid in w'.dead || w.threads[u].pc == Wait;
    assert Marker(Wait) == None by {
      NoMarker();
    }
  }

  lemma NoMarker()
    ensures Marker(Wait) == None
  {}

  lemma StepMarkersAttended(cfg: Config, first: World, w: World, step: Step)
    requires MarkersAttended(first, w) && Enabled(w, step)
    ensures MarkersAttended(first, Apply(cfg, w, step))
  {
    if step.Run? {
      RunMarkersAttended(cfg, first, w, step.tid, step.choice);
    } else {
      var w' := Apply(cfg, w, step);
      forall u | u in w'.threads ensures MarkerSigned(w', u) {
        assert u in w.threads ==> MarkerSigned(w, u);
      }
      forall n | n in w'.markers ensures n in first.markers || w'.markers[n].pid in w'.dead || Announced(w', n) {
        if Announced(w, n) {
          OtherAnnounced(cfg, w, step, n);
        }
      }
      hide Announced, MarkerSigned;
    }
  }

  lemma {:induction false} RunsMarkersAttended(cfg: Config, first: World, w: World, steps: seq<Step>, last: World)
    requires MarkersAttended(first, w) && Leads(cfg, w, steps, last)
    ensures MarkersAttended(first, last)
    decreases |steps|
  {
    hide MarkersAttended, Apply, Enabled;
    if steps != [] {
      StepMarkersAttended(cfg, first, w, steps[0]);
      RunsMarkersAttended(cfg, first, Apply(cfg, w, steps[0]), steps[1..], last);
    }
  }

  /** Nor is a marker forgotten: one of a living process that was not there before the run has its reaper still at work. */
  lemma {:induction false} NoForgottenMarker(cfg: Config, first: World, steps: seq<Step>, w: World, n: MarkerName)
    requires Initial(first) && Leads(cfg, first, steps, w)
    requires n in w.markers && n !in first.markers && w.markers[n].pid !in w.dead
    ensures exists t :: t in w.threads && Marker(w.threads[t].pc) == Some(n) && w.threads[t].pid == w.markers[n].pid
  {
    RunsMarkersAttended(cfg, first, first, steps, w);
    var t :| t in w.threads && Marker(w.threads[t].pc) == Some(n);
    assert MarkerSigned(w, t);
  }

  // -------------------------------------------------------------------------- on the way out

  // A holder and its way out, with the steps it has left.
  function WayOut(pc: Pc): nat {
    match pc
    case Inside(_) => 3
    case Leave(_) => 2
    case LeaveUnlink(_) => 1
    case _ => 0
  }

  ghost predicate Leaving(w: World, t: ThreadId) {
    && t in w.threads
    && ((Holding(w.threads[t].pc) && w.lock == Some(w.threads[t].pc.own)) || (w.threads[t].pc == Idle && w.lock.None?))
  }

  lemma LeavingStep(cfg: Config, w: World, t: ThreadId, step: Step)
    requires Leaving(w, t) && Enabled(w, step) && (step.Tick? || (step.Run? && step.tid == t))
    ensures var w' := Apply(cfg, w, step);
      && Leaving(w', t)
      && WayOut(w'.threads[t].pc) == WayOut(w.threads[t].pc) - (if step.Run? then 1 else 0)
      && w'.markers == w.markers
  {}

  lemma {:induction false} LeavingRun(cfg: Config, w: World, t: ThreadId, steps: seq<Step>, last: World)
    requires Leaving(w, t) && Leads(cfg, w, steps, last) && Solo(t, steps)
    ensures Leaving(last, t) && WayOut(last.threads[t].pc) == WayOut(w.threads[t].pc) - RunCount(steps)
    ensures last.markers == w.markers
    decreases |steps|
  {
    hide Leaving, Apply, Enabled;
    if steps != [] {
      assert steps[0].Tick? || (steps[0].Run? && steps[0].tid == t);
      assert forall k | 0 <= k < |steps[1..]| :: steps[1..][k] == steps[k + 1];
      LeavingStep(cfg, w, t, steps[0]);
      LeavingRun(cfg, Apply(cfg, w, steps[0]), t, steps[1..], last);
    }
  }

  lemma WaysOut(w: World, t: ThreadId)
    requires Leaving(w, t)
    ensures WayOut(w.threads[t].pc) == 0 ==> w.threads[t].pc == Idle && w.lock.None?
    ensures WayOut(w.threads[t].pc) > 0 ==> forall choice :: Enabled(w, Run(t, choice))
  {}

  /**
   A thread inside that goes on alone is never stuck, has gone out after exactly three steps of its
   own, and leaves the path free and no marker it did not find.
   */
  lemma {:induction false} HolderGetsOut(cfg: Config, first: World, past: seq<Step>, w: World, t: ThreadId, steps: seq<Step>, last: World)
    requires Initial(first) && Leads(cfg, first, past, w) && CleanRun(cfg, first, past) && IsInside(w, t)
    requires Leads(cfg, w, steps, last) && Solo(t, steps)
    ensures t in last.threads && last.markers == w.markers && RunCount(steps) <= 3
    ensures RunCount(steps) == 3 ==> last.threads[t].pc == Idle && last.lock.None?
    ensures RunCount(steps) < 3 ==> exists choice :: Enabled(last, Run(t, choice))
  {
    CleanRunsAreExclusive(cfg, first, past, w);
    assert Leaving(w, t);
    LeavingRun(cfg, w, t, steps, last);
    WaysOut(last, t);
    if RunCount(steps) < 3 {
      assert Enabled(last, Run(t, 0));
    }
  }

  /**
   The lock is handed over: when a holder has gone out and no marker is about, the next contender that
   runs alone is inside after exactly six steps, whatever was on disk before the holder came.
   */
  lemma {:induction false} HandedOver(cfg: Config, first: World, past: seq<Step>, w: World, t: ThreadId, out: seq<Step>, between: World,
                                      u: ThreadId, steps: seq<Step>, last: World)
    requires Initial(first) && Leads(cfg, first, past, w) && CleanRun(cfg, first, past) && IsInside(w, t) && w.markers == map[]
    requires Leads(cfg, w, out, between) && Solo(t, out) && RunCount(out) == 3
    requires u in between.threads && between.threads[u].pc == ScanStart
    requires Leads(cfg, between, steps, last) && Solo(u, steps) && RunCount(steps) == 6
    ensures IsInside(last, u)
  {
    HolderGetsOut(cfg, first, past, w, t, out, between);
    LeadsAppend(cfg, first, past, w, out, between);
    assert Reaches(cfg, first, between);
    LoneContenderEnters(cfg, first, between, u, steps, last);
  }
}
