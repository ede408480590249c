/**
 The checkout's own session files of src/session/state.ts, and how they follow the ownership index
 through crashes.

 A commit saves the index, then the workspace file, then the session's thread file; a retirement
 saves the index and then removes the thread file.  Every file write or removal is atomic and a crash
 may fall between any two.  The next reconcile replays the index into the files.  Mirrors are left
 out here: nothing reads them.  Timestamps are left out too.
 */
module SessionRoutes {
  import opened Wrappers
  import opened Lists
  import opened SurfaceOwnership
  import opened SurfaceInvariants
  import opened SurfaceRuns
  import opened SurfaceOutcomes

  const MAX_C2C_ITERATION := 10_000

  datatype Page = Page(generation: nat, tab: string)

  /** A task checkpoint: what it must repeat of its session, and the rest as one text. */
  datatype Checkpoint = Checkpoint(task: string, iteration: nat, chat: Option<Chat>, body: string)

  datatype WorkspaceFile = WorkspaceFile(projectMode: bool, projectUrl: Option<Url>, connector: Option<string>)

  datatype ThreadFile = ThreadFile(
    chat: Option<Chat>,
    title: Option<string>,
    task: Option<string>,
    iteration: Option<nat>,
    lastState: Option<string>,
    checkpoint: Option<Checkpoint>,
    page: Option<Page>)

  datatype Checkout = Checkout(workspace: Option<WorkspaceFile>, threads: map<Id, ThreadFile>)

  datatype Session = Session(workspace: WorkspaceFile, thread: ThreadFile)

  datatype Step =
    | SaveIndex(machine: Machine)
    | SaveWorkspace(file: WorkspaceFile)
    | DropWorkspace
    | SaveThread(sessionId: Id, thread: ThreadFile)
    | DropThread(sessionId: Id)

  datatype Disk = Disk(machine: Machine, checkout: Checkout)

  const NO_WORKSPACE := WorkspaceFile(false, None, None)
  const NO_THREAD := ThreadFile(None, None, None, None, None, None, None)

  // -------------------------------------------------------------------------- reading

  predicate PageReadable(p: Page) { 1 <= p.generation <= MAX_C2C_ITERATION }

  predicate ThreadReadable(t: ThreadFile) {
    && (t.page.Some? ==> PageReadable(t.page.value))
    && (t.checkpoint.Some? ==>
          t.task == Some(t.checkpoint.value.task) && t.iteration == Some(t.checkpoint.value.iteration)
          && t.chat == t.checkpoint.value.chat)
  }

  predicate Readable(c: Checkout) {
    && (c.workspace.Some? && c.workspace.value.projectMode ==> c.workspace.value.projectUrl.Some?)
    && (forall s | s in c.threads :: ThreadReadable(c.threads[s]))
  }

  // `readSessionUnlocked`: the two files as one record; a missing one counts as empty.
  function ReadSession(c: Checkout, s: Id): Option<Session> {
    if c.workspace.None? && s !in c.threads then None
    else Some(Session(c.workspace.GetOr(NO_WORKSPACE), if s in c.threads then c.threads[s] else NO_THREAD))
  }

  // -------------------------------------------------------------------------- writing

  function Apply1(d: Disk, step: Step): Disk {
    match step
    case SaveIndex(m) => d.(machine := m)
    case SaveWorkspace(w) => d.(checkout := d.checkout.(workspace := Some(w)))
    case DropWorkspace => d.(checkout := d.checkout.(workspace := None))
    case SaveThread(s, t) => d.(checkout := d.checkout.(threads := d.checkout.threads[s := t]))
    case DropThread(s) => d.(checkout := d.checkout.(threads := d.checkout.threads - {s}))
  }

  function ApplyAll(d: Disk, steps: seq<Step>): Disk
    decreases |steps|
  {
    if steps == [] then d else ApplyAll(Apply1(d, steps[0]), steps[1..])
  }

  function OrElse<T>(a: Option<T>, b: Option<T>): Option<T> { if a.Some? then a else b }

  predicate HasThreadState(t: ThreadFile) { t != NO_THREAD }

  // The workspace file `writeSessionUnlocked` would write, allowed to rebind the Project.
  function NewWorkspace(c: Checkout, w: WorkspaceFile, clearProject: bool): WorkspaceFile {
    var before := c.workspace.GetOr(NO_WORKSPACE);
    if clearProject then NO_WORKSPACE
    else WorkspaceFile(w.projectMode || before.projectMode, OrElse(w.projectUrl, before.projectUrl), OrElse(w.connector, before.connector))
  }

  // The thread file it would write.
  function NewThread(t: ThreadFile): ThreadFile {
    match t.checkpoint
    case None => t
    case Some(p) =>
      t.(task := OrElse(t.task, Some(p.task)), iteration := OrElse(t.iteration, Some(p.iteration)),
         checkpoint := Some(p.(chat := t.chat)))
  }

  // Why it may refuse the session.
  predicate Refuses(w: WorkspaceFile, given: ThreadFile, t: ThreadFile) {
    || (w.projectMode && w.projectUrl.None?)
    || (t.chat.Some? && w.projectUrl != Some(t.chat.value.projectUrl))
    || (t.page.Some? && !PageReadable(t.page.value))
    || (t.checkpoint.Some? && (t.task != Some(t.checkpoint.value.task) || t.iteration != Some(t.checkpoint.value.iteration)))
    || (given.checkpoint.Some? && given.chat.Some? && given.checkpoint.value.chat.Some? && given.checkpoint.value.chat != given.chat)
  }

  // The writes of `writeSessionUnlocked`, or None when it refuses the session.
  function WriteSession(c: Checkout, s: Id, session: Session, clearProject: bool): Option<seq<Step>> {
    var w, t := NewWorkspace(c, session.workspace, clearProject), NewThread(session.thread);
    if Refuses(w, session.thread, t) then None
    else Some(if HasThreadState(t) then [SaveWorkspace(w), SaveThread(s, t)] else [SaveWorkspace(w)])
  }

  predicate RouteMatches(session: Session, b: Binding) {
    && session.workspace.projectUrl == Some(b.route.projectUrl)
    && session.thread.chat == b.route.chat
    && session.thread.page == Some(Page(b.generation, b.route.tab))
    && session.thread.checkpoint.Some? && session.thread.checkpoint.value.chat == b.route.chat
  }

  // The session a reconcile writes for a binding.
  function BoundSession(c: Checkout, s: Id, b: Binding, connector: Option<string>): Session {
    var previous := ReadSession(c, s).GetOr(Session(NO_WORKSPACE, NO_THREAD));
    var t := previous.thread;
    var checkpoint := if t.checkpoint.Some? then Some(t.checkpoint.value.(chat := b.route.chat)) else None;
    Session(WorkspaceFile(true, Some(b.route.projectUrl), OrElse(connector, previous.workspace.connector)),
            t.(chat := b.route.chat, page := Some(Page(b.generation, b.route.tab)), checkpoint := checkpoint))
  }

  // `reconcileSessionRoute`: None when it throws.
  function ReconcileRoute(c: Checkout, s: Id, b: Binding, connector: Option<string>): Option<seq<Step>> {
    if !PageReadable(Page(b.generation, b.route.tab)) || !ChatFits(b.route) then None
    else
      var read := ReadSession(c, s);
      var previous := read.GetOr(Session(NO_WORKSPACE, NO_THREAD));
      if read.Some? && RouteMatches(previous, b) then Some([])
      else
        WriteSession(c, s, BoundSession(c, s, b, connector), false)
  }

  predicate HasWork(t: ThreadFile) { t.task.Some? || t.iteration.Some? || t.lastState.Some? || t.checkpoint.Some? }

  // A session with work, without its route.
  function ClearedSession(previous: Session, projectUrl: Option<Url>): Session {
    var w, t := previous.workspace, previous.thread;
    var checkpoint := if t.checkpoint.Some? then Some(t.checkpoint.value.(chat := None)) else None;
    Session(if projectUrl.None? then NO_WORKSPACE else w.(projectUrl := projectUrl),
            t.(chat := None, title := None, page := None, checkpoint := checkpoint))
  }

  // `clearSessionRoute` with the Project URL of the index, None to clear that as well.
  function ClearRoute(c: Checkout, s: Id, projectUrl: Option<Url>): Option<seq<Step>> {
    var read := ReadSession(c, s);
    if read.None? then Some([])
    else
      var previous := read.value;
      var w, t := previous.workspace, previous.thread;
      if HasWork(t) then WriteSession(c, s, ClearedSession(previous, projectUrl), projectUrl.None?)
      else if projectUrl.None? then Some([DropThread(s), DropWorkspace])
      else
        match WriteSession(c, s, Session(w.(projectMode := true, projectUrl := projectUrl), NO_THREAD), false)
        case None => None
        case Some(steps) => Some([DropThread(s)] + steps)
  }

  // -------------------------------------------------------------------------- the operations

  function BindingAt(m: Machine, k: Key): Option<Binding> { Find(m.bindings, BindingOf(k)) }

  function ProjectUrlAt(m: Machine, p: Id): Option<Url> {
    if p in m.projectUrls then Some(m.projectUrls[p]) else None
  }

  function RouteSteps(c: Checkout, m: Machine, k: Key): Option<seq<Step>> {
    var b := BindingAt(m, k);
    if b.Some? then ReconcileRoute(c, k.sessionId, b.value, None)
    else ClearRoute(c, k.sessionId, ProjectUrlAt(m, k.projectId))
  }

  /** `reconcileSurfaceSessionRoute`: the route first, the index after it; nothing when it throws before. */
  function ReconcileSteps(d: Disk, k: Key, at: int): seq<Step> {
    var s := Synced(Reaped(d.machine, at), k.projectId, false);
    if !Consistent(s) then []
    else
      match RouteSteps(d.checkout, s, k)
      case None => []
      case Some(steps) => steps + [SaveIndex(s)]
  }

  /** `commitVerifiedSurfaceRoute`: the index, then the route; the route may still throw. */
  function CommitSteps(d: Disk, ref: LeaseRef, observed: Option<Chat>, connector: Option<string>, at: int): seq<Step> {
    var (m, outcome) := Apply(d.machine, Commit(ref, observed, at));
    match outcome
    case Ok(Bound(b)) => [SaveIndex(m)] + ReconcileRoute(d.checkout, ref.key.sessionId, b, connector).GetOr([])
    case _ => [SaveIndex(m)]
  }

  /** `retireSurfaceSession`: the index, then the thread file. */
  function RetireSteps(d: Disk, k: Key): seq<Step> {
    var (m, outcome) := Apply(d.machine, Retire(k));
    if outcome.Err? then [] else [SaveIndex(m), DropThread(k.sessionId)]
  }

  // -------------------------------------------------------------------------- what holds

  ghost predicate Sound(d: Disk) { Inv(d.machine) && Readable(d.checkout) }

  ghost predicate StepSound(step: Step) {
    match step
    case SaveIndex(m) => Inv(m)
    case SaveWorkspace(w) => w.projectMode ==> w.projectUrl.Some?
    case SaveThread(_, t) => ThreadReadable(t)
    case _ => true
  }

  lemma {:induction false} StepsStaySound(d: Disk, steps: seq<Step>)
    requires Sound(d) && forall i | 0 <= i < |steps| :: StepSound(steps[i])
    ensures Sound(ApplyAll(d, steps))
    decreases |steps|
  {
    hide Inv;
    if steps != [] {
      assert StepSound(steps[0]);
      assert Sound(Apply1(d, steps[0]));
      StepsStaySound(Apply1(d, steps[0]), steps[1..]);
    }
  }

  /** The route on file is the binding of the index, or there is neither. */
  predicate Agrees(m: Machine, c: Checkout, k: Key) {
    var b, s := BindingAt(m, k), k.sessionId;
    if b.Some? then
      && c.workspace.Some? && c.workspace.value.projectUrl == Some(b.value.route.projectUrl)
      && s in c.threads && c.threads[s].chat == b.value.route.chat
      && c.threads[s].page == Some(Page(b.value.generation, b.value.route.tab))
    else
      && (s in c.threads ==> c.threads[s].chat.None? && c.threads[s].page.None?)
      && (c.workspace.Some? ==> c.workspace.value.projectUrl == ProjectUrlAt(m, k.projectId))
  }

  // The files a list of route steps leaves.
  function Filed(c: Checkout, steps: seq<Step>): Checkout { ApplyAll(Disk(EMPTY, c), steps).checkout }

  predicate RouteOnly(steps: seq<Step>) { forall i | 0 <= i < |steps| :: !steps[i].SaveIndex? }

  lemma {:induction false} FiledAnywhere(d: Disk, steps: seq<Step>)
    requires RouteOnly(steps)
    ensures ApplyAll(d, steps) == Disk(d.machine, Filed(d.checkout, steps))
    decreases |steps|
  {
    if steps != [] {
      assert !steps[0].SaveIndex?;
      FiledAnywhere(Apply1(d, steps[0]), steps[1..]);
      FiledAnywhere(Apply1(Disk(EMPTY, d.checkout), steps[0]), steps[1..]);
    }
  }

  lemma {:induction false} ApplyAllAppend(d: Disk, a: seq<Step>, b: seq<Step>)
    ensures ApplyAll(d, a + b) == ApplyAll(ApplyAll(d, a), b)
    decreases |a|
  {
    if a == [] {
      assert a + b == b;
    } else {
      assert (a + b)[1..] == a[1..] + b;
      ApplyAllAppend(Apply1(d, a[0]), a[1..], b);
    }
  }

  // What a session's work consists of; reconciling a route keeps it.
  function WorkOf(t: ThreadFile): (Option<string>, Option<nat>, Option<string>, Option<string>) {
    (t.task, t.iteration, t.lastState, if t.checkpoint.Some? then Some(t.checkpoint.value.body) else None)
  }

  predicate KeepsWork(c: Checkout, c': Checkout, s: Id) {
    && (s in c.threads && HasWork(c.threads[s]) ==> s in c'.threads && WorkOf(c'.threads[s]) == WorkOf(c.threads[s]))
    && c'.threads.Keys <= c.threads.Keys + {s} && c.threads.Keys <= c'.threads.Keys + {s}
    && (forall o | o in c.threads && o != s :: o in c'.threads && c'.threads[o] == c.threads[o])
  }

  lemma BindingShape(m: Machine, k: Key)
    requires Inv(m) && BindingAt(m, k).Some?
    ensures var b := BindingAt(m, k).value;
      b.route.chat.Some? && ChatFits(b.route) && b.route.key == k && b.generation >= 1
  {
    RoutesElements(m);
    assert RouteOk(m, BindingAt(m, k).value.route);
  }

  lemma FiledOne(c: Checkout, a: Step)
    requires !a.SaveIndex?
    ensures RouteOnly([a]) && Filed(c, [a]) == Apply1(Disk(EMPTY, c), a).checkout
  {
    var d := Apply1(Disk(EMPTY, c), a);
    assert [a][1..] == [];
    assert ApplyAll(d, []) == d;
  }

  lemma FiledTwo(c: Checkout, a: Step, b: Step)
    requires !a.SaveIndex? && !b.SaveIndex?
    ensures RouteOnly([a, b]) && Filed(c, [a, b]) == Apply1(Apply1(Disk(EMPTY, c), a), b).checkout
  {
    assert [a, b][1..] == [b];
    assert ApplyAll(Apply1(Disk(EMPTY, c), a), [b]) == Apply1(Apply1(Disk(EMPTY, c), a), b);
  }

  // What a session write leaves on file.
  function Written(c: Checkout, s: Id, session: Session, clearProject: bool): Checkout {
    var t := NewThread(session.thread);
    Checkout(Some(NewWorkspace(c, session.workspace, clearProject)), if HasThreadState(t) then c.threads[s := t] else c.threads)
  }

  lemma WriteSessionFiled(c: Checkout, s: Id, session: Session, clearProject: bool)
    requires WriteSession(c, s, session, clearProject).Some?
    ensures var steps := WriteSession(c, s, session, clearProject).value;
      RouteOnly(steps) && Filed(c, steps) == Written(c, s, session, clearProject)
  {
    var w, t := NewWorkspace(c, session.workspace, clearProject), NewThread(session.thread);
    FiledOne(c, SaveWorkspace(w));
    FiledTwo(c, SaveWorkspace(w), SaveThread(s, t));
  }

  predicate BindingOnFile(c: Checkout, s: Id, b: Binding) {
    && c.workspace.Some? && c.workspace.value.projectUrl == Some(b.route.projectUrl)
    && s in c.threads && c.threads[s].chat == b.route.chat && c.threads[s].page == Some(Page(b.generation, b.route.tab))
  }

  lemma ReconcileFiled(c: Checkout, s: Id, b: Binding, connector: Option<string>)
    requires Readable(c) && ChatFits(b.route) && b.route.chat.Some? && PageReadable(Page(b.generation, b.route.tab))
    ensures var steps := ReconcileRoute(c, s, b, connector);
      && steps.Some? && RouteOnly(steps.value)
      && var c' := Filed(c, steps.value);
         BindingOnFile(c', s, b) && KeepsWork(c, c', s) && (connector.None? ==> KeepsConnector(c, c'))
  {
    var session := BoundSession(c, s, b, connector);
    if ReadSession(c, s).Some? && RouteMatches(ReadSession(c, s).value, b) {
      assert Filed(c, []) == c;
    } else {
      assert WriteSession(c, s, session, false).Some?;
      WriteSessionFiled(c, s, session, false);
    }
  }

  predicate NoRouteOnFile(c: Checkout, s: Id, projectUrl: Option<Url>) {
    && (c.workspace.Some? || s !in c.threads)
    && (s in c.threads ==> c.threads[s].chat.None? && c.threads[s].page.None? && c.threads[s].title.None?)
    && (c.workspace.Some? ==> c.workspace.value.projectUrl == projectUrl)
  }

  // The connector on file is the one before.
  predicate KeepsConnector(c: Checkout, c': Checkout) {
    c.workspace.Some? ==> c'.workspace.Some? && c'.workspace.value.connector == c.workspace.value.connector
  }

  lemma ClearFiled(c: Checkout, s: Id, projectUrl: Option<Url>)
    requires Readable(c)
    ensures var steps := ClearRoute(c, s, projectUrl);
      && steps.Some? && RouteOnly(steps.value)
      && var c' := Filed(c, steps.value);
         NoRouteOnFile(c', s, projectUrl) && KeepsWork(c, c', s) && (projectUrl.Some? ==> KeepsConnector(c, c'))
  {
    var read := ReadSession(c, s);
    if read.None? {
      assert Filed(c, []) == c;
    } else if HasWork(read.value.thread) {
      WriteSessionFiled(c, s, ClearedSession(read.value, projectUrl), projectUrl.None?);
    } else if projectUrl.None? {
      FiledTwo(c, DropThread(s), DropWorkspace);
    } else {
      var w := NewWorkspace(c, read.value.workspace.(projectMode := true, projectUrl := projectUrl), false);
      FiledTwo(c, DropThread(s), SaveWorkspace(w));
    }
  }

  lemma ReconcileReadable(c: Checkout, s: Id, b: Binding, connector: Option<string>)
    requires Readable(c) && ReconcileRoute(c, s, b, connector).Some?
    ensures Readable(Filed(c, ReconcileRoute(c, s, b, connector).value))
  {
    if ReadSession(c, s).Some? && RouteMatches(ReadSession(c, s).value, b) {
      assert Filed(c, []) == c;
    } else {
      WriteSessionFiled(c, s, BoundSession(c, s, b, connector), false);
    }
  }

  lemma ClearReadable(c: Checkout, s: Id, projectUrl: Option<Url>)
    requires Readable(c) && ClearRoute(c, s, projectUrl).Some?
    ensures Readable(Filed(c, ClearRoute(c, s, projectUrl).value))
  {
    var read := ReadSession(c, s);
    if read.None? {
      assert Filed(c, []) == c;
    } else if HasWork(read.value.thread) {
      WriteSessionFiled(c, s, ClearedSession(read.value, projectUrl), projectUrl.None?);
    } else if projectUrl.None? {
      FiledTwo(c, DropThread(s), DropWorkspace);
    } else {
      FiledTwo(c, DropThread(s), SaveWorkspace(NewWorkspace(c, read.value.workspace.(projectMode := true, projectUrl := projectUrl), false)));
    }
  }

  /** The route a session's files show. */
  function RouteOf(c: Checkout, s: Id): (Option<Url>, Option<Chat>, Option<Page>) {
    var session := ReadSession(c, s).GetOr(Session(NO_WORKSPACE, NO_THREAD));
    (session.workspace.projectUrl, session.thread.chat, session.thread.page)
  }

  predicate Settled(c: Checkout, m: Machine, k: Key) { Agrees(m, c, k) && (c.workspace.Some? || k.sessionId !in c.threads) }

  /** Replaying the index into any readable files makes them agree with it; replaying it again changes nothing in the route. */
  lemma RouteSettles(c: Checkout, m: Machine, k: Key)
    requires Inv(m) && Readable(c)
    requires BindingAt(m, k).Some? ==> BindingAt(m, k).value.generation <= MAX_C2C_ITERATION
    ensures var steps := RouteSteps(c, m, k);
      && steps.Some? && RouteOnly(steps.value)
      && var c' := Filed(c, steps.value);
         && Settled(c', m, k) && Readable(c') && KeepsWork(c, c', k.sessionId)
         && (BindingAt(m, k).Some? || ProjectUrlAt(m, k.projectId).Some? ==> KeepsConnector(c, c'))
         && (BindingAt(m, k).None? && k.sessionId in c'.threads ==> c'.threads[k.sessionId].title.None?)
  {
    var b := BindingAt(m, k);
    if b.Some? {
      BindingShape(m, k);
      ReconcileFiled(c, k.sessionId, b.value, None);
      ReconcileReadable(c, k.sessionId, b.value, None);
    } else {
      ClearFiled(c, k.sessionId, ProjectUrlAt(m, k.projectId));
      ClearReadable(c, k.sessionId, ProjectUrlAt(m, k.projectId));
    }
  }

  lemma SettledStays(c: Checkout, m: Machine, k: Key)
    requires Inv(m) && Readable(c) && Settled(c, m, k)
    requires BindingAt(m, k).Some? ==> BindingAt(m, k).value.generation <= MAX_C2C_ITERATION
    ensures RouteOf(Filed(c, RouteSteps(c, m, k).GetOr([])), k.sessionId) == RouteOf(c, k.sessionId)
  {
    RouteSettles(c, m, k);
    if BindingAt(m, k).None? {
      ClearFiled(c, k.sessionId, ProjectUrlAt(m, k.projectId));
      assert Filed(c, []) == c;
    }
  }

  // Beyond the stored limit the route can never be written, nor read.
  lemma BeyondTheLimit(c: Checkout, m: Machine, k: Key)
    requires Readable(c) && BindingAt(m, k).Some? && BindingAt(m, k).value.generation > MAX_C2C_ITERATION
    ensures RouteSteps(c, m, k).None? && !Agrees(m, c, k)
  {}

  // -------------------------------------------------------------------------- crashes

  lemma ReconcileStepsSound(c: Checkout, s: Id, b: Binding, connector: Option<string>)
    requires Readable(c)
    ensures var steps := ReconcileRoute(c, s, b, connector);
      steps.Some? ==> RouteOnly(steps.value) && forall i | 0 <= i < |steps.value| :: StepSound(steps.value[i])
  {
    if ReconcileRoute(c, s, b, connector).Some? && !(ReadSession(c, s).Some? && RouteMatches(ReadSession(c, s).value, b)) {
      WriteSessionFiled(c, s, BoundSession(c, s, b, connector), false);
    }
  }

  lemma ClearStepsSound(c: Checkout, s: Id, projectUrl: Option<Url>)
    requires Readable(c)
    ensures var steps := ClearRoute(c, s, projectUrl);
      steps.Some? ==> RouteOnly(steps.value) && forall i | 0 <= i < |steps.value| :: StepSound(steps.value[i])
  {}

  // The operations that write both the index and the route.
  datatype Writer =
    | Commits(ref: LeaseRef, observed: Option<Chat>, connector: Option<string>, at: int)
    | Retires(key: Key)
    | Reconciles(key: Key, at: int)

  function StepsOf(d: Disk, op: Writer): seq<Step> {
    match op
    case Commits(ref, observed, connector, at) => CommitSteps(d, ref, observed, connector, at)
    case Retires(k) => RetireSteps(d, k)
    case Reconciles(k, at) => ReconcileSteps(d, k, at)
  }

  ghost predicate AllSound(steps: seq<Step>) { forall i | 0 <= i < |steps| :: StepSound(steps[i]) }

  lemma CommitStepsSound(d: Disk, ref: LeaseRef, observed: Option<Chat>, connector: Option<string>, at: int)
    requires Sound(d)
    ensures AllSound(CommitSteps(d, ref, observed, connector, at))
  {
    hide Inv, Apply, ReconcileRoute;
    ApplyKeepsInv(d.machine, Commit(ref, observed, at));
    match Apply(d.machine, Commit(ref, observed, at)).1 {
      case Ok(Bound(b)) => ReconcileStepsSound(d.checkout, ref.key.sessionId, b, connector);
      case _ =>
    }
  }

  lemma ReconcileStepsAllSound(d: Disk, k: Key, at: int)
    requires Sound(d)
    ensures AllSound(ReconcileSteps(d, k, at))
  {
    hide Inv, Reaped, Synced, Consistent, ReconcileRoute, ClearRoute;
    ReapAndSync(d.machine, k.projectId, false, at);
    var s := Synced(Reaped(d.machine, at), k.projectId, false);
    var b := BindingAt(s, k);
    if b.Some? {
      ReconcileStepsSound(d.checkout, k.sessionId, b.value, None);
    } else {
      ClearStepsSound(d.checkout, k.sessionId, ProjectUrlAt(s, k.projectId));
    }
  }

  lemma WriterSound(d: Disk, op: Writer)
    requires Sound(d)
    ensures AllSound(StepsOf(d, op))
  {
    hide Inv, Apply, CommitSteps, ReconcileSteps;
    match op
    case Commits(ref, observed, connector, at) => CommitStepsSound(d, ref, observed, connector, at);
    case Retires(k) => ApplyKeepsInv(d.machine, Retire(k));
    case Reconciles(k, at) => ReconcileStepsAllSound(d, k, at);
  }

  /** A crash between any two writes of a commit, a retirement or a reconcile leaves the index consistent and the files readable. */
  lemma CrashLeavesSound(d: Disk, op: Writer, i: nat)
    requires Sound(d) && i <= |StepsOf(d, op)|
    ensures Sound(ApplyAll(d, StepsOf(d, op)[..i]))
  {
    hide Inv;
    WriterSound(d, op);
    StepsStaySound(d, StepsOf(d, op)[..i]);
  }

  predicate InRange(m: Machine, k: Key) {
    BindingAt(m, k).Some? ==> BindingAt(m, k).value.generation <= MAX_C2C_ITERATION
  }

  /**
   After a crash anywhere inside a commit, a retirement or a reconcile, the next reconcile of any session makes its
   route equal its binding, or clears it when there is none, exactly if the binding's generation fits
   the stored limit; another reconcile changes nothing in the route.  While a lease of the machine is
   stranded a reconcile fails in its reaping and writes nothing.
   */
  lemma ReconcileAfterCrash(d: Disk, op: Writer, i: nat, k: Key, at: int)
    requires Sound(d) && i <= |StepsOf(d, op)|
    ensures var crashed := ApplyAll(d, StepsOf(d, op)[..i]);
      var after := ApplyAll(crashed, ReconcileSteps(crashed, k, at));
      if Stranded(crashed.machine, at) then ReconcileSteps(crashed, k, at) == []
      else
        && (Agrees(after.machine, after.checkout, k) <==> InRange(crashed.machine, k))
        && (InRange(crashed.machine, k) ==>
              KeepsWork(crashed.checkout, after.checkout, k.sessionId) &&
              RouteOf(ApplyAll(after, ReconcileSteps(after, k, at)).checkout, k.sessionId) == RouteOf(after.checkout, k.sessionId))
  {
    hide Inv, Stranded, Agrees, KeepsWork, RouteOf, Consistent, Reaped, Synced, RouteSteps;
    CrashLeavesSound(d, op, i);
    var crashed := ApplyAll(d, StepsOf(d, op)[..i]);
    hide ApplyAll;
    if Stranded(crashed.machine, at) {
      ReapAndSync(crashed.machine, k.projectId, false, at);
    } else {
      ReconcileSettles(crashed, k, at);
    }
  }

  lemma ReconcileSettles(d: Disk, k: Key, at: int)
    requires Sound(d) && !Stranded(d.machine, at)
    ensures var after := ApplyAll(d, ReconcileSteps(d, k, at));
      && (Agrees(after.machine, after.checkout, k) <==> InRange(d.machine, k))
      && (InRange(d.machine, k) ==>
            KeepsWork(d.checkout, after.checkout, k.sessionId) &&
            RouteOf(ApplyAll(after, ReconcileSteps(after, k, at)).checkout, k.sessionId) == RouteOf(after.checkout, k.sessionId))
  {
    hide Inv, Stranded, Reaped, Consistent, RouteSteps, Agrees, KeepsWork, RouteOf, Settled, Readable;
    var s := Synced(Reaped(d.machine, at), k.projectId, false);
    ReapAndSync(d.machine, k.projectId, false, at);
    ReapedBindings(d.machine, k, at);
    if InRange(d.machine, k) {
      RouteSettles(d.checkout, s, k);
      var steps := RouteSteps(d.checkout, s, k).value;
      ReconcileFinishes(d, k, at, s, steps);
      NoneStranded(d.machine, k.projectId, at);
      ReconciledTwice(Disk(s, Filed(d.checkout, steps)), k, at);
    } else {
      BeyondTheLimit(d.checkout, s, k);
      BeyondTheLimit(d.checkout, d.machine, k);
    }
  }

  // Reaping and syncing leave the bindings and Project URLs alone.
  lemma ReapedBindings(m: Machine, k: Key, at: int)
    ensures var s := Synced(Reaped(m, at), k.projectId, false); s.bindings == m.bindings && s.projectUrls == m.projectUrls
  {}

  lemma NoneStranded(m: Machine, p: Id, at: int)
    ensures !Stranded(Synced(Reaped(m, at), p, false), at)
  {}

  lemma ReconcileFinishes(d: Disk, k: Key, at: int, s: Machine, steps: seq<Step>)
    requires s == Synced(Reaped(d.machine, at), k.projectId, false) && Consistent(s)
    requires RouteSteps(d.checkout, s, k) == Some(steps) && RouteOnly(steps)
    ensures ApplyAll(d, ReconcileSteps(d, k, at)) == Disk(s, Filed(d.checkout, steps))
  {
    hide Consistent, RouteSteps, Reaped;
    ApplyAllAppend(d, steps, [SaveIndex(s)]);
    FiledAnywhere(d, steps);
    var d1 := Disk(d.machine, Filed(d.checkout, steps));
    assert [SaveIndex(s)][1..] == [];
    assert ApplyAll(Apply1(d1, SaveIndex(s)), []) == Apply1(d1, SaveIndex(s));
  }

  lemma ReconciledTwice(d: Disk, k: Key, at: int)
    requires Sound(d) && Settled(d.checkout, d.machine, k) && InRange(d.machine, k) && !Stranded(d.machine, at)
    ensures RouteOf(ApplyAll(d, ReconcileSteps(d, k, at)).checkout, k.sessionId) == RouteOf(d.checkout, k.sessionId)
  {
    hide Inv, Stranded, Reaped, Consistent, RouteSteps, RouteOf, Readable;
    var s := Synced(Reaped(d.machine, at), k.projectId, false);
    ReapAndSync(d.machine, k.projectId, false, at);
    ReapedBindings(d.machine, k, at);
    RouteSettles(d.checkout, s, k);
    SettledStays(d.checkout, s, k);
    ReconcileFinishes(d, k, at, s, RouteSteps(d.checkout, s, k).value);
  }

  // -------------------------------------------------------------------------- calls that run to their end

  predicate NotesConnector(c: Checkout, connector: Option<string>) {
    c.workspace.Some? && c.workspace.value.connector == connector
  }

  lemma CommittedBinding(m: Machine, ref: LeaseRef, observed: Option<Chat>, at: int, b: Binding)
    requires Inv(m) && Apply(m, Commit(ref, observed, at)).1 == Ok(Bound(b))
    ensures var m' := Apply(m, Commit(ref, observed, at)).0;
      && Inv(m') && b.route.key == ref.key && BindingAt(m', ref.key) == Some(b)
      && b.route.chat.Some? && ChatFits(b.route) && b.generation >= 1
  {
    hide Inv, Apply, Standing, KeepsTime, Distinct, Stranded;
    var m' := Apply(m, Commit(ref, observed, at)).0;
    ApplyKeepsInv(m, Commit(ref, observed, at));
    CommitAnswers(m, ref, observed, at);
    var l, chat :| Committable(m, Standing(m, at), ref, observed, l, chat);
    assert BoundTo(m, m', Standing(m, at), l, chat, b, at);
    assert b in m'.bindings;
    InvDistinct(m');
    BindingShape(m', ref.key);
  }

  /**
   A commit that runs to its end leaves the index it has saved and, within the stored limit, the session's route
   equal to the new binding with its work kept; a connector that is given is noted unless the route was there already.
   A commit the index refuses, or beyond the limit, leaves the files alone.
   */
  lemma CommitFinishes(d: Disk, ref: LeaseRef, observed: Option<Chat>, connector: Option<string>, at: int)
    requires Sound(d)
    ensures var (m', outcome) := Apply(d.machine, Commit(ref, observed, at));
      var after, s := ApplyAll(d, CommitSteps(d, ref, observed, connector, at)), ref.key.sessionId;
      && after.machine == m'
      && (outcome.Err? || !InRange(m', ref.key) ==> after.checkout == d.checkout)
      && (outcome.Ok? && InRange(m', ref.key) ==>
            && Agrees(m', after.checkout, ref.key) && KeepsWork(d.checkout, after.checkout, s)
            && (connector.None? ==> KeepsConnector(d.checkout, after.checkout))
            && (connector.Some? && after.checkout != d.checkout ==> NotesConnector(after.checkout, connector)))
  {
    hide Inv, Apply, Readable, ReconcileRoute, KeepsWork, RouteMatches;
    var (m', outcome) := Apply(d.machine, Commit(ref, observed, at));
    match outcome {
      case Ok(Bound(b)) =>
        CommittedBinding(d.machine, ref, observed, at, b);
        CommitWrites(d, m', ref.key.sessionId, b, connector);
      case Ok(_) => CommitAnswers(d.machine, ref, observed, at);
      case Err(_) => OneStep(d, SaveIndex(m'));
    }
  }

  lemma OneStep(d: Disk, step: Step)
    ensures ApplyAll(d, [step]) == Apply1(d, step)
  {
    assert [step][1..] == [];
    assert ApplyAll(Apply1(d, step), []) == Apply1(d, step);
  }

  lemma CommitWrites(d: Disk, m: Machine, s: Id, b: Binding, connector: Option<string>)
    requires Readable(d.checkout) && ChatFits(b.route) && b.route.chat.Some? && b.generation >= 1
    ensures var after := ApplyAll(d, [SaveIndex(m)] + ReconcileRoute(d.checkout, s, b, connector).GetOr([]));
      && after.machine == m
      && (b.generation > MAX_C2C_ITERATION ==> after.checkout == d.checkout)
      && (b.generation <= MAX_C2C_ITERATION ==>
            && BindingOnFile(after.checkout, s, b) && KeepsWork(d.checkout, after.checkout, s)
            && (connector.None? ==> KeepsConnector(d.checkout, after.checkout))
            && (connector.Some? && after.checkout != d.checkout ==> NotesConnector(after.checkout, connector)))
  {
    hide Readable, ReconcileRoute, KeepsWork;
    var steps := ReconcileRoute(d.checkout, s, b, connector).GetOr([]);
    assert ([SaveIndex(m)] + steps)[1..] == steps;
    if b.generation <= MAX_C2C_ITERATION {
      ReconcileFiled(d.checkout, s, b, connector);
      FiledAnywhere(Disk(m, d.checkout), steps);
      ConnectorNoted(d.checkout, s, b, connector);
    } else {
      TooFar(d.checkout, s, b, connector);
    }
  }

  lemma TooFar(c: Checkout, s: Id, b: Binding, connector: Option<string>)
    requires b.generation > MAX_C2C_ITERATION
    ensures ReconcileRoute(c, s, b, connector).None?
  {}

  lemma ConnectorNoted(c: Checkout, s: Id, b: Binding, connector: Option<string>)
    requires Readable(c) && ReconcileRoute(c, s, b, connector).Some?
    ensures var c' := Filed(c, ReconcileRoute(c, s, b, connector).value);
      connector.Some? && c' != c ==> NotesConnector(c', connector)
  {
    if ReadSession(c, s).Some? && RouteMatches(ReadSession(c, s).value, b) {
      assert Filed(c, []) == c;
    } else {
      WriteSessionFiled(c, s, BoundSession(c, s, b, connector), false);
    }
  }

  /** A retirement that runs to its end leaves no record of the session in the index and no thread file, and every other file alone. */
  lemma RetireFinishes(d: Disk, k: Key)
    requires Sound(d)
    ensures var after := ApplyAll(d, RetireSteps(d, k));
      && (forall r | r in Routes(after.machine) :: r.key != k)
      && after.checkout == Checkout(d.checkout.workspace, d.checkout.threads - {k.sessionId})
  {
    hide Inv, Apply, Routes;
    var m' := Apply(d.machine, Retire(k)).0;
    RetireAnswers(d.machine, k);
    RoutesElements(m');
    assert [SaveIndex(m'), DropThread(k.sessionId)][1..] == [DropThread(k.sessionId)];
    OneStep(Apply1(d, SaveIndex(m')), DropThread(k.sessionId));
  }
}
