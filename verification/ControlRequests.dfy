/**
 The control-request store of src/control/requests.ts: a few files per request, written in a fixed
 order, and what holds of them when any writer may die between two writes.

 An operation is planned under its locks from what it reads, and is the list of its writes; a crash
 keeps a prefix of them.  Late evidence, wait loops and the historical file shapes are left out, and
 an operation reads the clock once.
 */
module ControlRequests {
  import opened Wrappers
  import opened WaitPolicy

  const MIN_REQUEST_TTL_MS := 1_000
  const MAX_REQUEST_TTL_MS := 3_600_000
  const RETAIN_TERMINAL_MS := 604_800_000

  type SessionId = string

  datatype Phase = Boot | Research | Plan | Review

  datatype Correlation = Correlation(taskId: string, iteration: nat, phase: Phase)

  datatype Surface = Surface(tab: string, generation: nat)

  datatype Request = Request(
    id: RequestId,
    session: SessionId,
    correlation: Correlation,
    surface: Option<Surface>,
    createdAt: int,
    expiresAt: int)

  datatype HostResult = HostResult(observedAt: int, kind: string, result: string)

  /** The terminal marker: when, and what the page showed that ended the request. */
  datatype Marker = Marker(at: int, failure: Option<Observation>, result: Option<HostResult>)

  datatype Store = Store(
    requests: map<RequestId, Request>,
    renewals: map<RequestId, int>,
    markers: map<RequestId, Marker>,
    observations: map<RequestId, Progress>,
    active: map<SessionId, Request>,
    next: RequestId)

  const EMPTY_STORE := Store(map[], map[], map[], map[], map[], 0)

  datatype Write =
    | ClaimActive(request: Request)
    | ClearActive(session: SessionId)
    | PutRequest(request: Request)
    | PutMarker(id: RequestId, marker: Marker)
    | PutObservation(id: RequestId, progress: Progress)
    | PutRenewal(id: RequestId, expiresAt: int)
    | DropRequest(id: RequestId)
    | DropObservation(id: RequestId)
    | DropMarker(id: RequestId)
    | DropRenewal(id: RequestId)

  datatype Status = NotFound | Pending | Cancelled | Expired

  datatype Snapshot = Snapshot(
    status: Status,
    request: Option<Request>,
    observation: Option<Progress>,
    failure: Option<Observation>,
    result: Option<HostResult>)

  datatype RequestError =
    | InvalidResult | TurnInProgress | SessionMismatch | WrongCorrelation | KindNotAllowed
    | RequestNotFound | NotPending | Integrity | EventRefused(cause: WaitPolicy.Error)

  datatype Verdict = Refused(error: RequestError) | Opened(request: Request, created: bool) | Reported

  datatype Op =
    | Open(session: SessionId, correlation: Correlation, surface: Option<Surface>, ttlMs: int)
    | Observe(id: RequestId, session: SessionId, expected: Option<Correlation>, event: Observation, renewal: Option<int>)
    | Cancel(id: RequestId, session: SessionId, correlation: Correlation)
    | Renew(id: RequestId, session: SessionId, correlation: Correlation, expiresAt: int)
    | Retire(session: SessionId)
    | Prune(id: RequestId, protected: set<RequestId>)

  // -------------------------------------------------------------------------- files

  function Apply(s: Store, w: Write): Store {
    match w
    case ClaimActive(r) => s.(active := s.active[r.session := r], next := if r.id < s.next then s.next else r.id + 1)
    case ClearActive(session) => s.(active := s.active - {session})
    case PutRequest(r) => s.(requests := s.requests[r.id := r])
    // created exclusively: a marker that is there stays
    case PutMarker(id, m) => if id in s.markers then s else s.(markers := s.markers[id := m])
    case PutObservation(id, p) => s.(observations := s.observations[id := p])
    case PutRenewal(id, at) => s.(renewals := s.renewals[id := at])
    case DropRequest(id) => s.(requests := s.requests - {id})
    case DropObservation(id) => s.(observations := s.observations - {id})
    case DropMarker(id) => s.(markers := s.markers - {id})
    case DropRenewal(id) => s.(renewals := s.renewals - {id})
  }

  function ApplyAll(s: Store, writes: seq<Write>): Store
    decreases |writes|
  {
    if writes == [] then s else ApplyAll(Apply(s, writes[0]), writes[1..])
  }

  function ExpiresAt(s: Store, r: Request): int { if r.id in s.renewals then s.renewals[r.id] else r.expiresAt }

  /** Neither ended by a marker nor past its renewed expiry. */
  predicate Unfinished(s: Store, r: Request, now: int) { r.id !in s.markers && now <= ExpiresAt(s, r) }

  function StatusOf(s: Store, id: RequestId, now: int): Status {
    if id !in s.requests then NotFound
    else if id in s.markers then Cancelled
    else if now > ExpiresAt(s, s.requests[id]) then Expired
    else Pending
  }

  function AllowedKinds(phase: Phase): set<string> {
    match phase
    case Boot => {"BOOT", "BLOCKED"}
    case Research => {"RESEARCH", "BLOCKED"}
    case Plan => {"PLAN", "BLOCKED"}
    case Review => {"REVIEW", "DONE", "BLOCKED"}
  }

  predicate OnSurface(o: Observation, r: Request) {
    o.identity.requestId == r.id && r.surface == Some(Surface(o.identity.tab, o.identity.generation))
  }

  // What `readPageObservation` accepts.
  predicate ProgressReadable(p: Progress, r: Request) {
    && OnSurface(p.latest, r)
    && (p.lastDefinitive.Some? ==> OnSurface(p.lastDefinitive.value, r))
    && (!p.latest.body.Unknown? ==> p.lastDefinitive == Some(p.latest))
  }

  // What `readTerminalMarker` accepts.
  predicate MarkerReadable(m: Marker, r: Request) {
    && (m.failure.Some? ==> OnSurface(m.failure.value, r))
    && (m.result.Some? ==> m.result.value.kind in AllowedKinds(r.correlation.phase))
  }

  predicate RecordsReadable(s: Store, id: RequestId)
    requires id in s.requests
  {
    && (id in s.observations ==> ProgressReadable(s.observations[id], s.requests[id]))
    && (id in s.markers ==> MarkerReadable(s.markers[id], s.requests[id]))
  }

  // Whether the request has ended can be told.
  predicate EndReadable(s: Store, r: Request) { r.id in s.markers ==> MarkerReadable(s.markers[r.id], r) }

  predicate Delivers(o: Observation) { o.body.Final? && o.body.payload.Delivered? }

  function ResultOf(o: Observation): HostResult
    requires Delivers(o)
  {
    HostResult(o.observedAt, o.body.payload.kind, o.body.payload.result)
  }

  // The marker's result is shown only beside the stored final event it came from.
  predicate ResultBacked(result: HostResult, p: Option<Progress>) {
    && p.Some? && p.value.lastDefinitive.Some? && Delivers(p.value.lastDefinitive.value)
    && ResultOf(p.value.lastDefinitive.value) == result
  }

  function ObservationOf(s: Store, id: RequestId): Option<Progress> {
    if id in s.observations then Some(s.observations[id]) else None
  }

  /** What the store says of a request, or why it will not say. */
  function Look(s: Store, id: RequestId, session: SessionId, expected: Option<Correlation>, now: int): Result<Snapshot, RequestError> {
    if id !in s.requests then Ok(Snapshot(NotFound, None, None, None, None))
    else
      var r := s.requests[id];
      if r.session != session then Err(SessionMismatch)
      else if expected.Some? && expected.value != r.correlation then Err(WrongCorrelation)
      else if !RecordsReadable(s, id) then Err(Integrity)
      else
        var p := ObservationOf(s, id);
        var m := if id in s.markers then s.markers[id] else Marker(0, None, None);
        Ok(Snapshot(StatusOf(s, id, now), Some(r.(expiresAt := ExpiresAt(s, r))), p, m.failure,
                    if m.result.Some? && ResultBacked(m.result.value, p) then m.result else None))
  }

  // -------------------------------------------------------------------------- plans

  function Clearing(s: Store, session: SessionId, id: RequestId): seq<Write> {
    if session in s.active && s.active[session].id == id then [ClearActive(session)] else []
  }

  function NewRequest(s: Store, op: Op, now: int): Request
    requires op.Open?
  {
    Request(s.next, op.session, op.correlation, op.surface, now, now + op.ttlMs)
  }

  function OpenPlan(s: Store, op: Op, now: int): (seq<Write>, Verdict)
    requires op.Open?
  {
    var newest := NewRequest(s, op, now);
    if !(MIN_REQUEST_TTL_MS <= op.ttlMs <= MAX_REQUEST_TTL_MS) then ([], Refused(InvalidResult))
    else if op.session in s.active then
      var a := s.active[op.session];
      var current := a.(expiresAt := ExpiresAt(s, a));
      if !EndReadable(s, a) then ([], Refused(Integrity))
      else if !Unfinished(s, a, now) then
        ([ClearActive(op.session), ClaimActive(newest), PutRequest(newest)], Opened(newest, true))
      else if a.correlation != op.correlation then ([], Refused(TurnInProgress))
      else (if a.id in s.requests then [] else [PutRequest(current)], Opened(current, false))
    else ([ClaimActive(newest), PutRequest(newest)], Opened(newest, true))
  }

  function FailureOf(terminal: Observation): Option<Observation> { if Delivers(terminal) then None else Some(terminal) }

  function HostResultOf(terminal: Observation): Option<HostResult> {
    if Delivers(terminal) then Some(ResultOf(terminal)) else None
  }

  function EventKind(o: Observation): Option<string> {
    if (o.body.Final? || o.body.Candidate?) && o.body.payload.Delivered? then Some(o.body.payload.kind) else None
  }

  // The marker holds a result that no stored final event backs yet, and nothing else.
  predicate Interrupted(s: Store, id: RequestId, v: Snapshot) {
    && v.status == Cancelled && v.failure.None? && v.result.None?
    && id in s.markers && s.markers[id].result.Some?
  }

  // Replaying a terminal event onto a marked request: the event must give what the marker holds.
  function ReplayPlan(s: Store, id: RequestId, session: SessionId, o: Observation, now: int,
                      failure: Option<Observation>, result: Option<HostResult>): (seq<Write>, Verdict)
  {
    match Advance(ObservationOf(s, id), o, now)
    case Err(e) => ([], Refused(EventRefused(e)))
    case Ok(a) =>
      if a.terminal.None? || FailureOf(a.terminal.value) != failure || HostResultOf(a.terminal.value) != result then
        ([], Refused(WrongCorrelation))
      else ((if a.idempotentReplay then [] else [PutObservation(id, a.progress)]) + Clearing(s, session, id), Reported)
  }

  function ObserveMarked(s: Store, v: Snapshot, op: Op, now: int): (seq<Write>, Verdict)
    requires op.Observe? && op.id in s.requests
  {
    if Interrupted(s, op.id, v) then
      if !OnSurface(op.event, s.requests[op.id]) then ([], Refused(WrongCorrelation))
      else ReplayPlan(s, op.id, op.session, op.event, now, None, s.markers[op.id].result)
    else if v.failure.None? && v.result.None? then (Clearing(s, op.session, op.id), Reported)
    else ReplayPlan(s, op.id, op.session, op.event, now, v.failure, v.result)
  }

  function MarkerFor(terminal: Observation, now: int): Marker { Marker(now, FailureOf(terminal), HostResultOf(terminal)) }

  function ObservePending(s: Store, op: Op, now: int): (seq<Write>, Verdict)
    requires op.Observe? && op.id in s.requests
  {
    match Advance(ObservationOf(s, op.id), op.event, now)
    case Err(e) => ([], Refused(EventRefused(e)))
    case Ok(a) =>
      var observed := [PutObservation(op.id, a.progress)];
      if a.idempotentReplay then ([], Reported)
      else if op.event.body.Generating? then
        if op.renewal.None? || !(now < op.renewal.value <= now + MAX_REQUEST_TTL_MS) then ([], Refused(InvalidResult))
        else
          ((if op.renewal.value > ExpiresAt(s, s.requests[op.id]) then [PutRenewal(op.id, op.renewal.value)] else []) + observed,
           Reported)
      else if a.terminal.None? then (observed, Reported)
      else ([PutMarker(op.id, MarkerFor(a.terminal.value, now))] + observed + Clearing(s, op.session, op.id), Reported)
  }

  function ObservePlan(s: Store, op: Op, now: int): (seq<Write>, Verdict)
    requires op.Observe?
  {
    match Look(s, op.id, op.session, op.expected, now)
    case Err(e) => ([], Refused(e))
    case Ok(v) =>
      var kind := EventKind(op.event);
      if op.event.identity.requestId != op.id then ([], Refused(WrongCorrelation))
      else if kind.Some? && (v.request.None? || kind.value !in AllowedKinds(v.request.value.correlation.phase)) then
        ([], Refused(KindNotAllowed))
      else if v.status == Cancelled then ObserveMarked(s, v, op, now)
      else if v.status == Pending then ObservePending(s, op, now)
      else ([], Reported)
  }

  function CancelPlan(s: Store, op: Op, now: int): (seq<Write>, Verdict)
    requires op.Cancel?
  {
    match Look(s, op.id, op.session, Some(op.correlation), now)
    case Err(e) => ([], Refused(e))
    case Ok(v) =>
      match v.status
      case NotFound => ([], Refused(RequestNotFound))
      case Cancelled => (Clearing(s, op.session, op.id), Reported)
      case Expired => ([], Refused(NotPending))
      case Pending => ([PutMarker(op.id, Marker(now, None, None))] + Clearing(s, op.session, op.id), Reported)
  }

  function RenewPlan(s: Store, op: Op, now: int): (seq<Write>, Verdict)
    requires op.Renew?
  {
    match Look(s, op.id, op.session, Some(op.correlation), now)
    case Err(e) => ([], Refused(e))
    case Ok(v) =>
      if v.status != Pending then ([], Reported)
      else if !(now < op.expiresAt <= now + MAX_REQUEST_TTL_MS) then ([], Refused(InvalidResult))
      else if op.expiresAt > v.request.value.expiresAt then ([PutRenewal(op.id, op.expiresAt)], Reported)
      else ([], Reported)
  }

  // Markers for the pending requests of a session among the first n.
  function RetireMarks(s: Store, session: SessionId, now: int, n: nat): seq<Write> {
    if n == 0 then []
    else
      var id := n - 1;
      var earlier := RetireMarks(s, session, now, id);
      if id in s.requests && s.requests[id].session == session && StatusOf(s, id, now) == Pending then
        earlier + [PutMarker(id, Marker(now, None, None))]
      else earlier
  }

  predicate Unreadable(s: Store, session: SessionId, id: RequestId) {
    id in s.requests && s.requests[id].session == session && !RecordsReadable(s, id)
  }

  // The first of the first n requests whose records of the session cannot be read, or n.
  function FirstUnreadable(s: Store, session: SessionId, n: nat): (k: nat)
    ensures k <= n && (forall id: RequestId | id < k :: !Unreadable(s, session, id))
    ensures k < n ==> Unreadable(s, session, k)
  {
    if n == 0 then 0
    else
      var k := FirstUnreadable(s, session, n - 1);
      if k < n - 1 || Unreadable(s, session, n - 1) then k else n
  }

  // A request that cannot be read ends the loop; those before it have been marked by then.
  function RetirePlan(s: Store, op: Op, now: int): (seq<Write>, Verdict)
    requires op.Retire?
  {
    var k := FirstUnreadable(s, op.session, s.next);
    if k < s.next then (RetireMarks(s, op.session, now, k), Refused(Integrity))
    else (RetireMarks(s, op.session, now, k) + (if op.session in s.active then [ClearActive(op.session)] else []), Reported)
  }

  function TerminalAt(s: Store, id: RequestId, now: int): Option<int>
    requires id in s.requests
  {
    if id in s.markers then Some(s.markers[id].at)
    else if now > ExpiresAt(s, s.requests[id]) then Some(ExpiresAt(s, s.requests[id]))
    else None
  }

  /** One request's turn in a prune. */
  function PrunePlan(s: Store, op: Op, now: int): (seq<Write>, Verdict)
    requires op.Prune?
  {
    if op.id !in s.requests || op.id in op.protected then ([], Reported)
    else if !EndReadable(s, s.requests[op.id]) then ([], Refused(Integrity))
    else
      var at := TerminalAt(s, op.id, now);
      if at.None? || now - at.value <= RETAIN_TERMINAL_MS then ([], Reported)
      else
        (Clearing(s, s.requests[op.id].session, op.id)
         + [DropRequest(op.id), DropObservation(op.id), DropMarker(op.id), DropRenewal(op.id)], Reported)
  }

  /** The writes an operation would make, in order, and its verdict. */
  function PlanFor(s: Store, op: Op, now: int): (seq<Write>, Verdict) {
    match op
    case Open(_, _, _, _) => OpenPlan(s, op, now)
    case Observe(_, _, _, _, _) => ObservePlan(s, op, now)
    case Cancel(_, _, _) => CancelPlan(s, op, now)
    case Renew(_, _, _, _) => RenewPlan(s, op, now)
    case Retire(_) => RetirePlan(s, op, now)
    case Prune(_, _) => PrunePlan(s, op, now)
  }
}
