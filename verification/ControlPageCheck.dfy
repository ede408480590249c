/**
 `observeControlPage` of src/gateway/machine-gateway.ts: which events of a page the gateway hands on
 to the request store, by what it has looked up.  Late evidence that is already on file, and replays of
 historical event shapes, are not modelled.
 */
module ControlPageChecks {
  import opened Wrappers
  import opened WaitPolicy
  import opened ControlRequests
  import opened ControlRequestRuns
  import opened ControlRecords
  import S = SurfaceOwnership

  const MAX_AGE_MS := 60_000
  const MAX_SKEW_MS := 5_000

  /** What a seen URL is: without credentials, query and fragment, and the chat or Project it names. */
  datatype SeenUrl = SeenUrl(plain: bool, chat: Option<S.Chat>, project: Option<S.Url>)

  /** What the gateway looks up, and whether the store completed an interrupted request on the way. */
  datatype Facts = Facts(
    liveAuthority: bool,
    lease: Option<S.Lease>,
    binding: Option<S.Binding>,
    projectUrl: Option<S.Url>,
    url: SeenUrl,
    submitting: bool,
    recovers: bool,
    now: int)

  datatype Passing = PassOn(event: Observation) | AnswerOnly | Reject

  function UrlOf(b: Body): Option<string> {
    match b
    case SendAttempted(url) => Some(url)
    case Sent(url) => Some(url)
    case Unknown(url) => Some(url)
    case ResponseStartFailed(url, _) => Some(url)
    case PageLost => None
    case AuthorityInvalid(at, _, _) => at
    case _ => Some(b.response.url)
  }

  predicate Timely(o: Observation, now: int) { now - MAX_AGE_MS <= o.observedAt <= now + MAX_SKEW_MS }

  // -------------------------------------------------------------------------- a final too late

  // What `parseLateControlPageObservation` and `recordLateControlEvidence` ask of a final event.
  predicate LateFits(v: Snapshot, id: RequestId, o: Observation, now: int)
    requires o.body.Final?
  {
    && v.observation.Some? && v.observation.value.lastDefinitive.Some? && v.request.Some?
    && var p, prior := v.observation.value, v.observation.value.lastDefinitive.value;
    && o.identity == prior.identity && UrlOf(prior.body) == UrlOf(o.body)
    && (HasResponse(prior.body) ==> o.body.response.id == prior.body.response.id)
    && o.sequence > p.latest.sequence && o.observedAt > prior.observedAt
    && o.identity.requestId == id && OnSurface(o, v.request.value)
    && Timely(o, now) && o.observedAt >= v.request.value.createdAt
    && (o.body.payload.Delivered? ==> o.body.payload.kind in AllowedKinds(v.request.value.correlation.phase))
  }

  // The event the gateway writes instead of a final for which no capability is live.
  function Invalidated(o: Observation): Observation { o.(body := AuthorityInvalid(None, "host_observed", "TOKEN_REVOKED")) }

  // -------------------------------------------------------------------------- the page of the request

  predicate LiveLeaseMatches(o: Observation, f: Facts) {
    f.lease.Some? && f.lease.value.route.tab == o.identity.tab && f.lease.value.generation == o.identity.generation
  }

  predicate MayClose(v: Snapshot, o: Observation) {
    o.body.PageLost? || o.body.AuthorityInvalid? || (v.status == Cancelled && v.failure.Some?)
  }

  predicate CandidateBootRoute(r: Request, f: Facts) {
    r.correlation.phase == Boot
    && var url := if f.lease.Some? then Some(f.lease.value.route.projectUrl) else f.projectUrl;
       url.Some? && (f.url.project == url || (f.url.chat.Some? && f.url.chat.value.projectUrl == url.value))
  }

  predicate CommittedRoute(o: Observation, f: Facts) {
    && f.binding.Some? && f.binding.value.generation == o.identity.generation && UrlOf(o.body).Some?
    && f.binding.value.route.chat.Some? && f.url.chat == f.binding.value.route.chat
  }

  // The page is not leased, but is the committed one of the session.
  predicate RecoverableRoute(o: Observation, f: Facts) {
    f.lease.None? && CommittedRoute(o, f) && f.binding.value.route.tab == o.identity.tab && f.liveAuthority
  }

  /** The page check; of a request opened with a page the surface comparison is exact. */
  predicate PageFits(v: Snapshot, id: RequestId, o: Observation, f: Facts) {
    && v.request.Some? && o.identity.requestId == id
    && v.request.value.surface == Some(Surface(o.identity.tab, o.identity.generation))
    && (LiveLeaseMatches(o, f) || MayClose(v, o) || RecoverableRoute(o, f))
    && (UrlOf(o.body).Some? ==> f.url.plain && (CandidateBootRoute(v.request.value, f) || CommittedRoute(o, f)))
    && o.observedAt >= v.request.value.createdAt && Timely(o, f.now)
  }

  /** What the gateway does with an event, given what the store says of the request. */
  function Passage(v: Snapshot, id: RequestId, o: Observation, f: Facts): Passing {
    if v.status == NotFound then AnswerOnly
    else if (v.status == Expired || (v.status == Pending && !f.liveAuthority)) && o.body.Final? then
      if !LateFits(v, id, o, f.now) then Reject
      else if v.status == Pending then PassOn(Invalidated(o))
      else AnswerOnly
    else if v.status == Expired then AnswerOnly
    else if v.status == Cancelled && Delivers(o) && v.failure.Some? && v.result.None? then AnswerOnly
    else if v.status == Cancelled && Delivers(o) && v.failure.None? && v.result.None? && f.recovers then PassOn(o)
    else if v.status == Cancelled && (v.failure.Some? || v.result.Some?) then PassOn(o)
    else if v.status == Pending && o.body.AuthorityInvalid? && f.liveAuthority then Reject
    else if !PageFits(v, id, o, f) then Reject
    else if f.submitting then AnswerOnly
    else PassOn(o)
  }

  // -------------------------------------------------------------------------- what is handed on

  /**
   An event handed on for a pending request is of the very page the request was opened on; and unless
   it closes the request, the session holds that page, or has it as its committed one with a live turn.
   */
  lemma PassedOnItsPage(v: Snapshot, id: RequestId, o: Observation, f: Facts)
    requires Passage(v, id, o, f).PassOn? && v.status == Pending
    ensures var e := Passage(v, id, o, f).event;
      && v.request.Some? && e.identity.requestId == id
      && v.request.value.surface == Some(Surface(e.identity.tab, e.identity.generation))
      && (e.body.PageLost? || e.body.AuthorityInvalid? || LiveLeaseMatches(e, f) || RecoverableRoute(e, f))
  {}

  // Where the gateway must find the seen page: the committed chat, or for BOOT any page of the Project.
  predicate SeenWhereItBelongs(r: Request, o: Observation, f: Facts) {
    || (f.binding.Some? && f.binding.value.generation == o.identity.generation
        && f.binding.value.route.chat.Some? && f.url.chat == f.binding.value.route.chat)
    || (r.correlation.phase == Boot && f.lease.Some? && f.url.project == Some(f.lease.value.route.projectUrl))
    || (r.correlation.phase == Boot && f.lease.Some? && f.url.chat.Some? && f.url.chat.value.projectUrl == f.lease.value.route.projectUrl)
  }

  /**
   A timely event of a pending request goes through while its turn is live: on the page the request was opened with, as
   long as the session holds that page and the URL seen is where it belongs; a lost page needs neither.  Only while a
   result of the session is being committed it is answered and not handed on.
   */
  lemma TimelyEventPasses(v: Snapshot, id: RequestId, o: Observation, f: Facts)
    requires v.status == Pending && v.request.Some? && f.liveAuthority && !o.body.AuthorityInvalid?
    requires o.identity.requestId == id && v.request.value.surface == Some(Surface(o.identity.tab, o.identity.generation))
    requires v.request.value.createdAt <= o.observedAt && f.now - 60_000 <= o.observedAt <= f.now + 5_000
    requires
      || o.body.PageLost?
      || (&& f.lease.Some? && f.lease.value.route.tab == o.identity.tab && f.lease.value.generation == o.identity.generation
          && UrlOf(o.body).Some? && f.url.plain && SeenWhereItBelongs(v.request.value, o, f))
    ensures Passage(v, id, o, f) == if f.submitting then AnswerOnly else PassOn(o)
  {
    if !o.body.PageLost? {
      assert LiveLeaseMatches(o, f);
      assert CandidateBootRoute(v.request.value, f) || CommittedRoute(o, f);
    }
    assert PageFits(v, id, o, f);
  }

  /** A page that is not leased, but is the committed one of the session, will do as well. */
  lemma CommittedPagePasses(v: Snapshot, id: RequestId, o: Observation, f: Facts)
    requires v.status == Pending && v.request.Some? && f.liveAuthority && !f.submitting && !o.body.AuthorityInvalid?
    requires o.identity.requestId == id && v.request.value.surface == Some(Surface(o.identity.tab, o.identity.generation))
    requires v.request.value.createdAt <= o.observedAt && f.now - 60_000 <= o.observedAt <= f.now + 5_000
    requires f.lease.None? && f.binding.Some? && UrlOf(o.body).Some? && f.url.plain
    requires f.binding.value.route.tab == o.identity.tab && f.binding.value.generation == o.identity.generation
    requires f.binding.value.route.chat.Some? && f.url.chat == f.binding.value.route.chat
    ensures Passage(v, id, o, f) == PassOn(o)
  {
    assert RecoverableRoute(o, f);
    assert PageFits(v, id, o, f);
  }

  /**
   A timely final of a pending request whose turn is gone is turned into the event that ends it, exactly if it goes
   on from the last definitive event on file: same page, URL and response, and later in number and time.
   */
  lemma LateFinalPasses(v: Snapshot, id: RequestId, o: Observation, f: Facts)
    requires v.status == Pending && v.request.Some? && !f.liveAuthority && o.body.Final?
    requires o.identity.requestId == id && v.request.value.surface.Some? && OnSurface(o, v.request.value)
    requires v.request.value.createdAt <= o.observedAt && f.now - 60_000 <= o.observedAt <= f.now + 5_000
    requires o.body.payload.Delivered? ==> o.body.payload.kind in AllowedKinds(v.request.value.correlation.phase)
    requires v.observation.Some? && v.observation.value.lastDefinitive.Some?
    ensures var last := v.observation.value.lastDefinitive.value;
      if && o.identity == last.identity && UrlOf(last.body) == Some(o.body.response.url)
         && (HasResponse(last.body) ==> last.body.response.id == o.body.response.id)
         && v.observation.value.latest.sequence < o.sequence && last.observedAt < o.observedAt
      then Passage(v, id, o, f) == PassOn(Observation(o.identity, o.observedAt, o.sequence, AuthorityInvalid(None, "host_observed", "TOKEN_REVOKED")))
      else Passage(v, id, o, f) == Reject
  {
    assert UrlOf(o.body) == Some(o.body.response.url);
  }

  /** An event on another page, out of time, or on a page the session has neither leased nor committed is never handed on for a live pending request. */
  lemma ForeignEventRejected(v: Snapshot, id: RequestId, o: Observation, f: Facts)
    requires v.status == Pending && v.request.Some? && f.liveAuthority && !o.body.PageLost?
    requires
      || v.request.value.surface != Some(Surface(o.identity.tab, o.identity.generation)) || o.identity.requestId != id
      || o.observedAt < v.request.value.createdAt || o.observedAt < f.now - 60_000 || o.observedAt > f.now + 5_000
      || (f.lease.None? && f.binding.None?)
      || (f.lease.Some? && (f.lease.value.route.tab != o.identity.tab || f.lease.value.generation != o.identity.generation))
    ensures Passage(v, id, o, f) == Reject
  {
    if !o.body.AuthorityInvalid? {
      assert !PageFits(v, id, o, f);
    }
  }

  /** A final that comes without a live turn ends its pending request: the event written for it is always accepted. */
  lemma LateFinalEnds(s: Store, id: RequestId, session: SessionId, expected: Option<Correlation>, o: Observation, f: Facts)
    requires Look(s, id, session, expected, f.now).Ok?
    requires var v := Look(s, id, session, expected, f.now).value;
      v.status == Pending && !f.liveAuthority && o.body.Final? && Passage(v, id, o, f).PassOn?
    ensures var e := Passage(Look(s, id, session, expected, f.now).value, id, o, f).event;
      var next := Advance(ObservationOf(s, id), e, f.now);
      && next.Ok? && next.value.terminal == Some(e)
      && ObservePlan(s, Observe(id, session, expected, e, None), f.now).1 == Reported
      && PutMarker(id, MarkerFor(e, f.now)) in ObservePlan(s, Observe(id, session, expected, e, None), f.now).0
      && MarkerFor(e, f.now).failure == Some(e)
  {
    var e := Invalidated(o);
    var op := Observe(id, session, expected, e, None);
    assert e.identity == s.observations[id].latest.identity;
    assert ObservePlan(s, op, f.now) == ObservePending(s, op, f.now);
    var p := Advance(ObservationOf(s, id), e, f.now).value.progress;
    assert ObservePending(s, op, f.now).0
        == [PutMarker(id, MarkerFor(e, f.now))] + [PutObservation(id, p)] + Clearing(s, session, id);
    assert ObservePending(s, op, f.now).0[0] == PutMarker(id, MarkerFor(e, f.now));
  }

  // -------------------------------------------------------------------------- runs

  // The request is still on file as it was, and ended if it was, or it has been pruned away.
  ghost predicate Lasts(s: Store, t: Store, id: RequestId)
    requires id in s.requests
  {
    || Gone(t, id)
    || (id in t.requests && t.requests[id] == s.requests[id] && (id in s.markers ==> id in t.markers))
  }

  lemma CallLasts(s: Store, t: Store, call: Call, id: RequestId)
    requires id in s.requests && Sound(t, call.now) && Lasts(s, t, id)
    ensures Lasts(s, ApplyAll(t, Writes(t, call)), id)
  {
    if Gone(t, id) {
      hide Gone, Sound, WritesOk;
      PlanOk(t, call.op, call.now);
      WritesKeepMarkers(t, PlanFor(t, call.op, call.now).0, call.now, |Writes(t, call)|);
    } else if Prunes(call.op, id) {
      PruneTracks(t, call, id);
      hide Gone, Sound, Writes, ApplyAll;
    } else {
      CallTracks(t, call, id);
      hide Gone, Sound, Writes, ApplyAll;
    }
  }

  lemma {:induction false} RunLasts(calls: seq<Call>, j: nat, id: RequestId)
    requires Timed(calls) && j <= |calls| && id in StoreAfter(calls[..j]).requests
    ensures Lasts(StoreAfter(calls[..j]), StoreAfter(calls), id)
  {
    hide Lasts, Sound, StoreAfter;
    if j == |calls| {
      assert calls[..j] == calls;
      LastsItself(StoreAfter(calls), id);
    } else {
      var n := |calls| - 1;
      assert calls[..n][..j] == calls[..j];
      RunLasts(calls[..n], j, id);
      RunSound(calls[..n], calls[n].now);
      CallLasts(StoreAfter(calls[..j]), StoreAfter(calls[..n]), calls[n], id);
      StoreStep(calls);
    }
  }

  lemma LastsItself(s: Store, id: RequestId)
    requires id in s.requests
    ensures Lasts(s, s, id)
  {}

  // The gateway has handed on an event after a look at some earlier point of the run.
  ghost predicate HandedOn(calls: seq<Call>, i: nat, j: nat, expected: Option<Correlation>, o: Observation, f: Facts)
    requires i < |calls| && calls[i].op.Observe?
  {
    && j <= i && (j > 0 ==> calls[j - 1].now <= f.now) && f.now <= calls[i].now
    && var v := Look(StoreAfter(calls[..j]), calls[i].op.id, calls[i].op.session, expected, f.now);
       v.Ok? && Passage(v.value, calls[i].op.id, o, f) == PassOn(calls[i].op.event)
  }

  /** Every event comes through the gateway; between its look and the locked call anything may happen to the store. */
  ghost predicate FromGateway(calls: seq<Call>) {
    forall i | 0 <= i < |calls| && calls[i].op.Observe? :: exists j, expected, o, f :: HandedOn(calls, i, j, expected, o, f)
  }

  lemma HandedOnIsChecked(calls: seq<Call>, i: nat, j: nat, expected: Option<Correlation>, o: Observation, f: Facts)
    requires Timed(calls) && i < |calls| && calls[i].op.Observe? && HandedOn(calls, i, j, expected, o, f)
    ensures Checked(StoreAfter(calls[..i]), calls[i].op, calls[i].now)
  {
    var s, t, id := StoreAfter(calls[..j]), StoreAfter(calls[..i]), calls[i].op.id;
    var v := Look(s, id, calls[i].op.session, expected, f.now).value;
    assert calls[..i][..j] == calls[..j];
    RunSound(calls[..j], f.now);
    assert id in s.requests && s.requests[id].id == id;
    RunLasts(calls[..i], j, id);
    hide StoreAfter, RecordsReadable;
    if v.status == Pending {
      PassedOnItsPage(v, id, o, f);
    }
    hide Passage;
  }

  /**
   Whatever the store does between the gateway's look and the call it makes, every event it hands on
   meets what keeps the records readable ...
   */
  lemma {:induction false} GatewayRunsAreChecked(calls: seq<Call>)
    requires Timed(calls) && FromGateway(calls)
    ensures CheckedRun(calls)
  {
    forall i | 0 <= i < |calls| ensures Checked(StoreAfter(calls[..i]), calls[i].op, calls[i].now) {
      if calls[i].op.Observe? {
        var j, expected, o, f :| HandedOn(calls, i, j, expected, o, f);
        HandedOnIsChecked(calls, i, j, expected, o, f);
      }
    }
  }

  /** ... so no record of any store the gateway works on is ever unreadable. */
  lemma {:induction false} GatewayStoresStayReadable(calls: seq<Call>, id: RequestId, session: SessionId, expected: Option<Correlation>, now: int)
    requires Timed(calls) && FromGateway(calls)
    ensures Look(StoreAfter(calls), id, session, expected, now) != Err(Integrity)
  {
    GatewayRunsAreChecked(calls);
    hide StoreAfter, FromGateway;
    CheckedStoresStayReadable(calls, id, session, expected, now);
  }
}
