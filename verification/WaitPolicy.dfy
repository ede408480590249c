/**
 The page-observation automaton of src/control/wait-policy.ts.

 An observation has been parsed: only its meaning is left.  Payload equality stands for equality of
 the canonical JSON of the completion payloads.  Stored shapes from before the stability barrier are
 not modelled.
 */
module WaitPolicy {
  import opened Wrappers

  const CONTROL_RESULT_FINAL_STABILITY_MS := 1_500
  const CONTROL_PAGE_CHECK_INTERVAL_MS := 30_000

  /** Requests are numbered in the order their random ids are drawn. */
  type RequestId = nat

  datatype Identity = Identity(requestId: RequestId, tab: string, generation: nat)

  datatype Response = Response(id: string, url: string)

  datatype Payload =
    | Delivered(kind: string, result: string)
    | Failed(reason: string, source: string, tool: Option<string>, errorCode: Option<string>)

  datatype Body =
    | SendAttempted(url: string)
    | Sent(url: string)
    | Unknown(url: string)
    | ResponseCreated(response: Response)
    | Generating(response: Response)
    | Candidate(response: Response, payload: Payload)
    | Final(response: Response, payload: Payload)
    | ResponseStartFailed(url: string, evidence: string)
    | PageLost
    | AuthorityInvalid(at: Option<string>, source: string, errorCode: string)

  datatype Observation = Observation(identity: Identity, observedAt: int, sequence: nat, body: Body)

  /** What is kept of the events accepted so far; unknown events are only ever the latest. */
  datatype Progress = Progress(
    latest: Observation,
    lastDefinitive: Option<Observation>,
    latestAcceptedAt: int,
    lastDefinitiveAcceptedAt: Option<int>)

  datatype Error = OutOfOrder | CorrelationMismatch

  datatype Advanced = Advanced(progress: Progress, idempotentReplay: bool, terminal: Option<Observation>)

  predicate HasResponse(b: Body) { b.ResponseCreated? || b.Generating? || b.Candidate? || b.Final? }

  predicate Terminal(b: Body) { b.Final? || b.ResponseStartFailed? || b.PageLost? || b.AuthorityInvalid? }

  // The lifecycle: which definitive event may follow which.
  predicate Allowed(prior: Option<Body>, next: Body) {
    match next
    case SendAttempted(_) => prior.None?
    case Sent(_) => prior.Some? && prior.value.SendAttempted?
    case ResponseStartFailed(_, _) => prior.Some? && (prior.value.SendAttempted? || prior.value.Sent?)
    case ResponseCreated(_) => prior.Some? && prior.value.Sent?
    case Generating(_) =>
      prior.Some? && (prior.value.Sent? || prior.value.ResponseCreated? || prior.value.Generating? || prior.value.Candidate?)
    case Candidate(_, _) =>
      prior.Some? && (prior.value.Sent? || prior.value.ResponseCreated? || prior.value.Generating? || prior.value.Candidate?)
    case Final(_, _) => prior.Some? && prior.value.Candidate?
    case PageLost => true
    case AuthorityInvalid(_, _, _) => true
    case Unknown(_) => false
  }

  function BodyOf(prior: Option<Observation>): Option<Body> {
    if prior.Some? then Some(prior.value.body) else None
  }

  predicate SameResponse(prior: Option<Observation>, next: Body) {
    HasResponse(next) && prior.Some? && HasResponse(prior.value.body) ==> next.response == prior.value.body.response
  }

  // The stability barrier in front of a final event.
  function FinalRefused(previous: Option<Progress>, o: Observation, acceptedAt: int): Option<Error>
    requires o.body.Final?
  {
    if previous.None? || previous.value.lastDefinitive.None? then Some(CorrelationMismatch)
    else
      var prior := previous.value.lastDefinitive.value;
      if !prior.body.Candidate? || prior.body.payload != o.body.payload then Some(CorrelationMismatch)
      else if o.observedAt <= prior.observedAt then Some(OutOfOrder)
      else
        var since := previous.value.lastDefinitiveAcceptedAt;
        if since.None? || acceptedAt - since.value < CONTROL_RESULT_FINAL_STABILITY_MS then Some(OutOfOrder) else None
  }

  predicate SameCandidate(prior: Option<Observation>, next: Body) {
    next.Candidate? && prior.Some? && prior.value.body.Candidate? && prior.value.body.payload == next.payload
  }

  /** `advanceControlPageObservation` */
  function Advance(previous: Option<Progress>, o: Observation, acceptedAt: int): Result<Advanced, Error> {
    if previous.Some? && o.sequence == previous.value.latest.sequence then
      var p := previous.value;
      if o == p.latest then Ok(Advanced(p, true, if Terminal(p.latest.body) then Some(p.latest) else None))
      else Err(OutOfOrder)
    else if previous.Some? && o.sequence < previous.value.latest.sequence then Err(OutOfOrder)
    else
      var prior := if previous.Some? then previous.value.lastDefinitive else None;
      var priorAt := if previous.Some? then previous.value.lastDefinitiveAcceptedAt else None;
      if o.body.Unknown? then Ok(Advanced(Progress(o, prior, acceptedAt, priorAt), false, None))
      else if previous.Some? && o.identity != previous.value.latest.identity then Err(CorrelationMismatch)
      else if !Allowed(BodyOf(prior), o.body) then Err(OutOfOrder)
      else if !SameResponse(prior, o.body) then Err(CorrelationMismatch)
      else
        var refused := if o.body.Final? then FinalRefused(previous, o, acceptedAt) else None;
        if refused.Some? then Err(refused.value)
        else
          var at := if SameCandidate(prior, o.body) && priorAt.Some? then priorAt.value else acceptedAt;
          Ok(Advanced(Progress(o, Some(o), acceptedAt, Some(at)), false, if Terminal(o.body) then Some(o) else None))
  }

  // -------------------------------------------------------------------------- histories

  datatype Arrival = Arrival(observation: Observation, acceptedAt: int)

  /** The progress after a history in which every event was accepted, from nothing on; None before the first. */
  function After(history: seq<Arrival>): Result<Option<Progress>, Error> {
    if history == [] then Ok(None)
    else
      var n := |history| - 1;
      match After(history[..n])
      case Err(e) => Err(e)
      case Ok(p) =>
        match Advance(p, history[n].observation, history[n].acceptedAt)
        case Err(e) => Err(e)
        case Ok(a) => Ok(Some(a.progress))
  }

  predicate Accepted(history: seq<Arrival>) { After(history).Ok? }

  // The events of a history that decide: neither unknown nor repetitions of the event before.
  function Definitive(history: seq<Arrival>): seq<Arrival> {
    if history == [] then []
    else
      var n := |history| - 1;
      var earlier, a := Definitive(history[..n]), history[n];
      if a.observation.body.Unknown? || (n > 0 && a.observation == history[n - 1].observation) then earlier
      else earlier + [a]
  }

  // Since when the trailing candidates with the given payload have stood, if there are any.
  function StableSince(definitive: seq<Arrival>, payload: Payload): Option<int> {
    if definitive == [] then None
    else
      var n := |definitive| - 1;
      var body := definitive[n].observation.body;
      if !(body.Candidate? && body.payload == payload) then None
      else
        var before := StableSince(definitive[..n], payload);
        if before.Some? then before else Some(definitive[n].acceptedAt)
  }

  function Last(definitive: seq<Arrival>): Option<Observation> {
    if definitive == [] then None else Some(definitive[|definitive| - 1].observation)
  }

  // What the kept progress says about the history.
  ghost predicate Summarises(p: Option<Progress>, history: seq<Arrival>) {
    var d := Definitive(history);
    && (p.None? <==> history == [])
    && (p.Some? ==>
          && p.value.latest == history[|history| - 1].observation
          && p.value.lastDefinitive == Last(d)
          && (d != [] && d[|d| - 1].observation.body.Candidate? ==>
                p.value.lastDefinitiveAcceptedAt == StableSince(d, d[|d| - 1].observation.body.payload)))
  }

  lemma {:induction false} ProgressSummarises(history: seq<Arrival>)
    requires Accepted(history)
    ensures Summarises(After(history).value, history)
  {
    if history != [] {
      var n := |history| - 1;
      ProgressSummarises(history[..n]);
      SummaryStep(After(history[..n]).value, history[..n], history[n]);
      assert history[..n] + [history[n]] == history;
    }
  }

  // An unknown event or a repetition changes only what was seen last.
  lemma QuietStep(p: Option<Progress>, history: seq<Arrival>, a: Arrival)
    requires Summarises(p, history) && Advance(p, a.observation, a.acceptedAt).Ok?
    requires a.observation.body.Unknown? || (p.Some? && a.observation == p.value.latest)
    ensures Summarises(Some(Advance(p, a.observation, a.acceptedAt).value.progress), history + [a])
  {
    hide Allowed, SameResponse, FinalRefused, StableSince;
    var h := history + [a];
    assert h[..|history|] == history;
    assert Definitive(h) == Definitive(history);
  }

  lemma DefinitiveGrows(history: seq<Arrival>, a: Arrival)
    requires !a.observation.body.Unknown? && (history != [] ==> a.observation != history[|history| - 1].observation)
    ensures Definitive(history + [a]) == Definitive(history) + [a]
  {
    assert (history + [a])[..|history|] == history;
  }

  // A candidate stands since the one before it, if that had the same payload, and else since now.
  lemma StableGrows(d: seq<Arrival>, a: Arrival)
    requires a.observation.body.Candidate?
    ensures var payload := a.observation.body.payload;
      StableSince(d + [a], payload) ==
      if SameCandidate(Last(d), a.observation.body) then StableSince(d, payload) else Some(a.acceptedAt)
    ensures SameCandidate(Last(d), a.observation.body) ==> StableSince(d, a.observation.body.payload).Some?
  {
    assert (d + [a])[..|d|] == d;
  }

  lemma DefinitiveStep(p: Option<Progress>, history: seq<Arrival>, a: Arrival)
    requires Summarises(p, history) && Advance(p, a.observation, a.acceptedAt).Ok?
    requires !a.observation.body.Unknown? && !(p.Some? && a.observation == p.value.latest)
    ensures Summarises(Some(Advance(p, a.observation, a.acceptedAt).value.progress), history + [a])
  {
    var d := Definitive(history);
    assert history == [] ==> d == [];
    hide Allowed, SameResponse, FinalRefused, Definitive, StableSince;
    DefinitiveGrows(history, a);
    var progress := Advance(p, a.observation, a.acceptedAt).value.progress;
    assert progress.latest == a.observation && progress.lastDefinitive == Some(a.observation) == Last(d + [a]);
    if a.observation.body.Candidate? {
      StableGrows(d, a);
    }
  }

  lemma SummaryStep(p: Option<Progress>, history: seq<Arrival>, a: Arrival)
    requires Summarises(p, history) && Advance(p, a.observation, a.acceptedAt).Ok?
    ensures Summarises(Some(Advance(p, a.observation, a.acceptedAt).value.progress), history + [a])
  {
    hide Summarises, Advance;
    if a.observation.body.Unknown? || (p.Some? && a.observation == p.value.latest) {
      QuietStep(p, history, a);
    } else {
      DefinitiveStep(p, history, a);
    }
  }

  // -------------------------------------------------------------------------- the lifecycle

  // Every definitive event may follow the one before, with the same response.
  predicate Chained(d: seq<Arrival>) {
    forall i | 0 <= i < |d| ::
      && Allowed(BodyOf(Last(d[..i])), d[i].observation.body)
      && SameResponse(Last(d[..i]), d[i].observation.body)
  }

  lemma ChainGrows(d: seq<Arrival>, a: Arrival)
    requires Chained(d) && Allowed(BodyOf(Last(d)), a.observation.body) && SameResponse(Last(d), a.observation.body)
    ensures Chained(d + [a])
  {
    hide Allowed, SameResponse;
    var d' := d + [a];
    forall i | 0 <= i < |d'|
      ensures Allowed(BodyOf(Last(d'[..i])), d'[i].observation.body) && SameResponse(Last(d'[..i]), d'[i].observation.body)
    {
      assert i < |d| ==> d'[..i] == d[..i];
      assert i == |d| ==> d'[..i] == d;
    }
  }

  lemma {:induction false} DefinitiveChained(history: seq<Arrival>)
    requires Accepted(history)
    ensures Chained(Definitive(history))
  {
    if history != [] {
      var n := |history| - 1;
      DefinitiveChained(history[..n]);
      ProgressSummarises(history[..n]);
      var d, a := Definitive(history[..n]), history[n];
      if Definitive(history) != d {
        ChainGrows(d, a);
      }
    }
  }

  /** Up to a candidate, the definitive events are a send attempt, a send and then events of one response. */
  predicate OneResponse(d: seq<Arrival>, r: Response) {
    && |d| >= 2 && d[0].observation.body.SendAttempted? && d[1].observation.body.Sent?
    && (forall i | 2 <= i < |d| :: HasResponse(d[i].observation.body) && d[i].observation.body.response == r)
  }

  lemma {:induction false} ChainToSent(d: seq<Arrival>)
    requires Chained(d) && d != [] && d[|d| - 1].observation.body.Sent?
    ensures |d| == 2 && d[0].observation.body.SendAttempted?
  {
    var n := |d| - 1;
    assert Allowed(BodyOf(Last(d[..n])), d[n].observation.body);
    assert d[n - 1].observation.body.SendAttempted?;
    assert Allowed(BodyOf(Last(d[..n - 1])), d[n - 1].observation.body);
  }

  lemma ChainedPrefix(d: seq<Arrival>)
    requires Chained(d) && d != []
    ensures Chained(d[..|d| - 1])
  {
    var rest := d[..|d| - 1];
    assert forall i | 0 <= i < |rest| :: rest[..i] == d[..i] && rest[i] == d[i];
  }

  lemma {:induction false} ChainToResponse(d: seq<Arrival>)
    requires Chained(d) && d != [] && HasResponse(d[|d| - 1].observation.body)
    ensures |d| >= 3 && OneResponse(d, d[|d| - 1].observation.body.response)
    decreases |d|
  {
    var n := |d| - 1;
    var rest := d[..n];
    assert Allowed(BodyOf(Last(rest)), d[n].observation.body) && SameResponse(Last(rest), d[n].observation.body);
    ChainedPrefix(d);
    ResponseNeeds(Last(rest), d[n].observation.body);
    hide Chained, Allowed, OneResponse;
    if d[n - 1].observation.body.Sent? {
      ChainToSent(rest);
      FirstResponse(d);
    } else {
      ChainToResponse(rest);
      OneMoreResponse(d);
    }
  }

  lemma FirstResponse(d: seq<Arrival>)
    requires |d| == 3 && d[0].observation.body.SendAttempted? && d[1].observation.body.Sent? && HasResponse(d[2].observation.body)
    ensures OneResponse(d, d[2].observation.body.response)
  {}

  lemma OneMoreResponse(d: seq<Arrival>)
    requires |d| >= 4 && HasResponse(d[|d| - 1].observation.body)
    requires OneResponse(d[..|d| - 1], d[|d| - 1].observation.body.response)
    ensures OneResponse(d, d[|d| - 1].observation.body.response)
  {
    assert forall i | 0 <= i < |d| - 1 :: d[i] == d[..|d| - 1][i];
  }

  lemma ResponseNeeds(prior: Option<Observation>, next: Body)
    requires Allowed(BodyOf(prior), next) && HasResponse(next)
    ensures prior.Some? && (prior.value.body.Sent? || HasResponse(prior.value.body))
  {}

  // -------------------------------------------------------------------------- finals

  // What a final event needs of the definitive events before it.
  predicate FinalDue(d: seq<Arrival>, latest: Observation, o: Observation, acceptedAt: int)
    requires o.body.Final?
  {
    && o.identity == latest.identity
    && OneResponse(d, o.body.response) && |d| >= 3
    && o.observedAt > d[|d| - 1].observation.observedAt
    && StableSince(d, o.body.payload).Some?
    && acceptedAt - StableSince(d, o.body.payload).value >= CONTROL_RESULT_FINAL_STABILITY_MS
  }

  /**
   After any accepted history, a new final event is accepted exactly when it is about the page of the
   latest event, follows a send attempt, a send and events of its own response only, is a newer sight
   of it, and has had its exact payload standing in the trailing candidates for 1500 ms.
   */
  lemma {:induction false} FinalAcceptedIff(history: seq<Arrival>, o: Observation, acceptedAt: int)
    requires Accepted(history) && history != [] && o.body.Final?
    requires o.sequence > history[|history| - 1].observation.sequence
    ensures Accepted(history + [Arrival(o, acceptedAt)]) <==>
      FinalDue(Definitive(history), history[|history| - 1].observation, o, acceptedAt)
  {
    Extended(history, Arrival(o, acceptedAt));
    ProgressSummarises(history);
    DefinitiveChained(history);
    FinalAdvance(After(history).value.value, Definitive(history), o, acceptedAt);
  }

  // A history grows by an event exactly when the automaton takes the event.
  lemma Extended(history: seq<Arrival>, a: Arrival)
    requires Accepted(history)
    ensures var next := Advance(After(history).value, a.observation, a.acceptedAt);
      After(history + [a]) == if next.Ok? then Ok(Some(next.value.progress)) else Err(next.error)
  {
    assert (history + [a])[..|history|] == history;
  }

  lemma FinalAdvance(p: Progress, d: seq<Arrival>, o: Observation, acceptedAt: int)
    requires Chained(d) && o.body.Final? && o.sequence > p.latest.sequence && p.lastDefinitive == Last(d)
    requires d != [] && d[|d| - 1].observation.body.Candidate? ==>
      p.lastDefinitiveAcceptedAt == StableSince(d, d[|d| - 1].observation.body.payload)
    ensures Advance(Some(p), o, acceptedAt).Ok? <==> FinalDue(d, p.latest, o, acceptedAt)
  {
    hide Chained;
    if d != [] && d[|d| - 1].observation.body.Candidate? {
      ChainToResponse(d);
    }
  }

  /** The trailing candidates that a stable payload rests on. */
  lemma {:induction false} StableRun(d: seq<Arrival>, payload: Payload) returns (j: nat)
    requires StableSince(d, payload).Some?
    ensures j < |d| && d[j].acceptedAt == StableSince(d, payload).value
    ensures forall i | j <= i < |d| :: d[i].observation.body.Candidate? && d[i].observation.body.payload == payload
  {
    var n := |d| - 1;
    if StableSince(d[..n], payload).Some? {
      j := StableRun(d[..n], payload);
      assert forall i | j <= i < n :: d[..n][i] == d[i];
    } else {
      j := n;
    }
  }

  lemma Shorter(history: seq<Arrival>, a: Arrival)
    requires Accepted(history + [a])
    ensures Accepted(history) && Advance(After(history).value, a.observation, a.acceptedAt).Ok?
  {
    assert (history + [a])[..|history|] == history;
  }

  /**
   An accepted final event: its payload equals that of every definitive event since a candidate
   accepted at least 1500 ms earlier, and the response id and URL never changed.
   */
  lemma {:induction false} FinalRestsOnStableCandidates(history: seq<Arrival>, o: Observation, acceptedAt: int) returns (j: nat)
    requires Accepted(history + [Arrival(o, acceptedAt)]) && o.body.Final?
    requires history != [] ==> o != history[|history| - 1].observation
    ensures var d := Definitive(history);
      && 2 <= j < |d| && OneResponse(d, o.body.response)
      && acceptedAt - d[j].acceptedAt >= CONTROL_RESULT_FINAL_STABILITY_MS
      && (forall i | j <= i < |d| :: d[i].observation.body == Candidate(o.body.response, o.body.payload))
  {
    Shorter(history, Arrival(o, acceptedAt));
    ProgressSummarises(history);
    FinalAcceptedIff(history, o, acceptedAt);
    var d := Definitive(history);
    j := StableRun(d, o.body.payload);
    assert d[0].observation.body.SendAttempted? && d[1].observation.body.Sent?;
  }

  /** A repeated latest event changes nothing and gives the same verdict; any other reuse of its number is refused. */
  lemma {:induction false} ReplayIsIdempotent(history: seq<Arrival>, o: Observation, again: int)
    requires Accepted(history) && history != [] && o.sequence == history[|history| - 1].observation.sequence
    ensures var p := After(history).value;
      Advance(p, o, again).Ok? <==> o == history[|history| - 1].observation
    ensures o == history[|history| - 1].observation ==>
      Accepted(history + [Arrival(o, again)]) && After(history + [Arrival(o, again)]) == After(history)
  {
    ProgressSummarises(history);
    assert (history + [Arrival(o, again)])[..|history|] == history;
  }

  // -------------------------------------------------------------------------- one page

  predicate OnPage(history: seq<Arrival>, who: Identity) {
    forall i | 0 <= i < |history| :: history[i].observation.identity == who
  }

  /** If every unknown event names the page of the first event, so does every event. */
  lemma {:induction false} OnePage(history: seq<Arrival>, who: Identity)
    requires Accepted(history) && (history != [] ==> history[0].observation.identity == who)
    requires forall i | 0 <= i < |history| && history[i].observation.body.Unknown? :: history[i].observation.identity == who
    ensures OnPage(history, who)
  {
    if history != [] {
      var n := |history| - 1;
      OnePage(history[..n], who);
      ProgressSummarises(history[..n]);
    }
  }

  function Event(tab: string, sequence: nat, body: Body): Arrival {
    Arrival(Observation(Identity(1, tab, 1), 2_000 * sequence, sequence, body), 2_000 * sequence)
  }

  const ATTEMPT := Event("one", 1, SendAttempted("url"))
  const DOUBT := Event("two", 2, Unknown("url"))
  const SEND := Event("two", 3, Sent("url"))
  const OFFER := Event("two", 4, Candidate(Response("response", "url"), Delivered("PLAN", "result")))
  const END := Event("two", 5, Final(Response("response", "url"), Delivered("PLAN", "result")))

  /** Without that, one unknown event can move the whole exchange to another page: the gateway must check it. */
  lemma UnknownCanMoveThePage()
    ensures Accepted([ATTEMPT, DOUBT, SEND, OFFER, END]) && ATTEMPT.observation.identity != END.observation.identity
  {
    var a, b, c, d, e := ATTEMPT, DOUBT, SEND, OFFER, END;
    var oa, ob, oc, od := a.observation, b.observation, c.observation, d.observation;
    assert After([]) == Ok(None);
    hide After;
    Extended([], a);
    assert [] + [a] == [a];
    assert After([a]) == Ok(Some(Progress(oa, Some(oa), 2_000, Some(2_000))));
    Extended([a], b);
    assert [a] + [b] == [a, b];
    assert After([a, b]) == Ok(Some(Progress(ob, Some(oa), 4_000, Some(2_000))));
    Extended([a, b], c);
    assert [a, b] + [c] == [a, b, c];
    assert After([a, b, c]) == Ok(Some(Progress(oc, Some(oc), 6_000, Some(6_000))));
    Extended([a, b, c], d);
    assert [a, b, c] + [d] == [a, b, c, d];
    assert After([a, b, c, d]) == Ok(Some(Progress(od, Some(od), 8_000, Some(8_000))));
    Extended([a, b, c, d], e);
    assert [a, b, c, d] + [e] == [a, b, c, d, e];
    assert Accepted([a, b, c, d, e]);
  }

  // -------------------------------------------------------------------------- what to do next

  datatype Action = MarkSendAttempted | ConfirmSend | InspectResponseStart | ConfirmResponseFinal | InspectExactResponse

  // The pending action and the delay of `controlWaitPolicy`.
  function NextAction(prior: Option<Body>): Action {
    match prior
    case None => MarkSendAttempted
    case Some(SendAttempted(_)) => ConfirmSend
    case Some(Sent(_)) => InspectResponseStart
    case Some(Candidate(_, _)) => ConfirmResponseFinal
    case Some(_) => InspectExactResponse
  }

  function CheckPageAfter(prior: Option<Body>, remainingMs: nat): nat {
    var interval :=
      if prior.Some? && prior.value.Candidate? then CONTROL_RESULT_FINAL_STABILITY_MS else CONTROL_PAGE_CHECK_INTERVAL_MS;
    var half := if remainingMs / 2 < 1 then 1 else remainingMs / 2;
    if remainingMs == 0 then 0 else if interval < half then interval else half
  }

  // The event the advice asks for.
  predicate Advised(prior: Option<Body>, next: Body) {
    match NextAction(prior)
    case MarkSendAttempted => next.SendAttempted?
    case ConfirmSend => next.Sent?
    case InspectResponseStart => next.ResponseCreated? || next.Generating? || next.Candidate?
    case ConfirmResponseFinal => next.Final? && next.response == prior.value.response && next.payload == prior.value.payload
    case InspectExactResponse => next.Generating? && HasResponse(prior.value) && !prior.value.Final? && next.response == prior.value.response
  }

  /**
   The advice fits the automaton: the event it asks for is accepted, a final event for an unchanged
   candidate included if it is seen the advised delay after the candidate and at least twice the
   barrier remained of the lease.
   */
  lemma {:induction false} AdviceIsAccepted(history: seq<Arrival>, o: Observation, acceptedAt: int, remainingMs: nat)
    requires Accepted(history) && history != []
    requires o.identity == history[|history| - 1].observation.identity
    requires o.sequence > history[|history| - 1].observation.sequence
    requires var prior := BodyOf(Last(Definitive(history)));
      && Advised(prior, o.body)
      && (o.body.Final? ==>
            && o.observedAt > Last(Definitive(history)).value.observedAt
            && remainingMs >= 2 * CONTROL_RESULT_FINAL_STABILITY_MS
            && acceptedAt >= StableSince(Definitive(history), o.body.payload).GetOr(0) + CheckPageAfter(prior, remainingMs))
    ensures Accepted(history + [Arrival(o, acceptedAt)])
  {
    ProgressSummarises(history);
    Extended(history, Arrival(o, acceptedAt));
    AdvisedAdvances(After(history).value.value, Definitive(history), o, acceptedAt, remainingMs);
  }

  lemma AdvisedAdvances(p: Progress, d: seq<Arrival>, o: Observation, acceptedAt: int, remainingMs: nat)
    requires o.identity == p.latest.identity && o.sequence > p.latest.sequence && p.lastDefinitive == Last(d)
    requires d != [] && d[|d| - 1].observation.body.Candidate? ==>
      p.lastDefinitiveAcceptedAt == StableSince(d, d[|d| - 1].observation.body.payload)
    requires Advised(BodyOf(Last(d)), o.body)
    requires o.body.Final? ==>
      && o.observedAt > Last(d).value.observedAt && remainingMs >= 2 * CONTROL_RESULT_FINAL_STABILITY_MS
      && acceptedAt >= StableSince(d, o.body.payload).GetOr(0) + CheckPageAfter(BodyOf(Last(d)), remainingMs)
    ensures Advance(Some(p), o, acceptedAt).Ok?
  {
    if d != [] && d[|d| - 1].observation.body.Candidate? {
      assert StableSince(d, d[|d| - 1].observation.body.payload).Some?;
    }
  }
}
