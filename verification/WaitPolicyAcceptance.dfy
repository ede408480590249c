/**
 Which events the automaton of WaitPolicy takes, in terms of the whole history of events taken before:
 for every kind of event, exactly when it is taken and what it does.
 */
module WaitPolicyAcceptance {
  import opened Wrappers
  import opened WaitPolicy

  // A send was attempted, and nothing is known of it yet.
  predicate Attempted(d: seq<Arrival>) { |d| == 1 && d[0].observation.body.SendAttempted? }

  predicate SentAt(d: seq<Arrival>) { |d| >= 2 && d[0].observation.body.SendAttempted? && d[1].observation.body.Sent? }

  /** Sent, and since then only events of this one response, which has not been finished. */
  predicate Underway(d: seq<Arrival>, r: Response) {
    && SentAt(d)
    && forall i | 2 <= i < |d| ::
         var b := d[i].observation.body;
         (b.ResponseCreated? || b.Generating? || b.Candidate?) && b.response == r
  }

  /** When the definitive events so far call for an event. */
  predicate Due(d: seq<Arrival>, latest: Option<Observation>, o: Observation, acceptedAt: int) {
    match o.body
    case Unknown(_) => true
    case SendAttempted(_) => d == []
    case Sent(_) => Attempted(d)
    case ResponseStartFailed(_, _) => Attempted(d) || (SentAt(d) && |d| == 2)
    case ResponseCreated(_) => SentAt(d) && |d| == 2
    case Generating(r) => Underway(d, r)
    case Candidate(r, _) => Underway(d, r)
    case Final(_, _) => latest.Some? && FinalDue(d, latest.value, o, acceptedAt)
    case PageLost => true
    case AuthorityInvalid(_, _, _) => true
  }

  // -------------------------------------------------------------------------- the shape of a chain

  lemma ChainEndsInAttempt(d: seq<Arrival>)
    requires Chained(d) && d != [] && d[|d| - 1].observation.body.SendAttempted?
    ensures Attempted(d)
  {
    var n := |d| - 1;
    assert Allowed(BodyOf(Last(d[..n])), d[n].observation.body);
  }

  lemma ChainEndsInSent(d: seq<Arrival>)
    requires Chained(d) && d != [] && d[|d| - 1].observation.body.Sent?
    ensures SentAt(d) && |d| == 2
  {
    ChainToSent(d);
  }

  lemma ChainEndsInResponse(d: seq<Arrival>)
    requires Chained(d) && d != [] && HasResponse(d[|d| - 1].observation.body) && !d[|d| - 1].observation.body.Final?
    ensures |d| >= 3 && Underway(d, d[|d| - 1].observation.body.response)
  {
    ChainToResponse(d);
    forall i | 2 <= i < |d| ensures !d[i].observation.body.Final? {
      if i < |d| - 1 {
        assert Allowed(BodyOf(Last(d[..i + 1])), d[i + 1].observation.body);
        assert Last(d[..i + 1]) == Some(d[i].observation);
      }
    }
  }

  lemma UnderwayEnds(d: seq<Arrival>, r: Response)
    requires Underway(d, r)
    ensures var last := d[|d| - 1].observation.body;
      if |d| == 2 then last.Sent? else (last.ResponseCreated? || last.Generating? || last.Candidate?) && last.response == r
  {}

  // The step conditions of the automaton and the shape of the history agree.
  lemma DueIff(d: seq<Arrival>, latest: Option<Observation>, o: Observation, acceptedAt: int)
    requires Chained(d) && !o.body.Unknown? && !o.body.Final?
    ensures Allowed(BodyOf(Last(d)), o.body) && SameResponse(Last(d), o.body) <==> Due(d, latest, o, acceptedAt)
  {
    if d != [] {
      var last := d[|d| - 1].observation.body;
      if last.SendAttempted? {
        ChainEndsInAttempt(d);
      } else if last.Sent? {
        ChainEndsInSent(d);
      } else if HasResponse(last) && !last.Final? {
        ChainEndsInResponse(d);
      }
      if HasResponse(o.body) && Underway(d, o.body.response) {
        UnderwayEnds(d, o.body.response);
      }
      hide Chained;
    }
  }

  // -------------------------------------------------------------------------- acceptance

  lemma AdvanceIff(p: Option<Progress>, d: seq<Arrival>, o: Observation, acceptedAt: int)
    requires Chained(d) && !o.body.Final? && (p.Some? ==> o.sequence > p.value.latest.sequence)
    requires (if p.Some? then p.value.lastDefinitive else None) == Last(d)
    ensures var latest := if p.Some? then Some(p.value.latest) else None;
      Advance(p, o, acceptedAt).Ok? <==>
        o.body.Unknown? || ((latest.Some? ==> o.identity == latest.value.identity) && Due(d, latest, o, acceptedAt))
  {
    if !o.body.Unknown? {
      DueIff(d, if p.Some? then Some(p.value.latest) else None, o, acceptedAt);
    }
    hide Chained, Allowed, SameResponse, Due;
  }

  function LatestOf(history: seq<Arrival>): Option<Observation> {
    if history == [] then None else Some(history[|history| - 1].observation)
  }

  /**
   After any accepted history, an event with a new number is taken exactly if it is an unknown one, or is
   about the page of the latest event and its turn has come: an attempt first, a send behind the attempt,
   a failure to start behind either, a first sight of a response behind the send, progress and candidates
   behind the send and events of the very same unfinished response only, a final event as
   `FinalDue` says, and the loss of page or authority at any time.
   */
  lemma {:induction false} AcceptedIff(history: seq<Arrival>, o: Observation, acceptedAt: int)
    requires Accepted(history) && (history != [] ==> o.sequence > history[|history| - 1].observation.sequence)
    ensures var latest := LatestOf(history);
      Accepted(history + [Arrival(o, acceptedAt)]) <==>
        o.body.Unknown? ||
        ((latest.Some? ==> o.identity == latest.value.identity) && Due(Definitive(history), latest, o, acceptedAt))
  {
    Extended(history, Arrival(o, acceptedAt));
    ProgressSummarises(history);
    DefinitiveChained(history);
    if o.body.Final? {
      if history != [] {
        FinalAcceptedIff(history, o, acceptedAt);
      }
    } else {
      AdvanceIff(After(history).value, Definitive(history), o, acceptedAt);
    }
    hide Accepted, Definitive, Due, Advance;
  }

  /** A number that is not new is taken only with the latest event itself; an older one never. */
  lemma {:induction false} OldNumbersRefused(history: seq<Arrival>, o: Observation, acceptedAt: int)
    requires Accepted(history) && history != [] && o.sequence <= history[|history| - 1].observation.sequence
    ensures Accepted(history + [Arrival(o, acceptedAt)]) <==> o == history[|history| - 1].observation
  {
    Extended(history, Arrival(o, acceptedAt));
    ProgressSummarises(history);
  }

  /** What taking a new event tells the caller: it is no replay, and it ends the exchange exactly if it is one of four kinds. */
  lemma {:induction false} NewEventTells(history: seq<Arrival>, o: Observation, acceptedAt: int)
    requires Accepted(history) && Accepted(history + [Arrival(o, acceptedAt)])
    requires history != [] ==> o.sequence > history[|history| - 1].observation.sequence
    ensures var told := Advance(After(history).value, o, acceptedAt);
      && told.Ok? && !told.value.idempotentReplay
      && told.value.progress.latest == o && told.value.progress.latestAcceptedAt == acceptedAt
      && told.value.terminal ==
           (match o.body
            case Final(_, _) => Some(o)
            case ResponseStartFailed(_, _) => Some(o)
            case PageLost => Some(o)
            case AuthorityInvalid(_, _, _) => Some(o)
            case _ => None)
  {
    Extended(history, Arrival(o, acceptedAt));
    ProgressSummarises(history);
  }

  // -------------------------------------------------------------------------- advice

  /** Two advised delays fit into what remains of the lease, unless it is nearly over, and no delay is longer than 30 s. */
  lemma AdviceFitsTheLease(prior: Option<Body>, remainingMs: nat)
    ensures var delay := CheckPageAfter(prior, remainingMs);
      && delay <= 30_000 && (prior.Some? && prior.value.Candidate? ==> delay <= 1_500)
      && (remainingMs >= 2 ==> 2 * delay <= remainingMs) && (delay == 0 <==> remainingMs == 0)
      && (remainingMs >= 60_000 ==> delay == if prior.Some? && prior.value.Candidate? then 1_500 else 30_000)
  {}
}
