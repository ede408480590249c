/** What the clean-up of the mailbox asks of the migrated copies, and what use of the store makes of them. */
module LegacyEvidence {
  import opened Wrappers
  import opened WaitPolicy
  import opened ControlRequests
  import opened ControlRequestRuns
  import opened ControlRecords

  /** The migrated files of one request. */
  datatype Original = Original(
    request: Request,
    observation: Option<Progress>,
    marker: Option<Marker>,
    renewal: Option<int>)

  function OriginalOf(s: Store, id: RequestId): Original
    requires id in s.requests
  {
    Original(s.requests[id], ObservationOf(s, id),
             if id in s.markers then Some(s.markers[id]) else None,
             if id in s.renewals then Some(s.renewals[id]) else None)
  }

  function Originals(s: Store): map<RequestId, Original> { map id | id in s.requests :: OriginalOf(s, id) }

  // -------------------------------------------------------------------------- the clean-up's checks

  /** `observationRetainsMigrationEvidence` */
  predicate Retains(current: Observation, original: Observation) {
    && current.identity == original.identity
    && current.sequence >= original.sequence
    && (HasResponse(original.body) ==> HasResponse(current.body) && current.body.response.id == original.body.response.id)
    && (original.body.Final? ==> current == original)
  }

  predicate Retained(current: Progress, original: Progress) {
    && Retains(current.latest, original.latest)
    && (original.lastDefinitive.Some? ==>
          current.lastDefinitive.Some? && Retains(current.lastDefinitive.value, original.lastDefinitive.value))
  }

  /** What `validateMigratedFiles` asks of one request. */
  predicate Validates(s: Store, id: RequestId, o: Original) {
    && id in s.requests && s.requests[id] == o.request
    && (o.observation.Some? ==>
          && id in s.observations && ProgressReadable(s.observations[id], s.requests[id])
          && Retained(s.observations[id], o.observation.value))
    && (o.marker.Some? ==> id in s.markers && MarkerReadable(s.markers[id], s.requests[id]) && s.markers[id] == o.marker.value)
    && (o.renewal.Some? ==> ExpiresAt(s, s.requests[id]) >= o.renewal.value)
  }

  // -------------------------------------------------------------------------- what happens to a migrated request

  /** The files a migrated request may not lose: the request, its marker, its expiry. */
  predicate FilesKept(s: Store, id: RequestId, o: Original) {
    && id in s.requests && s.requests[id] == o.request
    && (o.marker.Some? ==> id in s.markers && s.markers[id] == o.marker.value)
    && (o.renewal.Some? ==> ExpiresAt(s, s.requests[id]) >= o.renewal.value)
  }

  predicate Orderly(p: Progress) {
    p.lastDefinitive.Some? ==> p.lastDefinitive.value.sequence <= p.latest.sequence
  }

  predicate Lost(b: Body) { b.PageLost? || b.AuthorityInvalid? }

  // A definitive event behind one that named a response names the same one, or says that the page is lost.
  predicate Continues(original: Observation, current: Observation) {
    && current.sequence >= original.sequence
    && (HasResponse(original.body) && !Lost(current.body) ==>
          && HasResponse(current.body) && current.body.response == original.body.response
          && (original.body.Final? ==> current == original))
  }

  /** What the automaton makes of a progress. */
  predicate Grew(original: Progress, current: Progress) {
    && current.latest.sequence >= original.latest.sequence
    && (original.lastDefinitive.Some? ==>
          current.lastDefinitive.Some? && Continues(original.lastDefinitive.value, current.lastDefinitive.value))
  }

  lemma ContinuesStep(a: Observation, b: Observation, c: Observation)
    requires Continues(a, b) && c.sequence >= a.sequence
    requires Allowed(Some(b.body), c.body) && SameResponse(Some(b), c.body)
    ensures Continues(a, c)
  {}

  lemma GrewStep(original: Progress, current: Progress, o: Observation, now: int)
    requires Grew(original, current) && Orderly(original)
    requires Advance(Some(current), o, now).Ok? && !Advance(Some(current), o, now).value.idempotentReplay
    ensures Grew(original, Advance(Some(current), o, now).value.progress)
  {
    if !o.body.Unknown? && original.lastDefinitive.Some? {
      ContinuesStep(original.lastDefinitive.value, current.lastDefinitive.value, o);
    }
    hide Continues, Allowed, SameResponse;
  }

  /**
   What costs a request its evidence: a response was named, and then the page was lost, or its
   authority, or, while the latest event named it, the latest event is an unknown one.
   */
  predicate Overtaken(original: Progress, current: Progress) {
    && original.lastDefinitive.Some? && HasResponse(original.lastDefinitive.value.body)
    && (|| (current.lastDefinitive.Some? && Lost(current.lastDefinitive.value.body))
        || (HasResponse(original.latest.body) && current.latest.body.Unknown?))
  }

  /** Of what the automaton can make of a migrated observation, exactly the overtaken ones fail the test. */
  lemma RetainedIff(original: Progress, current: Progress, r: Request)
    requires ProgressReadable(original, r) && ProgressReadable(current, r) && Grew(original, current)
    ensures Retained(current, original) <==> !Overtaken(original, current)
  {}

  /** The migrated request in a store that is only used through the gateway. */
  predicate Followed(s: Store, id: RequestId, o: Original) {
    && FilesKept(s, id, o)
    && (o.observation.Some? ==>
          && ProgressReadable(o.observation.value, o.request) && Orderly(o.observation.value)
          && id in s.observations && Grew(o.observation.value, s.observations[id]))
  }

  lemma FilesStay(s: Store, call: Call, id: RequestId, o: Original)
    requires Sound(s, call.now) && FilesKept(s, id, o) && !Prunes(call.op, id)
    ensures FilesKept(ApplyAll(s, Writes(s, call)), id, o)
  {
    CallTracks(s, call, id);
    hide Sound, Writes, ApplyAll, Observes;
  }

  lemma FollowedStays(s: Store, call: Call, id: RequestId, o: Original)
    requires Sound(s, call.now) && Followed(s, id, o) && !Prunes(call.op, id)
    ensures Followed(ApplyAll(s, Writes(s, call)), id, o)
  {
    FilesStay(s, call, id, o);
    CallTracks(s, call, id);
    if o.observation.Some? && call.op.Observe? && Advance(ObservationOf(s, id), call.op.event, call.now).Ok? {
      if !Advance(ObservationOf(s, id), call.op.event, call.now).value.idempotentReplay {
        GrewStep(o.observation.value, s.observations[id], call.op.event, call.now);
      }
    }
    hide Sound, Writes, ApplyAll, ObservePlan, Look, Advance, Grew, FilesKept;
  }

  lemma FollowedAtFirst(s: Store, id: RequestId)
    requires id in s.requests && s.requests[id].id == id && RecordsReadable(s, id)
    requires id in s.observations ==> Orderly(s.observations[id])
    ensures Followed(s, id, OriginalOf(s, id))
  {}

  /** A followed request passes the clean-up's checks exactly if it has not been overtaken. */
  lemma ValidatesIff(s: Store, id: RequestId, o: Original)
    requires Followed(s, id, o) && RecordsReadable(s, id)
    ensures Validates(s, id, o) <==> !(o.observation.Some? && id in s.observations && Overtaken(o.observation.value, s.observations[id]))
  {
    if o.observation.Some? {
      RetainedIff(o.observation.value, s.observations[id], o.request);
    }
    hide Grew, Retained, Overtaken, ProgressReadable, MarkerReadable;
  }
}
