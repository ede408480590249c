/** Which calls of the turn capability broker hand out completion fences, and which take them away. */
module TurnFences {
  import opened Wrappers
  import opened TurnCapability
  import opened TurnCapabilityRuns

  lemma TerminateFences(b: Broker, chosen: set<Secret>, s: State, now: int)
    ensures TerminateAll(b, chosen, s, now).fences.Keys <= b.fences.Keys
  {}

  lemma TrimFences(b: Broker)
    ensures Trim(b).fences == b.fences
  {}

  lemma PruneFences(b: Broker, c: Clock)
    ensures Prune(b, c).fences.Keys <= b.fences.Keys
  {
    hide TerminateAll, Trim;
    TerminateFences(b, DueTokens(b, c.enter), Expired, c.enter);
    TrimFences(Expelled(b, c));
  }

  lemma EndedFences(p: Broker, t: Secret, s: State, now: int)
    ensures EndAt(p, t, s, now).0.fences.Keys <= p.fences.Keys
  {
    hide TerminateAll, Trim;
    TerminateFences(p, {t}, s, now);
    TrimFences(TerminateAll(p, {t}, s, now));
  }

  lemma RevokedFences(p: Broker, selector: Selector, now: int)
    ensures RevokeAllAt(p, selector, now).0.fences.Keys <= p.fences.Keys
  {
    hide TerminateAll;
    TerminateFences(p, LiveTokens(p, SelectedTokens(p, selector)), Revoked, now);
  }

  lemma ReplacedFences(p: Broker, binding: Binding, ttl: int, now: int)
    ensures ReplaceAt(p, binding, ttl, now).0.fences.Keys <= p.fences.Keys
  {
    hide TerminateAll, Trim, SessionTokens;
    var chosen := LiveTokens(p, SessionTokens(p, binding.session));
    TerminateFences(p, chosen, Revoked, now);
    TrimFences(TerminateAll(p, chosen, Revoked, now));
  }

  lemma LentFences(p: Broker, t: Secret, lease: Secret, ttl: int, now: int)
    requires t in p.records
    ensures Lend(p, t, lease, ttl, now).0.fences.Keys <= p.fences.Keys
  {
    hide TerminateAll;
    TerminateFences(p, {t}, Expired, now);
  }

  lemma KeptAliveFences(p: Broker, op: Op, now: int)
    requires op.KeepAliveRequest?
    ensures KeepAliveAt(p, op.session, op.turn, op.generation, op.observedAt, now).0.fences == p.fences
  {
    hide EpochFresh, RequestTokens;
  }

  lemma PrunedFences(p: Broker, op: Op, c: Clock)
    requires !op.BeginCompletion? && !op.Complete? && !op.AbortCompletion?
    ensures ApplyPruned(p, op, c).0.fences.Keys <= p.fences.Keys
  {
    hide TerminateAll, Trim, Lend, EndAt, RevokeAllAt, ReplaceAt, KeepAliveAt, Swept;
    match op
    case IssueReplacingSession(binding, ttl) => ReplacedFences(p, binding, ttl, c.enter);
    case KeepAliveRequest(_, _, _, _) => KeptAliveFences(p, op, c.enter);
    case Claim(t, _, _, ttl) => if t in p.records { LentFences(p, t, p.next, ttl, c.act); }
    case Renew(t, lease, _, ttl) => if t in p.records { LentFences(p, t, lease, ttl, c.act); }
    case Release(t, lease) =>
      if t in p.records {
        var r := Swept(p.records[t], c.act);
        TrimFences(Put(p, t, r.(leases := r.leases - {lease})));
      }
    case Cancel(t) => EndedFences(p, t, Cancelled, c.act);
    case Revoke(t) => EndedFences(p, t, Revoked, c.act);
    case RevokeAll(selector) => RevokedFences(p, selector, c.enter);
    case _ =>
  }

  lemma CompletedFences(p: Broker, t: Secret, fence: Secret, found: Record, c: Clock)
    ensures CompleteAt(p, t, fence, found, c).0.fences.Keys <= p.fences.Keys
    ensures CompleteAt(p, t, fence, found, c).1.Ok? ==> fence !in CompleteAt(p, t, fence, found, c).0.fences
  {
    hide Trim;
    if t in p.records {
      var r := Swept(p.records[t], c.act);
      TrimFences(ConsumeFence(p, t, fence, r.(state := Completed, terminalAt := c.act)));
    }
  }

  lemma AbortedFences(p: Broker, t: Secret, fence: Secret, found: Record, c: Clock)
    requires found.state == Completing && found.fence == Some(fence)
    requires if Due(found, c.enter) then fence !in p.fences else t in p.records
    ensures AbortAt(p, t, fence, found, c).0.fences.Keys <= p.fences.Keys
    ensures fence !in AbortAt(p, t, fence, found, c).0.fences
  {}

  lemma ResolvedFence(b: Broker, fence: Secret)
    requires WellFormed(b)
    ensures if fence in b.fences then b.fences[fence] in b.records && ResolveFence(b, fence) == Ok(b.fences[fence])
            else ResolveFence(b, fence).Err?
  {
    if fence in b.fences {
      assert FenceOk(b, fence);
    }
  }

  lemma CompletionFences(b: Broker, fence: Secret, c: Clock)
    requires WellFormed(b)
    ensures var (b', outcome) := Apply(b, Complete(fence), c);
      b'.fences.Keys <= b.fences.Keys && (outcome.Ok? ==> fence !in b'.fences)
  {
    hide Prune, WellFormed, CompleteAt, ResolveFence;
    ResolvedFence(b, fence);
    if fence in b.fences {
      PruneFences(b, c);
      CompletedFences(Prune(b, c), b.fences[fence], fence, b.records[b.fences[fence]], c);
    }
  }

  lemma AbortionFences(b: Broker, fence: Secret, c: Clock)
    requires WellFormed(b)
    ensures Apply(b, AbortCompletion(fence), c).0.fences.Keys <= b.fences.Keys && fence !in Apply(b, AbortCompletion(fence), c).0.fences
  {
    hide Prune, WellFormed, AbortAt, ResolveFence;
    ResolvedFence(b, fence);
    if fence in b.fences {
      PruneFences(b, c);
      PrunedFence(b, fence, c);
      AbortedFences(Prune(b, c), b.fences[fence], fence, b.records[b.fences[fence]], c);
    }
  }

  /** Completing and aborting only take fences away; an abort, even a refused one, leaves its fence gone. */
  lemma ConsumedFences(b: Broker, op: Op, c: Clock)
    requires (op.Complete? || op.AbortCompletion?) && WellFormed(b)
    ensures Apply(b, op, c).0.fences.Keys <= b.fences.Keys
    ensures op.AbortCompletion? || Apply(b, op, c).1.Ok? ==> op.fence !in Apply(b, op, c).0.fences
  {
    hide Apply, WellFormed;
    if op.Complete? {
      CompletionFences(b, op.fence, c);
    } else {
      AbortionFences(b, op.fence, c);
    }
  }

  // A turn that has run out, or is gone, has lost its fence.
  lemma PrunedFence(b: Broker, fence: Secret, c: Clock)
    requires WellFormed(b) && fence in b.fences
    ensures var t := b.fences[fence];
      && t in b.records && b.records[t].state == Completing && b.records[t].fence == Some(fence)
      && (Due(b.records[t], c.enter) ==> fence !in Prune(b, c).fences)
      && (!Due(b.records[t], c.enter) ==> t in Prune(b, c).records)
  {
    assert FenceOk(b, fence);
    var t := b.fences[fence];
    assert RecordOk(b, t);
    if Due(b.records[t], c.enter) {
      FenceListElements(b.records, DueTokens(b, c.enter), b.next);
      assert t in DueTokens(b, c.enter);
    } else {
      LiveTurnsSurvive(b, c, t);
    }
  }

  /** Only beginning a completion hands out a fence. */
  lemma FencesOnlyBegin(b: Broker, op: Op, c: Clock)
    requires !op.BeginCompletion? && WellFormed(b)
    ensures Apply(b, op, c).0.fences.Keys <= b.fences.Keys
  {
    if op.Complete? || op.AbortCompletion? {
      ConsumedFences(b, op, c);
    } else {
      hide Prune, ApplyPruned, WellFormed;
      PruneFences(b, c);
      PrunedFences(Prune(b, c), op, c);
    }
  }
}
