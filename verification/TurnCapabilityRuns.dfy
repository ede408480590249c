/** What holds over whole runs of the turn capability broker, from an empty broker on. */
module TurnCapabilityRuns {
  import opened Wrappers
  import opened TurnCapability

  datatype Event = Event(op: Op, clock: Clock)

  /** Each call reads the clock in order, and a call starts no earlier than the one before took effect. */
  predicate Timed(events: seq<Event>) {
    && (forall i | 0 <= i < |events| :: Ordered(events[i].clock))
    && (forall i, j | 0 <= i < j < |events| :: events[i].clock.act <= events[j].clock.enter)
  }

  /** The broker after the given calls, started empty with the given tombstone limit. */
  ghost function After(limit: nat, events: seq<Event>): Broker {
    if events == [] then Empty(limit)
    else
      var last := events[|events| - 1];
      Apply(After(limit, events[..|events| - 1]), last.op, last.clock).0
  }

  ghost function OutcomeOf(limit: nat, events: seq<Event>, i: nat): Outcome
    requires i < |events|
  {
    Apply(After(limit, events[..i]), events[i].op, events[i].clock).1
  }

  lemma {:induction false} RunWellFormed(limit: nat, events: seq<Event>)
    requires Timed(events)
    ensures WellFormed(After(limit, events))
  {
    if events != [] {
      var n := |events| - 1;
      RunWellFormed(limit, events[..n]);
      ApplySound(After(limit, events[..n]), events[n].op, events[n].clock);
    }
  }

  lemma RunStep(limit: nat, events: seq<Event>, i: nat)
    requires Timed(events) && i < |events|
    ensures var b, b' := After(limit, events[..i]), After(limit, events[..i + 1]);
      && WellFormed(b) && b' == Apply(b, events[i].op, events[i].clock).0
      && WellFormed(b') && Later(b, b', events[i].clock.act)
      && (!Issues(events[i].op) ==> NoNewTurns(b, b'))
  {
    assert events[..i + 1][..i] == events[..i];
    RunWellFormed(limit, events[..i]);
    ApplySound(After(limit, events[..i]), events[i].op, events[i].clock);
  }

  lemma RunStepLater(limit: nat, events: seq<Event>, i: nat)
    requires Timed(events) && i < |events|
    ensures Later(After(limit, events[..i]), After(limit, events[..i + 1]), events[i].clock.act)
  {
    RunStep(limit, events, i);
  }

  // Whatever happens later, the state after j calls comes after the state after i of them.
  lemma {:induction false} RunLater(limit: nat, events: seq<Event>, i: nat, j: nat, upTo: int)
    requires Timed(events) && i <= j <= |events|
    requires forall k | 0 <= k < j :: events[k].clock.act <= upTo
    ensures Later(After(limit, events[..i]), After(limit, events[..j]), upTo)
    decreases j
  {
    if i < j {
      RunLater(limit, events, i, j - 1, upTo);
      RunWellFormed(limit, events[..i]);
      RunStepLater(limit, events, j - 1);
      LaterChain(After(limit, events[..i]), After(limit, events[..j - 1]), After(limit, events[..j]),
                 upTo, events[j - 1].clock.act);
    }
  }

  lemma LaterChain(a: Broker, b: Broker, c: Broker, upTo: int, act: int)
    requires WellFormed(a) && Later(a, b, upTo) && Later(b, c, act) && act <= upTo
    ensures Later(a, c, upTo)
  {
    assert forall t | t in a.records :: RecordOk(a, t);
    assert forall f | f in a.fences :: FenceOk(a, f);
    assert Later(b, c, upTo);
    LaterTransitive(a, b, c, upTo);
  }

  // -------------------------------------------------------------------------- completion fences

  /** In every reachable broker the fence table and the completing turns are in one-to-one correspondence. */
  lemma {:induction false} FencesMatchCompletingTurns(limit: nat, events: seq<Event>)
    requires Timed(events)
    ensures var b := After(limit, events);
      && (forall f | f in b.fences ::
            b.fences[f] in b.records && b.records[b.fences[f]].state == Completing && f !in b.used)
      && (forall f, g | f in b.fences && g in b.fences :: b.fences[f] == b.fences[g] ==> f == g)
      && (forall t | t in b.records && b.records[t].state == Completing ::
            exists f :: f in b.fences && b.fences[f] == t)
  {
    RunWellFormed(limit, events);
    var b := After(limit, events);
    forall f | f in b.fences
      ensures b.fences[f] in b.records && b.records[b.fences[f]].state == Completing && f !in b.used
    {
      assert FenceOk(b, f) && RecordOk(b, b.fences[f]);
    }
    forall f, g | f in b.fences && g in b.fences && b.fences[f] == b.fences[g] ensures f == g {
      assert FenceOk(b, f) && FenceOk(b, g);
    }
    forall t | t in b.records && b.records[t].state == Completing
      ensures exists f :: f in b.fences && b.fences[f] == t
    {
      assert RecordOk(b, t);
      assert b.fences[b.records[t].fence.value] == t;
    }
  }

  predicate Consumes(op: Op, fence: Secret) { op == Complete(fence) || op == AbortCompletion(fence) }

  // A fence that has left the table is not accepted again, and only undrawn secrets enter it.
  lemma ConsumedFence(b: Broker, op: Op, c: Clock, fence: Secret)
    requires WellFormed(b) && Ordered(c) && Consumes(op, fence)
    ensures fence !in b.fences ==> Apply(b, op, c).1.Err?
    ensures Apply(b, op, c).1.Ok? ==> fence !in Apply(b, op, c).0.fences && fence < b.next
  {
    if fence in b.fences {
      assert FenceOk(b, fence);
    }
  }

  /** Over any run a fence completes or aborts a turn at most once, however often it is presented. */
  lemma {:induction false} FenceConsumedOnce(limit: nat, events: seq<Event>, i: nat, j: nat, fence: Secret)
    requires Timed(events) && i < j < |events|
    requires Consumes(events[i].op, fence) && Consumes(events[j].op, fence)
    requires OutcomeOf(limit, events, i).Ok?
    ensures OutcomeOf(limit, events, j).Err?
  {
    RunStep(limit, events, i);
    RunStep(limit, events, j);
    ConsumedFence(After(limit, events[..i]), events[i].op, events[i].clock, fence);
    RunLater(limit, events, i + 1, j, events[j].clock.act);
    ConsumedFence(After(limit, events[..j]), events[j].op, events[j].clock, fence);
  }

  // Pruning keeps a live turn that has not run out, without the leases that are over.
  lemma LiveTurnsSurvive(b: Broker, c: Clock, t: Secret)
    requires t < b.next && t in b.records && Live(b.records[t]) && !Due(b.records[t], c.enter)
    ensures t in Prune(b, c).records && Prune(b, c).records[t] == Swept(b.records[t], c.sweep)
  {
    var s := Expelled(b, c);
    var order := Tombstones(s.records, s.next);
    assert t !in order;
    assert forall x | x in Evicted(s) :: x in order;
  }

  lemma CompletesAt(p: Broker, t: Secret, fence: Secret, found: Record, c: Clock)
    requires Ordered(c)
    requires found.state == Completing
    requires !Due(found, c.enter) ==> t in p.records && p.records[t] == Swept(found, c.sweep)
    ensures CompleteAt(p, t, fence, found, c).1.Ok? <==>
      !Due(found, c.enter) && forall l | l in found.leases :: found.leases[l] <= c.act
  {
    if !Due(found, c.enter) {
      var leases := Swept(p.records[t], c.act).leases;
      if l :| l in found.leases && found.leases[l] > c.act {
        assert l in leases;
      } else {
        assert forall l :: l !in leases;
        assert leases == map[];
      }
    }
  }

  // Whether a fence would complete its turn now.
  ghost predicate Completable(b: Broker, fence: Secret, c: Clock) {
    && fence in b.fences && b.fences[fence] in b.records
    && var r := b.records[b.fences[fence]];
       !Due(r, c.enter) && forall l | l in r.leases :: r.leases[l] <= c.act
  }

  /**
   A fence completes its turn exactly when it is still in the table, the turn has not run out and
   every lease of the turn has been released or is over.
   */
  lemma {:induction false} CompletesIffDrained(limit: nat, events: seq<Event>, fence: Secret, c: Clock)
    requires Timed(events) && Ordered(c)
    ensures Apply(After(limit, events), Complete(fence), c).1.Ok? <==> Completable(After(limit, events), fence, c)
  {
    var b := After(limit, events);
    RunWellFormed(limit, events);
    if fence in b.fences {
      assert FenceOk(b, fence) && RecordOk(b, b.fences[fence]);
      var t := b.fences[fence];
      if !Due(b.records[t], c.enter) {
        LiveTurnsSurvive(b, c, t);
      }
      CompletesAt(Prune(b, c), t, fence, b.records[t], c);
    }
  }

  /** Terminal states are absorbing: an ended turn keeps its state and gains no lease; a completed one has none. */
  lemma {:induction false} EndedTurnsStayEnded(limit: nat, events: seq<Event>, i: nat, j: nat, t: Secret)
    requires Timed(events) && i <= j <= |events|
    requires t in After(limit, events[..i]).records && Terminal(After(limit, events[..i]).records[t].state)
    ensures var b, b' := After(limit, events[..i]), After(limit, events[..j]);
      t in b'.records ==>
        && b'.records[t].state == b.records[t].state
        && b'.records[t].leases.Keys <= b.records[t].leases.Keys
        && (b.records[t].state == Completed ==> b'.records[t].leases == map[])
  {
    RunWellFormed(limit, events[..j]);
    var upTo := if j == 0 then 0 else events[j - 1].clock.act;
    RunLater(limit, events, i, j, upTo);
    if t in After(limit, events[..j]).records {
      assert RecordOk(After(limit, events[..j]), t);
    }
  }

  // -------------------------------------------------------------------------- one turn per session

  predicate Holds(r: Record) { r.leases != map[] }

  ghost predicate SessionsOk(b: Broker) {
    forall t, u | t in b.records && u in b.records && t != u && b.records[t].binding.session == b.records[u].binding.session ::
      && (Live(b.records[t]) ==> !Live(b.records[u]) && !Holds(b.records[u]))
      && !(Holds(b.records[t]) && Holds(b.records[u]))
  }

  lemma NoNewTurnsKeepSessions(b: Broker, b': Broker, upTo: int)
    requires SessionsOk(b) && Later(b, b', upTo) && NoNewTurns(b, b')
    ensures SessionsOk(b')
  {
    forall t | t in b'.records
      ensures t in b.records && b'.records[t].binding == b.records[t].binding
        && (Live(b'.records[t]) ==> Live(b.records[t]))
        && (Holds(b'.records[t]) ==> Live(b.records[t]) || Holds(b.records[t]))
    {
      assert Successor(b.records[t], b'.records[t], upTo);
    }
  }

  // After `issueReplacingSession` has cleared a session, nothing of it is live or holds a lease.
  lemma ClearedSession(p: Broker, s: Session, now: int, t: Secret)
    requires forall u | u in SessionTokens(p, s) :: !Holds(p.records[u])
    requires t in Cleared(p, s, now).records && Cleared(p, s, now).records[t].binding.session == s
    ensures !Live(Cleared(p, s, now).records[t]) && !Holds(Cleared(p, s, now).records[t])
  {
    assert t in p.records && t in SessionTokens(p, s);
  }

  lemma ReplacingKeepsSessions(p: Broker, op: Op, c: Clock)
    requires WellFormed(p) && SessionsOk(p) && Ordered(c) && op.IssueReplacingSession? && TtlOk(op.ttlMs)
    ensures SessionsOk(ReplaceAt(p, op.binding, op.ttlMs, c.enter).0)
  {
    var s := op.binding.session;
    if forall u | u in SessionTokens(p, s) :: !Holds(p.records[u]) {
      var q := Cleared(p, s, c.enter);
      ClearedSound(p, s, c.enter, c.act);
      NoNewTurnsKeepSessions(p, q, c.act);
      forall t | t in q.records && q.records[t].binding.session == s ensures !Live(q.records[t]) && !Holds(q.records[t]) {
        ClearedSession(p, s, c.enter, t);
      }
      GrantKeepsSessions(q, op.binding, op.ttlMs, c.enter);
    }
  }

  lemma GrantKeepsSessions(q: Broker, binding: Binding, ttl: int, now: int)
    requires SessionsOk(q)
    requires forall t | t in q.records && q.records[t].binding.session == binding.session ::
      !Live(q.records[t]) && !Holds(q.records[t])
    ensures SessionsOk(Grant(q, binding, ttl, now).0)
  {}

  /**
   When turns are issued only by replacing the session, as the gateway does, at most one turn of a
   session is live and at most one, live or ended, still holds activity leases.
   */
  lemma {:induction false} OneTurnPerSession(limit: nat, events: seq<Event>)
    requires Timed(events) && forall i | 0 <= i < |events| :: !events[i].op.Issue?
    ensures SessionsOk(After(limit, events))
  {
    if events != [] {
      var n := |events| - 1;
      var op, c := events[n].op, events[n].clock;
      var b := After(limit, events[..n]);
      OneTurnPerSession(limit, events[..n]);
      RunStep(limit, events, n);
      assert events[..n + 1] == events;
      if op.IssueReplacingSession? {
        PruneSound(b, c);
        NoNewTurnsKeepSessions(b, Prune(b, c), c.act);
        if TtlOk(op.ttlMs) {
          ReplacingKeepsSessions(Prune(b, c), op, c);
        }
      } else {
        NoNewTurnsKeepSessions(b, After(limit, events), c.act);
      }
    }
  }

  // -------------------------------------------------------------------------- lifetimes

  // A turn appears only when it is issued, with its full lifetime and no lease.
  lemma NewTurn(b: Broker, op: Op, c: Clock, t: Secret)
    requires WellFormed(b) && Ordered(c) && t !in b.records && t in Apply(b, op, c).0.records
    ensures Issues(op) && Apply(b, op, c).1 == Ok(Granted(t, c.enter + op.ttlMs))
    ensures Apply(b, op, c).0.records[t] == Record(op.binding, c.enter, op.ttlMs, c.enter + op.ttlMs, Issued, map[], {}, None, 0)
  {
    ApplySound(b, op, c);
    PruneSound(b, c);
    if Issues(op) {
      GrantedTurn(Prune(b, c), op, c, t);
    }
  }

  lemma GrantedTurn(p: Broker, op: Op, c: Clock, t: Secret)
    requires Ordered(c) && Issues(op) && t !in p.records && t in ApplyPruned(p, op, c).0.records
    ensures ApplyPruned(p, op, c).1 == Ok(Granted(t, c.enter + op.ttlMs))
    ensures ApplyPruned(p, op, c).0.records[t]
         == Record(op.binding, c.enter, op.ttlMs, c.enter + op.ttlMs, Issued, map[], {}, None, 0)
  {
    if op.IssueReplacingSession? {
      ClearedSound(p, op.binding.session, c.enter, c.act);
    }
  }

  /** When the turn t was last authorised: by its issue or by an accepted keepalive. */
  ghost function LastAuthorised(limit: nat, events: seq<Event>, t: Secret): int {
    if events == [] then 0
    else
      var n := |events| - 1;
      var outcome := OutcomeOf(limit, events, n);
      if Authorises(outcome, t) then events[n].clock.enter
      else LastAuthorised(limit, events[..n], t)
  }

  // Only an accepted keepalive for the turn itself moves its expiry, and then by at most its lifetime.
  ghost predicate ExpiryKept(p: Broker, p': Broker, outcome: Outcome, now: int, t: Secret) {
    t in p'.records ==>
      && t in p.records
      && (|| p'.records[t].expiresAt == p.records[t].expiresAt
          || (outcome == Ok(KeptAlive(t, p'.records[t].expiresAt)) &&
              p'.records[t].expiresAt <= now + p.records[t].ttlMs))
  }

  lemma PruneKeepsExpiry(b: Broker, c: Clock, t: Secret)
    requires t in Prune(b, c).records
    ensures t in b.records && Prune(b, c).records[t].expiresAt == b.records[t].expiresAt
    ensures Prune(b, c).records[t].ttlMs == b.records[t].ttlMs
  {}

  lemma PrunedKeepsExpiry(p: Broker, op: Op, c: Clock, t: Secret)
    requires !op.Complete? && !op.AbortCompletion? && t < p.next
    ensures ExpiryKept(p, ApplyPruned(p, op, c).0, ApplyPruned(p, op, c).1, c.enter, t)
  {
    if op.Claim? || op.Renew? || op.Release? || op.BeginCompletion? || op.Status? {
      LeasesKeepExpiry(p, op, c, t);
    } else {
      hide ClaimAt, RenewAt, ReleaseAt, BeginCompletionAt, StatusAt;
    }
  }

  // Working with leases and beginning a completion leave every turn's lifetime alone.
  lemma LeasesKeepExpiry(p: Broker, op: Op, c: Clock, t: Secret)
    requires op.Claim? || op.Renew? || op.Release? || op.BeginCompletion? || op.Status?
    ensures ExpiryKept(p, ApplyPruned(p, op, c).0, ApplyPruned(p, op, c).1, c.enter, t)
  {
    hide ReplaceAt, KeepAliveAt, EndAt, RevokeAllAt;
  }

  lemma CompletionKeepsExpiry(p: Broker, u: Secret, fence: Secret, found: Record, c: Clock, t: Secret)
    ensures var (p', outcome) := CompleteAt(p, u, fence, found, c); ExpiryKept(p, p', outcome, c.enter, t)
    ensures var (p', outcome) := AbortAt(p, u, fence, found, c); ExpiryKept(p, p', outcome, c.enter, t)
  {}

  lemma ExpiryMoves(b: Broker, op: Op, c: Clock, t: Secret)
    requires t in b.records && t < b.next
    ensures ExpiryKept(b, Apply(b, op, c).0, Apply(b, op, c).1, c.enter, t)
  {
    var b' := Apply(b, op, c).0;
    if RefusedEarly(b, op).None? && t in b'.records {
      var p := Prune(b, c);
      match op {
        case Complete(f) => CompletionKeepsExpiry(p, b.fences[f], f, b.records[b.fences[f]], c, t);
        case AbortCompletion(f) => CompletionKeepsExpiry(p, b.fences[f], f, b.records[b.fences[f]], c, t);
        case _ => PrunedKeepsExpiry(p, op, c, t);
      }
      PruneKeepsExpiry(b, c, t);
    }
  }

  predicate Authorises(outcome: Outcome, t: Secret) {
    outcome.Ok? && (outcome.value.Granted? || outcome.value.KeptAlive?) && outcome.value.token == t
  }

  // An accepted keepalive never leaves a turn that was within its lifetime with more than that.
  lemma AuthorisedTurn(b: Broker, op: Op, c: Clock, t: Secret, last: int)
    requires WellFormed(b) && Ordered(c) && t in b.records && t in Apply(b, op, c).0.records
    requires last <= c.enter && b.records[t].expiresAt <= last + b.records[t].ttlMs
    ensures var (b', outcome) := Apply(b, op, c);
      var last' := if Authorises(outcome, t) then c.enter else last;
      b'.records[t].expiresAt <= last' + b'.records[t].ttlMs
  {
    assert RecordOk(b, t);
    ApplySound(b, op, c);
    ExpiryMoves(b, op, c, t);
  }

  // The bound, together with the call that set it.
  ghost predicate Within(limit: nat, events: seq<Event>, t: Secret, i: nat)
    requires t in After(limit, events).records
  {
    && i < |events| && LastAuthorised(limit, events, t) == events[i].clock.enter
    && After(limit, events).records[t].expiresAt <= events[i].clock.enter + After(limit, events).records[t].ttlMs
  }

  lemma {:induction false} LifetimeWithin(limit: nat, events: seq<Event>, t: Secret) returns (i: nat)
    requires Timed(events) && t in After(limit, events).records
    ensures Within(limit, events, t, i)
  {
    var n := |events| - 1;
    var b := After(limit, events[..n]);
    RunWellFormed(limit, events[..n]);
    if t in b.records {
      i := LifetimeWithin(limit, events[..n], t);
      AuthorisedTurn(b, events[n].op, events[n].clock, t, events[i].clock.enter);
      i := if Authorises(OutcomeOf(limit, events, n), t) then n else i;
    } else {
      NewTurn(b, events[n].op, events[n].clock, t);
      i := n;
    }
  }

  /**
   In every reachable broker every lease expires no later than its capability, and a capability no
   later than its lifetime after it was last issued or kept alive.
   */
  lemma {:induction false} CapabilityLifetime(limit: nat, events: seq<Event>, t: Secret)
    requires Timed(events) && t in After(limit, events).records
    ensures var r := After(limit, events).records[t];
      && r.expiresAt <= LastAuthorised(limit, events, t) + r.ttlMs
      && (forall l | l in r.leases :: r.leases[l] <= r.expiresAt)
  {
    RunWellFormed(limit, events);
    assert RecordOk(After(limit, events), t);
    var i := LifetimeWithin(limit, events, t);
  }

  // -------------------------------------------------------------------------- expiry and eviction

  ghost predicate EndedBy(b: Broker, now: int) {
    forall t | t in b.records :: Terminal(b.records[t].state) ==> b.records[t].terminalAt <= now
  }

  lemma {:induction false} RunEndedBy(limit: nat, events: seq<Event>, now: int)
    requires Timed(events) && (events != [] ==> events[|events| - 1].clock.act <= now)
    ensures EndedBy(After(limit, events), now)
  {
    if events != [] {
      var n := |events| - 1;
      var op, c := events[n].op, events[n].clock;
      var b, b' := After(limit, events[..n]), After(limit, events);
      RunEndedBy(limit, events[..n], now);
      RunWellFormed(limit, events[..n]);
      ApplySound(b, op, c);
      forall t | t in b'.records && Terminal(b'.records[t].state) ensures b'.records[t].terminalAt <= now {
        if t in b.records {
          assert Successor(b.records[t], b'.records[t], c.act);
        } else {
          NewTurn(b, op, c, t);
        }
      }
    }
  }

  /** Once any call has pruned the broker, no expired turn holds a lease. */
  lemma {:induction false} PruningFreesExpiredTurns(limit: nat, events: seq<Event>, c: Clock, t: Secret)
    requires Timed(events) && Ordered(c) && (events != [] ==> events[|events| - 1].clock.act <= c.enter)
    requires var p := Prune(After(limit, events), c); t in p.records && p.records[t].state == Expired
    ensures !Holds(Prune(After(limit, events), c).records[t])
  {
    var b := After(limit, events);
    RunWellFormed(limit, events);
    RunEndedBy(limit, events, c.enter);
    assert RecordOk(b, t);
  }

  predicate Older(records: map<Secret, Record>, t: Secret, u: Secret)
    requires t in records && u in records
  {
    records[t].terminalAt < records[u].terminalAt || (records[t].terminalAt == records[u].terminalAt && t < u)
  }

  ghost predicate OldestFirst(records: map<Secret, Record>, order: seq<Secret>) {
    && (forall t | t in order :: t in records)
    && (forall i, j | 0 <= i < j < |order| :: Older(records, order[i], order[j]))
  }

  lemma {:induction false} InsertKeepsOrder(records: map<Secret, Record>, order: seq<Secret>, t: Secret)
    requires OldestFirst(records, order) && t in records && forall x | x in order :: x < t
    ensures OldestFirst(records, InsertByAge(records, order, t))
  {
    InsertByAgeElements(records, order, t);
    if order != [] {
      if records[t].terminalAt < records[order[0]].terminalAt {
        assert forall j | 0 < j < |order| :: Older(records, order[0], order[j]);
      } else {
        assert forall x | x in order[1..] :: x in order;
        InsertKeepsOrder(records, order[1..], t);
        var rest := InsertByAge(records, order[1..], t);
        InsertByAgeElements(records, order[1..], t);
        forall j | 0 <= j < |rest| ensures Older(records, order[0], rest[j]) {
          assert rest[j] in rest;
          if rest[j] != t {
            var i :| 0 <= i < |order[1..]| && order[1..][i] == rest[j];
            assert Older(records, order[0], order[i + 1]);
          } else {
            assert order[0] in order;
          }
        }
      }
    }
  }

  lemma {:induction false} TombstonesOrdered(records: map<Secret, Record>, n: nat)
    ensures OldestFirst(records, Tombstones(records, n))
  {
    if n > 0 {
      TombstonesOrdered(records, n - 1);
      if n - 1 in records && Drained(records[n - 1]) {
        InsertKeepsOrder(records, Tombstones(records, n - 1), n - 1);
      }
    }
  }

  function DrainedTokens(b: Broker): set<Secret> {
    set t | t in b.records && Drained(b.records[t])
  }

  function Elements(order: seq<Secret>): set<Secret> { set t | t in order }

  lemma {:induction false} OrderedCount(records: map<Secret, Record>, order: seq<Secret>)
    requires OldestFirst(records, order)
    ensures |Elements(order)| == |order|
  {
    if order != [] {
      var n := |order| - 1;
      var init := order[..n];
      OrderedCount(records, init);
      forall i | 0 <= i < n ensures init[i] != order[n] {
        assert Older(records, order[i], order[n]);
      }
      assert order == init + [order[n]];
      assert Elements(order) == Elements(init) + {order[n]};
      assert order[n] !in Elements(init);
    }
  }

  // The eviction order falls into the evicted turns and the drained ones that stay.
  lemma EvictionSplits(b: Broker, order: seq<Secret>, k: nat)
    requires WellFormed(b) && order == Tombstones(b.records, b.next) && k == Excess(|order|, b.maxTombstones)
    ensures OldestFirst(b.records, order)
    ensures forall t :: t in Evicted(b) <==> t in order[..k]
    ensures forall t :: t in DrainedTokens(b) <==> t in order
    ensures forall t :: t in DrainedTokens(Trim(b)) <==> t in order[k..]
  {
    assert forall t | t in b.records :: RecordOk(b, t);
    assert forall t :: t in DrainedTokens(b) <==> t in order;
    hide RecordOk, WellFormed, Tombstones;
    TombstonesOrdered(b.records, b.next);
    assert order == order[..k] + order[k..];
    forall t, u | t in order[..k] && u in order[k..] ensures t != u {
      SplitOrdered(b.records, order, k, t, u);
    }
    hide OldestFirst;
  }

  lemma SplitOrdered(records: map<Secret, Record>, order: seq<Secret>, k: nat, t: Secret, u: Secret)
    requires OldestFirst(records, order) && k <= |order| && t in order[..k] && u in order[k..]
    ensures Older(records, t, u)
  {
    var i :| 0 <= i < k && order[..k][i] == t;
    var j :| 0 <= j < |order[k..]| && order[k..][j] == u;
    assert Older(records, order[i], order[k + j]);
  }

  /**
   Eviction removes only ended turns without leases, the longest ended first (in issue order when
   they ended together), and exactly as many as exceed the limit.
   */
  lemma EvictionOldestFirst(b: Broker)
    requires WellFormed(b)
    ensures var b' := Trim(b);
      && (forall t | t in b'.records :: t in b.records && b'.records[t] == b.records[t])
      && b.records.Keys - b'.records.Keys <= DrainedTokens(b)
      && (forall t, u | t in b.records.Keys - b'.records.Keys && u in DrainedTokens(b') :: Older(b.records, t, u))
      && |DrainedTokens(b')| == Min(|DrainedTokens(b)|, b.maxTombstones)
  {
    var order := Tombstones(b.records, b.next);
    var k := Excess(|order|, b.maxTombstones);
    EvictionSplits(b, order, k);
    assert Elements(order) == DrainedTokens(b) && Elements(order[k..]) == DrainedTokens(Trim(b));
    OrderedCount(b.records, order);
    OrderedCount(b.records, order[k..]);
    forall t, u | t in b.records.Keys - Trim(b).records.Keys && u in DrainedTokens(Trim(b))
      ensures Older(b.records, t, u)
    {
      SplitOrdered(b.records, order, k, t, u);
    }
  }
}
