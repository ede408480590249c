/** When the lock that a completing turn puts on its session outlives the turn. */
module MachineGatewayLocks {
  import opened Wrappers
  import T = TurnCapability
  import S = SurfaceOwnership
  import I = SurfaceInvariants
  import R = SurfaceRuns
  import opened MachineGateways
  import opened MachineGatewayRuns
  import opened MachineGatewayTheorems

  /** The sessions of the turns that are committing their result. */
  ghost function CompletingKeys(g: Gateway): set<S.Key> {
    set t | t in g.broker.records && g.broker.records[t].state == T.Completing :: KeyOf(g.broker.records[t].binding)
  }

  // In order, a completing turn is one whose fence the broker still has.
  lemma CompletingAreFenced(g: Gateway)
    requires Locked(g) && T.WellFormed(g.broker)
    ensures CompletingKeys(g) == set f | f in g.broker.fences && f in g.fences :: g.fences[f]
  {
    forall t | t in g.broker.records && g.broker.records[t].state == T.Completing
      ensures exists f :: f in g.broker.fences && f in g.fences && g.fences[f] == KeyOf(g.broker.records[t].binding)
    {
      assert T.RecordOk(g.broker, t);
      assert Listed(g, g.broker.records[t].fence.value);
    }
    forall f | f in g.broker.fences && f in g.fences ensures g.fences[f] in CompletingKeys(g) {
      assert T.FenceOk(g.broker, f) && Listed(g, f);
      assert T.RecordOk(g.broker, g.broker.fences[f]);
    }
  }

  /**
   In every reachable gateway the closed sessions are exactly those of the completing turns if and only
   if the broker still has every fence the gateway remembers, that is, no turn with a fence has ended
   otherwise than by it.
   */
  lemma {:induction false} ClosedIffCompleting(limit: nat, calls: seq<Call>)
    requires forall i | 0 <= i < |calls| :: WellPosed(calls[i])
    ensures var g := After(limit, calls);
      g.submitting == CompletingKeys(g) <==> g.fences.Keys <= g.broker.fences.Keys
  {
    hide After, Locked, S.Inv, T.WellFormed, CompletingKeys;
    RunLocked(limit, calls);
    RunSound(limit, calls);
    ClosedIffFenced(After(limit, calls));
  }

  lemma ClosedIffFenced(g: Gateway)
    requires Locked(g) && T.WellFormed(g.broker)
    ensures g.submitting == CompletingKeys(g) <==> g.fences.Keys <= g.broker.fences.Keys
  {
    CompletingAreFenced(g);
    hide T.WellFormed, Listed, CompletingKeys;
    if g.submitting == CompletingKeys(g) {
      forall f | f in g.fences ensures f in g.broker.fences {
        assert g.fences[f] in Keys(g.fences);
      }
    }
  }

  /** A turn has ended otherwise than by its fence, which the gateway still has. */
  ghost predicate Stale(g: Gateway, fence: T.Secret) { fence in g.fences && fence !in g.broker.fences }

  /** From then on its session stays closed over every run in which that very fence is not aborted. */
  lemma {:induction false} ClosedUntilAborted(limit: nat, calls: seq<Call>, i: nat, fence: T.Secret)
    requires (forall j | 0 <= j < |calls| :: WellPosed(calls[j])) && i <= |calls|
    requires Stale(After(limit, calls[..i]), fence)
    requires forall j | i <= j < |calls| :: !(calls[j].Aborts? && calls[j].fence == fence)
    ensures var g := After(limit, calls);
      Stale(g, fence) && g.fences[fence] == After(limit, calls[..i]).fences[fence] && g.fences[fence] in g.submitting
  {
    hide Apply, Locked, S.Inv, T.WellFormed, WellPosed;
    if i == |calls| {
      assert calls[..i] == calls;
      RunLocked(limit, calls);
      LockedKeys(After(limit, calls));
    } else {
      var n := |calls| - 1;
      assert calls[..n][..i] == calls[..i];
      ClosedUntilAborted(limit, calls[..n], i, fence);
      RunLocked(limit, calls[..n]);
      RunSound(limit, calls[..n]);
      OnlyTheAbortReopens(After(limit, calls[..n]), fence, calls[n]);
    }
  }

  // -------------------------------------------------------------------------- a run that gets there

  const SESSION := T.Session("workspace", "project", "registration", "one")
  const BOOT := T.Binding(SESSION, T.Turn("task", 1, "BOOT", "request"), {"read"}, None, None, 0, 1)

  function At(now: int): T.Clock { T.Clock(now, now, now) }

  function CheckAt(now: int): Check { Check([], now, [], At(now)) }

  const CLAIM := ClaimCall(0, {"read"}, CheckAt(2), CheckAt(2), true, ClaimClocks(At(2), At(2), At(2), At(2), At(2), At(2)))

  /** A page is claimed, a turn issued, claimed and begun to be completed, and then revoked. */
  const STALE := [Others([S.Claim(R.FIRST)]), UsesBroker(T.IssueReplacingSession(BOOT, 60_000), At(1)), Claims(CLAIM),
                  Begins(0, At(3), At(3)), UsesBroker(T.Revoke(0), At(4))]

  // The turn at each point.
  const ISSUED := T.Record(BOOT, 1, 60_000, 60_001, T.Issued, map[], {}, None, 0)
  const LENT := ISSUED.(state := T.Active, leases := map[1 := 15_002])
  const BEGUN := LENT.(state := T.Completing, fence := Some(2))
  const ENDED := LENT.(state := T.Revoked, terminalAt := 4)

  // A broker with this one turn.
  function One(r: T.Record, fences: map<T.Secret, T.Secret>, used: seq<T.Secret>, next: T.Secret): T.Broker {
    T.Broker(map[0 := r], fences, used, map[SESSION := T.Epoch(0, 1)], 8, next)
  }

  lemma {:induction false} NoFences(records: map<T.Secret, T.Record>, n: nat)
    ensures T.FenceList(records, {}, n) == []
  {
    if n > 0 {
      NoFences(records, n - 1);
    }
  }

  lemma {:induction false} NoTombstones(records: map<T.Secret, T.Record>, n: nat)
    requires forall t | t in records :: !T.Drained(records[t])
    ensures T.Tombstones(records, n) == []
  {
    if n > 0 {
      NoTombstones(records, n - 1);
    }
  }

  lemma NothingTrimmed(b: T.Broker)
    requires |b.used| <= b.maxTombstones && forall t | t in b.records :: !T.Drained(b.records[t])
    ensures T.Trim(b) == b
  {
    NoTombstones(b.records, b.next);
    assert b.records - {} == b.records && b.used[0..] == b.used;
  }

  lemma NothingSwept(r: T.Record, now: int)
    requires forall l | l in r.leases :: r.leases[l] > now
    ensures T.Swept(r, now) == r
  {
    assert (map l | l in r.leases && r.leases[l] > now :: r.leases[l]) == r.leases;
    assert (set l | l in r.leases && r.leases[l] <= now) == {};
  }

  // With nothing due and no lease over, a prune changes nothing.
  lemma NothingPruned(b: T.Broker, now: int)
    requires |b.used| <= b.maxTombstones
    requires forall t | t in b.records :: T.Live(b.records[t]) && now < b.records[t].expiresAt
    requires forall t, l | t in b.records && l in b.records[t].leases :: b.records[t].leases[l] > now
    ensures T.Prune(b, At(now)) == b
  {
    assert T.DueTokens(b, now) == {};
    NoFences(b.records, b.next);
    assert T.TerminateAll(b, {}, T.Expired, now) == b;
    forall t | t in b.records ensures T.Swept(b.records[t], now) == b.records[t] {
      NothingSwept(b.records[t], now);
    }
    assert T.Expelled(b, At(now)) == b;
    NothingTrimmed(b);
  }

  lemma Issues()
    ensures T.Apply(T.Empty(8), T.IssueReplacingSession(BOOT, 60_000), At(1)).0 == One(ISSUED, map[], [], 1)
  {
    var b := T.Empty(8);
    NothingPruned(b, 1);
    assert T.SessionTokens(b, SESSION) == {};
    assert T.LiveTokens(b, {}) == {};
    NoFences(b.records, b.next);
    assert T.TerminateAll(b, {}, T.Revoked, 1) == b;
    NothingTrimmed(b);
    hide T.Prune, T.Trim, T.TerminateAll;
    assert map[][0 := ISSUED] == map[0 := ISSUED];
  }

  lemma Lends()
    ensures T.Apply(One(ISSUED, map[], [], 1), T.Claim(0, BOOT, {"read"}, DEFAULT_LEASE_TTL_MS), At(2))
         == (One(LENT, map[], [], 2), Ok(T.Leased(1, 15_002)))
  {
    NothingPruned(One(ISSUED, map[], [], 1), 2);
    hide T.Prune;
    assert map[][1 := 15_002] == map[1 := 15_002];
    assert map[0 := ISSUED][0 := LENT] == map[0 := LENT];
  }

  lemma Starts()
    ensures T.Apply(One(LENT, map[], [], 2), T.BeginCompletion(0, BOOT), At(3))
         == (One(BEGUN, map[2 := 0], [], 3), Ok(T.Fenced(2, 1)))
  {
    hide T.Prune, T.Swept;
    NothingPruned(One(LENT, map[], [], 2), 3);
    NothingSwept(LENT, 3);
    assert map[0 := LENT][0 := BEGUN] == map[0 := BEGUN] && map[][2 := 0] == map[2 := 0];
  }

  lemma Terminates()
    ensures T.TerminateAll(One(BEGUN, map[2 := 0], [], 3), {0}, T.Revoked, 4) == One(ENDED, map[], [2], 3)
  {
    var records := map[0 := BEGUN];
    assert T.FenceList(records, {0}, 3) == T.FenceList(records, {0}, 2) == T.FenceList(records, {0}, 1) == [2];
    hide T.FenceList;
    assert [] + [2] == [2];
  }

  lemma Revokes()
    ensures T.Apply(One(BEGUN, map[2 := 0], [], 3), T.Revoke(0), At(4)).0 == One(ENDED, map[], [2], 3)
  {
    hide T.Prune, T.TerminateAll, T.Trim;
    NothingPruned(One(BEGUN, map[2 := 0], [], 3), 4);
    Terminates();
    assert 1 in ENDED.leases;
    NothingTrimmed(One(ENDED, map[], [2], 3));
  }

  // -------------------------------------------------------------------------- the page of the run

  // The index holds the one claimed page.
  ghost predicate PageHeld(m: S.Machine) { S.Inv(m) && R.Holds(m, "project", R.URL, {R.Gets(R.FIRST, 1)}, {}, 2) }

  lemma PageClaimedFirst()
    ensures PageHeld(Outside(S.EMPTY, [S.Claim(R.FIRST)]))
  {
    var m := R.FirstClaim();
    hide S.Inv, R.Holds, S.Apply;
    var ops := [S.Claim(R.FIRST)];
    assert ops[..0] == [];
    assert Outside(S.EMPTY, ops) == S.Apply(Outside(S.EMPTY, []), ops[0]).0 == S.Apply(S.EMPTY, ops[0]).0;
    assert R.After(ops) == S.Apply(R.After([]), ops[0]).0;
  }

  lemma PageStays(m: S.Machine, now: int)
    requires PageHeld(m) && now < 1_000
    ensures S.Consistent(S.Synced(S.Reaped(m, now), "project", false)) && PageHeld(S.Synced(S.Reaped(m, now), "project", false))
  {
    hide S.Inv, S.Consistent, S.Reaped, S.Synced, R.Holds, I.Stranded;
    R.ReapedHolds(m, "project", R.URL, {R.Gets(R.FIRST, 1)}, {}, 2, now);
    I.ReapAndSync(m, "project", false, now);
  }

  lemma PageIsCurrent(m: S.Machine, now: int)
    requires PageHeld(m) && now < 1_000
    ensures CheckPage(m, BOOT, CheckAt(now)).current && PageHeld(CheckPage(m, BOOT, CheckAt(now)).index)
  {
    hide S.Inv, S.Consistent, S.Reaped, S.Synced;
    PageStays(m, now);
    assert HoldsPage(m, KeyOf(BOOT), 1, now) && !I.Stranded(m, now) by {
      assert R.Gets(R.FIRST, 1) in m.leases;
    }
    LeaseNowIs(m, KeyOf(BOOT), now, 1);
    LeaseNowLeaves(m, "project", now);
    hide R.Holds, HoldsPage, I.Stranded, LeaseNow;
  }

  lemma LeaseNowLeaves(m: S.Machine, p: S.Id, now: int)
    requires S.Consistent(S.Synced(S.Reaped(m, now), p, false))
    ensures forall k: S.Key :: k.projectId == p ==> LeaseNow(m, k, now).0 == S.Synced(S.Reaped(m, now), p, false)
  {
    hide S.Consistent, S.Reaped, S.Synced;
  }

  // The claim goes through, and leaves the turn with its lease.
  lemma Claimed(m: S.Machine)
    requires PageHeld(m)
    ensures var (b, m', outcome) := ClaimTurn(One(ISSUED, map[], [], 1), m, CLAIM);
      b == One(LENT, map[], [], 2) && outcome.Ok?
  {
    hide PageHeld, T.Prune, T.Apply, CheckPage;
    NothingPruned(One(ISSUED, map[], [], 1), 2);
    PageIsCurrent(m, 2);
    Lends();
    PageIsCurrent(CheckPage(m, BOOT, CheckAt(2)).index, 2);
    NothingPruned(One(LENT, map[], [], 2), 2);
  }

  lemma Begun(m: S.Machine)
    ensures var k := KeyOf(BOOT);
      BeginCompletion(Gateway(One(LENT, map[], [], 2), m, {}, map[]), 0, At(3), At(3)).0 ==
        Gateway(One(BEGUN, map[2 := 0], [], 3), m, {k}, map[2 := k])
  {
    hide T.Prune, T.Apply;
    NothingPruned(One(LENT, map[], [], 2), 3);
    Starts();
    assert {} + {KeyOf(BOOT)} == {KeyOf(BOOT)} && map[][2 := KeyOf(BOOT)] == map[2 := KeyOf(BOOT)];
  }

  lemma OneMore(limit: nat, calls: seq<Call>, call: Call)
    ensures After(limit, calls + [call]) == Apply(After(limit, calls), call)
  {
    assert (calls + [call])[..|calls|] == calls;
  }

  // What the run leaves.
  lemma StaleRun() returns (m: S.Machine)
    ensures After(8, STALE) == Gateway(One(ENDED, map[], [2], 3), m, {KeyOf(BOOT)}, map[2 := KeyOf(BOOT)])
  {
    hide PageHeld, ClaimTurn, BeginCompletion, T.Apply, After;
    var first := Outside(S.EMPTY, [S.Claim(R.FIRST)]);
    hide Outside;
    PageClaimedFirst();
    Issues();
    Claimed(first);
    m := ClaimTurn(One(ISSUED, map[], [], 1), first, CLAIM).1;
    Begun(m);
    Revokes();
    FirstCall();
    OneMore(8, STALE[..1], STALE[1]);
    OneMore(8, STALE[..2], STALE[2]);
    OneMore(8, STALE[..3], STALE[3]);
    OneMore(8, STALE[..4], STALE[4]);
    assert STALE[..1] + [STALE[1]] == STALE[..2] && STALE[..2] + [STALE[2]] == STALE[..3];
    assert STALE[..3] + [STALE[3]] == STALE[..4] && STALE[..4] + [STALE[4]] == STALE;
    assert After(8, STALE[..1]) == Gateway(T.Empty(8), first, {}, map[]);
    assert After(8, STALE[..2]) == Gateway(One(ISSUED, map[], [], 1), first, {}, map[]);
    assert After(8, STALE[..3]) == Gateway(One(LENT, map[], [], 2), m, {}, map[]);
  }

  lemma FirstCall()
    ensures After(8, STALE[..1]) == Gateway(T.Empty(8), Outside(S.EMPTY, [S.Claim(R.FIRST)]), {}, map[])
  {
    hide Outside;
    OneMore(8, [], STALE[0]);
    assert [] + [STALE[0]] == STALE[..1];
  }

  /**
   A turn revoked while it completes leaves its session closed with no turn completing, and the
   completion it began is refused at any time.
   */
  lemma RevocationLeavesTheLock(c: T.Clock)
    ensures forall i | 0 <= i < |STALE| :: WellPosed(STALE[i])
    ensures var g := After(8, STALE);
      && KeyOf(BOOT) in g.submitting && CompletingKeys(g) == {} && Stale(g, 2)
      && CompleteTurn(g, 2, c).1.Err? && KeyOf(BOOT) in CompleteTurn(g, 2, c).0.submitting
  {
    var m := StaleRun();
    hide After;
    assert map[0 := ENDED][0].state == T.Revoked;
  }
}
