/** The removal of the legacy mailbox and the requests that are still open: no call of it begins or goes on beside one. */
module LegacyCleanupLive {
  import opened Wrappers
  import opened WaitPolicy
  import opened ControlRequests
  import opened ControlRequestRuns
  import opened ControlRequestOutcomes
  import opened ControlRecords
  import opened LegacyEvidence
  import opened LegacyCleanup

  // -------------------------------------------------------------------------- no call but an opening adds a request

  lemma {:induction false} MarksAddNothing(s: Store, session: SessionId, now: int, n: nat)
    ensures forall w | w in RetireMarks(s, session, now, n) :: w.PutMarker?
  {
    if n > 0 {
      MarksAddNothing(s, session, now, n - 1);
    }
  }

  lemma OnlyOpeningAdds(s: Store, op: Op, now: int)
    requires !op.Open?
    ensures forall w | w in PlanFor(s, op, now).0 :: !w.PutRequest?
  {
    hide Look, Advance, EndReadable, RetireMarks, RecordsReadable;
    if op.Retire? {
      MarksAddNothing(s, op.session, now, FirstUnreadable(s, op.session, s.next));
    }
  }

  lemma {:induction false} NothingAdded(s: Store, writes: seq<Write>)
    requires forall w | w in writes :: !w.PutRequest?
    ensures ApplyAll(s, writes).requests.Keys <= s.requests.Keys
    decreases |writes|
  {
    if writes != [] {
      NothingAdded(Apply(s, writes[0]), writes[1..]);
      assert !writes[0].PutRequest?;
    }
  }

  // -------------------------------------------------------------------------- nothing open

  /** Every request on file has ended or expired. */
  ghost predicate NoneOpen(s: Store, now: int) {
    forall id | id in s.requests :: id in s.markers || now > ExpiresAt(s, s.requests[id])
  }

  // No request of the mailbox is open by its own files.
  ghost predicate NoneOpenInMailbox(w: World) {
    forall id | id in w.scanned :: w.scanned[id].marker.Some? || w.now > w.scanned[id].renewal.GetOr(w.scanned[id].request.expiresAt)
  }

  // From the start of a call to the renaming of the mailbox it found.
  predicate MailboxInHand(pc: Pc) { pc == Entered(true) || pc == Reserving || pc == Retiring(true) || pc == Renaming }

  ghost predicate Calm(w: World) {
    && (w.pc != Idle ==> NoneOpen(w.store, w.now))
    && (MailboxInHand(w.pc) ==> NoneOpenInMailbox(w))
  }

  lemma CallKeepsNoneOpen(s: Store, call: Call, later: int)
    requires Sound(s, call.now) && NoneOpen(s, call.now) && !call.op.Open? && call.now <= later
    ensures NoneOpen(ApplyAll(s, Writes(s, call)), later)
  {
    hide Sound, ApplyAll, PlanFor;
    var t := ApplyAll(s, Writes(s, call));
    OnlyOpeningAdds(s, call.op, call.now);
    NothingAdded(s, Writes(s, call));
    forall id | id in t.requests ensures id in t.markers || later > ExpiresAt(t, t.requests[id]) {
      OneOver(s, call.now, id);
      OverStays(s, call, id, later);
      hide Writes;
    }
  }

  lemma OneOver(s: Store, now: int, id: RequestId)
    requires Sound(s, now) && NoneOpen(s, now) && id in s.requests
    ensures Over(s, id, now)
  {
    assert s.requests[id].id == id;
  }

  lemma EntersCalm(w: World)
    requires MayEnter(w) && Sound(w.store, w.now)
    ensures NoneOpen(w.store, w.now) && (w.legacy.Some? ==> NoneOpenInMailbox(w))
  {
    forall id | id in w.store.requests ensures id in w.store.markers || w.now > ExpiresAt(w.store, w.store.requests[id]) {
      assert w.store.requests[id].id == id && !Unfinished(w.store, w.store.requests[id], w.now);
    }
    hide SourceOk, AllValid, MarkersReadable;
  }

  lemma ProceedStaysCalm(w: World)
    requires Calm(w) && Sound(w.store, w.now)
    ensures Calm(Proceed(w))
  {
    hide NoneOpen, NoneOpenInMailbox, MayEnter, Sound;
    ProceedKeepsStore(w);
    MailboxSame(w, Proceed(w));
    if w.pc == Idle && MayEnter(w) {
      EntersCalm(w);
    }
    hide AllValid, SourceMatches;
  }

  lemma MailboxSame(w: World, w': World)
    requires w'.scanned == w.scanned && w'.now >= w.now
    ensures NoneOpenInMailbox(w) ==> NoneOpenInMailbox(w')
  {}

  lemma LaterNoneOpen(s: Store, now: int, later: int)
    requires NoneOpen(s, now) && now <= later
    ensures NoneOpen(s, later)
  {}

  lemma StepStaysCalm(w: World, step: Step)
    requires Keeps(w) && Calm(w)
    ensures Calm(Next(w, step))
  {
    hide NoneOpen, NoneOpenInMailbox, Sound, Proceed, PlanFor, Writes, ApplyAll;
    var w' := Next(w, step);
    if step == Go {
      ProceedStaysCalm(w);
    } else if w'.pc != Idle {
      StepOnStore(w, step);
      MailboxSame(w, w');
      var call := CallOf(w, step);
      if call.Some? {
        CallKeepsNoneOpen(w.store, call.value, w'.now);
      } else {
        LaterNoneOpen(w.store, w.now, w'.now);
      }
    }
  }

  lemma {:induction false} RunStaysCalm(w: World, steps: seq<Step>)
    requires Keeps(w) && Calm(w)
    ensures Calm(Run(w, steps))
    decreases |steps|
  {
    hide Keeps, Calm, Next;
    if steps != [] {
      StepKeeps(w, steps[0]);
      StepStaysCalm(w, steps[0]);
      RunStaysCalm(Next(w, steps[0]), steps[1..]);
    }
  }

  /**
   At every point of every run, whatever is called and crashes in between: while a clean-up call is under way no
   request of the store is open, and up to the renaming none of the mailbox is by its own files.  So a request that
   is open keeps every clean-up call from starting, and none can be opened until the call is over.
   */
  lemma {:induction false} NothingOpenDuringCleanup(w: World, steps: seq<Step>)
    requires Migrated(w)
    ensures var v := Run(w, steps);
      && (v.pc != Idle ==> forall id | id in v.store.requests :: StatusOf(v.store, id, v.now) != Pending)
      && (MailboxInHand(v.pc) ==> forall id | id in v.scanned :: !LegacyLive(v.scanned[id], v.now))
  {
    hide Run, Keeps;
    MigratedKeeps(w);
    RunStaysCalm(w, steps);
  }

  // -------------------------------------------------------------------------- when a call starts

  /**
   A call starts exactly if the mailbox is as it was migrated, or gone once its removal was recorded, every copy
   is valid, every end can be read and nothing is open.
   */
  lemma StartsIff(w: World)
    requires w.pc == Idle && Sound(w.store, w.now)
    ensures Next(w, Go).pc != Idle <==>
      && (if w.legacy.Some? then w.record.source == Some(w.legacy.value.files) && w.record.migrated == w.scanned
          else w.record.source.None? || w.record.authorised)
      && (forall id | id in w.record.migrated :: Validates(w.store, id, w.record.migrated[id]))
      && (forall id | id in w.store.requests && id in w.store.markers :: MarkerReadable(w.store.markers[id], w.store.requests[id]))
      && (forall id | id in w.store.requests :: StatusOf(w.store, id, w.now) != Pending)
      && (w.legacy.Some? ==> NoneOpenInMailbox(w))
    ensures Next(w, Go) == if Next(w, Go).pc == Idle then w else w.(pc := Entered(w.legacy.Some?))
  {
    forall id | id in w.store.requests ensures StatusOf(w.store, id, w.now) != Pending <==> !Unfinished(w.store, w.store.requests[id], w.now) {
      assert w.store.requests[id].id == id;
    }
    hide Validates, MarkerReadable, Sound;
  }
}
