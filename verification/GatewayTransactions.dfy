/** A Data call acts for the transaction it snapshotted and for no other (RSET is section 4.1.1.5 of RFC 5321). */
module GatewayTransactions {
  import opened JobTypes
  import opened JobStore
  import opened DiskStore
  import opened SessionDesk
  import opened Gateway
  import opened GatewayInv
  import opened GatewayFrames
  import opened GatewayRuns
  import opened GatewaySettlement

  predicate Resets(a: Action, sid: SessionId) {
    a.Command? && a.c.Reset? && a.c.sid == sid
  }

  predicate Begins(a: Action, rid: Id, sid: SessionId) {
    a.Data? && a.rid == rid && a.d.Begin? && a.d.sid == sid
  }

  /** What call and staging `r` still know of the session as it was when the call began. */
  predicate ActsForSnapshot(k: Desk, r: Id, sid: SessionId, ses: Session) {
    && (r in k.calls ==>
          var c := k.calls[r];
          && c.sid == sid && c.gen == ses.generation
          && c.profile == ses.profile && c.caps == ses.caps && c.recipients == ses.recipients)
    && (r in k.stagings ==> k.stagings[r].sid == sid)
  }

  lemma MoveKeepsSnapshot(k: Desk, open: set<Id>, m: Move, r: Id, sid: SessionId, ses: Session)
    requires CanMove(k, open, m) && ActsForSnapshot(k, r, sid, ses)
    requires m.Reserve? ==> m.rid != r
    ensures ActsForSnapshot(ApplyMove(k, open, m), r, sid, ses)
  {
  }

  lemma BeginTakesSnapshot(s: System, rid: Id, sid: SessionId, s': System)
    requires Follows(s, Data(rid, Begin(sid)), s')
    ensures sid in s.desk.sessions
    ensures ActsForSnapshot(s'.desk, rid, sid, s.desk.sessions[sid]) && rid in s'.world.issued
  {
    assert StagedFilesOk(s, rid);
    hide SystemInv;
  }

  lemma StepKeepsSnapshot(s: System, a: Action, s': System, r: Id, sid: SessionId, ses: Session)
    requires Follows(s, a, s') && ActsForSnapshot(s.desk, r, sid, ses) && r in s.world.issued
    ensures ActsForSnapshot(s'.desk, r, sid, ses) && r in s'.world.issued
  {
    hide SystemInv;
    if MoveOf(s, a).Some? {
      MoveKeepsSnapshot(s.desk, s.world.store.reservations.Keys, MoveOf(s, a).value, r, sid, ses);
    }
    if OpOf(s, a).Some? {
      WorldGrows(s.world, OpOf(s, a).value);
    }
    hide Enabled, CanMove, LocalStep, EvictionOrder, SortedFor;
  }

  lemma {:induction false} SnapshotStays(ss: seq<System>, acts: seq<Action>, b: nat, j: nat, rid: Id, sid: SessionId)
    requires IsRun(ss, acts) && b < j < |ss| && Begins(acts[b], rid, sid)
    ensures sid in ss[b].desk.sessions && ActsForSnapshot(ss[j].desk, rid, sid, ss[b].desk.sessions[sid])
    ensures rid in ss[j].world.issued
    decreases j
  {
    hide Follows, IsRun, ActsForSnapshot;
    RunLength(ss, acts);
    EveryStepFollows(ss, acts, j - 1);
    if b == j - 1 {
      BeginTakesSnapshot(ss[b], rid, sid, ss[j]);
    } else {
      SnapshotStays(ss, acts, b, j - 1, rid, sid);
      StepKeepsSnapshot(ss[j - 1], acts[j - 1], ss[j], rid, sid, ss[b].desk.sessions[sid]);
    }
  }

  // ---------- generations ----------

  lemma MoveCountsResets(k: Desk, open: set<Id>, m: Move, sid: SessionId)
    requires CanMove(k, open, m) && sid in k.sessions
    ensures var k' := ApplyMove(k, open, m);
      && sid in k'.sessions
      && k'.sessions[sid].generation == k.sessions[sid].generation + if m.Reset? && m.sid == sid then 1 else 0
  {
  }

  lemma StepCountsResets(s: System, a: Action, s': System, sid: SessionId)
    requires Follows(s, a, s') && sid in s.desk.sessions
    ensures sid in s'.desk.sessions
    ensures s'.desk.sessions[sid].generation == s.desk.sessions[sid].generation + if Resets(a, sid) then 1 else 0
  {
    hide SystemInv;
    if MoveOf(s, a).Some? {
      MoveCountsResets(s.desk, s.world.store.reservations.Keys, MoveOf(s, a).value, sid);
    }
    hide Enabled, CanMove, LocalStep, EvictionOrder, SortedFor, OpOf;
  }

  lemma {:induction false} GenerationsGrow(ss: seq<System>, acts: seq<Action>, b: nat, j: nat, sid: SessionId)
    requires IsRun(ss, acts) && b <= j < |ss| && sid in ss[b].desk.sessions
    ensures sid in ss[j].desk.sessions && ss[b].desk.sessions[sid].generation <= ss[j].desk.sessions[sid].generation
    decreases j
  {
    hide Follows, IsRun, Resets;
    RunLength(ss, acts);
    if b < j {
      GenerationsGrow(ss, acts, b, j - 1, sid);
      EveryStepFollows(ss, acts, j - 1);
      StepCountsResets(ss[j - 1], acts[j - 1], ss[j], sid);
    }
  }

  lemma ResetMovesOn(ss: seq<System>, acts: seq<Action>, b: nat, i: nat, j: nat, sid: SessionId)
    requires IsRun(ss, acts) && b <= i < j < |ss| && sid in ss[b].desk.sessions && Resets(acts[i], sid)
    ensures sid in ss[j].desk.sessions && ss[b].desk.sessions[sid].generation < ss[j].desk.sessions[sid].generation
  {
    hide Follows, IsRun, Resets;
    RunLength(ss, acts);
    GenerationsGrow(ss, acts, b, i, sid);
    EveryStepFollows(ss, acts, i);
    StepCountsResets(ss[i], acts[i], ss[i + 1], sid);
    GenerationsGrow(ss, acts, i + 1, j, sid);
  }

  /** A commit happens only if no Reset, second MAIL or Logout came between the snapshot and the commit; and what it
      commits is for the sender, capabilities and recipients the session had at the snapshot. */
  lemma CommitsOnlyForItsTransaction(
    ss: seq<System>, acts: seq<Action>, b: nat, j: nat, rid: Id, sid: SessionId)
    requires IsRun(ss, acts) && b < j < |acts| && Begins(acts[b], rid, sid)
    requires acts[j].Data? && acts[j].rid == rid && Commits(ss[j], acts[j])
    ensures forall i :: b <= i < j ==> !Resets(acts[i], sid)
    ensures sid in ss[b].desk.sessions && rid in ss[j].desk.calls && ss[j].desk.calls[rid].pc.Committing?
    ensures var ses := ss[b].desk.sessions[sid]; var job := ss[j].desk.calls[rid].pc.job;
      job.profile == ses.profile && job.caps == ses.caps && job.recipients == ses.recipients
  {
    RunLength(ss, acts);
    SnapshotStays(ss, acts, b, j, rid, sid);
    EveryStateIsGood(ss, acts, j);
    ProvenanceThroughout(ss, acts, j);
    CommitterIsCurrent(ss[j], rid, acts[j].d.order);
    hide IsRun, SystemInv, KeepsTheRules, Next, CommitError;
    forall i | b <= i < j ensures !Resets(acts[i], sid) {
      if Resets(acts[i], sid) {
        ResetMovesOn(ss, acts, b, i, j, sid);
      }
    }
    assert CarriesSnapshot(ss[j].desk, rid);
  }

  lemma CommitterIsCurrent(s: System, rid: Id, order: seq<Id>)
    requires SystemInv(s) && DataGuard(s, rid, CommitJob(order))
    ensures Current(s.desk, rid) && s.desk.calls[rid].pc.Committing?
  {
    assert CallOk(s.desk, s.world.store.reservations.Keys, rid);
    hide SystemInv;
  }

  /** Once none of a session's Data calls is running and no Reset is halfway through releasing one of its stagings,
      none of its reservations is on the books any more - however stale and newer calls overlapped. */
  lemma NothingStaysReserved(ss: seq<System>, acts: seq<Action>, b: nat, j: nat, rid: Id, sid: SessionId)
    requires IsRun(ss, acts) && b < j < |ss| && Begins(acts[b], rid, sid)
    requires forall r :: r in ss[j].desk.calls ==> ss[j].desk.calls[r].sid != sid
    requires forall r :: r in ss[j].desk.resets && ss[j].desk.resets[r].ResetReleasing? && r in ss[j].desk.stagings ==>
      ss[j].desk.stagings[r].sid != sid
    ensures rid !in ss[j].world.store.reservations
  {
    SnapshotStays(ss, acts, b, j, rid, sid);
    EveryStateIsGood(ss, acts, j);
    assert ReservationOk(ss[j].desk, ss[j].world.store.reservations.Keys, rid) && ResetOk(ss[j].desk, rid);
    hide SystemInv, KeepsTheRules, IsRun;
  }
}
