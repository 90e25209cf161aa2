/** Every reservation is settled exactly once: as one job, or by giving its bytes back. */
module GatewaySettlement {
  import opened JobTypes
  import opened JobStore
  import opened JobStoreBudget
  import opened DiskStore
  import opened SessionDesk
  import opened Gateway
  import opened GatewayInv
  import opened GatewayRules
  import opened GatewayFrames
  import opened GatewayHands
  import opened GatewayRecords
  import opened GatewayRuns

  // ---------- outcomes are final ----------

  lemma MoveSettlesOnce(k: Desk, open: set<Id>, m: Move, r: Id)
    requires CanMove(k, open, m) && ReservationOk(k, open, r)
    ensures var k' := ApplyMove(k, open, m);
      && (r in k.outcomes ==> r in k'.outcomes && k'.outcomes[r] == k.outcomes[r])
      && (r in open ==> r in OpenAfter(open, m) || r in k'.outcomes)
  {
  }

  lemma StepSettlesOnce(s: System, a: Action, r: Id)
    requires SystemInv(s) && KeepsTheRules(s, a)
    ensures r in s.desk.outcomes ==> r in Next(s, a).desk.outcomes && Next(s, a).desk.outcomes[r] == s.desk.outcomes[r]
    ensures r in s.world.store.reservations ==>
      r in Next(s, a).world.store.reservations || r in Next(s, a).desk.outcomes
  {
    var open := s.world.store.reservations.Keys;
    assert ReservationOk(s.desk, open, r) && Valid(s.world.store);
    hide SystemInv, KeepsTheRules, Guard, ReservationOk;
    if MoveOf(s, a).Some? {
      MoveSettlesOnce(s.desk, open, MoveOf(s, a).value, r);
    }
    match a {
      case Data(rid, d) => DataBooksAgree(s, rid, d);
      case Work(wid, k) => WorkBooksAgree(s, wid, k);
      case _ => OtherBooksAgree(s, a);
    }
  }

  lemma FollowingSettlesOnce(s: System, a: Action, s': System, r: Id)
    requires Follows(s, a, s')
    ensures r in s.desk.outcomes ==> r in s'.desk.outcomes && s'.desk.outcomes[r] == s.desk.outcomes[r]
    ensures r in s.world.store.reservations ==> r in s'.world.store.reservations || r in s'.desk.outcomes
  {
    StepSettlesOnce(s, a, r);
    hide SystemInv, KeepsTheRules, Next;
  }

  lemma NeverBoth(s: System, r: Id)
    requires SystemInv(s) && r in s.world.store.reservations
    ensures r !in s.desk.outcomes
  {
    assert ReservationOk(s.desk, s.world.store.reservations.Keys, r);
  }

  lemma {:induction false} OutcomesAreFinal(ss: seq<System>, acts: seq<Action>, i: nat, j: nat, r: Id)
    requires IsRun(ss, acts) && i <= j < |ss| && r in ss[i].desk.outcomes
    ensures r in ss[j].desk.outcomes && ss[j].desk.outcomes[r] == ss[i].desk.outcomes[r]
    decreases j
  {
    hide Follows, IsRun;
    if i < j {
      OutcomesAreFinal(ss, acts, i, j - 1, r);
      RunLength(ss, acts);
      EveryStepFollows(ss, acts, j - 1);
      FollowingSettlesOnce(ss[j - 1], acts[j - 1], ss[j], r);
    }
  }

  lemma {:induction false} ReservationsGetSettled(ss: seq<System>, acts: seq<Action>, i: nat, j: nat, r: Id)
    requires IsRun(ss, acts) && i <= j < |ss| && r in ss[i].world.store.reservations
    ensures r in ss[j].world.store.reservations || r in ss[j].desk.outcomes
    decreases j
  {
    hide Follows, IsRun;
    if i < j {
      ReservationsGetSettled(ss, acts, i, j - 1, r);
      RunLength(ss, acts);
      EveryStepFollows(ss, acts, j - 1);
      FollowingSettlesOnce(ss[j - 1], acts[j - 1], ss[j], r);
    }
  }

  /** Once settled, a reservation stays settled the way it was; once taken, it is on the books until it is settled,
      and never both. */
  lemma EveryReservationIsSettledOnce(ss: seq<System>, acts: seq<Action>, i: nat, j: nat, r: Id)
    requires IsRun(ss, acts) && i <= j < |ss|
    ensures r in ss[i].desk.outcomes ==> r in ss[j].desk.outcomes && ss[j].desk.outcomes[r] == ss[i].desk.outcomes[r]
    ensures r in ss[i].world.store.reservations ==>
      (r in ss[j].world.store.reservations <==> r !in ss[j].desk.outcomes)
  {
    hide SystemInv, KeepsTheRules, Next, IsRun;
    if r in ss[i].desk.outcomes {
      OutcomesAreFinal(ss, acts, i, j, r);
    }
    if r in ss[i].world.store.reservations {
      ReservationsGetSettled(ss, acts, i, j, r);
    }
    EveryStateIsGood(ss, acts, j);
    if r in ss[j].world.store.reservations {
      NeverBoth(ss[j], r);
    }
  }

  // ---------- one reservation, one job ----------

  predicate Closing(pc: DataPc) {
    pc.Committing? || pc.Enqueuing? || pc.Dropping?
  }

  /** The job a call commits carries the sender, capabilities and recipients of the call's snapshot. */
  predicate CarriesSnapshot(k: Desk, r: Id) {
    r in k.calls && Closing(k.calls[r].pc) ==> MatchesSnapshot(k.calls[r], k.calls[r].pc.job)
  }

  predicate MatchesSnapshot(c: Call, job: Job) {
    job.profile == c.profile && job.caps == c.caps && job.recipients == c.recipients
  }

  /** Every job on the books came out of the reservation its directory is named after. */
  predicate Traced(s: System, id: Id) {
    id in s.world.store.jobs ==>
      var dir := s.world.store.jobs[id].dir;
      dir in s.desk.outcomes && s.desk.outcomes[dir].CommittedAs? && s.desk.outcomes[dir].jobId == id
  }

  predicate CommittedAlone(s: System, r: Id, x: Id) {
    r in s.desk.outcomes && s.desk.outcomes[r].CommittedAs? ==>
      var id := s.desk.outcomes[r].jobId;
      && id in s.world.issued
      && (x in s.desk.calls && s.desk.calls[x].pc.Committing? ==> s.desk.calls[x].pc.job.id != id)
      && (x in s.desk.outcomes && s.desk.outcomes[x].CommittedAs? && x != r ==> s.desk.outcomes[x].jobId != id)
  }

  ghost predicate Provenance(s: System) {
    && (forall r :: CarriesSnapshot(s.desk, r))
    && (forall id :: Traced(s, id))
    && (forall r, x :: CommittedAlone(s, r, x))
  }

  predicate Commits(s: System, a: Action) {
    a.Data? && a.d.CommitJob? && CommitError(s.world.store, a.rid) == None
  }

  lemma OutcomesAfter(k: Desk, open: set<Id>, m: Move, r: Id)
    requires CanMove(k, open, m) && r in ApplyMove(k, open, m).outcomes && ApplyMove(k, open, m).outcomes[r].CommittedAs?
    ensures if m.Commit? && m.rid == r then ApplyMove(k, open, m).outcomes[r].jobId == k.calls[r].pc.job.id
            else r in k.outcomes && ApplyMove(k, open, m).outcomes[r] == k.outcomes[r]
  {
  }

  lemma OnlyCommitJobSettlesAsJob(s: System, a: Action)
    requires KeepsTheRules(s, a) && MoveOf(s, a).Some? && MoveOf(s, a).value.Commit?
    ensures Commits(s, a) && MoveOf(s, a).value.rid == a.rid
    ensures a.rid in s.desk.calls && s.desk.calls[a.rid].pc.Committing?
  {
    hide Enabled, CanMove, SortedFor, EvictionOrder;
  }

  /** Who is CommittedAs what after a step: as before, or the committing call's own job. */
  lemma CommittedHistory(s: System, a: Action, r: Id)
    requires SystemInv(s) && KeepsTheRules(s, a)
    requires r in Next(s, a).desk.outcomes && Next(s, a).desk.outcomes[r].CommittedAs?
    ensures if Commits(s, a) && a.rid == r
      then r in s.desk.calls && s.desk.calls[r].pc.Committing? && Next(s, a).desk.outcomes[r].jobId == s.desk.calls[r].pc.job.id
      else r in s.desk.outcomes && Next(s, a).desk.outcomes[r] == s.desk.outcomes[r]
  {
    assert Next(s, a).desk == NextDesk(s, a);
    if Commits(s, a) && a.rid == r {
      CommitMovesOn(s, r, a.d.order);
    } else if MoveOf(s, a).Some? {
      var m := MoveOf(s, a).value;
      OutcomesAfter(s.desk, s.world.store.reservations.Keys, m, r);
      if m.Commit? {
        OnlyCommitJobSettlesAsJob(s, a);
      }
    }
    hide SystemInv, KeepsTheRules, Guard, LocalStep;
  }

  lemma CommitMovesOn(s: System, rid: Id, order: seq<Id>)
    requires KeepsTheRules(s, Data(rid, CommitJob(order))) && CommitError(s.world.store, rid) == None
    ensures var k' := NextDesk(s, Data(rid, CommitJob(order)));
      && rid in s.desk.calls && s.desk.calls[rid].pc.Committing?
      && k'.outcomes == s.desk.outcomes[rid := CommittedAs(s.desk.calls[rid].pc.job.id)]
      && rid in k'.calls && !k'.calls[rid].pc.Committing?
  {
    hide Enabled, EvictionOrder;
  }

  lemma CommittingAfter(k: Desk, open: set<Id>, m: Move, x: Id)
    requires CanMove(k, open, m) && x in ApplyMove(k, open, m).calls && ApplyMove(k, open, m).calls[x].pc.Committing?
    ensures var pc := ApplyMove(k, open, m).calls[x].pc;
      || (m.Advance? && m.rid == x && m.pc == pc)
      || (x in k.calls && k.calls[x].pc == pc)
  {
  }

  lemma OnlyStatMakesUpAJob(s: System, a: Action)
    requires KeepsTheRules(s, a) && MoveOf(s, a).Some?
    requires var m := MoveOf(s, a).value; m.Advance? && m.pc.Committing?
    ensures MoveOf(s, a).value.pc.job.id !in s.world.issued
  {
    hide Enabled, CanMove, SortedFor, EvictionOrder;
  }

  /** Whose job is about to be committed after a step: as before, or freshly made up. */
  lemma CommittingHistory(s: System, a: Action, x: Id)
    requires KeepsTheRules(s, a) && x in NextDesk(s, a).calls && NextDesk(s, a).calls[x].pc.Committing?
    ensures var job := NextDesk(s, a).calls[x].pc.job;
      || job.id !in s.world.issued
      || (x in s.desk.calls && s.desk.calls[x].pc.Committing? && s.desk.calls[x].pc.job.id == job.id)
  {
    if MoveOf(s, a).Some? {
      var m := MoveOf(s, a).value;
      CommittingAfter(s.desk, s.world.store.reservations.Keys, m, x);
      if m.Advance? && m.pc.Committing? {
        OnlyStatMakesUpAJob(s, a);
      }
    }
    hide Guard, OpOf, MoveOf, CanMove, ApplyMove, Enabled;
  }

  lemma TwoCommittersDiffer(s: System, x: Id, r: Id)
    requires CallJobOk(s, x) && CallJobOk(s, r) && x != r
    requires x in s.desk.calls && s.desk.calls[x].pc.Committing? && r in s.desk.calls && s.desk.calls[r].pc.Committing?
    ensures s.desk.calls[x].pc.job.id != s.desk.calls[r].pc.job.id
  {
  }

  lemma CommittedAloneIsKept(s: System, a: Action, r: Id, x: Id)
    requires SystemInv(s) && Provenance(s) && KeepsTheRules(s, a)
    ensures CommittedAlone(Next(s, a), r, x)
  {
    var s' := Next(s, a);
    assert s'.world == NextWorld(s, a) && s'.desk == NextDesk(s, a);
    assert CommittedAlone(s, r, x) && CommittedAlone(s, x, r) && CommittedAlone(s, r, r) && CommittedAlone(s, x, x);
    assert CallJobOk(s, r) && CallJobOk(s, x);
    if OpOf(s, a).Some? {
      WorldGrows(s.world, OpOf(s, a).value);
    }
    if r in s'.desk.outcomes && s'.desk.outcomes[r].CommittedAs? {
      CommittedHistory(s, a, r);
      if x in s'.desk.outcomes && s'.desk.outcomes[x].CommittedAs? && x != r {
        CommittedHistory(s, a, x);
      }
      if x in s'.desk.calls && s'.desk.calls[x].pc.Committing? {
        CommittingHistory(s, a, x);
        if Commits(s, a) {
          CommitMovesOn(s, a.rid, a.d.order);
        }
        if x != r && r in s.desk.calls && s.desk.calls[r].pc.Committing? && x in s.desk.calls && s.desk.calls[x].pc.Committing? {
          TwoCommittersDiffer(s, x, r);
        }
      }
    }
    hide SystemInv, Provenance, KeepsTheRules, Next, Guard, InHand;
  }

  lemma TracedIsKept(s: System, a: Action, id: Id)
    requires SystemInv(s) && Provenance(s) && KeepsTheRules(s, a)
    ensures Traced(Next(s, a), id)
  {
    assert Traced(s, id);
    assert Next(s, a).world == NextWorld(s, a) && Next(s, a).desk == NextDesk(s, a);
    if id in NextWorld(s, a).store.jobs {
      if OpOf(s, a).Some? {
        RecordHistory(s.world, OpOf(s, a).value, id);
      }
      if OpOf(s, a).Some? && Comes(OpOf(s, a).value, id) {
        OnlyCommitJobBooks(s, a, id);
        CommitMovesOn(s, a.rid, a.d.order);
      } else {
        StepSettlesOnce(s, a, s.world.store.jobs[id].dir);
      }
    }
    hide SystemInv, Provenance, KeepsTheRules, Next, Guard;
  }

  lemma MoveCarriesSnapshot(k: Desk, open: set<Id>, m: Move, r: Id)
    requires CanMove(k, open, m) && CarriesSnapshot(k, r)
    requires m.Advance? && m.rid == r && Closing(m.pc) ==> r in k.calls && MatchesSnapshot(k.calls[r], m.pc.job)
    ensures CarriesSnapshot(ApplyMove(k, open, m), r)
  {
  }

  lemma AdvanceCarriesSnapshot(s: System, a: Action)
    requires KeepsTheRules(s, a) && MoveOf(s, a).Some?
    requires var m := MoveOf(s, a).value; m.Advance? && Closing(m.pc) && CarriesSnapshot(s.desk, m.rid)
    ensures var m := MoveOf(s, a).value; m.rid in s.desk.calls && MatchesSnapshot(s.desk.calls[m.rid], m.pc.job)
  {
    hide Enabled, SortedFor, EvictionOrder;
  }

  lemma SnapshotIsCarried(s: System, a: Action, r: Id)
    requires KeepsTheRules(s, a) && CarriesSnapshot(s.desk, r)
    ensures CarriesSnapshot(Next(s, a).desk, r)
  {
    if MoveOf(s, a).Some? {
      var m := MoveOf(s, a).value;
      if m.Advance? && m.rid == r && Closing(m.pc) {
        AdvanceCarriesSnapshot(s, a);
      }
      MoveCarriesSnapshot(s.desk, s.world.store.reservations.Keys, m, r);
    }
    hide Guard, OpOf, MoveOf, CanMove, ApplyMove, Enabled, LocalStep;
  }

  lemma ProvenanceIsKept(s: System, a: Action)
    requires SystemInv(s) && Provenance(s) && KeepsTheRules(s, a)
    ensures Provenance(Next(s, a))
  {
    var s' := Next(s, a);
    hide SystemInv, KeepsTheRules, Next, CarriesSnapshot, Traced, CommittedAlone;
    forall r ensures CarriesSnapshot(s'.desk, r) {
      assert CarriesSnapshot(s.desk, r);
      SnapshotIsCarried(s, a, r);
    }
    forall id ensures Traced(s', id) { TracedIsKept(s, a, id); }
    forall r, x ensures CommittedAlone(s', r, x) { CommittedAloneIsKept(s, a, r, x); }
  }

  lemma ProvenanceFollows(s: System, a: Action, s': System)
    requires Follows(s, a, s') && Provenance(s)
    ensures Provenance(s')
  {
    ProvenanceIsKept(s, a);
    hide SystemInv, KeepsTheRules, Next, Provenance;
  }

  lemma InitialProvenance(ss: seq<System>, acts: seq<Action>)
    requires IsRun(ss, acts)
    ensures Provenance(ss[0])
  {
    FirstState(ss, acts);
    hide IsRun;
  }

  lemma {:induction false} ProvenanceThroughout(ss: seq<System>, acts: seq<Action>, i: nat)
    requires IsRun(ss, acts) && i < |ss|
    ensures Provenance(ss[i])
    decreases i
  {
    hide Follows, IsRun, Provenance;
    RunLength(ss, acts);
    if i == 0 {
      InitialProvenance(ss, acts);
    } else {
      ProvenanceThroughout(ss, acts, i - 1);
      EveryStepFollows(ss, acts, i - 1);
      ProvenanceFollows(ss[i - 1], acts[i - 1], ss[i]);
    }
  }

  /** A reservation becomes at most one job and a job comes from exactly one reservation, with its whole charge; the
      reservation is off the books in the same step. */
  lemma OneReservationOneJob(ss: seq<System>, acts: seq<Action>, i: nat)
    requires IsRun(ss, acts) && i < |acts| && Commits(ss[i], acts[i])
    ensures var s := ss[i]; var s' := ss[i + 1]; var rid := acts[i].rid;
      && rid in s.desk.calls && s.desk.calls[rid].pc.Committing? && rid in s.world.store.reservations
      && rid !in s'.world.store.reservations
      && var job := s.desk.calls[rid].pc.job;
        && job.id !in s.world.store.jobs && job.id in s'.world.store.jobs
        && s'.world.store.jobs[job.id].job == job
        && s'.world.store.jobs[job.id].bytes == s.world.store.reservations[rid].bytes
        && s'.world.store.jobs[job.id].dir == rid
        && rid in s'.desk.outcomes && s'.desk.outcomes[rid] == CommittedAs(job.id)
    ensures forall j, x | i < j < |ss| && x in ss[j].desk.outcomes && ss[j].desk.outcomes[x].CommittedAs?
      && ss[j].desk.outcomes[x].jobId == ss[i].desk.calls[acts[i].rid].pc.job.id :: x == acts[i].rid
  {
    EveryStateIsGood(ss, acts, i);
    CommitBooks(ss[i], acts[i].rid, acts[i].d.order);
    var rid := acts[i].rid;
    forall j, x | i < j < |ss| && x in ss[j].desk.outcomes && ss[j].desk.outcomes[x].CommittedAs?
      && ss[j].desk.outcomes[x].jobId == ss[i].desk.calls[rid].pc.job.id
      ensures x == rid
    {
      EveryReservationIsSettledOnce(ss, acts, i + 1, j, rid);
      ProvenanceThroughout(ss, acts, j);
      assert CommittedAlone(ss[j], rid, x);
    }
    hide SystemInv, KeepsTheRules, Next, IsRun;
  }

  lemma CommitBooks(s: System, rid: Id, order: seq<Id>)
    requires SystemInv(s) && KeepsTheRules(s, Data(rid, CommitJob(order))) && CommitError(s.world.store, rid) == None
    ensures var s' := Next(s, Data(rid, CommitJob(order)));
      && rid in s.desk.calls && s.desk.calls[rid].pc.Committing? && rid in s.world.store.reservations
      && rid !in s'.world.store.reservations
      && var job := s.desk.calls[rid].pc.job;
        && job.id !in s.world.store.jobs && job.id in s'.world.store.jobs
        && s'.world.store.jobs[job.id].job == job
        && s'.world.store.jobs[job.id].bytes == s.world.store.reservations[rid].bytes
        && s'.world.store.jobs[job.id].dir == rid
        && rid in s'.desk.outcomes && s'.desk.outcomes[rid] == CommittedAs(job.id)
  {
    CommitMovesOn(s, rid, order);
    assert CallJobOk(s, rid);
    BookedWhole(s.world, rid, s.desk.calls[rid].pc.job, s.desk.stagings[rid].files, order);
    hide SystemInv, CallJobOk, EvictionOrder, NextDesk, CommitStep, CanCommit;
  }
}
