/** Nothing leaks: an unfinished job on the books is always in somebody's hands, and its directory was committed. */
module GatewayRecords {
  import opened JobTypes
  import opened JobStore
  import opened JobStoreBudget
  import opened DiskStore
  import opened SessionDesk
  import opened Gateway
  import opened GatewayInv
  import opened GatewayFrames
  import opened GatewayOthers
  import opened GatewayKept
  import opened GatewayHands
  import opened GatewayWork

  predicate Comes(op: Op, id: Id) {
    op.Commit? && op.job.id == id
  }

  lemma EvictionHistory(s: State, order: seq<Id>, id: Id)
    requires DistinctCandidates(s.jobs, order) && id in MakeRoom(s, order).jobs
    ensures var jobs := MakeRoom(s, order).jobs;
      && id in s.jobs && jobs[id].dir == s.jobs[id].dir
      && (Unfinished(jobs[id].job.status) ==> Unfinished(s.jobs[id].job.status))
  {
    EvictionTouchesOnlyVictims(s, order);
  }

  /** Where a record comes from: it was there before, in the same directory and no less finished, or it was just
      committed. */
  lemma RecordHistory(w: World, op: Op, id: Id)
    requires Enabled(w, op) && id in Apply(w, op).store.jobs
    ensures var jobs := Apply(w, op).store.jobs;
      if Comes(op, id) then jobs[id].dir == op.rid
      else
        && id in w.store.jobs && jobs[id].dir == w.store.jobs[id].dir
        && (Unfinished(jobs[id].job.status) ==> Unfinished(w.store.jobs[id].job.status))
  {
    hide MakeRoom, DocsOnDisk, DistinctDocs, ReserveError, AfterSweep, SweptDirs, EvictedDirs, OldestFirst;
    match op
    case Commit(rid, job, files, order) => EvictionHistory(Booked(w.store, rid, job, files), order, id);
    case SetStatus(x, st, msg, order) =>
      if Finished(st) {
        EvictionHistory(Settled(w.store, x, st, msg, w.clock), order, id);
      }
    case Sweep(now) => SweepHistory(w.store, now, id);
    case _ =>
  }

  lemma SweepHistory(s: State, now: int, id: Id)
    requires id in AfterSweep(s, now).jobs
    ensures id in s.jobs && AfterSweep(s, now).jobs[id] == s.jobs[id]
  {
  }

  lemma OnlyCommitJobBooks(s: System, a: Action, id: Id)
    requires KeepsTheRules(s, a) && OpOf(s, a).Some? && Comes(OpOf(s, a).value, id)
    ensures a.Data? && a.d.CommitJob? && CommitError(s.world.store, a.rid) == None
    ensures OpOf(s, a).value.rid == a.rid && a.rid in s.desk.calls && s.desk.calls[a.rid].pc.Committing?
    ensures s.desk.calls[a.rid].pc.job.id == id
  {
    hide Enabled, CanMove, SortedFor, EvictionOrder;
  }

  // ---------- the directory of a job was committed ----------

  lemma CommittedDirStays(s: System, a: Action, r: Id)
    requires SystemInv(s) && KeepsTheRules(s, a)
    requires r in s.desk.stagings && s.desk.stagings[r].state.StagingCommitted?
    ensures r in NextDesk(s, a).stagings && NextDesk(s, a).stagings[r].state.StagingCommitted?
  {
    if MoveOf(s, a).Some? {
      var m := MoveOf(s, a).value;
      if m.OpenStaging? {
        assert CallOk(s.desk, s.world.store.reservations.Keys, m.rid);
      }
      CommittedStays(s.desk, s.world.store.reservations.Keys, m, r);
    }
  }

  lemma CommitMarksStaging(s: System, rid: Id, order: seq<Id>)
    requires KeepsTheRules(s, Data(rid, CommitJob(order))) && CommitError(s.world.store, rid) == None
    ensures var k' := NextDesk(s, Data(rid, CommitJob(order)));
      && rid in k'.stagings && k'.stagings[rid].state.StagingCommitted?
      && rid in k'.calls && k'.calls[rid].pc == Enqueuing(s.desk.calls[rid].pc.job)
  {
    hide Enabled, EvictionOrder;
  }

  // ---------- an unfinished job is in somebody's hands ----------

  lemma CommittedJobIsHeld(s: System, rid: Id, order: seq<Id>)
    requires CallJobOk(s, rid) && KeepsTheRules(s, Data(rid, CommitJob(order)))
    requires CommitError(s.world.store, rid) == None
    ensures InHands(Next(s, Data(rid, CommitJob(order))), s.desk.calls[rid].pc.job.id)
  {
    CommitMarksStaging(s, rid, order);
    hide ReadyToCommit, EvictionOrder, Enabled, NextDesk, NextWorld;
  }

  lemma SessionHandsOver(s: System, rid: Id, d: DataAct, id: Id)
    requires CallJobOk(s, rid) && KeepsTheRules(s, Data(rid, d))
    requires InHands(s, id) && s.owner[id] == BySession(rid)
    requires var jobs := NextWorld(s, Data(rid, d)).store.jobs; id in jobs && Unfinished(jobs[id].job.status)
    ensures InHands(Next(s, Data(rid, d)), id)
  {
    assert !d.Begin? && s.desk.calls[rid].pc.job.id == id;
    if d.Enqueue? && |s.queue| < s.queueCap {
      assert Next(s, Data(rid, d)).queue[|s.queue|].id == id;
    }
  }

  lemma FinishedJobIsOver(s: System, wid: WorkerId, order: seq<Id>)
    requires KeepsTheRules(s, Work(wid, Finish(order)))
    ensures Over(Next(s, Work(wid, Finish(order))), s.workers[wid].job.id)
  {
    var wk := s.workers[wid];
    if wk.job.caps.web && StatusError(s.world.store, wk.job.id) == None {
      SettledIsOver(s.world, wk.job.id, Ready, "", order);
    }
    hide EvictionOrder, DistinctCandidates, Settled, FinalStep, MakeRoom, LocalStep;
  }

  lemma EndingStepsHold(s: System, wid: WorkerId, k: WorkAct)
    requires wid in s.workers && WorkerOk(s, wid) && KeepsTheRules(s, Work(wid, k))
    requires k.Finish? || k.Fail?
    ensures Over(Next(s, Work(wid, k)), s.workers[wid].job.id)
  {
    match k
    case Finish(order) => FinishedJobIsOver(s, wid, order);
    case Fail(order) => FailedJobIsOver(s, wid, order);
  }

  lemma WorkingStepsHold(s: System, wid: WorkerId, k: WorkAct)
    requires WorkGuard(s, wid, k)
    requires !k.Take? && !k.Start? && !k.Finish? && !k.Fail? && !k.NoticeFailed? && !k.DeleteFailed?
    ensures var s' := LocalStep(s, Work(wid, k));
      && wid in s'.workers && s'.workers[wid].job.id == s.workers[wid].job.id && s'.owner == s.owner
      && !s'.workers[wid].pc.FailNotice? && !s'.workers[wid].pc.FailDelete?
  {
    hide CanSwap, StatusError, SortedFor;
  }

  lemma StartHolds(s: System, wid: WorkerId)
    requires KeepsTheRules(s, Work(wid, Start)) && InHands(s, s.workers[wid].job.id)
    requires s.owner[s.workers[wid].job.id] == ByWorker(wid)
    requires var jobs := NextWorld(s, Work(wid, Start)).store.jobs; var id := s.workers[wid].job.id;
      id in jobs && Unfinished(jobs[id].job.status)
    ensures InHands(Next(s, Work(wid, Start)), s.workers[wid].job.id)
  {
  }

  lemma WorkerHoldsOn(s: System, wid: WorkerId, k: WorkAct, id: Id)
    requires WorkerOk(s, wid) && KeepsTheRules(s, Work(wid, k))
    requires InHands(s, id) && s.owner[id] == ByWorker(wid)
    requires var jobs := NextWorld(s, Work(wid, k)).store.jobs; id in jobs && Unfinished(jobs[id].job.status)
    ensures InHands(Next(s, Work(wid, k)), id)
  {
    assert wid in s.workers && s.workers[wid].job.id == id && !k.NoticeFailed? && !k.DeleteFailed? && !k.Take?;
    hide WorkerPcOk, LocalStep, WorkStep, NextDesk, OpOf, MoveOf, Enabled, CanMove;
    if k.Start? {
      StartHolds(s, wid);
    } else if k.Finish? || k.Fail? {
      EndingStepsHold(s, wid, k);
    } else {
      WorkingStepsHold(s, wid, k);
    }
  }

  lemma TakenJobIsHeld(s: System, wid: WorkerId)
    requires KeepsTheRules(s, Work(wid, Take))
    ensures InHands(Next(s, Work(wid, Take)), s.queue[0].id)
  {
  }

  lemma QueueHoldsOn(s: System, a: Action, id: Id)
    requires SystemInv(s) && KeepsTheRules(s, a) && InHands(s, id) && s.owner[id].Queued?
    ensures InHands(Next(s, a), id)
  {
    var i :| 0 <= i < |s.queue| && s.queue[i].id == id;
    if a.Work? && a.k.Take? && s.queue[0].id == id {
      TakenJobIsHeld(s, a.wid);
    } else {
      assert IdOk(s, id) && QueueSlotOk(s, i);
      assert a.Data? ==> CallJobOk(s, a.rid);
      assert a.Work? ==> WorkerOk(s, a.wid);
      OwnersStay(s, a, id);
      QueueAfter(s, a);
      var s' := Next(s, a);
      var j := if a.Work? && a.k.Take? then i - 1 else i;
      assert s'.queue[j].id == id;
    }
  }

  lemma OthersHoldOn(s: System, a: Action, id: Id)
    requires SystemInv(s) && KeepsTheRules(s, a) && InHands(s, id) && !s.owner[id].Queued? && !ActsFor(a, s.owner[id])
    ensures InHands(Next(s, a), id)
  {
    OwnersStayInNext(s, a, id);
    match s.owner[id]
    case BySession(r) => OtherCallsAreKept(s, a, r);
    case ByWorker(w) => WorkersStay(s, a, w);
    case Queued =>
  }

  lemma HandsHoldOn(s: System, a: Action, id: Id)
    requires SystemInv(s) && KeepsTheRules(s, a) && InHands(s, id)
    requires id in NextWorld(s, a).store.jobs && Unfinished(NextWorld(s, a).store.jobs[id].job.status)
    ensures InHands(Next(s, a), id)
  {
    assert a.Data? ==> CallJobOk(s, a.rid);
    assert a.Work? ==> WorkerOk(s, a.wid);
    hide SystemInv, InHands, KeepsTheRules, CallJobOk, WorkerOk;
    if s.owner[id].Queued? {
      QueueHoldsOn(s, a, id);
    } else if !ActsFor(a, s.owner[id]) {
      OthersHoldOn(s, a, id);
    } else if a.Data? {
      SessionHandsOver(s, a.rid, a.d, id);
    } else {
      WorkerHoldsOn(s, a.wid, a.k, id);
    }
  }

  lemma RecordIsKept(s: System, a: Action, id: Id)
    requires SystemInv(s) && KeepsTheRules(s, a)
    ensures RecordOk(Next(s, a), id)
  {
    assert RecordOk(s, id);
    var jobs' := NextWorld(s, a).store.jobs;
    if id in jobs' {
      if OpOf(s, a).Some? {
        RecordHistory(s.world, OpOf(s, a).value, id);
      }
      if OpOf(s, a).Some? && Comes(OpOf(s, a).value, id) {
        OnlyCommitJobBooks(s, a, id);
        assert CallJobOk(s, a.rid);
        CommitMarksStaging(s, a.rid, a.d.order);
        CommittedJobIsHeld(s, a.rid, a.d.order);
      } else {
        CommittedDirStays(s, a, s.world.store.jobs[id].dir);
        if Unfinished(jobs'[id].job.status) {
          HandsHoldOn(s, a, id);
        }
      }
    }
    hide SystemInv, KeepsTheRules, InHands;
  }

  // ---------- stagings and ids ----------

  lemma StagedFilesAreKept(s: System, a: Action, r: Id)
    requires SystemInv(s) && KeepsTheRules(s, a)
    ensures StagedFilesOk(Next(s, a), r)
  {
    assert StagedFilesOk(s, r) && CallJobOk(s, r);
    if OpOf(s, a).Some? {
      WorldGrows(s.world, OpOf(s, a).value);
    }
    if a.Data? && a.rid == r {
      OwnStagingIsKept(s, r, a.d);
    } else {
      FilesOfOthersStay(s, a, r);
    }
    hide SystemInv, KeepsTheRules;
  }

  lemma OwnStagingIsKept(s: System, r: Id, d: DataAct)
    requires KeepsTheRules(s, Data(r, d)) && StagedFilesOk(s, r) && CallJobOk(s, r)
    requires s.world.issued <= NextWorld(s, Data(r, d)).issued && s.world.names <= NextWorld(s, Data(r, d)).names
    ensures StagedFilesOk(Next(s, Data(r, d)), r)
  {
    hide EvictionOrder, FreshIds, ReadyToCommit, InHand, OwnedBy, StagedJob, LocalStep;
    if MoveOf(s, Data(r, d)).Some? && r in NextDesk(s, Data(r, d)).stagings {
      StagingFilesAfter(s.desk, s.world.store.reservations.Keys, MoveOf(s, Data(r, d)).value, r);
    }
  }

  lemma StagingFilesAfter(k: Desk, open: set<Id>, m: Move, r: Id)
    requires CanMove(k, open, m) && r in ApplyMove(k, open, m).stagings
    ensures var files := ApplyMove(k, open, m).stagings[r].files;
      if m.OpenStaging? && m.rid == r then files == {} && r in k.calls
      else r in k.stagings && files == if m.AddFile? && m.rid == r then k.stagings[r].files + {m.path} else k.stagings[r].files
  {
  }

  lemma DataOwners(s: System, rid: Id, d: DataAct, id: Id)
    requires DataGuard(s, rid, d) && id in DataStep(s, rid, d).owner && CallJobOk(s, rid)
    ensures id in s.owner || (d.Stat? && id == d.jobId && DataOp(s, rid, d).Some?)
  {
    hide EvictionOrder, FreshIds, ReadyToCommit, InHand;
  }

  lemma WorkOwners(s: System, wid: WorkerId, k: WorkAct, id: Id)
    requires WorkGuard(s, wid, k) && id in WorkStep(s, wid, k).owner
    requires k.Take? ==> QueueSlotOk(s, 0)
    ensures id in s.owner
  {
    hide SortedFor, CanSwap, InHand, StatusError;
  }

  lemma OwnersAreIssued(s: System, a: Action, id: Id)
    requires Guard(s, a) && id in LocalStep(s, a).owner
    requires a.Data? ==> CallJobOk(s, a.rid)
    requires a.Work? && a.k.Take? ==> QueueSlotOk(s, 0)
    ensures id in s.owner || (a.Data? && a.d.Stat? && id == a.d.jobId && OpOf(s, a).Some?)
  {
    hide CallJobOk, QueueSlotOk, DataGuard, WorkGuard, DataStep, WorkStep, DataOp, WorkOp;
    match a
    case Data(rid, d) => DataOwners(s, rid, d, id);
    case Work(wid, k) => WorkOwners(s, wid, k, id);
    case _ =>
  }

  lemma OutcomesAreReservations(k: Desk, open: set<Id>, m: Move, r: Id)
    requires CanMove(k, open, m) && r in ApplyMove(k, open, m).outcomes
    ensures r in k.outcomes || r in open
  {
  }

  lemma IdsAreKept(s: System, a: Action, id: Id)
    requires SystemInv(s) && KeepsTheRules(s, a)
    ensures IdOk(Next(s, a), id)
  {
    assert IdOk(s, id) && IdsInv(s.world);
    assert a.Data? ==> CallJobOk(s, a.rid);
    assert a.Work? && a.k.Take? ==> QueueSlotOk(s, 0);
    if OpOf(s, a).Some? {
      WorldGrows(s.world, OpOf(s, a).value);
    }
    if id in LocalStep(s, a).owner {
      OwnersAreIssued(s, a, id);
    }
    if id in NextDesk(s, a).outcomes && MoveOf(s, a).Some? {
      OutcomesAreReservations(s.desk, s.world.store.reservations.Keys, MoveOf(s, a).value, id);
    }
    hide SystemInv;
  }
}
