/** A job between its commit and its end: undisturbed, always served, and over for good when its worker lets go. */
module GatewayService {
  import opened JobTypes
  import opened JobStore
  import opened DiskStore
  import opened DiskStoreProofs
  import opened SessionDesk
  import opened Gateway
  import opened GatewayInv
  import opened GatewayFrames
  import opened GatewayOthers
  import opened GatewayKept
  import opened GatewayWork
  import opened GatewayRecords
  import opened GatewayRuns
  import opened GatewaySettlement

  // ---------- undisturbed ----------

  predicate OwnersStep(s: System, a: Action, id: Id) {
    id in s.owner && ActsFor(a, s.owner[id])
  }

  lemma UndisturbedInTurn(u: World, v: World, w: World, id: Id)
    requires id in u.store.jobs && Undisturbed(u, v, id)
    requires v.store.closed ==> w.store.closed
    requires !v.store.closed ==> Undisturbed(v, w, id)
    ensures Undisturbed(u, w, id)
  {
    hide Kept;
  }

  lemma StepLeavesUndisturbed(s: System, a: Action, s': System, id: Id)
    requires Follows(s, a, s') && !OwnersStep(s, a, id)
    ensures s.world.store.closed ==> s'.world.store.closed
    ensures id in s.world.store.jobs && Unfinished(s.world.store.jobs[id].job.status) ==>
      Undisturbed(s.world, s'.world, id)
  {
    hide SystemInv, Guard, Enabled, Undisturbed;
    if OpOf(s, a).Some? {
      WorldGrows(s.world, OpOf(s, a).value);
    }
    if id in s.world.store.jobs && Unfinished(s.world.store.jobs[id].job.status) {
      UnfinishedJobsAreUndisturbed(s, a, id);
    }
  }

  /** From commit to its final status, a job's record, charge and files are changed by nobody but whoever holds it:
      no other commit, eviction, sweep, session, worker or deferred removal, in any interleaving. */
  lemma {:induction false} JobsInProgressAreUndisturbed(ss: seq<System>, acts: seq<Action>, i: nat, j: nat, id: Id)
    requires IsRun(ss, acts) && i <= j < |ss|
    requires id in ss[i].world.store.jobs && Unfinished(ss[i].world.store.jobs[id].job.status)
    requires forall k :: i <= k < j ==> !OwnersStep(ss[k], acts[k], id)
    ensures Undisturbed(ss[i].world, ss[j].world, id)
    decreases j
  {
    hide IsRun, Follows, Kept, OwnersStep;
    RunLength(ss, acts);
    if i < j {
      JobsInProgressAreUndisturbed(ss, acts, i, j - 1, id);
      EveryStepFollows(ss, acts, j - 1);
      StepLeavesUndisturbed(ss[j - 1], acts[j - 1], ss[j], id);
      UndisturbedInTurn(ss[i].world, ss[j - 1].world, ss[j].world, id);
    }
  }

  // ---------- served ----------

  predicate Serving(pc: WorkerPc) {
    !pc.OcrStat? && !pc.Failing? && !pc.FailNotice? && !pc.FailDelete?
  }

  /** Until the store is closed, a worker's own copy of the job is the store's record of it, and every document it
      names is on disk with the size it says - in particular when it opens them for OCR and when it mails them. */
  lemma WorkersFindTheirInputs(ss: seq<System>, acts: seq<Action>, i: nat, wid: WorkerId)
    requires IsRun(ss, acts) && i < |ss| && !ss[i].world.store.closed
    requires wid in ss[i].workers && Serving(ss[i].workers[wid].pc)
    ensures var s := ss[i]; var job := s.workers[wid].job;
      && job.id in s.world.store.jobs
      && s.world.store.jobs[job.id].job == job.(status := if s.workers[wid].pc.Taken? then Pending else Processing)
      && forall d :: d in job.documents ==> d.path in s.world.disk && s.world.disk[d.path] == d.size
  {
    hide IsRun, KeepsTheRules, Next;
    EveryStateIsGood(ss, acts, i);
    assert WorkerOk(ss[i], wid) && FilesInv(ss[i].world);
    hide SystemInv;
    assert RecordOnDisk(ss[i].world, ss[i].world.store.jobs[ss[i].workers[wid].job.id]);
  }

  /** The branch of a worker's step that the code takes when nothing is wrong with the store or its files. */
  ghost predicate GoesThrough(s: System, wk: Worker, k: WorkAct)
    requires PcFits(s, wk, k)
  {
    var open := StatusError(s.world.store, wk.job.id) == None;
    match k
    case Start => open
    case Open => wk.pc.i < |wk.job.documents| ==> wk.job.documents[wk.pc.i].path in s.world.disk
    case Ask => open
    case RegisterOut => open
    case Lstat => wk.pc.out in s.world.disk
    case Swap => CanSwap(s.world.store, wk)
    case StatOut => wk.pc.i < |wk.job.documents| && wk.pc.out in s.world.disk
    case Finish(_) => open
    case Fail(_) => open
    case _ => true
  }

  lemma SwapGoesThrough(s: System, wk: Worker)
    requires wk.pc.OcrSwap? && WorkerPcOk(s, wk) && !s.world.store.closed
    ensures CanSwap(s.world.store, wk)
  {
    hide Kept, OcrSoFar, OneAhead;
    assert DocIndex(wk.job.documents, wk.job.documents[wk.pc.i].id) <= wk.pc.i;
  }

  lemma StepGoesThrough(s: System, wk: Worker, k: WorkAct)
    requires WorkerPcOk(s, wk) && PcFits(s, wk, k) && !s.world.store.closed && FilesInv(s.world)
    ensures GoesThrough(s, wk, k)
  {
    hide SortedFor, OcrSoFar, OcrDone, DocIndex;
    if k.Swap? {
      SwapGoesThrough(s, wk);
    } else if wk.job.id in s.world.store.jobs {
      assert RecordOnDisk(s.world, s.world.store.jobs[wk.job.id]);
    }
  }

  /** The store refuses a worker, or its files are missing, only once the store is closed: no eviction, expiry or
      removal ever gets between a worker and its job. */
  lemma OnlyCloseStopsAWorker(ss: seq<System>, acts: seq<Action>, i: nat, wid: WorkerId, k: WorkAct)
    requires IsRun(ss, acts) && i < |ss| && wid in ss[i].workers && PcFits(ss[i], ss[i].workers[wid], k)
    ensures !GoesThrough(ss[i], ss[i].workers[wid], k) ==> ss[i].world.store.closed
  {
    hide IsRun, KeepsTheRules, Next, GoesThrough, PcFits;
    EveryStateIsGood(ss, acts, i);
    assert WorkerOk(ss[i], wid) && FilesInv(ss[i].world);
    hide SystemInv, WorkerPcOk, FilesInv;
    if !ss[i].world.store.closed {
      StepGoesThrough(ss[i], ss[i].workers[wid], k);
    }
  }

  // ---------- over ----------

  predicate Uncommitted(s: System, id: Id) {
    && id in s.world.issued
    && forall x :: x in s.desk.calls && s.desk.calls[x].pc.Committing? ==> s.desk.calls[x].pc.job.id != id
  }

  lemma UncommittedStays(s: System, a: Action, s': System, id: Id)
    requires Follows(s, a, s') && Uncommitted(s, id)
    ensures Uncommitted(s', id)
  {
    hide SystemInv, Guard, Enabled, LocalStep, OpOf, MoveOf, CanMove;
    assert s'.world == NextWorld(s, a) && s'.desk == NextDesk(s, a);
    if OpOf(s, a).Some? {
      WorldGrows(s.world, OpOf(s, a).value);
    }
    forall x | x in s'.desk.calls && s'.desk.calls[x].pc.Committing? ensures s'.desk.calls[x].pc.job.id != id {
      CommittingHistory(s, a, x);
    }
  }

  lemma OverStays(s: System, a: Action, s': System, id: Id)
    requires Follows(s, a, s') && Uncommitted(s, id) && Over(s, id)
    ensures Over(s', id)
  {
    hide SystemInv, Guard, Enabled, LocalStep, MoveOf, CanMove, NextDesk;
    if id in s'.world.store.jobs && OpOf(s, a).Some? {
      RecordHistory(s.world, OpOf(s, a).value, id);
      if Comes(OpOf(s, a).value, id) {
        OnlyCommitJobBooks(s, a, id);
      }
    }
  }

  lemma {:induction false} OnceOverAlwaysOver(ss: seq<System>, acts: seq<Action>, i: nat, j: nat, id: Id)
    requires IsRun(ss, acts) && i <= j < |ss| && Over(ss[i], id) && Uncommitted(ss[i], id)
    ensures Over(ss[j], id) && Uncommitted(ss[j], id)
    decreases j
  {
    hide IsRun, Follows, Over, Uncommitted;
    RunLength(ss, acts);
    if i < j {
      OnceOverAlwaysOver(ss, acts, i, j - 1, id);
      EveryStepFollows(ss, acts, j - 1);
      OverStays(ss[j - 1], acts[j - 1], ss[j], id);
      UncommittedStays(ss[j - 1], acts[j - 1], ss[j], id);
    }
  }

  /** A worker puts a job down only by finishing it, deleting it, or finding it gone. */
  lemma LettingGo(s: System, a: Action, s': System, wid: WorkerId)
    requires Follows(s, a, s') && wid in s.workers && wid !in s'.workers
    ensures a.Work? && a.wid == wid
    ensures Over(s', s.workers[wid].job.id)
  {
    assert WorkerOk(s, wid);
    hide SystemInv, LocalStep;
    WorkersStayUnlessOwn(s, a, wid);
    WorkerEnds(s, wid, a.k);
  }

  lemma WorkersStayUnlessOwn(s: System, a: Action, wid: WorkerId)
    requires Guard(s, a) && wid in s.workers && wid !in LocalStep(s, a).workers
    ensures a.Work? && a.wid == wid
  {
    hide Guard, LocalStep;
    if !(a.Work? && a.wid == wid) {
      WorkersStay(s, a, wid);
    }
  }

  predicate Ending(k: WorkAct) {
    k.Start? || k.Finish? || k.Fail? || k.NoticeFailed? || k.DeleteFailed?
  }

  lemma OnlyEndingStepsLetGo(s: System, wid: WorkerId, k: WorkAct)
    requires WorkGuard(s, wid, k) && wid in s.workers && !Ending(k)
    ensures wid in WorkStep(s, wid, k).workers
  {
    hide SortedFor, CanSwap, StatusError;
  }

  lemma WorkerEnds(s: System, wid: WorkerId, k: WorkAct)
    requires WorkerOk(s, wid) && wid in s.workers && KeepsTheRules(s, Work(wid, k))
    requires wid !in WorkStep(s, wid, k).workers
    ensures Over(Next(s, Work(wid, k)), s.workers[wid].job.id)
  {
    if !Ending(k) {
      OnlyEndingStepsLetGo(s, wid, k);
    } else {
      match k
      case Finish(order) => FinishedJobIsOver(s, wid, order);
      case Fail(order) => FailedJobIsOver(s, wid, order);
      case _ => QuietEnd(s, wid, k);
    }
    hide WorkerOk, KeepsTheRules, WorkStep, Next, Over;
  }

  lemma QuietEnd(s: System, wid: WorkerId, k: WorkAct)
    requires WorkerOk(s, wid) && wid in s.workers && KeepsTheRules(s, Work(wid, k))
    requires wid !in WorkStep(s, wid, k).workers && (k.Start? || k.NoticeFailed? || k.DeleteFailed?)
    ensures Over(Next(s, Work(wid, k)), s.workers[wid].job.id)
  {
    hide SortedFor, CanSwap, Kept;
  }

  /** Whatever became of OCR and mail: once its worker is done with it, a job is ready, failed, evicted or gone, and
      never again pending or processing. */
  lemma JobsEndForGood(ss: seq<System>, acts: seq<Action>, i: nat, j: nat, wid: WorkerId)
    requires IsRun(ss, acts) && i < j < |ss| && wid in ss[i].workers && wid !in ss[i + 1].workers
    ensures Over(ss[j], ss[i].workers[wid].job.id)
  {
    hide IsRun, Follows, Over, Uncommitted;
    RunLength(ss, acts);
    var id := ss[i].workers[wid].job.id;
    EveryStepFollows(ss, acts, i);
    LettingGo(ss[i], acts[i], ss[i + 1], wid);
    WorkersJobIsCommitted(ss[i], acts[i], ss[i + 1], wid);
    UncommittedStays(ss[i], acts[i], ss[i + 1], id);
    OnceOverAlwaysOver(ss, acts, i + 1, j, id);
  }

  lemma WorkersJobIsCommitted(s: System, a: Action, s': System, wid: WorkerId)
    requires Follows(s, a, s') && wid in s.workers
    ensures Uncommitted(s, s.workers[wid].job.id)
  {
    hide KeepsTheRules, Next;
    var id := s.workers[wid].job.id;
    assert WorkerOk(s, wid) && IdOk(s, id);
    forall x | x in s.desk.calls && s.desk.calls[x].pc.Committing? ensures s.desk.calls[x].pc.job.id != id {
      assert CallJobOk(s, x);
    }
  }
}
