/** The worker that acts: each step of process, runOCR, deliver and fail leaves it knowing what its next step needs. */
module GatewayWork {
  import opened JobTypes
  import opened JobStore
  import opened JobStoreBudget
  import opened DiskStore
  import opened SessionDesk
  import opened Gateway
  import opened GatewayInv
  import opened GatewayKept

  lemma TakeStep(s: System, wid: WorkerId)
    requires SystemInv(s) && KeepsTheRules(s, Work(wid, Take))
    ensures WorkerOk(Next(s, Work(wid, Take)), wid)
  {
    assert QueueSlotOk(s, 0);
    hide SystemInv;
  }

  lemma StartStep(s: System, wid: WorkerId)
    requires WorkerOk(s, wid) && KeepsTheRules(s, Work(wid, Start))
    ensures WorkerOk(Next(s, Work(wid, Start)), wid)
  {
  }

  /** Steps that only look: at the disk, at the store, at what the service answered. */
  lemma OpenStep(s: System, wid: WorkerId)
    requires WorkerOk(s, wid) && KeepsTheRules(s, Work(wid, Open))
    ensures WorkerOk(Next(s, Work(wid, Open)), wid)
  {
    hide OutOk, OutRegistered, Kept, DocPaths, DocIndex, Unprocessed, StatusError, CanSwap;
  }

  lemma AskStep(s: System, wid: WorkerId)
    requires WorkerOk(s, wid) && KeepsTheRules(s, Work(wid, Ask)) && IdsInv(s.world)
    ensures WorkerOk(Next(s, Work(wid, Ask)), wid)
  {
    hide OutOk, OutRegistered, Kept, DocPaths, DocIndex, AllOcr, CanSwap;
  }

  lemma LstatStep(s: System, wid: WorkerId)
    requires WorkerOk(s, wid) && KeepsTheRules(s, Work(wid, Lstat))
    ensures WorkerOk(Next(s, Work(wid, Lstat)), wid)
  {
    hide DocPaths, DocIndex, AllOcr, CanSwap, IdsInv, StatusError;
  }

  lemma MailingStep(s: System, wid: WorkerId, k: WorkAct)
    requires WorkerOk(s, wid) && KeepsTheRules(s, Work(wid, k))
    requires k.Deliver? || k.NoticeTooLarge? || k.NoticeFailed? || k.DeleteFailed? || k.Finish?
    ensures WorkerOk(Next(s, Work(wid, k)), wid)
  {
    hide SortedFor;
  }

  /** CreateTemp makes a name nobody has ever used, so nothing publishes it and nothing is about to remove it. */
  lemma TouchedFileIsKept(s: System, wid: WorkerId, file: Path)
    requires SystemInv(s) && KeepsTheRules(s, Work(wid, Touch(Some(file))))
    requires OutOfHarm(s, s.workers[wid].job.id, file.dir)
    ensures OutOk(Next(s, Work(wid, Touch(Some(file)))), s.workers[wid].job.id, file)
  {
    assert DirsInv(s.world) && IdsInv(s.world);
    EmptyWhenClosed(s);
    if !s.world.store.closed {
      assert RecordOnDisk(s.world, s.world.store.jobs[s.workers[wid].job.id]);
    }
    hide SystemInv, WorkerPcOk;
  }

  /** `dir` is the directory of an unfinished job, or the store is closed. */
  predicate OutOfHarm(s: System, id: Id, dir: Id) {
    s.world.store.closed
    || (id in s.world.store.jobs && s.world.store.jobs[id].dir == dir && Unfinished(s.world.store.jobs[id].job.status))
  }

  lemma AtTouch(s: System, wid: WorkerId, file: Option<Path>)
    requires WorkerOk(s, wid) && KeepsTheRules(s, Work(wid, Touch(file)))
    ensures wid in s.workers && s.workers[wid].pc.OcrTouch?
    ensures file.Some? ==> OutOfHarm(s, s.workers[wid].job.id, file.value.dir)
    ensures NextWorld(s, Work(wid, Touch(file))).store == s.world.store
  {
  }

  lemma TouchStep(s: System, wid: WorkerId, file: Option<Path>)
    requires WorkerOk(s, wid) && KeepsTheRules(s, Work(wid, Touch(file))) && s.workers[wid].pc.OcrTouch?
    requires file.Some? ==> OutOk(Next(s, Work(wid, Touch(file))), s.workers[wid].job.id, file.value)
    requires NextWorld(s, Work(wid, Touch(file))).store == s.world.store
    ensures WorkerOk(Next(s, Work(wid, Touch(file))), wid)
  {
    hide OutOk, OutRegistered, OneAhead, OcrDone, Kept, DocPaths, AllOcr, CanSwap, NextWorld, NextDesk, OpOf, MoveOf, Enabled;
  }

  lemma RegisterStep(s: System, wid: WorkerId)
    requires WorkerOk(s, wid) && KeepsTheRules(s, Work(wid, RegisterOut))
    ensures WorkerOk(Next(s, Work(wid, RegisterOut)), wid)
  {
  }

  lemma WritingStep(s: System, wid: WorkerId, ok: bool, size: nat)
    requires WorkerOk(s, wid) && KeepsTheRules(s, Work(wid, RunOcr(ok, size)))
    ensures WorkerOk(Next(s, Work(wid, RunOcr(ok, size))), wid)
  {
  }

  /** The document the store replaces is the one the worker meant. */
  lemma SwappedIsOneAhead(s: System, wid: WorkerId)
    requires WorkerOk(s, wid) && KeepsTheRules(s, Work(wid, Swap)) && FilesInv(s.world)
    requires CanSwap(s.world.store, s.workers[wid])
    ensures var wk := s.workers[wid];
      OneAhead(Next(s, Work(wid, Swap)), wk, wk.pc.i, wk.pc.out)
  {
    assert RecordOnDisk(s.world, s.world.store.jobs[s.workers[wid].job.id]);
    hide LocalStep, WorkStep, AllOcr;
  }

  lemma AtSwap(s: System, wid: WorkerId)
    requires WorkerOk(s, wid) && WorkGuard(s, wid, Swap)
    ensures var wk := s.workers[wid];
      && wk.pc.OcrSwap? && OcrSoFar(wk, wk.pc.i) && wk.pc.i < |wk.job.documents|
      && OwnedBy(s, wk.job.id, ByWorker(wid)) && Unprocessed(wk.job)
      && InHand(s, wk.job, Processing) && OutRegistered(s, wk.job.id, wk.pc.out)
      && LocalStep(s, Work(wid, Swap))
         == GoTo(s, wid, if CanSwap(s.world.store, wk) then OcrStat(wk.pc.i, wk.pc.out) else OcrFailed(wk.job))
  {
    hide OneAhead, OutRegistered, CanSwap, AllOcr;
  }

  lemma SwapStep(s: System, wid: WorkerId)
    requires WorkerOk(s, wid) && KeepsTheRules(s, Work(wid, Swap)) && FilesInv(s.world)
    ensures WorkerOk(Next(s, Work(wid, Swap)), wid)
  {
    AtSwap(s, wid);
    if CanSwap(s.world.store, s.workers[wid]) {
      SwappedIsOneAhead(s, wid);
    }
    hide WorkStep, LocalStep, PcFits, NextDesk, MoveOf, Enabled, Apply, FilesInv, OneAhead, OcrSoFar, OutRegistered, CanSwap;
  }

  lemma StatStep(s: System, wid: WorkerId)
    requires WorkerOk(s, wid) && KeepsTheRules(s, Work(wid, StatOut))
    ensures WorkerOk(Next(s, Work(wid, StatOut)), wid)
  {
    hide Kept;
  }

  /** Whatever room is made, the job itself comes out finished or evicted. */
  lemma SettledIsOver(w: World, id: Id, st: Status, msg: string, order: seq<Id>)
    requires CanSetStatus(w, id, st, msg, order) && Finished(st)
    ensures var jobs := FinalStep(w, id, st, msg, order).store.jobs;
      id in jobs && !Unfinished(jobs[id].job.status)
  {
    EvictionTouchesOnlyVictims(Settled(w.store, id, st, msg, w.clock), order);
  }

  lemma FailedJobIsOver(s: System, wid: WorkerId, order: seq<Id>)
    requires KeepsTheRules(s, Work(wid, Fail(order)))
    ensures Over(s.(world := NextWorld(s, Work(wid, Fail(order)))), s.workers[wid].job.id)
  {
    var wk := s.workers[wid];
    if StatusError(s.world.store, wk.job.id) == None {
      SettledIsOver(s.world, wk.job.id, Failed, wk.pc.reason, order);
    }
    hide EvictionOrder, DistinctCandidates, Settled, FinalStep, MakeRoom, LocalStep;
  }

  lemma AtFail(s: System, wid: WorkerId, order: seq<Id>)
    requires WorkGuard(s, wid, Fail(order))
    ensures s.workers[wid].pc.Failing?
    ensures LocalStep(s, Work(wid, Fail(order)))
         == if s.workers[wid].job.caps.email then GoTo(s, wid, FailNotice) else AfterNotice(s, wid)
  {
    hide SortedFor;
  }

  lemma FailStep(s: System, wid: WorkerId, order: seq<Id>)
    requires WorkerOk(s, wid) && KeepsTheRules(s, Work(wid, Fail(order)))
    ensures WorkerOk(Next(s, Work(wid, Fail(order))), wid)
  {
    hide WorkerPcOk, WorkStep, LocalStep, PcFits, NextWorld, NextDesk, OpOf, MoveOf, CanMove, Enabled;
    AtFail(s, wid, order);
    var s' := Next(s, Work(wid, Fail(order)));
    assert Over(s', s.workers[wid].job.id) by {
      FailedJobIsOver(s, wid, order);
    }
    if wid in s'.workers {
      FailedPcOk(s', s'.workers[wid]);
    }
  }

  lemma FailedPcOk(s: System, wk: Worker)
    requires Over(s, wk.job.id) && ((wk.pc.FailNotice? && wk.job.caps.email) || wk.pc.FailDelete?)
    ensures WorkerPcOk(s, wk)
  {
  }

  /** The acting worker, whatever it does next. */
  lemma OwnWorkerIsKept(s: System, wid: WorkerId, k: WorkAct)
    requires SystemInv(s) && KeepsTheRules(s, Work(wid, k))
    ensures WorkerOk(Next(s, Work(wid, k)), wid)
  {
    assert WorkerOk(s, wid);
    assert FilesInv(s.world) && IdsInv(s.world);
    EmptyWhenClosed(s);
    hide SystemInv, WorkerOk, KeepsTheRules, FilesInv, IdsInv;
    match k
    case Take => TakeStep(s, wid);
    case Start => StartStep(s, wid);
    case Open => OpenStep(s, wid);
    case Ask => AskStep(s, wid);
    case Touch(file) =>
      AtTouch(s, wid, file);
      if file.Some? {
        TouchedFileIsKept(s, wid, file.value);
      }
      TouchStep(s, wid, file);
    case RegisterOut => RegisterStep(s, wid);
    case RunOcr(ok, size) => WritingStep(s, wid, ok, size);
    case Lstat => LstatStep(s, wid);
    case Swap => SwapStep(s, wid);
    case StatOut => StatStep(s, wid);
    case Fail(order) => FailStep(s, wid, order);
    case _ => MailingStep(s, wid, k);
  }
}
