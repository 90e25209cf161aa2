/** In a state that satisfies the invariant, whatever may come next keeps the rules of the store and of the desk:
    nobody writes to, removes, finishes or replaces what is not theirs. */
module GatewayRules {
  import opened JobTypes
  import opened JobStore
  import opened DiskStore
  import opened SessionDesk
  import opened Gateway
  import opened GatewayInv

  /** A published path is in the directory of a job that was committed. */
  lemma PublishedIsCommitted(s: System, p: Path)
    requires SystemInv(s) && Published(s.world, p)
    ensures p.dir in s.desk.stagings && s.desk.stagings[p.dir].state.StagingCommitted?
    ensures exists id :: id in s.world.store.jobs && s.world.store.jobs[id].dir == p.dir
                      && p in DocPaths(s.world.store.jobs[id].job.documents)
  {
    var id :| id in s.world.store.jobs && p in DocPaths(s.world.store.jobs[id].job.documents);
    var r := s.world.store.jobs[id];
    assert RecordOnDisk(s.world, r);
    assert WellFormedRecord(id, r);
    assert RecordOk(s, id);
  }

  /** Nothing published lives in the directory of a staging that was not committed. */
  lemma UncommittedIsUnpublished(s: System, r: Id, p: Path)
    requires SystemInv(s) && p.dir == r
    requires r in s.desk.stagings ==> !s.desk.stagings[r].state.StagingCommitted?
    ensures !Published(s.world, p)
  {
    if Published(s.world, p) {
      PublishedIsCommitted(s, p);
    }
  }

  lemma UncommittedHasNoJob(s: System, r: Id, id: Id)
    requires SystemInv(s) && id in s.world.store.jobs
    requires r in s.desk.stagings ==> !s.desk.stagings[r].state.StagingCommitted?
    ensures s.world.store.jobs[id].dir != r
  {
    assert RecordOk(s, id);
  }

  lemma CommandKeepsRules(s: System, c: Command)
    requires SystemInv(s) && CommandGuard(s, c)
    ensures KeepsTheRules(s, Command(c))
  {
    if c.ResetRelease? {
      assert ResetOk(s.desk, c.rid) && StagedFilesOk(s, c.rid);
      forall id | id in s.world.store.jobs ensures s.world.store.jobs[id].dir != c.rid {
        UncommittedHasNoJob(s, c.rid, id);
      }
    }
  }

  lemma BeginKeepsRules(s: System, rid: Id, sid: SessionId)
    requires SystemInv(s) && DataGuard(s, rid, Begin(sid))
    ensures KeepsTheRules(s, Data(rid, Begin(sid)))
  {
    assert CallJobOk(s, rid) && StagedFilesOk(s, rid) && IdOk(s, rid) && ResetOk(s.desk, rid);
  }

  /** The files a call writes and rejects are its own, and the reservation it releases was never committed. */
  lemma FileStepKeepsRules(s: System, rid: Id, d: DataAct)
    requires SystemInv(s) && DataGuard(s, rid, d)
    requires d.Stage? || d.Write? || d.Reject? || d.Undo? || d.ReleaseStaging?
    ensures KeepsTheRules(s, Data(rid, d))
  {
    var open := s.world.store.reservations.Keys;
    assert CallOk(s.desk, open, rid) && CallJobOk(s, rid) && StagedFilesOk(s, rid);
    if d.Write? || d.Reject? {
      UncommittedIsUnpublished(s, rid, d.path);
    }
    forall id | id in s.world.store.jobs ensures s.world.store.jobs[id].dir != rid {
      UncommittedHasNoJob(s, rid, id);
    }
  }

  lemma CommitKeepsRules(s: System, rid: Id, order: seq<Id>)
    requires CallJobOk(s, rid) && StagedFilesOk(s, rid) && DataGuard(s, rid, CommitJob(order))
    ensures KeepsTheRules(s, Data(rid, CommitJob(order)))
  {
    hide EvictionOrder, DistinctDocs, DocsOnDisk, Booked;
  }

  lemma OtherDataStepKeepsRules(s: System, rid: Id, d: DataAct)
    requires CallJobOk(s, rid) && DataGuard(s, rid, d)
    requires d.Mkdir? || d.CheckClosed? || d.Handover? || d.Stat? || d.Enqueue? || d.DropJob? || d.Abort?
    ensures KeepsTheRules(s, Data(rid, d))
  {
  }

  lemma DataKeepsRules(s: System, rid: Id, d: DataAct)
    requires SystemInv(s) && DataGuard(s, rid, d)
    ensures KeepsTheRules(s, Data(rid, d))
  {
    assert CallJobOk(s, rid) && StagedFilesOk(s, rid);
    hide SystemInv, CallJobOk, StagedFilesOk, DataGuard, KeepsTheRules;
    match d
    case Begin(sid) => BeginKeepsRules(s, rid, sid);
    case CommitJob(order) => CommitKeepsRules(s, rid, order);
    case Stage(_) => FileStepKeepsRules(s, rid, d);
    case Write(_, _) => FileStepKeepsRules(s, rid, d);
    case Reject(_) => FileStepKeepsRules(s, rid, d);
    case Undo => FileStepKeepsRules(s, rid, d);
    case ReleaseStaging => FileStepKeepsRules(s, rid, d);
    case _ => OtherDataStepKeepsRules(s, rid, d);
  }

  // ---------- workers ----------

  /** A worker's output file belongs to its own job's directory, where nothing else is published. */
  lemma OutputIsUnpublished(s: System, id: Id, out: Path)
    requires SystemInv(s) && OutOk(s, id, out)
    ensures !Published(s.world, out)
  {
    if Published(s.world, out) {
      PublishedIsCommitted(s, out);
    }
  }

  lemma WritingKeepsRules(s: System, wid: WorkerId, ok: bool, size: nat)
    requires SystemInv(s) && WorkGuard(s, wid, RunOcr(ok, size))
    ensures KeepsTheRules(s, Work(wid, RunOcr(ok, size)))
  {
    assert WorkerOk(s, wid);
    OutputIsUnpublished(s, s.workers[wid].job.id, s.workers[wid].pc.out);
  }

  lemma TouchKeepsRules(s: System, wid: WorkerId, file: Option<Path>)
    requires WorkerOk(s, wid) && WorkGuard(s, wid, Touch(file))
    ensures KeepsTheRules(s, Work(wid, Touch(file)))
  {
  }

  lemma RegisterKeepsRules(s: System, wid: WorkerId)
    requires WorkerOk(s, wid) && WorkGuard(s, wid, RegisterOut)
    requires s.world.store.closed ==> s.world.store.jobs == map[]
    ensures KeepsTheRules(s, Work(wid, RegisterOut))
  {
  }

  lemma SwapKeepsRules(s: System, wid: WorkerId)
    requires WorkerOk(s, wid) && WorkGuard(s, wid, Swap)
    requires s.world.store.closed ==> s.world.store.jobs == map[]
    ensures KeepsTheRules(s, Work(wid, Swap))
  {
  }

  lemma EndingStepKeepsRules(s: System, wid: WorkerId, k: WorkAct)
    requires WorkerOk(s, wid) && WorkGuard(s, wid, k) && (k.Finish? || k.Fail?)
    requires s.world.store.closed ==> s.world.store.jobs == map[]
    ensures KeepsTheRules(s, Work(wid, k))
  {
    hide EvictionOrder, Settled, OutOk, OneAhead, OcrSoFar, OcrDone, CanSwap;
  }

  lemma StartKeepsRules(s: System, wid: WorkerId, k: WorkAct)
    requires WorkerOk(s, wid) && WorkGuard(s, wid, k) && (k.Start? || k.DeleteFailed?)
    requires s.world.store.closed ==> s.world.store.jobs == map[]
    ensures KeepsTheRules(s, Work(wid, k))
  {
    hide EvictionOrder, Settled, OutOk, OneAhead, OcrSoFar, OcrDone, CanSwap;
  }

  lemma WorkKeepsRules(s: System, wid: WorkerId, k: WorkAct)
    requires SystemInv(s) && WorkGuard(s, wid, k)
    ensures KeepsTheRules(s, Work(wid, k))
  {
    assert WorkerOk(s, wid);
    assert s.world.store.closed ==> s.world.store.jobs == map[];
    hide SystemInv, WorkerOk, WorkGuard, KeepsTheRules;
    match k
    case RunOcr(ok, size) => WritingKeepsRules(s, wid, ok, size);
    case Touch(file) => TouchKeepsRules(s, wid, file);
    case RegisterOut => RegisterKeepsRules(s, wid);
    case Swap => SwapKeepsRules(s, wid);
    case Start => StartKeepsRules(s, wid, k);
    case Finish(_) => EndingStepKeepsRules(s, wid, k);
    case Fail(_) => EndingStepKeepsRules(s, wid, k);
    case DeleteFailed => StartKeepsRules(s, wid, k);
    case _ => IdleStepKeepsRules(s, wid, k);
  }

  lemma IdleStepKeepsRules(s: System, wid: WorkerId, k: WorkAct)
    requires WorkGuard(s, wid, k) && WorkOp(s, wid, k) == None
    ensures KeepsTheRules(s, Work(wid, k))
  {
  }

  lemma EnvKeepsRules(s: System, e: EnvAct)
    requires SystemInv(s) && EnvGuard(s, e)
    ensures KeepsTheRules(s, Env(e))
  {
  }

  /** The client side of the contract, for every action in every state that satisfies the invariant. */
  lemma GuardedStepsKeepTheRules(s: System, a: Action)
    requires SystemInv(s) && Guard(s, a)
    ensures KeepsTheRules(s, a)
  {
    hide SystemInv, KeepsTheRules;
    match a
    case Command(c) => CommandKeepsRules(s, c);
    case Data(rid, d) => DataKeepsRules(s, rid, d);
    case Work(wid, k) => WorkKeepsRules(s, wid, k);
    case Env(e) => EnvKeepsRules(s, e);
  }
}
