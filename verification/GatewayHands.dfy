/** Jobs change hands - session, queue, worker - and are never dropped on the way. */
module GatewayHands {
  import opened JobTypes
  import opened JobStore
  import opened JobStoreBudget
  import opened DiskStore
  import opened DiskStoreProofs
  import opened SessionDesk
  import opened Gateway
  import opened GatewayInv
  import opened GatewayRules
  import opened GatewayFrames
  import opened GatewayOthers
  import opened GatewayKept

  // ---------- the queue ----------

  lemma QueuedJobIsKept(s: System, a: Action, i: nat)
    requires SystemInv(s) && KeepsTheRules(s, a) && i < |s.queue|
    requires a.Work? && a.k.Take? ==> i != 0
    ensures var job := s.queue[i]; var s' := Next(s, a);
      OwnedBy(s', job.id, Queued) && Unprocessed(job) && InHand(s', job, Pending)
  {
    var job := s.queue[i];
    assert QueueSlotOk(s, i) && IdOk(s, job.id);
    assert a.Data? ==> CallJobOk(s, a.rid);
    assert a.Work? ==> WorkerOk(s, a.wid);
    OwnersStay(s, a, job.id);
    BystandersAreSafe(s, a, job.id);
    HandsStayFull(s, Next(s, a), job, Pending);
  }

  lemma WorkQueueAfter(s: System, wid: WorkerId, k: WorkAct)
    requires WorkGuard(s, wid, k)
    ensures WorkStep(s, wid, k).queue == if k.Take? then s.queue[1..] else s.queue
  {
    hide SortedFor, CanSwap;
  }

  lemma DataQueueAfter(s: System, rid: Id, d: DataAct)
    requires DataGuard(s, rid, d)
    ensures DataStep(s, rid, d).queue
         == if d.Enqueue? && |s.queue| < s.queueCap then s.queue + [s.desk.calls[rid].pc.job] else s.queue
  {
    hide FreshIds, EvictionOrder;
  }

  lemma QueueAfter(s: System, a: Action)
    requires Guard(s, a)
    ensures LocalStep(s, a).queue ==
      if a.Work? && a.k.Take? then s.queue[1..]
      else if a.Data? && a.d.Enqueue? && |s.queue| < s.queueCap then s.queue + [s.desk.calls[a.rid].pc.job]
      else s.queue
  {
    if a.Data? {
      DataQueueAfter(s, a.rid, a.d);
    }
    if a.Work? {
      WorkQueueAfter(s, a.wid, a.k);
    }
    hide WorkGuard, WorkStep, DataStep;
  }

  lemma EnqueuedJob(s: System, rid: Id)
    requires SystemInv(s) && KeepsTheRules(s, Data(rid, Enqueue)) && |s.queue| < s.queueCap
    ensures var job := s.desk.calls[rid].pc.job; var s' := Next(s, Data(rid, Enqueue));
      && OwnedBy(s', job.id, Queued) && Unprocessed(job) && InHand(s', job, Pending)
      && forall j :: 0 <= j < |s.queue| ==> s.queue[j].id != job.id
  {
    assert CallJobOk(s, rid);
    forall j | 0 <= j < |s.queue| ensures s.queue[j].id != s.desk.calls[rid].pc.job.id {
      assert QueueSlotOk(s, j);
    }
  }

  lemma QueueIsKept(s: System, a: Action, i: nat)
    requires SystemInv(s) && KeepsTheRules(s, a)
    ensures QueueSlotOk(Next(s, a), i)
  {
    var s' := Next(s, a);
    QueueAfter(s, a);
    if i < |s'.queue| {
      var k := if a.Work? && a.k.Take? then i + 1 else i;
      if k < |s.queue| {
        assert QueueSlotOk(s, k);
        QueuedJobIsKept(s, a, k);
      } else {
        EnqueuedJob(s, a.rid);
      }
      forall j | 0 <= j < i ensures s'.queue[j].id != s'.queue[i].id {
        if k < |s.queue| {
          assert QueueSlotOk(s, k);
        }
      }
    }
  }

  // ---------- calls ----------

  lemma OtherCallsAreKept(s: System, a: Action, r: Id)
    requires SystemInv(s) && KeepsTheRules(s, a) && !(a.Data? && a.rid == r)
    ensures r in Next(s, a).desk.calls <==> r in s.desk.calls
    ensures r in s.desk.calls ==> Next(s, a).desk.calls[r] == s.desk.calls[r]
  {
    if MoveOf(s, a).Some? {
      OtherCallsStay(s.desk, s.world.store.reservations.Keys, MoveOf(s, a).value, r);
    }
  }

  lemma StagingDirIsKept(s: System, a: Action, r: Id)
    requires SystemInv(s) && KeepsTheRules(s, a) && !(a.Data? && a.rid == r)
    requires r in s.world.store.reservations && r in NextWorld(s, a).store.reservations
    ensures DirUndisturbed(s.world, NextWorld(s, a), r)
  {
    if OpOf(s, a).Some? {
      var op := OpOf(s, a).value;
      assert InUse(s.world.store, r) && InUse(Apply(s.world, op).store, r);
      OthersStayOutOf(s, a, r);
      OthersDoNotDisturbDir(s.world, op, r);
    }
  }

  ghost predicate StaysOutOf(s: System, a: Action, r: Id)
    requires KeepsTheRules(s, a)
  {
    OpOf(s, a).Some? ==>
      && !OwnDir(OpOf(s, a).value, r)
      && forall id :: id in s.world.store.jobs && OwnJob(OpOf(s, a).value, id) ==> s.world.store.jobs[id].dir != r
  }

  lemma WorkStaysOutOf(s: System, wid: WorkerId, k: WorkAct, r: Id)
    requires WorkerOk(s, wid) && DirsInv(s.world) && KeepsTheRules(s, Work(wid, k))
    requires r in s.world.store.reservations && !s.world.store.closed
    ensures StaysOutOf(s, Work(wid, k), r)
  {
  }

  lemma DataStaysOutOf(s: System, rid: Id, d: DataAct, r: Id)
    requires StagedFilesOk(s, rid) && DirsInv(s.world) && KeepsTheRules(s, Data(rid, d)) && rid != r
    requires r in s.world.store.reservations
    ensures StaysOutOf(s, Data(rid, d), r)
  {
  }

  lemma BackgroundStaysOutOf(s: System, a: Action, r: Id)
    requires KeepsTheRules(s, a) && (a.Command? || a.Env?)
    ensures StaysOutOf(s, a, r)
  {
  }

  lemma OthersStayOutOf(s: System, a: Action, r: Id)
    requires SystemInv(s) && KeepsTheRules(s, a) && !(a.Data? && a.rid == r)
    requires r in s.world.store.reservations
    ensures StaysOutOf(s, a, r)
  {
    assert DirsInv(s.world) && !s.world.store.closed;
    assert a.Data? ==> StagedFilesOk(s, a.rid);
    assert a.Work? ==> WorkerOk(s, a.wid);
    hide SystemInv, KeepsTheRules, StaysOutOf, DirsInv;
    match a
    case Data(rid, d) => DataStaysOutOf(s, rid, d, r);
    case Work(wid, k) => WorkStaysOutOf(s, wid, k, r);
    case _ => BackgroundStaysOutOf(s, a, r);
  }

  lemma CommittingCallIsKept(s: System, a: Action, r: Id)
    requires SystemInv(s) && KeepsTheRules(s, a) && !(a.Data? && a.rid == r)
    requires r in s.desk.calls && s.desk.calls[r].pc.Committing?
    ensures ReadyToCommit(Next(s, a), r, s.desk.calls[r].pc.job)
  {
    var job := s.desk.calls[r].pc.job;
    var s' := Next(s, a);
    assert CallJobOk(s, r);
    JobIdStaysUnused(s, a, job.id);
    if r in s'.world.store.reservations {
      StillReserved(s, a, r);
      StagingDirIsKept(s, a, r);
      FilesOfOthersStay(s, a, r);
    }
  }

  lemma JobIdStaysUnused(s: System, a: Action, id: Id)
    requires SystemInv(s) && KeepsTheRules(s, a)
    requires id !in s.world.store.jobs && id in s.world.issued && id in s.owner && !ActsFor(a, s.owner[id])
    ensures id !in NextWorld(s, a).store.jobs && id in NextWorld(s, a).issued
  {
    assert a.Data? ==> CallJobOk(s, a.rid);
    hide SystemInv, CallJobOk, Enabled, Apply, OpOf, MoveOf, CanMove, Guard;
    IssuedGrows(s, a);
    if OpOf(s, a).Some? {
      if OpOf(s, a).value.Commit? {
        NotItsCommit(s, a, id);
      }
      NoNewRecord(s.world, OpOf(s, a).value, id);
    }
  }

  lemma IssuedGrows(s: System, a: Action)
    requires KeepsTheRules(s, a)
    ensures s.world.issued <= NextWorld(s, a).issued
  {
    hide Enabled, Apply, OpOf, MoveOf, CanMove;
    if OpOf(s, a).Some? {
      WorldGrows(s.world, OpOf(s, a).value);
    }
  }

  lemma NotItsCommit(s: System, a: Action, id: Id)
    requires KeepsTheRules(s, a) && id in s.owner && !ActsFor(a, s.owner[id])
    requires a.Data? ==> CallJobOk(s, a.rid)
    requires OpOf(s, a).Some? && OpOf(s, a).value.Commit?
    ensures OpOf(s, a).value.job.id != id
  {
    hide Enabled, CanMove, SortedFor, EvictionOrder, ReadyToCommit, InHand;
  }

  lemma NoNewRecord(w: World, op: Op, id: Id)
    requires Enabled(w, op) && id !in w.store.jobs && (op.Commit? ==> op.job.id != id)
    ensures id !in Apply(w, op).store.jobs
  {
  }

  lemma StillReserved(s: System, a: Action, r: Id)
    requires KeepsTheRules(s, a) && r in s.world.issued && r in NextWorld(s, a).store.reservations
    ensures r in s.world.store.reservations
  {
    if OpOf(s, a).Some? {
      ReservationsAfter(s.world, OpOf(s, a).value);
    }
  }

  lemma FilesOfOthersStay(s: System, a: Action, r: Id)
    requires KeepsTheRules(s, a) && !(a.Data? && a.rid == r)
    ensures r in s.desk.stagings <==> r in NextDesk(s, a).stagings
    ensures r in s.desk.stagings ==> NextDesk(s, a).stagings[r].files == s.desk.stagings[r].files
  {
    if MoveOf(s, a).Some? {
      OtherFilesStay(s.desk, s.world.store.reservations.Keys, MoveOf(s, a).value, r);
    }
  }

  lemma OwnersStayInNext(s: System, a: Action, id: Id)
    requires SystemInv(s) && KeepsTheRules(s, a) && id in s.owner && !ActsFor(a, s.owner[id])
    requires a.Work? && a.k.Take? ==> !s.owner[id].Queued?
    ensures id in Next(s, a).owner && Next(s, a).owner[id] == s.owner[id]
  {
    assert IdOk(s, id);
    assert a.Data? ==> CallJobOk(s, a.rid);
    assert a.Work? ==> WorkerOk(s, a.wid);
    assert a.Work? && a.k.Take? ==> QueueSlotOk(s, 0);
    OwnersStay(s, a, id);
  }

  lemma OtherCallJobIsKept(s: System, a: Action, r: Id)
    requires SystemInv(s) && KeepsTheRules(s, a) && !(a.Data? && a.rid == r)
    ensures CallJobOk(Next(s, a), r)
  {
    assert CallJobOk(s, r);
    OtherCallsAreKept(s, a, r);
    if r in s.desk.calls {
      if OpOf(s, a).Some? {
        WorldGrows(s.world, OpOf(s, a).value);
      }
      var pc := s.desk.calls[r].pc;
      match pc
      case Committing(job) =>
        OwnersStayInNext(s, a, job.id);
        CommittingCallIsKept(s, a, r);
      case Enqueuing(job) =>
        OwnersStayInNext(s, a, job.id);
        BystandersAreSafe(s, a, job.id);
        HandsStayFull(s, Next(s, a), job, Pending);
      case Dropping(job) =>
        OwnersStayInNext(s, a, job.id);
        BystandersAreSafe(s, a, job.id);
        HandsStayFull(s, Next(s, a), job, Pending);
      case _ =>
    }
  }

  // ---------- the call that acts ----------

  /** What Lstat saw is what Commit books, because nobody can reach into a staging that is still reserved. */
  lemma StattedJobIsReady(s: System, rid: Id, jobId: Id, docIds: seq<Id>)
    requires SystemInv(s) && KeepsTheRules(s, Data(rid, Stat(jobId, docIds)))
    requires Statable(s.world, s.desk.stagings[rid], s.desk.calls[rid].pc.docs)
    ensures ReadyToCommit(Next(s, Data(rid, Stat(jobId, docIds))), rid, StagedJob(s.world, s.desk.calls[rid], jobId, docIds))
  {
    assert CallJobOk(s, rid) && StagedFilesOk(s, rid);
    assert DirsInv(s.world) && IdsInv(s.world);
    assert s.world.store.closed ==> s.world.store.reservations == map[];
  }

  /** Making room for a job cannot take the job itself: it is still pending. */
  lemma BookedWhole(w: World, rid: Id, job: Job, files: set<Path>, order: seq<Id>)
    requires CanCommit(w, rid, job, files, order)
    ensures var store := CommitStep(w, rid, job, files, order).store;
      && rid in w.store.reservations && rid !in store.reservations && job.id !in w.store.jobs
      && job.id in store.jobs && store.jobs[job.id] == Record(job, rid, w.store.reservations[rid].bytes, files)
  {
    EvictionTouchesOnlyVictims(Booked(w.store, rid, job, files), order);
  }

  lemma CommitIsAllowed(s: System, rid: Id, order: seq<Id>)
    requires KeepsTheRules(s, Data(rid, CommitJob(order))) && CommitError(s.world.store, rid) == None
    ensures rid in s.desk.calls && s.desk.calls[rid].pc.Committing? && rid in s.desk.stagings
    ensures var job := s.desk.calls[rid].pc.job; var files := s.desk.stagings[rid].files;
      CanCommit(s.world, rid, job, files, order)
      && NextWorld(s, Data(rid, CommitJob(order))) == CommitStep(s.world, rid, job, files, order)
  {
    hide EvictionOrder, DocsOnDisk, DistinctDocs, CommitStep;
  }

  /** A job just committed is pending, so making room for it cannot take it. */
  lemma CommittedJobIsInHand(s: System, rid: Id, order: seq<Id>)
    requires KeepsTheRules(s, Data(rid, CommitJob(order))) && CommitError(s.world.store, rid) == None
    requires rid in s.desk.calls && s.desk.calls[rid].pc.Committing? && Unprocessed(s.desk.calls[rid].pc.job)
    ensures InHand(Next(s, Data(rid, CommitJob(order))), s.desk.calls[rid].pc.job, Pending)
  {
    hide KeepsTheRules, LocalStep, NextWorld, NextDesk, CanCommit, CommitStep;
    CommitIsAllowed(s, rid, order);
    BookedWhole(s.world, rid, s.desk.calls[rid].pc.job, s.desk.stagings[rid].files, order);
  }

  lemma QuietDataStep(s: System, rid: Id, d: DataAct)
    requires CallJobOk(s, rid) && KeepsTheRules(s, Data(rid, d))
    requires d.Begin? || d.Mkdir? || d.CheckClosed? || d.Handover? || d.Stage? || d.Write? || d.Reject?
    ensures CallJobOk(Next(s, Data(rid, d)), rid)
  {
    hide EvictionOrder, FreshIds, ReadyToCommit;
  }

  lemma ReturningDataStep(s: System, rid: Id, d: DataAct)
    requires CallJobOk(s, rid) && KeepsTheRules(s, Data(rid, d))
    requires d.Undo? || d.Enqueue? || d.DropJob? || d.Abort? || d.ReleaseStaging?
    ensures CallJobOk(Next(s, Data(rid, d)), rid)
  {
    hide EvictionOrder, FreshIds, ReadyToCommit;
  }

  lemma StatDataStep(s: System, rid: Id, jobId: Id, docIds: seq<Id>)
    requires SystemInv(s) && KeepsTheRules(s, Data(rid, Stat(jobId, docIds)))
    ensures CallJobOk(Next(s, Data(rid, Stat(jobId, docIds))), rid)
  {
    assert CallJobOk(s, rid);
    if Statable(s.world, s.desk.stagings[rid], s.desk.calls[rid].pc.docs) {
      StattedJobIsReady(s, rid, jobId, docIds);
    }
    hide SystemInv, ReadyToCommit;
  }

  lemma AtCommit(s: System, rid: Id, order: seq<Id>)
    requires CallJobOk(s, rid) && KeepsTheRules(s, Data(rid, CommitJob(order)))
    ensures rid in s.world.issued && rid in s.desk.calls && s.desk.calls[rid].pc.Committing?
    ensures var job := s.desk.calls[rid].pc.job; OwnedBy(s, job.id, BySession(rid)) && Unprocessed(job)
    ensures var k' := NextDesk(s, Data(rid, CommitJob(order)));
      rid in k'.calls && k'.calls[rid].pc
        == if CommitError(s.world.store, rid) == None then Enqueuing(s.desk.calls[rid].pc.job) else Aborting
    ensures CommitError(s.world.store, rid) == None ==> LocalStep(s, Data(rid, CommitJob(order))) == s
  {
    hide EvictionOrder, Enabled, ReadyToCommit;
  }

  lemma CommitDataStep(s: System, rid: Id, order: seq<Id>)
    requires CallJobOk(s, rid) && KeepsTheRules(s, Data(rid, CommitJob(order)))
    requires s.world.issued <= NextWorld(s, Data(rid, CommitJob(order))).issued
    ensures CallJobOk(Next(s, Data(rid, CommitJob(order))), rid)
  {
    hide KeepsTheRules, LocalStep, NextWorld, NextDesk, InHand;
    AtCommit(s, rid, order);
    if CommitError(s.world.store, rid) == None {
      CommittedJobIsInHand(s, rid, order);
    }
    hide CommitError;
  }

  lemma OwnCallJobIsKept(s: System, rid: Id, d: DataAct)
    requires SystemInv(s) && KeepsTheRules(s, Data(rid, d))
    ensures CallJobOk(Next(s, Data(rid, d)), rid)
  {
    assert CallJobOk(s, rid);
    hide SystemInv, CallJobOk, KeepsTheRules;
    match d
    case Stat(jobId, docIds) => StatDataStep(s, rid, jobId, docIds);
    case CommitJob(order) =>
      IssuedGrows(s, Data(rid, d));
      CommitDataStep(s, rid, order);
    case Undo => ReturningDataStep(s, rid, d);
    case Enqueue => ReturningDataStep(s, rid, d);
    case DropJob => ReturningDataStep(s, rid, d);
    case Abort => ReturningDataStep(s, rid, d);
    case ReleaseStaging => ReturningDataStep(s, rid, d);
    case _ => QuietDataStep(s, rid, d);
  }
}
