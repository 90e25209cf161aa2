/** When a scan is removed early: by which steps, and exactly when. */
module GatewayEvictions {
  import opened JobTypes
  import opened Sums
  import opened JobStore
  import opened JobStoreBudget
  import opened DiskStore
  import opened SessionDesk
  import opened Gateway
  import opened GatewayInv
  import opened GatewayRuns
  import opened GatewaySettlement

  predicate IsEvicted(w: World, id: Id) {
    id in w.store.jobs && w.store.jobs[id].job.status == Evicted
  }

  lemma OnlyRoomMakingEvicts(w: World, op: Op, id: Id)
    requires Enabled(w, op) && IsEvicted(Apply(w, op), id)
    ensures IsEvicted(w, id) || op.Commit? || (op.SetStatus? && Finished(op.st))
  {
    hide MakeRoom, EvictedDirs, ReserveError, DocsOnDisk, DistinctDocs;
  }

  lemma WhoMakesRoom(s: System, a: Action)
    requires Guard(s, a) && OpOf(s, a).Some?
    requires OpOf(s, a).value.Commit? || (OpOf(s, a).value.SetStatus? && Finished(OpOf(s, a).value.st))
    ensures Commits(s, a) || (a.Work? && (a.k.Finish? || a.k.Fail?))
  {
    hide SortedFor, EvictionOrder, CanSwap;
  }

  /** A scan is removed early only by a commit that went through or by a worker finishing a job: a reservation, a
      reset, an abort, a message refused before its commit and a sweep never do it. */
  lemma OnlyBookedScansEvict(ss: seq<System>, acts: seq<Action>, i: nat, id: Id)
    requires IsRun(ss, acts) && i < |acts| && !IsEvicted(ss[i].world, id)
    ensures |ss| == |acts| + 1
    ensures IsEvicted(ss[i + 1].world, id) ==>
      Commits(ss[i], acts[i]) || (acts[i].Work? && (acts[i].k.Finish? || acts[i].k.Fail?))
  {
    hide IsRun, Follows, Commits, IsEvicted;
    EveryStepFollows(ss, acts, i);
    if IsEvicted(ss[i + 1].world, id) {
      EvictingStep(ss[i], acts[i], ss[i + 1], id);
    }
  }

  lemma EvictingStep(s: System, a: Action, s': System, id: Id)
    requires Follows(s, a, s') && !IsEvicted(s.world, id) && IsEvicted(s'.world, id)
    ensures Commits(s, a) || (a.Work? && (a.k.Finish? || a.k.Fail?))
  {
    hide SystemInv, Guard, LocalStep, NextDesk, OpOf, MoveOf, Commits, Enabled, Apply;
    if OpOf(s, a).Some? {
      OnlyRoomMakingEvicts(s.world, OpOf(s, a).value, id);
      WhoMakesRoom(s, a);
    }
  }

  // ---------- exactly when ----------

  /** A record is a tombstone now that was none before. */
  ghost predicate Evicts(w: World, w': World) {
    exists id :: IsEvicted(w', id) && !IsEvicted(w, id)
  }

  /** With what this step books or settles, committed jobs hold more than the store may. */
  ghost predicate Overfills(w: World, op: Op)
    requires Enabled(w, op)
  {
    match op
    case Commit(rid, job, files, _) => JobStore.Held(Booked(w.store, rid, job, files)) > w.store.maxBytes
    case SetStatus(id, st, msg, _) =>
      Finished(st) && JobStore.Held(Settled(w.store, id, st, msg, w.clock)) > w.store.maxBytes
    case _ => false
  }

  ghost predicate StepOverfills(s: System, a: Action) {
    KeepsTheRules(s, a) && OpOf(s, a).Some? && Overfills(s.world, OpOf(s, a).value)
  }

  /** Nothing goes from a store that fits; from one that does not, the oldest finished job does. */
  lemma OldestGoesFirst(s: State, order: seq<Id>)
    requires Accounted(s) && EvictionOrder(s.jobs, order) && Promised(s) + Unsettled(s) <= s.maxBytes
    ensures JobStore.Held(s) <= s.maxBytes ==> MakeRoom(s, order) == s
    ensures JobStore.Held(s) > s.maxBytes ==>
      && order != [] && order[0] in s.jobs && Finished(s.jobs[order[0]].job.status)
      && order[0] in MakeRoom(s, order).jobs && MakeRoom(s, order).jobs[order[0]].job.status == Evicted
  {
    hide Total;
    TotalNonNegative(ReservationCharges(s.reservations));
    EvictionIsLeast(s, order);
    CutFreesEnough(s, order);
    if Victims(s, order) == [] {
      assert Buried(s.jobs, []) == s.jobs;
    } else {
      assert Victims(s, order)[0] == order[0];
    }
  }

  lemma CommitEvictsIff(w: World, rid: Id, job: Job, files: set<Path>, order: seq<Id>)
    requires Valid(w.store) && CanCommit(w, rid, job, files, order)
    ensures Evicts(w, CommitStep(w, rid, job, files, order)) <==>
      JobStore.Held(Booked(w.store, rid, job, files)) > w.store.maxBytes
  {
    hide Total, EvictionOrder, Accounted, MakeRoom, DocsOnDisk, DistinctDocs, EvictedDirs;
    var booked := Booked(w.store, rid, job, files);
    BookedIsAccounted(w.store, rid, job, files);
    OldestGoesFirst(booked, order);
    if JobStore.Held(booked) > booked.maxBytes {
      assert IsEvicted(CommitStep(w, rid, job, files, order), order[0]) && !IsEvicted(w, order[0]);
    }
  }

  lemma SettleEvictsIff(w: World, id: Id, st: Status, msg: string, order: seq<Id>)
    requires Valid(w.store) && CanSetStatus(w, id, st, msg, order) && Finished(st)
    ensures Evicts(w, FinalStep(w, id, st, msg, order)) <==>
      JobStore.Held(Settled(w.store, id, st, msg, w.clock)) > w.store.maxBytes
  {
    hide Total, EvictionOrder, Accounted, MakeRoom, EvictedDirs, Leftovers;
    var settled := Settled(w.store, id, st, msg, w.clock);
    SettledIsAccounted(w.store, id, st, msg, w.clock);
    OldestGoesFirst(settled, order);
    if JobStore.Held(settled) > settled.maxBytes {
      assert IsEvicted(FinalStep(w, id, st, msg, order), order[0]) && !IsEvicted(w, order[0]);
    }
  }

  lemma StepEvictsIff(w: World, op: Op)
    requires Valid(w.store) && Enabled(w, op)
    ensures Evicts(w, Apply(w, op)) <==> Overfills(w, op)
  {
    hide Valid, CommitStep, FinalStep, CanCommit, CanSetStatus, IsEvicted, JobStore.Held;
    match op {
      case Commit(rid, job, files, order) => CommitEvictsIff(w, rid, job, files, order);
      case SetStatus(id, st, msg, order) =>
        if Finished(st) {
          SettleEvictsIff(w, id, st, msg, order);
        } else {
          QuietStep(w, op);
        }
      case _ => QuietStep(w, op);
    }
  }

  lemma QuietStep(w: World, op: Op)
    requires Enabled(w, op) && !op.Commit? && !(op.SetStatus? && Finished(op.st))
    ensures !Evicts(w, Apply(w, op))
  {
    hide Apply, Enabled, IsEvicted;
    forall id | IsEvicted(Apply(w, op), id) ensures IsEvicted(w, id) {
      OnlyRoomMakingEvicts(w, op, id);
    }
  }

  /** Whatever the step, in any interleaving: a scan is evicted exactly if a commit or a final status makes the committed
      jobs hold more than the budget. */
  lemma EvictionsAreExact(ss: seq<System>, acts: seq<Action>, i: nat)
    requires IsRun(ss, acts) && i < |acts|
    ensures |ss| == |acts| + 1 && (Evicts(ss[i].world, ss[i + 1].world) <==> StepOverfills(ss[i], acts[i]))
  {
    hide *;
    EveryStepFollows(ss, acts, i);
    FollowingEvictsIff(ss[i], acts[i], ss[i + 1]);
  }

  lemma FollowingEvictsIff(s: System, a: Action, s': System)
    requires Follows(s, a, s')
    ensures Evicts(s.world, s'.world) <==> StepOverfills(s, a)
  {
    hide Guard, LocalStep, NextDesk, OpOf, MoveOf, Enabled, Apply, Overfills, SessionDesk.Inv;
    hide CallJobOk, StagedFilesOk, QueueSlotOk, WorkerOk, RecordOk, IdOk, Valid, IsEvicted;
    if OpOf(s, a).Some? {
      StepEvictsIff(s.world, OpOf(s, a).value);
    }
  }

  // ---------- messages ----------

  lemma CommitOp(s: System, rid: Id, order: seq<Id>)
    requires Guard(s, Data(rid, CommitJob(order))) && CommitError(s.world.store, rid) == None
    ensures rid in s.desk.calls && s.desk.calls[rid].pc.Committing? && rid in s.desk.stagings
    ensures OpOf(s, Data(rid, CommitJob(order)))
         == Some(Op.Commit(rid, s.desk.calls[rid].pc.job, s.desk.stagings[rid].files, order))
  {
    hide EvictionOrder;
  }

  /** The call has to take its job back out and refuse the message. */
  predicate Refuses(s: System, rid: Id) {
    rid in s.desk.calls && s.desk.calls[rid].pc.Dropping?
  }

  lemma EnqueueRefuses(s: System, rid: Id, s': System)
    requires Follows(s, Data(rid, Enqueue), s')
    ensures Refuses(s', rid) <==> |s.queue| >= s.queueCap
  {
    hide SystemInv;
  }

  /** A commit evicts exactly if with the whole reservation on its job the committed jobs hold more than the budget -
      whether or not the message is going to be accepted. */
  lemma CommitsEvictExactly(ss: seq<System>, acts: seq<Action>, j: nat)
    requires IsRun(ss, acts) && j < |acts| && Commits(ss[j], acts[j])
    ensures var s := ss[j]; var rid := acts[j].rid;
      && |ss| == |acts| + 1 && rid in s.world.store.reservations
      && rid in s.desk.calls && s.desk.calls[rid].pc.Committing? && rid in s.desk.stagings
      && (Evicts(s.world, ss[j + 1].world) <==>
            JobStore.Held(Booked(s.world.store, rid, s.desk.calls[rid].pc.job, s.desk.stagings[rid].files))
              > ss[0].cfg.maxStoredBytes)
  {
    hide IsRun, Evicts, JobStore.Held, SystemInv, Next, Enabled, MoveOf, CanMove, OpOf, Guard;
    EvictionsAreExact(ss, acts, j);
    EveryStepFollows(ss, acts, j);
    ConfigIsFixed(ss, acts, j);
    CommitOp(ss[j], acts[j].rid, acts[j].d.order);
  }

  /** A message whose job is committed is refused exactly if the queue is full when its turn comes: what its commit has
      evicted by then plays no part in it. */
  lemma RefusedExactlyWhenFull(ss: seq<System>, acts: seq<Action>, j: nat, k: nat)
    requires IsRun(ss, acts) && j < k < |acts| && Commits(ss[j], acts[j]) && acts[k] == Data(acts[j].rid, Enqueue)
    ensures |ss| == |acts| + 1
    ensures var rid := acts[j].rid; var s := ss[j];
      && rid in s.desk.calls && s.desk.calls[rid].pc.Committing? && rid in s.desk.stagings
      && rid in s.world.store.reservations
      && (Refuses(ss[k + 1], rid) <==> |ss[k].queue| >= ss[k].queueCap)
      && (Evicts(s.world, ss[j + 1].world) && Refuses(ss[k + 1], rid) <==>
            && JobStore.Held(Booked(s.world.store, rid, s.desk.calls[rid].pc.job, s.desk.stagings[rid].files))
                 > ss[0].cfg.maxStoredBytes
            && |ss[k].queue| >= ss[k].queueCap)
  {
    hide IsRun, Evicts, Follows, Refuses, JobStore.Held, CommitError;
    CommitsEvictExactly(ss, acts, j);
    EveryStepFollows(ss, acts, k);
    EnqueueRefuses(ss[k], acts[j].rid, ss[k + 1]);
  }
}
