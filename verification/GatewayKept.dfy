/** Everyone but the actor of a step still has what they had. */
module GatewayKept {
  import opened JobTypes
  import opened JobStore
  import opened DiskStore
  import opened DiskStoreProofs
  import opened SessionDesk
  import opened Gateway
  import opened GatewayInv
  import opened GatewayRules
  import opened GatewayFrames
  import opened GatewayOthers

  /** Time passes for whoever holds job `id`: ids and names grow, the store may close, the job and its files stay. */
  ghost predicate Bystander(s: System, s': System, id: Id) {
    && s.world.issued <= s'.world.issued && s.world.names <= s'.world.names
    && (s.world.store.closed ==> s'.world.store.closed)
    && (s'.world.store.closed ==> s'.world.store.jobs == map[])
    && (id in s.world.store.jobs && Unfinished(s.world.store.jobs[id].job.status) ==>
          Undisturbed(s.world, s'.world, id))
    && (Over(s, id) ==> Over(s', id))
  }

  lemma EmptyWhenClosed(s: System)
    requires Valid(s.world.store)
    ensures s.world.store.closed ==> s.world.store.jobs == map[]
  {
  }

  lemma BystandersAreSafe(s: System, a: Action, id: Id)
    requires SystemInv(s) && KeepsTheRules(s, a) && id in s.owner && !ActsFor(a, s.owner[id])
    ensures Bystander(s, Next(s, a), id)
  {
    assert DiskStore.Inv(s.world);
    if OpOf(s, a).Some? {
      StepKeepsInv(s.world, OpOf(s, a).value);
      WorldGrows(s.world, OpOf(s, a).value);
    }
    assert Valid(NextWorld(s, a).store);
    if id in s.world.store.jobs && Unfinished(s.world.store.jobs[id].job.status) {
      UnfinishedJobsAreUndisturbed(s, a, id);
    }
    if Over(s, id) {
      OverStaysOver(s, a, id);
    }
  }

  lemma HandsStayFull(s: System, s': System, job: Job, st: Status)
    requires Bystander(s, s', job.id) && InHand(s, job, st) && Unfinished(st)
    ensures InHand(s', job, st)
  {
  }

  lemma OutputPersists(s: System, s': System, job: Job, out: Path)
    requires Bystander(s, s', job.id) && InHand(s, job, Processing) && OutOk(s, job.id, out)
    ensures OutOk(s', job.id, out)
    ensures OutRegistered(s, job.id, out) ==> OutRegistered(s', job.id, out)
    ensures !s'.world.store.closed ==> out in s.world.disk && s'.world.disk[out] == s.world.disk[out]
  {
  }

  /** What a worker knows stays true while others act. */
  lemma WorkerPersists(s: System, s': System, wk: Worker)
    requires Bystander(s, s', wk.job.id) && WorkerPcOk(s, wk)
    ensures WorkerPcOk(s', wk)
  {
    hide OutOk;
    match wk.pc
    case OcrRegister(i, out) => OutputPersists(s, s', wk.job, out);
    case OcrRun(i, out) => OutputPersists(s, s', wk.job, out);
    case OcrLstat(i, out) => OutputPersists(s, s', wk.job, out);
    case OcrSwap(i, out, size) => OutputPersists(s, s', wk.job, out);
    case _ =>
  }

  lemma OtherWorkersAreKept(s: System, a: Action, wid: WorkerId)
    requires SystemInv(s) && KeepsTheRules(s, a) && !(a.Work? && a.wid == wid)
    ensures WorkerOk(Next(s, a), wid)
  {
    assert WorkerOk(s, wid);
    assert a.Work? ==> WorkerOk(s, a.wid);
    if wid in s.workers {
      var id := s.workers[wid].job.id;
      assert IdOk(s, id);
      assert a.Data? ==> CallJobOk(s, a.rid);
      assert a.Work? && a.k.Take? ==> QueueSlotOk(s, 0);
      OwnersStay(s, a, id);
      BystandersAreSafe(s, a, id);
      WorkerPersists(s, Next(s, a), s.workers[wid]);
    }
    hide SystemInv, WorkerPcOk;
    WorkersStay(s, a, wid);
  }

  lemma DataLeavesWorkers(s: System, rid: Id, d: DataAct)
    requires DataGuard(s, rid, d)
    ensures DataStep(s, rid, d).workers == s.workers
  {
  }

  lemma WorkLeavesOtherWorkers(s: System, wid: WorkerId, k: WorkAct, x: WorkerId)
    requires WorkGuard(s, wid, k) && x != wid
    ensures var ws := WorkStep(s, wid, k).workers; (x in ws <==> x in s.workers) && (x in ws ==> ws[x] == s.workers[x])
  {
    hide SortedFor, CanSwap;
  }

  lemma WorkersStay(s: System, a: Action, wid: WorkerId)
    requires Guard(s, a) && !(a.Work? && a.wid == wid)
    ensures wid in LocalStep(s, a).workers <==> wid in s.workers
    ensures wid in s.workers ==> LocalStep(s, a).workers[wid] == s.workers[wid]
  {
    hide DataGuard, DataStep, WorkGuard, WorkStep;
    match a
    case Data(rid, d) => DataLeavesWorkers(s, rid, d);
    case Work(w, k) => WorkLeavesOtherWorkers(s, w, k, wid);
    case _ =>
  }
}
