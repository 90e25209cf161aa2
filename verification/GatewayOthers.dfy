/** What everyone but the actor of a step can rely on. */
module GatewayOthers {
  import opened JobTypes
  import opened JobStore
  import opened DiskStore
  import opened DiskStoreProofs
  import opened SessionDesk
  import opened Gateway
  import opened GatewayInv
  import opened GatewayRules
  import opened GatewayFrames

  /** The step's operation on the store is not one on this job, and not one in its directory. */
  ghost predicate Spares(s: System, a: Action, id: Id)
    requires KeepsTheRules(s, a) && id in s.world.store.jobs
  {
    OpOf(s, a).Some? ==>
      !OwnJob(OpOf(s, a).value, id) && !OwnDir(OpOf(s, a).value, s.world.store.jobs[id].dir)
  }

  lemma StagingSparesJobs(s: System, rid: Id, d: DataAct, id: Id)
    requires SystemInv(s) && KeepsTheRules(s, Data(rid, d)) && id in s.world.store.jobs && (d.Write? || d.Reject?)
    ensures Spares(s, Data(rid, d), id)
  {
    assert StagedFilesOk(s, rid) && CallOk(s.desk, s.world.store.reservations.Keys, rid);
    UncommittedHasNoJob(s, rid, id);
  }

  lemma DataSparesOthers(s: System, rid: Id, d: DataAct, id: Id)
    requires CallJobOk(s, rid) && KeepsTheRules(s, Data(rid, d)) && id in s.world.store.jobs
    requires !OwnedBy(s, id, BySession(rid)) && !d.Write? && !d.Reject?
    ensures Spares(s, Data(rid, d), id)
  {
  }

  lemma BackgroundSparesAll(s: System, a: Action, id: Id)
    requires KeepsTheRules(s, a) && id in s.world.store.jobs && (a.Command? || a.Env?)
    ensures Spares(s, a, id)
  {
  }

  lemma WorkSparesOthers(s: System, wid: WorkerId, k: WorkAct, id: Id)
    requires WorkerOk(s, wid) && DirsInv(s.world) && (s.world.store.closed ==> s.world.store.jobs == map[])
    requires KeepsTheRules(s, Work(wid, k)) && id in s.world.store.jobs
    requires !OwnedBy(s, id, ByWorker(wid))
    ensures Spares(s, Work(wid, k), id)
  {
  }

  lemma OthersAreSpared(s: System, a: Action, id: Id)
    requires SystemInv(s) && KeepsTheRules(s, a) && id in s.world.store.jobs
    requires id in s.owner ==> !ActsFor(a, s.owner[id])
    ensures Spares(s, a, id)
  {
    assert a.Data? ==> CallJobOk(s, a.rid);
    assert a.Work? ==> WorkerOk(s, a.wid);
    assert DirsInv(s.world) && (s.world.store.closed ==> s.world.store.jobs == map[]);
    hide DirsInv, SystemInv, KeepsTheRules, Spares;
    match a
    case Data(rid, d) =>
      if d.Write? || d.Reject? {
        StagingSparesJobs(s, rid, d, id);
      } else {
        DataSparesOthers(s, rid, d, id);
      }
    case Work(wid, k) => WorkSparesOthers(s, wid, k, id);
    case _ => BackgroundSparesAll(s, a, id);
  }

  /** From commit until its own worker finishes it, nobody else's step touches a job's record or its files. */
  lemma UnfinishedJobsAreUndisturbed(s: System, a: Action, id: Id)
    requires SystemInv(s) && KeepsTheRules(s, a)
    requires id in s.world.store.jobs && Unfinished(s.world.store.jobs[id].job.status)
    requires id in s.owner ==> !ActsFor(a, s.owner[id])
    ensures Undisturbed(s.world, NextWorld(s, a), id)
  {
    OthersAreSpared(s, a, id);
    assert DiskStore.Inv(s.world);
    hide SystemInv, DiskStore.Inv, Guard, Enabled;
    if OpOf(s, a).Some? {
      OthersDoNotDisturb(s.world, OpOf(s, a).value, id);
    }
  }

  /** A job that is over, or gone, does not come back to life under the same id. */
  lemma OverStaysOver(s: System, a: Action, id: Id)
    requires SystemInv(s) && KeepsTheRules(s, a) && Over(s, id) && id in s.owner && !ActsFor(a, s.owner[id])
    ensures Over(Next(s, a), id)
  {
    if a.Data? {
      assert CallJobOk(s, a.rid);
    }
    if OpOf(s, a).Some? {
      NoRevival(s.world, OpOf(s, a).value, id);
    }
  }

  lemma NoRevival(w: World, op: Op, id: Id)
    requires Enabled(w, op) && (id in w.store.jobs ==> !Unfinished(w.store.jobs[id].job.status))
    requires op.Commit? ==> op.job.id != id
    ensures var w' := Apply(w, op); id in w'.store.jobs ==> !Unfinished(w'.store.jobs[id].job.status)
  {
  }
}
