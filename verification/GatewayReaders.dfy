/** How long a finished scan can be fetched. */
module GatewayReaders {
  import opened JobTypes
  import opened JobStore
  import opened JobStoreReaders
  import opened DiskStore
  import DiskStoreProofs
  import opened Gateway
  import opened GatewayInv
  import opened GatewayFrames
  import opened GatewayOthers
  import opened GatewayRuns
  import opened GatewayService

  lemma ClockGoesForward(s: System, a: Action, s': System)
    requires Follows(s, a, s')
    ensures s.world.clock <= s'.world.clock && (s.world.store.closed ==> s'.world.store.closed)
  {
    hide SystemInv, Guard, LocalStep, NextDesk, OpOf, MoveOf;
    if OpOf(s, a).Some? {
      ClockOnlyTicks(s.world, OpOf(s, a).value);
      WorldGrows(s.world, OpOf(s, a).value);
    }
  }

  lemma ClockOnlyTicks(w: World, op: Op)
    requires Enabled(w, op)
    ensures w.clock <= Apply(w, op).clock
  {
  }

  /** Still there under the same deadline: as it was, or evicted. */
  predicate Lasts(w: World, w': World, id: Id) {
    id in w.store.jobs ==>
      && id in w'.store.jobs
      && w'.store.jobs[id].job.expiresAt == w.store.jobs[id].job.expiresAt
      && !Unfinished(w'.store.jobs[id].job.status)
      && (w'.store.jobs[id] == w.store.jobs[id] || w'.store.jobs[id].job.status == Evicted)
  }

  lemma StepLasts(s: System, a: Action, s': System, id: Id)
    requires Follows(s, a, s') && !OwnersStep(s, a, id) && !s'.world.store.closed
    requires id in s.world.store.jobs && !Unfinished(s.world.store.jobs[id].job.status)
    requires s'.world.clock < s.world.store.jobs[id].job.expiresAt
    ensures Lasts(s.world, s'.world, id)
  {
    hide SystemInv, Guard, LocalStep, NextDesk, OpOf, MoveOf, Apply, Enabled;
    OthersAreSpared(s, a, id);
    if OpOf(s, a).Some? {
      NotEnding(s.world, OpOf(s, a).value, id);
      OverKeepsItsDeadline(s.world, OpOf(s, a).value, id);
    }
  }

  lemma NotEnding(w: World, op: Op, id: Id)
    requires Enabled(w, op) && id in w.store.jobs && !DiskStoreProofs.OwnJob(op, id) && !Apply(w, op).store.closed
    requires Apply(w, op).clock < w.store.jobs[id].job.expiresAt
    ensures !Ends(op, id, w.store.jobs[id].job.expiresAt)
  {
  }

  /** A scan that is ready or failed can be fetched until its deadline: nobody but its own worker removes the record
      before that, and the only thing that can happen to it is eviction, which readers are told about - in any
      interleaving, as long as the store is open. */
  lemma {:induction false} FinishedScansLast(ss: seq<System>, acts: seq<Action>, i: nat, j: nat, id: Id)
    requires IsRun(ss, acts) && i <= j < |ss| && !ss[j].world.store.closed
    requires id in ss[i].world.store.jobs && !Unfinished(ss[i].world.store.jobs[id].job.status)
    requires ss[j].world.clock < ss[i].world.store.jobs[id].job.expiresAt
    requires forall k :: i <= k < j ==> !OwnersStep(ss[k], acts[k], id)
    ensures Lasts(ss[i].world, ss[j].world, id)
    ensures Get(ss[j].world.store, id, ss[j].world.clock).Some?
    decreases j
  {
    hide IsRun, Follows, OwnersStep, Lasts;
    RunLength(ss, acts);
    if i == j {
      LastsAtOnce(ss[i].world, id);
    } else {
      EveryStepFollows(ss, acts, j - 1);
      ClockGoesForward(ss[j - 1], acts[j - 1], ss[j]);
      FinishedScansLast(ss, acts, i, j - 1, id);
      LastsFacts(ss[i].world, ss[j - 1].world, id);
      StepLasts(ss[j - 1], acts[j - 1], ss[j], id);
      LastsInTurn(ss[i].world, ss[j - 1].world, ss[j].world, id);
      LastsFacts(ss[i].world, ss[j].world, id);
    }
  }

  lemma LastsAtOnce(w: World, id: Id)
    requires id in w.store.jobs && !Unfinished(w.store.jobs[id].job.status)
    ensures Lasts(w, w, id)
  {
  }

  lemma LastsFacts(u: World, w: World, id: Id)
    requires Lasts(u, w, id) && id in u.store.jobs
    ensures id in w.store.jobs && !Unfinished(w.store.jobs[id].job.status)
    ensures w.store.jobs[id].job.expiresAt == u.store.jobs[id].job.expiresAt
  {
  }

  lemma LastsInTurn(u: World, v: World, w: World, id: Id)
    requires Lasts(u, v, id) && Lasts(v, w, id) && id in u.store.jobs
    ensures Lasts(u, w, id)
  {
  }

  /** A job's download window starts when it reaches its final state, not when it arrived. */
  lemma FinishingStartsTheWindow(w: World, id: Id, st: Status, msg: string, order: seq<Id>)
    requires CanSetStatus(w, id, st, msg, order) && Finished(st)
    ensures var jobs := FinalStep(w, id, st, msg, order).store.jobs;
      id in jobs && jobs[id].job.expiresAt == w.clock + w.store.ttl && !Unfinished(jobs[id].job.status)
  {
    MakingRoomKeepsDeadlines(Settled(w.store, id, st, msg, w.clock), order, id);
  }
}
