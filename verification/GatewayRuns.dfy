/** Every reachable state satisfies the invariant, and what that means for whole runs. */
module GatewayRuns {
  import opened JobTypes
  import opened JobStore
  import opened JobStoreBudget
  import opened DiskStore
  import opened DiskStoreProofs
  import opened SessionDesk
  import opened Gateway
  import opened GatewayInv
  import opened GatewayRules
  import opened GatewayFrames
  import opened GatewayKept
  import opened GatewayHands
  import opened GatewayWork
  import opened GatewayRecords

  lemma WorldKeepsInv(s: System, a: Action)
    requires SystemInv(s) && KeepsTheRules(s, a)
    ensures DiskStore.Inv(NextWorld(s, a))
  {
    if OpOf(s, a).Some? {
      StepKeepsInv(s.world, OpOf(s, a).value);
    }
  }

  lemma CallJobIsKept(s: System, a: Action, r: Id)
    requires SystemInv(s) && KeepsTheRules(s, a)
    ensures CallJobOk(Next(s, a), r)
  {
    hide SystemInv, KeepsTheRules, CallJobOk;
    if a.Data? && a.rid == r {
      OwnCallJobIsKept(s, r, a.d);
    } else {
      OtherCallJobIsKept(s, a, r);
    }
  }

  lemma WorkerIsKept(s: System, a: Action, wid: WorkerId)
    requires SystemInv(s) && KeepsTheRules(s, a)
    ensures WorkerOk(Next(s, a), wid)
  {
    hide SystemInv, KeepsTheRules, WorkerOk;
    if a.Work? && a.wid == wid {
      OwnWorkerIsKept(s, wid, a.k);
    } else {
      OtherWorkersAreKept(s, a, wid);
    }
  }

  /** Whatever may come next keeps the rules and leads to another good state. */
  lemma StepKeepsSystemInv(s: System, a: Action)
    requires SystemInv(s) && Guard(s, a)
    ensures KeepsTheRules(s, a) && SystemInv(Next(s, a))
  {
    GuardedStepsKeepTheRules(s, a);
    var s' := Next(s, a);
    assert s'.world == NextWorld(s, a);
    hide DiskStore.Inv, SessionDesk.Inv, CallJobOk, StagedFilesOk, QueueSlotOk, WorkerOk, RecordOk, IdOk;
    hide Guard, KeepsTheRules, Next;
    WorldKeepsInv(s, a);
    DeskKeepsInv(s, a);
    forall r ensures CallJobOk(s', r) { CallJobIsKept(s, a, r); }
    forall r ensures StagedFilesOk(s', r) { StagedFilesAreKept(s, a, r); }
    forall i: nat ensures QueueSlotOk(s', i) { QueueIsKept(s, a, i); }
    forall w ensures WorkerOk(s', w) { WorkerIsKept(s, a, w); }
    forall id ensures RecordOk(s', id) { RecordIsKept(s, a, id); }
    forall id ensures IdOk(s', id) { IdsAreKept(s, a, id); }
  }

  lemma InitHolds(s: System)
    requires Init(s)
    ensures SystemInv(s)
  {
    TotalOfNothing(s.world.store);
  }

  lemma TotalOfNothing(s: State)
    requires s == State(s.ttl, s.maxBytes, map[], map[], 0, false) && 0 < s.ttl && 0 < s.maxBytes
    ensures Valid(s)
  {
    assert JobCharges(s.jobs) == map[] && ReservationCharges(s.reservations) == map[];
    assert UnfinishedCharges(s.jobs) == map[];
  }

  // ---------- runs ----------

  /** What may follow. A step outside the rules could lead anywhere; there is none. */
  ghost predicate MayFollow(s: System, a: Action, s': System) {
    Guard(s, a) && (KeepsTheRules(s, a) ==> s' == Next(s, a))
  }

  /** One step of a run, with what is known about every such step. */
  ghost predicate Follows(s: System, a: Action, s': System) {
    SystemInv(s) && KeepsTheRules(s, a) && s' == Next(s, a)
  }

  /** Any interleaving at all, starting from an empty store. */
  ghost predicate IsRun(ss: seq<System>, acts: seq<Action>) {
    && |ss| == |acts| + 1 && Init(ss[0])
    && forall i :: 0 <= i < |acts| ==> MayFollow(ss[i], acts[i], ss[i + 1])
  }

  /** The gateway's client side never breaks the store's rules, in any interleaving. */
  lemma {:induction false} EveryStateIsGood(ss: seq<System>, acts: seq<Action>, i: nat)
    requires IsRun(ss, acts) && i < |ss|
    ensures SystemInv(ss[i])
    ensures i < |acts| ==> KeepsTheRules(ss[i], acts[i]) && ss[i + 1] == Next(ss[i], acts[i])
    decreases i
  {
    if i == 0 {
      InitHolds(ss[0]);
    } else {
      EveryStateIsGood(ss, acts, i - 1);
      assert MayFollow(ss[i - 1], acts[i - 1], ss[i]);
      StepKeepsSystemInv(ss[i - 1], acts[i - 1]);
    }
    if i < |acts| {
      assert MayFollow(ss[i], acts[i], ss[i + 1]);
      GuardedStepsKeepTheRules(ss[i], acts[i]);
    }
    hide SystemInv, KeepsTheRules, Guard, Next, Init;
  }

  lemma RunLength(ss: seq<System>, acts: seq<Action>)
    requires IsRun(ss, acts)
    ensures |ss| == |acts| + 1
  {
  }

  lemma EveryStepFollows(ss: seq<System>, acts: seq<Action>, i: nat)
    requires IsRun(ss, acts) && i < |acts|
    ensures |ss| == |acts| + 1 && Follows(ss[i], acts[i], ss[i + 1])
  {
    EveryStateIsGood(ss, acts, i);
    hide SystemInv, KeepsTheRules, Guard, Next, Init;
  }

  lemma BudgetIsFixed(w: World, op: Op)
    requires Enabled(w, op)
    ensures Apply(w, op).store.maxBytes == w.store.maxBytes && Apply(w, op).store.ttl == w.store.ttl
  {
  }

  lemma DataKeepsConfig(s: System, rid: Id, d: DataAct)
    requires DataGuard(s, rid, d)
    ensures DataStep(s, rid, d).cfg == s.cfg
  {
    hide EvictionOrder, FreshIds;
  }

  lemma WorkKeepsConfig(s: System, wid: WorkerId, k: WorkAct)
    requires WorkGuard(s, wid, k)
    ensures WorkStep(s, wid, k).cfg == s.cfg
  {
    hide SortedFor, CanSwap;
  }

  lemma StepKeepsConfig(s: System, a: Action, s': System)
    requires Follows(s, a, s')
    ensures s'.cfg == s.cfg && s'.world.store.maxBytes == s.world.store.maxBytes
  {
    hide WorkGuard, DataGuard, WorkStep, DataStep;
    match a {
      case Data(rid, d) => DataKeepsConfig(s, rid, d);
      case Work(wid, k) => WorkKeepsConfig(s, wid, k);
      case _ =>
    }
    if OpOf(s, a).Some? {
      BudgetIsFixed(s.world, OpOf(s, a).value);
    }
  }

  lemma FirstState(ss: seq<System>, acts: seq<Action>)
    requires IsRun(ss, acts)
    ensures Init(ss[0]) && ss[0].world.store.maxBytes == ss[0].cfg.maxStoredBytes
  {
  }

  lemma {:induction false} ConfigIsFixed(ss: seq<System>, acts: seq<Action>, i: nat)
    requires IsRun(ss, acts) && i < |ss|
    ensures ss[i].cfg == ss[0].cfg && ss[i].world.store.maxBytes == ss[0].cfg.maxStoredBytes
    decreases i
  {
    hide IsRun, Follows, Init;
    RunLength(ss, acts);
    if i == 0 {
      FirstState(ss, acts);
    } else {
      ConfigIsFixed(ss, acts, i - 1);
      EveryStepFollows(ss, acts, i - 1);
      StepKeepsConfig(ss[i - 1], acts[i - 1], ss[i]);
    }
  }

  /** In every state of every interleaving: the counter is exact, committed jobs fit the budget, and so do all open
      reservations together with all unfinished work. What was admitted can therefore always be booked and settled,
      however large it turned out, since only finished jobs have to give way. */
  lemma BudgetHoldsThroughout(ss: seq<System>, acts: seq<Action>, i: nat)
    requires IsRun(ss, acts) && i < |ss|
    ensures var store := ss[i].world.store; var max := ss[0].cfg.maxStoredBytes;
      && store.used == JobStore.Held(store) + Promised(store)
      && JobStore.Held(store) <= max && Promised(store) + Unsettled(store) <= max
  {
    hide IsRun, KeepsTheRules, Next;
    EveryStateIsGood(ss, acts, i);
    ConfigIsFixed(ss, acts, i);
    assert Valid(ss[i].world.store);
    hide SystemInv;
  }

  /** Admission never depends on finished or expired jobs still on disk: it is exactly whether the request fits beside
      what is reserved and what is being worked on. */
  lemma AdmissionIsExact(ss: seq<System>, acts: seq<Action>, i: nat, want: nat)
    requires IsRun(ss, acts) && i < |ss| && !ss[i].world.store.closed
    ensures var store := ss[i].world.store;
      ReserveError(store, want) == None <==> Promised(store) + Unsettled(store) + want <= ss[0].cfg.maxStoredBytes
  {
    hide IsRun, KeepsTheRules, Next;
    EveryStateIsGood(ss, acts, i);
    ConfigIsFixed(ss, acts, i);
    assert Valid(ss[i].world.store);
    hide SystemInv;
    ReserveAdmitsExactly(ss[i].world.store, want);
  }

  /** In every state of every interleaving, each document of a job that was not evicted is a registered file on disk
      with the recorded size, a finished job holds exactly its documents' files, and no removal still to run names
      a file anybody can be served. */
  lemma DocumentsAreOnDiskThroughout(ss: seq<System>, acts: seq<Action>, i: nat, id: Id)
    requires IsRun(ss, acts) && i < |ss| && id in ss[i].world.store.jobs
    ensures RecordOnDisk(ss[i].world, ss[i].world.store.jobs[id])
    ensures var w := ss[i].world; forall p :: p in DocPaths(w.store.jobs[id].job.documents) ==>
      p in w.disk && RemoveFile(p) !in w.removals && RemoveDir(p.dir) !in w.removals && RemoveTree !in w.removals
  {
    EveryStateIsGood(ss, acts, i);
    assert RecordOnDisk(ss[i].world, ss[i].world.store.jobs[id]);
    assert WellFormedRecord(id, ss[i].world.store.jobs[id]);
    hide IsRun, SystemInv, KeepsTheRules, Next;
  }

  /** Nothing leaks: in every state of every interleaving, a job that is not finished is with the session that committed it
      and has yet to queue or delete it, in the queue, or with the worker that took it - never with nobody. */
  lemma NothingLeaks(ss: seq<System>, acts: seq<Action>, i: nat, id: Id)
    requires IsRun(ss, acts) && i < |ss|
    requires id in ss[i].world.store.jobs && Unfinished(ss[i].world.store.jobs[id].job.status)
    ensures InHands(ss[i], id)
  {
    hide IsRun, KeepsTheRules, Next, InHands;
    EveryStateIsGood(ss, acts, i);
    assert RecordOk(ss[i], id);
  }
}
