/** A job a worker has taken comes to an end: the worker is never stuck, it has only so many steps left, and nobody else can
    give it more. */
module GatewayProgress {
  import opened JobTypes
  import opened JobStore
  import opened DiskStore
  import opened SessionDesk
  import opened Gateway
  import opened GatewayInv
  import opened GatewayRules
  import opened GatewayKept
  import opened GatewayRuns
  import opened GatewayScenario
  import opened GatewayService
  import StoreObject

  // ---------- never stuck ----------

  /** Whatever state the store is in and wherever the worker is, one of its steps may come next. */
  lemma NeverStuck(s: System, wid: WorkerId) returns (k: WorkAct)
    requires wid in s.workers
    ensures WorkGuard(s, wid, k) && !k.Take?
  {
    hide EvictionOrder;
    var wk := s.workers[wid];
    match wk.pc
    case Taken => k := Start;
    case OcrNext(_) => k := Open;
    case OcrAsk(_) => k := Ask;
    case OcrTouch(_, _) => k := Touch(None);
    case OcrRegister(_, _) => k := RegisterOut;
    case OcrRun(_, _) => k := RunOcr(false, 0);
    case OcrLstat(_, _) => k := Lstat;
    case OcrSwap(_, _, _) => k := Swap;
    case OcrStat(_, _) => k := StatOut;
    case Mailing => k := Deliver(SendFailed);
    case TooLargeNotice => k := NoticeTooLarge;
    case Finishing =>
      var order := SomeOrder(s, wk.job.id, Ready, "");
      k := Finish(order);
    case Failing(reason) =>
      var order := SomeOrder(s, wk.job.id, Failed, reason);
      k := Fail(order);
    case FailNotice => k := NoticeFailed;
    case FailDelete => k := DeleteFailed;
  }

  lemma SomeOrder(s: System, id: Id, st: Status, msg: string) returns (order: seq<Id>)
    ensures SortedFor(s, id, st, msg, order)
  {
    if StatusError(s.world.store, id) == None {
      order := StoreObject.SomeEvictionOrder(Settled(s.world.store, id, st, msg, s.world.clock).jobs);
    } else {
      order := [];
    }
  }

  // ---------- only so many steps ----------

  /** More than the steps a worker can still take before it lets go of its job. */
  function Rank(wk: Worker): int {
    var n := |wk.job.documents|;
    match wk.pc
    case Taken => 8 * n + 6
    case OcrNext(i) => 8 * (n - i) + 5
    case OcrAsk(i) => 8 * (n - i) + 4
    case OcrTouch(i, _) => 8 * (n - i) + 3
    case OcrRegister(i, _) => 8 * (n - i) + 2
    case OcrRun(i, _) => 8 * (n - i) + 1
    case OcrLstat(i, _) => 8 * (n - i)
    case OcrSwap(i, _, _) => 8 * (n - i) - 1
    case OcrStat(i, _) => 8 * (n - i) - 2
    case Mailing => 4
    case Failing(_) => 3
    case TooLargeNotice => 2
    case FailNotice => 2
    case Finishing => 1
    case FailDelete => 1
  }

  lemma RankIsBounded(s: System, wk: Worker)
    requires WorkerPcOk(s, wk)
    ensures 1 <= Rank(wk) <= 8 * |wk.job.documents| + 6
  {
    hide InHand, OutOk, OutRegistered, OneAhead, AllOcr, OcrDone, Over;
  }

  /** The worker has let go, or holds the same job and is nearer its end. */
  predicate Nearer(s: System, s': System, wid: WorkerId)
    requires wid in s.workers
  {
    wid in s'.workers ==>
      s'.workers[wid].job.id == s.workers[wid].job.id && Rank(s'.workers[wid]) < Rank(s.workers[wid])
  }

  lemma OcrStepFalls(s: System, wid: WorkerId, k: WorkAct)
    requires WorkGuard(s, wid, k) && wid in s.workers && WorkerPcOk(s, s.workers[wid])
    requires k.Open? || k.Ask? || k.Touch? || k.RegisterOut? || k.RunOcr? || k.Lstat? || k.Swap? || k.StatOut?
    ensures Nearer(s, WorkStep(s, wid, k), wid)
  {
    hide InHand, OutOk, OutRegistered, OneAhead, AllOcr, OcrDone, Over, SortedFor, CanSwap, StatusError;
  }

  lemma OwnStepFalls(s: System, wid: WorkerId, k: WorkAct)
    requires WorkGuard(s, wid, k) && wid in s.workers && WorkerPcOk(s, s.workers[wid])
    ensures Nearer(s, WorkStep(s, wid, k), wid)
  {
    hide InHand, OutOk, OutRegistered, OneAhead, AllOcr, OcrDone, Over, SortedFor, CanSwap, StatusError, WorkerPcOk;
    match k
    case Start =>
    case Deliver(_) =>
    case NoticeTooLarge =>
    case Finish(_) =>
    case Fail(_) =>
    case NoticeFailed =>
    case DeleteFailed =>
    case _ => OcrStepFalls(s, wid, k);
  }

  predicate Own(a: Action, wid: WorkerId) {
    a.Work? && a.wid == wid
  }

  /** Every step of its own brings a worker closer to the end, and nobody else's step takes it further away. */
  lemma RankFalls(s: System, a: Action, s': System, wid: WorkerId)
    requires Follows(s, a, s') && wid in s.workers && wid in s'.workers
    ensures s'.workers[wid].job.id == s.workers[wid].job.id
    ensures Rank(s'.workers[wid]) <= Rank(s.workers[wid]) - if Own(a, wid) then 1 else 0
  {
    assert WorkerOk(s, wid);
    hide SystemInv, WorkGuard, LocalStep, WorkStep, WorkerPcOk, Rank;
    assert s'.workers == LocalStep(s, a).workers;
    if Own(a, wid) {
      OwnStepFalls(s, wid, a.k);
      assert LocalStep(s, a) == WorkStep(s, wid, a.k) by { OwnLocalStep(s, wid, a.k); }
    } else {
      WorkersStay(s, a, wid);
    }
  }

  lemma OwnLocalStep(s: System, wid: WorkerId, k: WorkAct)
    requires Guard(s, Work(wid, k))
    ensures WorkGuard(s, wid, k) && LocalStep(s, Work(wid, k)) == WorkStep(s, wid, k)
  {
    hide WorkGuard, WorkStep;
  }

  // ---------- runs ----------

  /** How many of the steps from state `i` to state `j` are the worker's own. */
  function OwnSteps(acts: seq<Action>, i: nat, j: nat, wid: WorkerId): (n: nat)
    requires i <= j <= |acts|
    ensures n <= j - i
  {
    if i == j then 0 else OwnSteps(acts, i, j - 1, wid) + if Own(acts[j - 1], wid) then 1 else 0
  }

  predicate LetGo(ss: seq<System>, i: nat, j: nat, wid: WorkerId)
    requires j < |ss|
  {
    exists k :: i < k <= j && wid !in ss[k].workers
  }

  predicate StillHeld(ss: seq<System>, acts: seq<Action>, i: nat, j: nat, wid: WorkerId)
    requires i <= j <= |acts| && |ss| == |acts| + 1 && wid in ss[i].workers
  {
    && wid in ss[j].workers && ss[j].workers[wid].job.id == ss[i].workers[wid].job.id
    && Rank(ss[j].workers[wid]) + OwnSteps(acts, i, j, wid) <= Rank(ss[i].workers[wid])
  }

  predicate OverForGood(s: System, id: Id) {
    Over(s, id) && Uncommitted(s, id)
  }

  lemma OneStepOn(s: System, a: Action, s': System, wid: WorkerId)
    requires Follows(s, a, s') && wid in s.workers && wid !in s'.workers
    ensures OverForGood(s', s.workers[wid].job.id)
  {
    hide Follows, Over, Uncommitted;
    LettingGo(s, a, s', wid);
    WorkersJobIsCommitted(s, a, s', wid);
    UncommittedStays(s, a, s', s.workers[wid].job.id);
  }

  lemma OverForGoodStays(s: System, a: Action, s': System, id: Id)
    requires Follows(s, a, s') && OverForGood(s, id)
    ensures OverForGood(s', id)
  {
    hide Follows, Over, Uncommitted;
    OverStays(s, a, s', id);
    UncommittedStays(s, a, s', id);
  }

  lemma {:induction false} HeldOrEnded(ss: seq<System>, acts: seq<Action>, i: nat, j: nat, wid: WorkerId)
    requires IsRun(ss, acts) && |ss| == |acts| + 1 && i <= j <= |acts| && wid in ss[i].workers
    ensures StillHeld(ss, acts, i, j, wid) || (LetGo(ss, i, j, wid) && OverForGood(ss[j], ss[i].workers[wid].job.id))
    decreases j
  {
    hide IsRun, Follows, OverForGood, Rank, Own;
    if i < j {
      HeldOrEnded(ss, acts, i, j - 1, wid);
      EveryStepFollows(ss, acts, j - 1);
      if LetGo(ss, i, j - 1, wid) && OverForGood(ss[j - 1], ss[i].workers[wid].job.id) {
        OverForGoodStays(ss[j - 1], acts[j - 1], ss[j], ss[i].workers[wid].job.id);
      } else if wid in ss[j].workers {
        RankFalls(ss[j - 1], acts[j - 1], ss[j], wid);
      } else {
        OneStepOn(ss[j - 1], acts[j - 1], ss[j], wid);
      }
    }
  }

  lemma HeldRankIsBounded(ss: seq<System>, acts: seq<Action>, i: nat, wid: WorkerId)
    requires IsRun(ss, acts) && i < |ss| && wid in ss[i].workers
    ensures 1 <= Rank(ss[i].workers[wid]) <= 8 * |ss[i].workers[wid].job.documents| + 6
  {
    hide IsRun, KeepsTheRules, Next, Rank;
    EveryStateIsGood(ss, acts, i);
    assert WorkerOk(ss[i], wid);
    hide SystemInv, WorkerPcOk;
    RankIsBounded(ss[i], ss[i].workers[wid]);
  }

  /** Every job a worker takes comes to its end, in any interleaving and whatever OCR and mail answer: after eight steps
      of the worker's own for each document and six more, however many of others in between, the worker has let go and the
      job is ready, failed, evicted or gone. */
  lemma TakenJobsEnd(ss: seq<System>, acts: seq<Action>, i: nat, j: nat, wid: WorkerId)
    requires IsRun(ss, acts) && |ss| == |acts| + 1 && i <= j <= |acts| && wid in ss[i].workers
    requires OwnSteps(acts, i, j, wid) >= 8 * |ss[i].workers[wid].job.documents| + 6
    ensures LetGo(ss, i, j, wid) && Over(ss[j], ss[i].workers[wid].job.id)
  {
    hide IsRun, Rank, OwnSteps, Over, LetGo;
    HeldOrEnded(ss, acts, i, j, wid);
    HeldRankIsBounded(ss, acts, i, wid);
    if StillHeld(ss, acts, i, j, wid) {
      HeldRankIsBounded(ss, acts, j, wid);
    }
  }

  /** And those steps can always be taken: from any reachable state the worker can see its job through alone. */
  lemma {:induction false} TakenJobsCanEnd(ss: seq<System>, acts: seq<Action>, wid: WorkerId)
    returns (ss': seq<System>, acts': seq<Action>)
    requires IsRun(ss, acts) && |ss| == |acts| + 1 && wid in ss[|acts|].workers
    ensures IsRun(ss', acts') && |ss'| == |acts'| + 1 && ss <= ss' && acts <= acts'
    ensures |acts'| <= |acts| + Rank(ss[|acts|].workers[wid])
    ensures forall k :: |acts| <= k < |acts'| ==> Own(acts'[k], wid)
    ensures wid !in ss'[|acts'|].workers && Over(ss'[|acts'|], ss[|acts|].workers[wid].job.id)
    decreases Rank(ss[|acts|].workers[wid])
  {
    hide IsRun, KeepsTheRules, Next, Guard, Rank, Over, Follows;
    HeldRankIsBounded(ss, acts, |acts|, wid);
    var n := |acts|;
    var k := NextOwnAction(ss[n], wid);
    ss' := Extend(ss, acts, Work(wid, k));
    acts' := acts + [Work(wid, k)];
    if wid in ss'[n + 1].workers {
      RankFalls(ss[n], Work(wid, k), ss'[n + 1], wid);
      ss', acts' := TakenJobsCanEnd(ss', acts', wid);
    } else {
      LettingGo(ss[n], Work(wid, k), ss'[n + 1], wid);
    }
  }

  lemma NextOwnAction(s: System, wid: WorkerId) returns (k: WorkAct)
    requires wid in s.workers
    ensures Guard(s, Work(wid, k))
  {
    hide WorkGuard;
    k := NeverStuck(s, wid);
  }
}
