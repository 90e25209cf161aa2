/** The one case the comments do not own up to: a message that is refused, and has evicted a scan on the way. A run of the
    whole gateway, from an empty store, for every queue and every message size. */
module GatewayRefusals {
  import opened JobTypes
  import opened Sums
  import opened JobStore
  import opened JobStoreBudget
  import opened DiskStore
  import opened SessionDesk
  import opened Gateway
  import opened GatewayInv
  import opened GatewayRules
  import opened GatewayRuns
  import opened GatewaySettlement
  import opened GatewayEvictions
  import opened GatewayScenario

  /** The job of message 0, finished and waiting to be fetched. */
  const OLD: Id := 1

  /** What the store holds when the old scan of one byte is ready and `n` more messages of `size` bytes wait. */
  ghost predicate Shelf(jobs: map<Id, Record>, n: nat, size: int) {
    && Total(JobCharges(jobs)) == n * size + 1 && Total(UnfinishedCharges(jobs)) == n * size
    && OLD in jobs && jobs[OLD].job.status == Ready && jobs[OLD].job.caps.web && jobs[OLD].bytes == 1
    && (forall id :: id in jobs ==> id < Rid(n + 1) && (id == OLD || Unfinished(jobs[id].job.status)))
  }

  lemma OnlyTheOldScanCanGo(jobs: map<Id, Record>, n: nat, size: int)
    requires Shelf(jobs, n, size)
    ensures EvictionOrder(jobs, [OLD])
  {
    hide Total;
  }

  lemma ShelfGrows(jobs: map<Id, Record>, n: nat, size: int, r: Record)
    requires Shelf(jobs, n, size) && r.job.status == Pending && r.bytes == size
    ensures Shelf(jobs[JobId(n + 1) := r], n + 1, size)
  {
    hide Total;
    HeldUpdate(jobs, JobId(n + 1), r);
    UnsettledUpdate(jobs, JobId(n + 1), r);
    assert (n + 1) * size == n * size + size;
  }

  // ---------- the old scan ----------

  /** The gateway as it starts. */
  function Empty(p: Plan): System {
    System(World(State(1, p.cfg.maxStoredBytes, map[], map[], 0, false), map[], {}, {}, 0, {}, {}), p.cfg, p.queueCap,
           Desk(map[], map[], map[], map[], map[]), [], map[], map[], map[])
  }

  ghost predicate Tight(p: Plan) {
    && Suits(p) && 0 < p.queueCap
    && p.cfg.maxStoredBytes == (p.queueCap + 1) * p.cfg.maxMessageBytes
  }

  lemma Multiples(n: nat, q: nat, size: int)
    requires 0 < size && 0 < q
    ensures 2 * size <= (q + 1) * size
    ensures n <= q ==> n * size + size <= (q + 1) * size
    ensures n < q ==> (n + 1) * size + 1 <= (q + 1) * size
    ensures n == q ==> n * size + 1 + size > (q + 1) * size
  {
    assert (q - 1) * size >= 0;
    if n <= q {
      assert (q - n) * size >= 0;
    }
    if n < q {
      assert (q - n - 1) * size >= 0;
    }
  }

  lemma Starts(p: Plan)
    requires Tight(p)
    ensures IsRun([Empty(p)], []) && Rested(p, Empty(p), 0) && Unsettled(Empty(p).world.store) == 0
  {
    hide Total;
    Multiples(0, p.queueCap, p.cfg.maxMessageBytes);
    TotalOfNothing(Empty(p).world.store);
    assert UnfinishedCharges(map[]) == map[];
    EmptyTotal();
  }

  lemma EmptyTotal()
    ensures Total<Id>(map[]) == 0
  {
  }

  /** The first message's job alone, waiting. */
  ghost predicate JustTheFirst(jobs: map<Id, Record>) {
    && jobs.Keys == {OLD}
    && jobs[OLD].job.caps == WEB && jobs[OLD].job.status == Pending && DocBytes(jobs[OLD].job.documents) == 1
  }

  lemma FirstBooking(p: Plan, s: System)
    requires Quiet(p, Empty(p), s, 0) && AtBooking(s, 0)
    ensures EvictionOrder(BookedFor(s, 0).jobs, [])
    ensures MakeRoom(BookedFor(s, 0), []) == BookedFor(s, 0) && JustTheFirst(BookedFor(s, 0).jobs)
  {
    hide Total;
    var booked := BookedFor(s, 0);
    assert Buried(booked.jobs, []) == booked.jobs;
  }

  /** The message is in: its job is at the end of the queue. */
  lemma Joins(p: Plan, s0: System, ss: seq<System>, acts: seq<Action>, m: nat, order: seq<Id>)
    returns (ss': seq<System>, acts': seq<Action>)
    requires IsRun(ss, acts) && |ss| == |acts| + 1 && Quiet(p, s0, ss[|acts|], m) && AtBooking(ss[|acts|], m)
    requires EvictionOrder(BookedFor(ss[|acts|], m).jobs, order) && |s0.queue| < p.queueCap
    ensures IsRun(ss', acts') && |ss'| == |acts'| + 1 && ss <= ss' && acts <= acts'
    ensures var s' := ss'[|acts'|];
      && Rested(p, s', m + 1) && s'.world.store == MakeRoom(BookedFor(ss[|acts|], m), order)
      && s'.workers == s0.workers && |s'.queue| == |s0.queue| + 1 && s'.queue[..|s0.queue|] == s0.queue
      && s'.queue[|s0.queue|].id == JobId(m) && s'.queue[|s0.queue|].caps == WEB
  {
    hide IsRun, Guard, KeepsTheRules, Next, EvictionOrder, MakeRoom, Rested, Quiet, AtBooking, Commits;
    CommitsJob(p, s0, ss[|acts|], m, order);
    ss', acts' := Onward(ss, acts, Data(Rid(m), CommitJob(order)));
    QueuesJob(p, s0, ss'[|acts'|], m);
    ss', acts' := Onward(ss', acts', Data(Rid(m), Enqueue));
  }

  lemma FirstScanIsQueued(p: Plan) returns (ss: seq<System>, acts: seq<Action>)
    requires Tight(p)
    ensures IsRun(ss, acts) && |ss| == |acts| + 1 && ss[0] == Empty(p)
    ensures var s := ss[|acts|];
      && Rested(p, s, 1) && s.workers == map[] && JustTheFirst(s.world.store.jobs)
      && |s.queue| == 1 && s.queue[0].id == OLD && s.queue[0].caps == WEB
  {
    hide IsRun, Guard, KeepsTheRules, Next, EvictionOrder, MakeRoom, Rested, Quiet, AtBooking, JustTheFirst;
    Starts(p);
    Multiples(0, p.queueCap, p.cfg.maxMessageBytes);
    ss, acts := MessageArrives(p, [Empty(p)], [], 0);
    FirstBooking(p, ss[|acts|]);
    ss, acts := Joins(p, Empty(p), ss, acts, 0, []);
  }

  // ---------- it becomes ready ----------

  lemma FirstIsSettled(s: State, now: int, size: int)
    requires JustTheFirst(s.jobs) && Accounted(s) && s.reservations == map[] && 1 < s.maxBytes
    ensures StatusError(s, OLD) == None && Accounted(Settled(s, OLD, Processing, "", now))
    ensures var begun := Settled(s, OLD, Processing, "", now); var done := Settled(begun, OLD, Ready, "", now);
      && StatusError(begun, OLD) == None && Shelf(done.jobs, 0, size)
      && EvictionOrder(done.jobs, [OLD]) && MakeRoom(done, [OLD]) == done && done.reservations == map[]
      && done.closed == s.closed && done.maxBytes == s.maxBytes
  {
    hide Total;
    var begun := Settled(s, OLD, Processing, "", now);
    var done := Settled(begun, OLD, Ready, "", now);
    SettledIsAccounted(s, OLD, Processing, "", now);
    SettledIsAccounted(begun, OLD, Ready, "", now);
    assert done.jobs == map[][OLD := done.jobs[OLD]];
    HeldUpdate(map[], OLD, done.jobs[OLD]);
    UnsettledUpdate(map[], OLD, done.jobs[OLD]);
    assert JobCharges(map[]) == map[] && UnfinishedCharges(map[]) == map[];
    EmptyTotal();
    NothingPromised(done);
    OnlyTheOldScanCanGo(done.jobs, 0, size);
    OldestGoesFirst(done, [OLD]);
  }

  /** The old scan is ready, `n` more messages wait, and no worker is busy. */
  ghost predicate Holding(p: Plan, s: System, n: nat) {
    && Rested(p, s, n + 1) && s.workers == map[] && |s.queue| == n
    && Shelf(s.world.store.jobs, n, p.cfg.maxMessageBytes)
    && s.world.store.maxBytes == p.cfg.maxStoredBytes
  }

  /** The books once a worker has started and finished job `id`. */
  function Worked(s: State, id: Id, now: int): State
    requires id in s.jobs
  {
    Settled(Settled(s, id, Processing, "", now), id, Ready, "", now)
  }

  /** A worker takes the first job of the queue, a web job, and sees it through. */
  lemma WorksOff(ss: seq<System>, acts: seq<Action>, order: seq<Id>)
    returns (ss': seq<System>, acts': seq<Action>)
    requires IsRun(ss, acts) && |ss| == |acts| + 1
    requires var s := ss[|acts|]; var store := s.world.store;
      && s.workers == map[] && s.queue != [] && s.queue[0].caps == WEB
      && var id := s.queue[0].id;
        && StatusError(store, id) == None
        && StatusError(Settled(store, id, Processing, "", s.world.clock), id) == None
        && EvictionOrder(Worked(store, id, s.world.clock).jobs, order)
    ensures IsRun(ss', acts') && |ss'| == |acts'| + 1 && ss <= ss' && acts <= acts'
    ensures var s := ss[|acts|]; var s' := ss'[|acts'|];
      && s'.world.store == MakeRoom(Worked(s.world.store, s.queue[0].id, s.world.clock), order)
      && s'.world.issued == s.world.issued && s'.world.names == s.world.names && s'.desk == s.desk
      && s'.cfg == s.cfg && s'.queueCap == s.queueCap && s'.queue == s.queue[1..] && s'.workers == map[]
  {
    hide IsRun, Guard, KeepsTheRules, Next, EvictionOrder, MakeRoom, Settled, StatusError;
    TakesJob(ss[|acts|], 0);
    ss', acts' := Onward(ss, acts, Work(0, Take));
    StartsJob(ss'[|acts'|], 0);
    ss', acts' := Onward(ss', acts', Work(0, Start));
    FinishesJob(ss'[|acts'|], 0, order);
    ss', acts' := Onward(ss', acts', Work(0, Finish(order)));
  }

  lemma FirstScanIsFinished(p: Plan) returns (ss: seq<System>, acts: seq<Action>)
    requires Tight(p)
    ensures IsRun(ss, acts) && |ss| == |acts| + 1 && ss[0] == Empty(p) && Holding(p, ss[|acts|], 0)
  {
    hide IsRun, EvictionOrder, MakeRoom, Settled, StatusError, JustTheFirst, Shelf;
    ss, acts := FirstScanIsQueued(p);
    var s0 := ss[|acts|];
    StoreAt(p, ss, acts);
    FirstIsSettled(s0.world.store, s0.world.clock, p.cfg.maxMessageBytes);
    ss, acts := WorksOff(ss, acts, [OLD]);
  }

  lemma StoreAt(p: Plan, ss: seq<System>, acts: seq<Action>)
    requires Tight(p) && IsRun(ss, acts) && |ss| == |acts| + 1 && ss[0] == Empty(p)
    ensures Accounted(ss[|acts|].world.store) && 1 < ss[|acts|].world.store.maxBytes == p.cfg.maxStoredBytes
  {
    hide IsRun, KeepsTheRules, Next, SystemInv;
    BooksAreGood(ss, acts);
    ConfigIsFixed(ss, acts, |acts|);
    Multiples(0, p.queueCap, p.cfg.maxMessageBytes);
  }

  // ---------- the queue fills up ----------

  /** A message more, with the whole of its reservation. */
  lemma ShelfWithOneMore(s: State, n: nat, q: nat, size: int, job: Job, files: set<Path>)
    requires Accounted(s) && !s.closed && Shelf(s.jobs, n, size) && 0 < size && 0 < q
    requires s.reservations.Keys == {Rid(n + 1)} && s.reservations[Rid(n + 1)].bytes == size
    requires job.id == JobId(n + 1) && job.status == Pending && job.error == ""
    requires n <= q && s.maxBytes == (q + 1) * size
    ensures var booked := Booked(s, Rid(n + 1), job, files);
      && Shelf(booked.jobs, n + 1, size) && EvictionOrder(booked.jobs, [OLD])
      && if n < q then MakeRoom(booked, [OLD]) == booked
         else OLD in MakeRoom(booked, [OLD]).jobs && MakeRoom(booked, [OLD]).jobs[OLD].job.status == Evicted
  {
    hide Total, EvictionOrder, MakeRoom;
    var booked := Booked(s, Rid(n + 1), job, files);
    ShelfGrows(s.jobs, n, size, Record(job, Rid(n + 1), size, files));
    OnlyTheOldScanCanGo(booked.jobs, n + 1, size);
    BookedIsAccounted(s, Rid(n + 1), job, files);
    NothingPromised(booked);
    Multiples(n, q, size);
    assert (n + 1) * size == n * size + size;
    OldestGoesFirst(booked, [OLD]);
  }

  lemma NextBooking(p: Plan, s0: System, s: System, n: nat)
    requires Tight(p) && Holding(p, s0, n) && Quiet(p, s0, s, n + 1) && AtBooking(s, n + 1)
    requires Accounted(s.world.store) && n <= p.queueCap
    ensures var booked := BookedFor(s, n + 1);
      && Shelf(booked.jobs, n + 1, p.cfg.maxMessageBytes) && EvictionOrder(booked.jobs, [OLD])
      && booked.maxBytes == p.cfg.maxStoredBytes
      && if n < p.queueCap then MakeRoom(booked, [OLD]) == booked
         else OLD in MakeRoom(booked, [OLD]).jobs && MakeRoom(booked, [OLD]).jobs[OLD].job.status == Evicted
  {
    hide Total, EvictionOrder, MakeRoom, Rested, Accounted, Shelf;
    ShelfWithOneMore(s.world.store, n, p.queueCap, p.cfg.maxMessageBytes,
                     s.desk.calls[Rid(n + 1)].pc.job, s.desk.stagings[Rid(n + 1)].files);
  }

  /** A message more waits; the scan stays. */
  lemma OneMoreWaits(p: Plan, ss: seq<System>, acts: seq<Action>, n: nat)
    returns (ss': seq<System>, acts': seq<Action>)
    requires Tight(p) && IsRun(ss, acts) && |ss| == |acts| + 1 && ss[0] == Empty(p)
    requires Holding(p, ss[|acts|], n) && n < p.queueCap
    ensures IsRun(ss', acts') && |ss'| == |acts'| + 1 && ss'[0] == Empty(p) && Holding(p, ss'[|acts'|], n + 1)
  {
    hide IsRun, EvictionOrder, MakeRoom, Rested, Quiet, AtBooking, BookedFor, Shelf, Accounted;
    ss', acts' := ToBooking(p, ss, acts, n);
    NextBooking(p, ss[|acts|], ss'[|acts'|], n);
    ss', acts' := Joins(p, ss[|acts|], ss', acts', n + 1, [OLD]);
  }

  lemma ToBooking(p: Plan, ss: seq<System>, acts: seq<Action>, n: nat)
    returns (ss': seq<System>, acts': seq<Action>)
    requires Tight(p) && IsRun(ss, acts) && |ss| == |acts| + 1 && ss[0] == Empty(p)
    requires Holding(p, ss[|acts|], n) && n <= p.queueCap
    ensures IsRun(ss', acts') && |ss'| == |acts'| + 1 && ss <= ss' && acts <= acts'
    ensures Quiet(p, ss[|acts|], ss'[|acts'|], n + 1) && AtBooking(ss'[|acts'|], n + 1)
    ensures Accounted(ss'[|acts'|].world.store)
  {
    hide IsRun, Rested, Quiet, AtBooking, Accounted, Total;
    Multiples(n, p.queueCap, p.cfg.maxMessageBytes);
    ss', acts' := MessageArrives(p, ss, acts, n + 1);
    StoreAt(p, ss', acts');
  }

  lemma {:induction false} QueueFillsUp(p: Plan, n: nat) returns (ss: seq<System>, acts: seq<Action>)
    requires Tight(p) && n <= p.queueCap
    ensures IsRun(ss, acts) && |ss| == |acts| + 1 && ss[0] == Empty(p) && Holding(p, ss[|acts|], n)
    decreases n
  {
    hide *;
    if n == 0 {
      ss, acts := FirstScanIsFinished(p);
    } else {
      ss, acts := QueueFillsUp(p, n - 1);
      ss, acts := OneMoreWaits(p, ss, acts, n - 1);
    }
  }

  // ---------- one message too many ----------

  /** A finished web job with a document: somebody may still come for it. */
  predicate Waits(w: World, id: Id) {
    id in w.store.jobs && w.store.jobs[id].job.status == Ready && w.store.jobs[id].job.caps.web && 0 < w.store.jobs[id].bytes
  }

  lemma OldScanWaits(p: Plan, s0: System, s: System, n: nat)
    requires Holding(p, s0, n) && Quiet(p, s0, s, n + 1)
    ensures Waits(s.world, OLD)
  {
    hide Total;
  }

  /** What becomes of a message that comes to its commit while the queue is full. */
  lemma TooMany(p: Plan, s0: System, ss: seq<System>, acts: seq<Action>, m: nat, order: seq<Id>)
    returns (ss': seq<System>, acts': seq<Action>)
    requires IsRun(ss, acts) && |ss| == |acts| + 1 && Quiet(p, s0, ss[|acts|], m) && AtBooking(ss[|acts|], m)
    requires |s0.queue| == p.queueCap && EvictionOrder(BookedFor(ss[|acts|], m).jobs, order)
    requires var jobs := MakeRoom(BookedFor(ss[|acts|], m), order).jobs;
      0 < m && OLD in jobs && jobs[OLD].job.status == Evicted
    ensures IsRun(ss', acts') && |ss'| == |acts'| + 1 && |acts'| == |acts| + 3 && ss <= ss' && acts <= acts'
    ensures var j := |acts|; var a := acts'[j];
      && Commits(ss'[j], a) && acts'[j + 1] == Data(a.rid, Enqueue) && acts'[j + 2] == Data(a.rid, DropJob)
      && IsEvicted(ss'[j + 1].world, OLD) && IsEvicted(ss'[j + 3].world, OLD)
      && |ss'[j + 1].queue| == ss'[j + 1].queueCap && Refuses(ss'[j + 2], a.rid)
      && a.rid in ss'[j].desk.calls && ss'[j].desk.calls[a.rid].pc.Committing?
      && ss'[j].desk.calls[a.rid].pc.job.id !in ss'[j + 3].world.store.jobs
  {
    hide IsRun, Guard, KeepsTheRules, Next, EvictionOrder, MakeRoom, BookedFor, Commits;
    CommitsJob(p, s0, ss[|acts|], m, order);
    ss', acts' := Onward(ss, acts, Data(Rid(m), CommitJob(order)));
    FindsTheQueueFull(p, s0, ss'[|acts'|], m);
    ss', acts' := Onward(ss', acts', Data(Rid(m), Enqueue));
    DropsJob(ss'[|acts'|], Rid(m));
    ss', acts' := Onward(ss', acts', Data(Rid(m), DropJob));
  }

  /** "A scan is only ever destroyed to make room for one that was actually accepted" (internal/jobs/store.go:234) does
      not hold when the queue is full. Here the budget has room for one message more than the queue, and the queue is full
      while a finished scan waits to be fetched: the next message's commit evicts it, Enqueue fails, the session deletes
      the new job and refuses the message, and the old scan stays gone. */
  lemma RefusedMessageMayHaveEvicted(p: Plan) returns (ss: seq<System>, acts: seq<Action>, j: nat, scan: Id)
    requires Suits(p) && 0 < p.queueCap && p.cfg.maxStoredBytes == (p.queueCap + 1) * p.cfg.maxMessageBytes
    ensures IsRun(ss, acts) && |acts| == j + 3 && |ss| == j + 4 && ss[0].cfg == p.cfg
    ensures Commits(ss[j], acts[j]) && acts[j + 1] == Data(acts[j].rid, Enqueue) && acts[j + 2] == Data(acts[j].rid, DropJob)
    ensures Waits(ss[j].world, scan) && IsEvicted(ss[j + 1].world, scan) && IsEvicted(ss[j + 3].world, scan)
    ensures |ss[j + 1].queue| == ss[j + 1].queueCap && Refuses(ss[j + 2], acts[j].rid)
    ensures acts[j].rid in ss[j].desk.calls && ss[j].desk.calls[acts[j].rid].pc.Committing?
      && ss[j].desk.calls[acts[j].rid].pc.job.id !in ss[j + 3].world.store.jobs
  {
    hide IsRun, EvictionOrder, MakeRoom, Rested, Quiet, BookedFor, Shelf, Accounted, Commits, IsEvicted, Refuses, Waits, AtBooking;
    ss, acts := QueueFillsUp(p, p.queueCap);
    var s0 := ss[|acts|];
    ss, acts := ToBooking(p, ss, acts, p.queueCap);
    j, scan := |acts|, OLD;
    NextBooking(p, s0, ss[j], p.queueCap);
    OldScanWaits(p, s0, ss[j], p.queueCap);
    ss, acts := TooMany(p, s0, ss, acts, p.queueCap + 1, [OLD]);
  }
}
