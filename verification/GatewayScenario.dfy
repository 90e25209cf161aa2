/** One message, from the printer's connection to the committed job, as a sequence of steps any gateway can take: what a
    run that is to reach a certain state is built from. */
module GatewayScenario {
  import opened JobTypes
  import opened Sums
  import opened JobStore
  import opened JobStoreBudget
  import opened DiskStore
  import opened SessionDesk
  import opened Gateway
  import opened GatewayInv
  import opened GatewayRules
  import opened GatewayRuns
  import opened GatewaySettlement

  const WEB := Capabilities(false, true, false)

  /** A policy that lets one printer's scans in for one recipient, to be fetched from the web. */
  datatype Plan = Plan(cfg: Policy, queueCap: nat, from: string, to: string)

  ghost predicate Suits(p: Plan) {
    && 0 < p.cfg.maxMessageBytes
    && p.cfg.profile(p.from) == Some(WEB)
    && p.cfg.canonical(p.to) != "" && p.cfg.allowed(p.cfg.canonical(p.to))
  }

  /** The ids and the file of message `m`. */
  function Rid(m: nat): Id { 3 * m }
  function JobId(m: nat): Id { 3 * m + 1 }
  function DocId(m: nat): Id { 3 * m + 2 }
  function File(m: nat): Path { Path(Rid(m), 0) }

  lemma Extend(ss: seq<System>, acts: seq<Action>, a: Action) returns (ss': seq<System>)
    requires IsRun(ss, acts) && |ss| == |acts| + 1 && Guard(ss[|acts|], a)
    ensures KeepsTheRules(ss[|acts|], a) && ss' == ss + [Next(ss[|acts|], a)]
    ensures IsRun(ss', acts + [a]) && Follows(ss[|acts|], a, ss'[|acts| + 1])
  {
    hide Guard, KeepsTheRules, Next, SystemInv, Init;
    var s := ss[|acts|];
    EveryStateIsGood(ss, acts, |acts|);
    GuardedStepsKeepTheRules(s, a);
    ss' := ss + [Next(s, a)];
    var acts' := acts + [a];
    forall i | 0 <= i < |acts'| ensures MayFollow(ss'[i], acts'[i], ss'[i + 1]) {
      if i < |acts| {
        assert MayFollow(ss[i], acts[i], ss[i + 1]);
      }
    }
  }

  // ---------- where message m is ----------

  /** Nothing but message `m` moves, and everything after `m` is still unused. */
  ghost predicate Quiet(p: Plan, s0: System, s: System, m: nat) {
    && s.cfg == p.cfg && s.queueCap == p.queueCap && s.queue == s0.queue && s.workers == s0.workers
    && !s.world.store.closed && s.world.store.jobs == s0.world.store.jobs
    && s.world.store.maxBytes == s0.world.store.maxBytes
    && (forall sid :: sid in s.desk.sessions ==> sid <= m)
    && (forall r :: r in s.desk.calls ==> r == Rid(m))
  }

  /** Before message `m`: nobody is connected for it, nothing is reserved, and its ids and files are fresh. */
  ghost predicate Rested(p: Plan, s: System, m: nat) {
    && s.cfg == p.cfg && s.queueCap == p.queueCap && !s.world.store.closed
    && s.world.store.reservations == map[] && s.desk.calls == map[]
    && (forall sid :: sid in s.desk.sessions ==> sid < m)
    && (forall id :: id in s.world.issued ==> id < Rid(m))
    && (forall f :: f in s.world.names ==> f.dir < Rid(m))
  }

  ghost predicate Unreserved(s: System, m: nat) {
    && s.world.store.reservations == map[] && s.desk.calls == map[]
    && (forall id :: id in s.world.issued ==> id < Rid(m))
    && (forall f :: f in s.world.names ==> f.dir < Rid(m))
  }

  predicate Waiting(s: System, m: nat) {
    m in s.desk.sessions && s.desk.sessions[m].holder.None? && s.desk.sessions[m].generation == 0
  }

  ghost predicate InData(s: System, m: nat) {
    && s.world.store.reservations.Keys == {Rid(m)}
    && s.world.store.reservations[Rid(m)].bytes == s.cfg.maxMessageBytes
    && Rid(m) in s.desk.calls && m in s.desk.sessions
    && s.desk.calls[Rid(m)].sid == m && s.desk.calls[Rid(m)].gen == 0 && s.desk.calls[Rid(m)].caps == WEB
    && s.desk.sessions[m].generation == 0
    && (forall id :: id in s.world.issued ==> id < Rid(m + 1))
    && (forall f :: f in s.world.names ==> f.dir < Rid(m + 1))
  }

  /** The job and its document have no ids yet. */
  predicate Nameless(s: System, m: nat) {
    JobId(m) !in s.world.issued && DocId(m) !in s.world.issued
  }

  ghost predicate Staged(s: System, m: nat) {
    && InData(s, m) && Rid(m) in s.desk.stagings && s.desk.stagings[Rid(m)].state.StagingOpen?
    && Rid(m) in s.world.dirs
  }

  lemma Connects(p: Plan, s: System, m: nat)
    requires Suits(p) && Rested(p, s, m)
    ensures var a := Command(NewSession(m)); Guard(s, a) && (KeepsTheRules(s, a) ==>
      var s' := Next(s, a); Quiet(p, s, s', m) && Unreserved(s', m) && Waiting(s', m) && s'.world == s.world)
  {
  }

  lemma SaysMail(p: Plan, s0: System, s: System, m: nat)
    requires Suits(p) && Quiet(p, s0, s, m) && Unreserved(s, m) && Waiting(s, m)
    ensures var a := Command(Mail(m, p.from)); Guard(s, a) && (KeepsTheRules(s, a) ==>
      var s' := Next(s, a);
      Quiet(p, s0, s', m) && Unreserved(s', m) && Waiting(s', m) && s'.desk.sessions[m].caps == WEB)
  {
  }

  lemma SaysRcpt(p: Plan, s0: System, s: System, m: nat)
    requires Suits(p) && Quiet(p, s0, s, m) && Unreserved(s, m) && Waiting(s, m) && s.desk.sessions[m].caps == WEB
    ensures var a := Command(Rcpt(m, p.to)); Guard(s, a) && (KeepsTheRules(s, a) ==>
      var s' := Next(s, a);
      && Quiet(p, s0, s', m) && Unreserved(s', m) && Waiting(s', m) && s'.desk.sessions[m].caps == WEB
      && p.cfg.canonical(p.to) in s'.desk.sessions[m].recipients)
  {
  }

  lemma StartsData(p: Plan, s0: System, s: System, m: nat)
    requires Suits(p) && Quiet(p, s0, s, m) && Unreserved(s, m) && Waiting(s, m) && s.desk.sessions[m].caps == WEB
    requires Valid(s.world.store)
    requires Unsettled(s.world.store) + p.cfg.maxMessageBytes <= s.world.store.maxBytes
    ensures var a := Data(Rid(m), Begin(m)); Guard(s, a) && (KeepsTheRules(s, a) ==>
      var s' := Next(s, a);
      && Quiet(p, s0, s', m) && InData(s', m) && s'.desk.calls[Rid(m)].pc.MakingDir?
      && Nameless(s', m) && File(m) !in s'.world.names)
  {
    hide Total;
    NothingPromised(s.world.store);
    ReserveAdmitsExactly(s.world.store, p.cfg.maxMessageBytes);
    hide ReserveError, Valid;
  }

  lemma NothingPromised(s: State)
    requires s.reservations == map[]
    ensures Promised(s) == 0
  {
    assert ReservationCharges(s.reservations) == map[];
  }

  /** What one step of the Data call leads to, on its way from the reservation to the hand-over. */
  ghost predicate Leads(p: Plan, s0: System, s: System, m: nat, d: DataAct)
    requires Guard(s, Data(Rid(m), d)) && KeepsTheRules(s, Data(Rid(m), d))
  {
    var s' := Next(s, Data(Rid(m), d));
    Quiet(p, s0, s', m) && InData(s', m) && Nameless(s', m)
  }

  lemma MakesDirectory(p: Plan, s0: System, s: System, m: nat)
    requires Quiet(p, s0, s, m) && InData(s, m) && Nameless(s, m) && s.desk.calls[Rid(m)].pc.MakingDir?
    ensures var a := Data(Rid(m), Mkdir(true)); Guard(s, a) && (KeepsTheRules(s, a) ==>
      var s' := Next(s, a);
      && Leads(p, s0, s, m, Mkdir(true)) && s'.desk.calls[Rid(m)].pc.CheckingClosed? && Rid(m) in s'.world.dirs
      && s'.world.names == s.world.names)
  {
  }

  lemma OpensStaging(p: Plan, s0: System, s: System, m: nat)
    requires Quiet(p, s0, s, m) && InData(s, m) && Nameless(s, m)
    requires s.desk.calls[Rid(m)].pc.CheckingClosed? && Rid(m) in s.world.dirs
    ensures var a := Data(Rid(m), CheckClosed); Guard(s, a) && (KeepsTheRules(s, a) ==>
      var s' := Next(s, a);
      && Leads(p, s0, s, m, CheckClosed) && Staged(s', m) && s'.desk.calls[Rid(m)].pc.Extracting? && Waiting(s', m)
      && s'.world.names == s.world.names)
  {
  }

  lemma StagesFile(p: Plan, s0: System, s: System, m: nat)
    requires Quiet(p, s0, s, m) && Staged(s, m) && Nameless(s, m) && s.desk.calls[Rid(m)].pc.Extracting? && Waiting(s, m)
    requires File(m) !in s.world.names
    ensures var a := Data(Rid(m), Stage(File(m))); Guard(s, a) && (KeepsTheRules(s, a) ==>
      var s' := Next(s, a);
      && Leads(p, s0, s, m, Stage(File(m))) && Staged(s', m) && s'.desk.calls[Rid(m)].pc.Extracting? && Waiting(s', m)
      && File(m) in s'.desk.stagings[Rid(m)].files && File(m) in s'.world.disk)
  {
  }

  ghost predicate HasFile(s: System, m: nat) {
    Staged(s, m) && File(m) in s.desk.stagings[Rid(m)].files && File(m) in s.world.disk && s.world.disk[File(m)] == 1
  }

  lemma WritesFile(p: Plan, s0: System, s: System, m: nat)
    requires Quiet(p, s0, s, m) && Staged(s, m) && Nameless(s, m) && s.desk.calls[Rid(m)].pc.Extracting? && Waiting(s, m)
    requires File(m) in s.desk.stagings[Rid(m)].files && File(m) in s.world.disk
    ensures var a := Data(Rid(m), Write(File(m), 1)); Guard(s, a) && (KeepsTheRules(s, a) ==>
      var s' := Next(s, a);
      && Leads(p, s0, s, m, Write(File(m), 1)) && HasFile(s', m)
      && s'.desk.calls[Rid(m)].pc.Extracting? && Waiting(s', m))
  {
  }

  function Scan(m: nat): seq<NewDocument> {
    [NewDocument("scan", File(m))]
  }

  function Handing(m: nat): DataAct {
    DataAct.Handover(Scans(Scan(m), ""))
  }

  lemma HandsOver(p: Plan, s0: System, s: System, m: nat)
    requires Quiet(p, s0, s, m) && HasFile(s, m) && Nameless(s, m) && s.desk.calls[Rid(m)].pc.Extracting? && Waiting(s, m)
    ensures var a := Data(Rid(m), Handing(m)); Guard(s, a) && (KeepsTheRules(s, a) ==>
      var s' := Next(s, a);
      Leads(p, s0, s, m, Handing(m)) && HasFile(s', m) && s'.desk.calls[Rid(m)].pc == Statting(Scan(m), ""))
  {
  }

  /** Checked and about to be booked: a job of one byte, for the web. */
  ghost predicate AtBooking(s: System, m: nat) {
    && InData(s, m) && Rid(m) in s.desk.stagings && s.desk.calls[Rid(m)].pc.Committing?
    && var job := s.desk.calls[Rid(m)].pc.job;
      job.id == JobId(m) && job.caps == WEB && job.status == Pending && job.error == "" && DocBytes(job.documents) == 1
  }

  lemma StatsFile(p: Plan, s0: System, s: System, m: nat)
    requires Quiet(p, s0, s, m) && HasFile(s, m) && Nameless(s, m)
    requires s.desk.calls[Rid(m)].pc == Statting(Scan(m), "")
    ensures var a := Data(Rid(m), Stat(JobId(m), [DocId(m)])); Guard(s, a) && (KeepsTheRules(s, a) ==>
      var s' := Next(s, a); Quiet(p, s0, s', m) && AtBooking(s', m))
  {
    StagedBytes(s, m);
    hide Suits;
  }

  lemma StagedBytes(s: System, m: nat)
    requires HasFile(s, m) && s.desk.calls[Rid(m)].pc == Statting(Scan(m), "")
    ensures DocBytes(StagedJob(s.world, s.desk.calls[Rid(m)], JobId(m), [DocId(m)]).documents) == 1
  {
    var docs := StagedJob(s.world, s.desk.calls[Rid(m)], JobId(m), [DocId(m)]).documents;
    assert docs[1..] == [] && docs[0].size == 1;
  }

  // ---------- from a rested gateway to a committed job ----------

  lemma Onward(ss: seq<System>, acts: seq<Action>, a: Action) returns (ss': seq<System>, acts': seq<Action>)
    requires IsRun(ss, acts) && |ss| == |acts| + 1 && Guard(ss[|acts|], a)
    ensures KeepsTheRules(ss[|acts|], a) && ss' == ss + [Next(ss[|acts|], a)] && acts' == acts + [a]
    ensures IsRun(ss', acts')
  {
    hide *;
    ss' := Extend(ss, acts, a);
    acts' := acts + [a];
  }

  /** The printer connects and names sender and recipient. */
  lemma Introduced(p: Plan, ss: seq<System>, acts: seq<Action>, m: nat)
    returns (ss': seq<System>, acts': seq<Action>)
    requires Suits(p) && IsRun(ss, acts) && |ss| == |acts| + 1 && Rested(p, ss[|acts|], m)
    ensures IsRun(ss', acts') && |ss'| == |acts'| + 1 && |acts'| == |acts| + 3
    ensures ss <= ss' && acts <= acts'
    ensures var s := ss'[|acts'|];
      && Quiet(p, ss[|acts|], s, m) && Unreserved(s, m) && Waiting(s, m)
      && m in s.desk.sessions && s.desk.sessions[m].caps == WEB
  {
    hide IsRun, Guard, KeepsTheRules, Next, Quiet, Unreserved, Suits, Rested, Follows;
    var s0 := ss[|acts|];
    Connects(p, s0, m);
    ss', acts' := Onward(ss, acts, Command(NewSession(m)));
    SaysMail(p, s0, ss'[|acts'|], m);
    ss', acts' := Onward(ss', acts', Command(Mail(m, p.from)));
    SaysRcpt(p, s0, ss'[|acts'|], m);
    ss', acts' := Onward(ss', acts', Command(Rcpt(m, p.to)));
  }

  lemma SameWork(p: Plan, s0: System, s: System, m: nat)
    requires Quiet(p, s0, s, m)
    ensures Unsettled(s.world.store) == Unsettled(s0.world.store) && s.world.store.maxBytes == s0.world.store.maxBytes
  {
    hide Total;
  }

  lemma BooksAreGood(ss: seq<System>, acts: seq<Action>)
    requires IsRun(ss, acts) && |ss| == |acts| + 1
    ensures SystemInv(ss[|acts|]) && Valid(ss[|acts|].world.store)
  {
    hide IsRun, KeepsTheRules, Next;
    EveryStateIsGood(ss, acts, |acts|);
  }

  /** Data takes its reservation and opens its staging. */
  lemma Reserved(p: Plan, s0: System, ss: seq<System>, acts: seq<Action>, m: nat)
    returns (ss': seq<System>, acts': seq<Action>)
    requires Suits(p) && IsRun(ss, acts) && |ss| == |acts| + 1
    requires var s := ss[|acts|];
      && Quiet(p, s0, s, m) && Unreserved(s, m) && Waiting(s, m)
      && m in s.desk.sessions && s.desk.sessions[m].caps == WEB
    requires Unsettled(s0.world.store) + p.cfg.maxMessageBytes <= s0.world.store.maxBytes
    ensures IsRun(ss', acts') && |ss'| == |acts'| + 1 && |acts'| == |acts| + 3
    ensures ss <= ss' && acts <= acts'
    ensures var s := ss'[|acts'|];
      && Quiet(p, s0, s, m) && InData(s, m) && Nameless(s, m) && Staged(s, m) && Waiting(s, m)
      && s.desk.calls[Rid(m)].pc.Extracting? && File(m) !in s.world.names
  {
    hide IsRun, Guard, KeepsTheRules, Next, Quiet, Unreserved, Nameless, Suits, Rested, Follows, Valid, SystemInv;
    SameWork(p, s0, ss[|acts|], m);
    BooksAreGood(ss, acts);
    StartsData(p, s0, ss[|acts|], m);
    ss', acts' := Onward(ss, acts, Data(Rid(m), Begin(m)));
    MakesDirectory(p, s0, ss'[|acts'|], m);
    ss', acts' := Onward(ss', acts', Data(Rid(m), Mkdir(true)));
    OpensStaging(p, s0, ss'[|acts'|], m);
    ss', acts' := Onward(ss', acts', Data(Rid(m), CheckClosed));
  }

  /** It extracts one PDF of one byte, hands over and checks it. */
  lemma ComesToBooking(p: Plan, s0: System, ss: seq<System>, acts: seq<Action>, m: nat)
    returns (ss': seq<System>, acts': seq<Action>)
    requires IsRun(ss, acts) && |ss| == |acts| + 1
    requires var s := ss[|acts|];
      && Quiet(p, s0, s, m) && InData(s, m) && Nameless(s, m) && Staged(s, m) && Waiting(s, m)
      && s.desk.calls[Rid(m)].pc.Extracting? && File(m) !in s.world.names
    ensures IsRun(ss', acts') && |ss'| == |acts'| + 1 && |acts'| == |acts| + 4
    ensures ss <= ss' && acts <= acts'
    ensures Quiet(p, s0, ss'[|acts'|], m) && AtBooking(ss'[|acts'|], m)
  {
    hide IsRun, Guard, KeepsTheRules, Next, Quiet, Nameless, Suits, Rested, Follows, AtBooking;
    StagesFile(p, s0, ss[|acts|], m);
    ss', acts' := Onward(ss, acts, Data(Rid(m), Stage(File(m))));
    WritesFile(p, s0, ss'[|acts'|], m);
    ss', acts' := Onward(ss', acts', Data(Rid(m), Write(File(m), 1)));
    HandsOver(p, s0, ss'[|acts'|], m);
    ss', acts' := Onward(ss', acts', Data(Rid(m), Handing(m)));
    StatsFile(p, s0, ss'[|acts'|], m);
    ss', acts' := Onward(ss', acts', Data(Rid(m), Stat(JobId(m), [DocId(m)])));
  }

  // ---------- the commit ----------

  /** The books as message `m` leaves them: its job with its whole reservation, before room is made. */
  ghost function BookedFor(s: System, m: nat): State
    requires AtBooking(s, m)
  {
    Booked(s.world.store, Rid(m), s.desk.calls[Rid(m)].pc.job, s.desk.stagings[Rid(m)].files)
  }

  /** Committed and holding the mutex, about to queue the job. */
  ghost predicate AtQueueing(p: Plan, s0: System, s: System, m: nat) {
    && s.cfg == p.cfg && s.queueCap == p.queueCap && s.queue == s0.queue && s.workers == s0.workers
    && !s.world.store.closed && s.world.store.reservations == map[]
    && s.desk.calls.Keys == {Rid(m)} && InCall(s.desk, Rid(m))
    && s.desk.calls[Rid(m)].pc.Enqueuing? && s.desk.calls[Rid(m)].pc.job.id == JobId(m)
    && s.desk.calls[Rid(m)].pc.job.caps == WEB
    && (forall sid :: sid in s.desk.sessions ==> sid <= m)
    && (forall id :: id in s.world.issued ==> id < Rid(m + 1))
    && (forall f :: f in s.world.names ==> f.dir < Rid(m + 1))
  }

  lemma CommitsJob(p: Plan, s0: System, s: System, m: nat, order: seq<Id>)
    requires Quiet(p, s0, s, m) && AtBooking(s, m) && EvictionOrder(BookedFor(s, m).jobs, order)
    ensures var a := Data(Rid(m), CommitJob(order)); Guard(s, a) && Commits(s, a) && (KeepsTheRules(s, a) ==>
      AtQueueing(p, s0, Next(s, a), m) && Next(s, a).world.store == MakeRoom(BookedFor(s, m), order))
  {
    hide EvictionOrder, MakeRoom, DocsOnDisk, DistinctDocs;
    RoomKeepsTheRest(BookedFor(s, m), order);
  }

  lemma RoomKeepsTheRest(s: State, order: seq<Id>)
    requires EvictionOrder(s.jobs, order)
    ensures var s' := MakeRoom(s, order);
      s'.reservations == s.reservations && s'.closed == s.closed && s'.maxBytes == s.maxBytes && s'.ttl == s.ttl
  {
    hide Total;
  }

  lemma QueuesJob(p: Plan, s0: System, s: System, m: nat)
    requires AtQueueing(p, s0, s, m) && |s.queue| < s.queueCap
    ensures var a := Data(Rid(m), Enqueue); Guard(s, a) && (KeepsTheRules(s, a) ==>
      var s' := Next(s, a);
      && Rested(p, s', m + 1) && s'.world.store == s.world.store && s'.workers == s.workers
      && s'.queue == s.queue + [s.desk.calls[Rid(m)].pc.job])
  {
  }

  lemma FindsTheQueueFull(p: Plan, s0: System, s: System, m: nat)
    requires AtQueueing(p, s0, s, m) && |s.queue| >= s.queueCap
    ensures var a := Data(Rid(m), Enqueue); Guard(s, a) && (KeepsTheRules(s, a) ==>
      var s' := Next(s, a);
      && s'.world == s.world && s'.desk.calls.Keys == {Rid(m)} && InCall(s'.desk, Rid(m))
      && s'.desk.calls[Rid(m)].pc == Dropping(s.desk.calls[Rid(m)].pc.job))
  {
  }

  lemma DropsJob(s: System, rid: Id)
    requires InCall(s.desk, rid) && s.desk.calls[rid].pc.Dropping?
    ensures var a := Data(rid, DropJob); Guard(s, a) && (KeepsTheRules(s, a) ==>
      var s' := Next(s, a); var id := s.desk.calls[rid].pc.job.id;
      && rid !in s'.desk.calls && id !in s'.world.store.jobs
      && forall x :: x in s.world.store.jobs && x != id ==>
           x in s'.world.store.jobs && s'.world.store.jobs[x] == s.world.store.jobs[x])
  {
  }

  /** A whole message: ten steps from a rested gateway to the point where its job is about to be booked. */
  lemma MessageArrives(p: Plan, ss: seq<System>, acts: seq<Action>, m: nat)
    returns (ss': seq<System>, acts': seq<Action>)
    requires Suits(p) && IsRun(ss, acts) && |ss| == |acts| + 1 && Rested(p, ss[|acts|], m)
    requires var store := ss[|acts|].world.store; Unsettled(store) + p.cfg.maxMessageBytes <= store.maxBytes
    ensures IsRun(ss', acts') && |ss'| == |acts'| + 1 && |acts'| == |acts| + 10
    ensures ss <= ss' && acts <= acts'
    ensures Quiet(p, ss[|acts|], ss'[|acts'|], m) && AtBooking(ss'[|acts'|], m)
  {
    hide *;
    var s0 := ss[|acts|];
    ss', acts' := Introduced(p, ss, acts, m);
    ss', acts' := Reserved(p, s0, ss', acts', m);
    ss', acts' := ComesToBooking(p, s0, ss', acts', m);
  }

  // ---------- a worker finishes a web job ----------

  lemma TakesJob(s: System, wid: WorkerId)
    requires s.queue != [] && wid !in s.workers
    ensures var a := Work(wid, Take); Guard(s, a) && (KeepsTheRules(s, a) ==>
      var s' := Next(s, a);
      && s'.world == s.world && s'.desk == s.desk && s'.cfg == s.cfg && s'.queueCap == s.queueCap
      && s'.queue == s.queue[1..] && s'.workers == s.workers[wid := Worker(s.queue[0], Taken)])
  {
  }

  lemma StartsJob(s: System, wid: WorkerId)
    requires wid in s.workers && s.workers[wid].pc.Taken? && s.workers[wid].job.caps == WEB
    requires StatusError(s.world.store, s.workers[wid].job.id) == None
    ensures var a := Work(wid, Start); Guard(s, a) && (KeepsTheRules(s, a) ==>
      var s' := Next(s, a); var job := s.workers[wid].job;
      && s'.world == s.world.(store := Settled(s.world.store, job.id, Processing, "", s.world.clock))
      && s'.desk == s.desk && s'.cfg == s.cfg && s'.queueCap == s.queueCap && s'.queue == s.queue
      && s'.workers == s.workers[wid := Worker(job, Finishing)])
  {
    hide EvictionOrder;
  }

  lemma FinishesJob(s: System, wid: WorkerId, order: seq<Id>)
    requires wid in s.workers && s.workers[wid].pc.Finishing? && s.workers[wid].job.caps == WEB
    requires StatusError(s.world.store, s.workers[wid].job.id) == None
    requires EvictionOrder(Settled(s.world.store, s.workers[wid].job.id, Ready, "", s.world.clock).jobs, order)
    ensures var a := Work(wid, Finish(order)); Guard(s, a) && (KeepsTheRules(s, a) ==>
      var s' := Next(s, a); var job := s.workers[wid].job;
      && s'.world.store == MakeRoom(Settled(s.world.store, job.id, Ready, "", s.world.clock), order)
      && s'.world.issued == s.world.issued && s'.world.names == s.world.names
      && s'.desk == s.desk && s'.cfg == s.cfg && s'.queueCap == s.queueCap && s'.queue == s.queue
      && s'.workers == s.workers - {wid})
  {
    hide EvictionOrder, MakeRoom;
  }
}
