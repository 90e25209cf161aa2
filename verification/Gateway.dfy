/** SMTP sessions, the worker pool, the sweeper and deferred file removals over one store, as one state machine.
    One action is one critical section, one channel operation or one file operation of internal/smtpin/session.go,
    internal/pipeline/pipeline.go and internal/jobs/store.go; any of them may come next.
    A Data call is named by the reservation it takes. */
module Gateway {
  import opened JobTypes
  import opened JobStore
  import opened DiskStore
  import opened SessionDesk

  type WorkerId = nat

  /** What a session asks the configuration: the canonical form of an address ("" if implausible), the profile of an
      envelope sender, whether a canonical recipient may receive scans, and the two byte limits.
      `ConfigRules` says what they are for a loaded configuration. */
  datatype Policy = Policy(
    canonical: string -> string, profile: string -> Option<Capabilities>, allowed: string -> bool,
    maxMessageBytes: int, maxStoredBytes: int)

  /** What mimescan.Extract and the rest of the message came to. */
  datatype Extracted = Refused | Scans(docs: seq<NewDocument>, subject: string)

  /** Where a worker is. */
  datatype WorkerPc =
    | Taken
    | OcrNext(i: nat)
    | OcrAsk(i: nat)
    | OcrTouch(i: nat, dir: Id)
    | OcrRegister(i: nat, out: Path)
    | OcrRun(i: nat, out: Path)
    | OcrLstat(i: nat, out: Path)
    | OcrSwap(i: nat, out: Path, size: nat)
    | OcrStat(i: nat, out: Path)
    | Mailing
    | TooLargeNotice
    | Finishing
    | Failing(reason: string)
    | FailNotice
    | FailDelete

  /** A busy worker and its own copy of the job. */
  datatype Worker = Worker(job: Job, pc: WorkerPc)

  /** Who is responsible for a job that is not finished yet. */
  datatype Owner = BySession(rid: Id) | Queued | ByWorker(wid: WorkerId)

  /** Every message the mailer was asked to send for one job, as the worker's copy of it stood. */
  datatype MailLog = MailLog(scans: seq<Job>, notices: seq<Job>)

  datatype SendOutcome = Sent | TooLarge | SendFailed

  datatype System = System(
    world: World, cfg: Policy, queueCap: nat, desk: Desk, queue: seq<Job>, workers: map<WorkerId, Worker>,
    owner: map<Id, Owner>, mail: map<Id, MailLog>)

  const REASON_OCR := "Text recognition failed, so the scan was not delivered."
  const REASON_OCR_WEB := "Text recognition failed, so the scan could not be made searchable."
  const REASON_SEND := "The scan could not be sent by email."

  /** What go-smtp's command loop does to a session, and the Abort a Reset has started. */
  datatype Command =
    | NewSession(sid: SessionId)
    | Mail(sid: SessionId, from: string)
    | Rcpt(sid: SessionId, to: string)
    | Reset(sid: SessionId)
    | ResetAbort(rid: Id)
    | ResetRelease(rid: Id)

  /** One step of a Data call, on go-smtp's BDAT goroutine or the command loop. */
  datatype DataAct =
    | Begin(sid: SessionId)
    | Mkdir(ok: bool)
    | CheckClosed
    | Undo
    | Stage(path: Path)
    | Write(path: Path, size: nat)
    | Reject(path: Path)
    | Handover(extracted: Extracted)
    | Stat(jobId: Id, docIds: seq<Id>)
    | CommitJob(order: seq<Id>)
    | Enqueue
    | DropJob
    | Abort
    | ReleaseStaging

  /** One step of a worker. */
  datatype WorkAct =
    | Take
    | Start
    | Open
    | Ask
    | Touch(file: Option<Path>)
    | RegisterOut
    | RunOcr(ok: bool, size: nat)
    | Lstat
    | Swap
    | StatOut
    | Deliver(outcome: SendOutcome)
    | NoticeTooLarge
    | Finish(order: seq<Id>)
    | Fail(order: seq<Id>)
    | NoticeFailed
    | DeleteFailed

  /** The sweeper, shutdown, deferred removals, time. */
  datatype EnvAct = Sweep(now: int) | Close | Remove(removal: Removal) | Pass(now: int)

  datatype Action =
    | Command(c: Command)
    | Data(rid: Id, d: DataAct)
    | Work(wid: WorkerId, k: WorkAct)
    | Env(e: EnvAct)

  // ---------- when an action may come next: program counters, free locks, fresh names, a valid sort ----------

  predicate CommandGuard(s: System, c: Command) {
    match c
    case NewSession(sid) => sid !in s.desk.sessions
    case Mail(sid, _) => Free(s.desk, sid)
    case Rcpt(sid, _) => Free(s.desk, sid)
    case Reset(sid) => Free(s.desk, sid)
    case ResetAbort(rid) => rid in s.desk.resets && s.desk.resets[rid].ResetAborting? && rid in s.desk.stagings
    case ResetRelease(rid) => rid in s.desk.resets && s.desk.resets[rid].ResetReleasing?
  }

  ghost predicate DataGuard(s: System, rid: Id, d: DataAct) {
    if d.Begin? then
      && Free(s.desk, d.sid) && rid !in s.world.issued && 0 <= s.cfg.maxMessageBytes
      && ReserveError(s.world.store, s.cfg.maxMessageBytes) == None
    else InCall(s.desk, rid) && CallPcFits(s, rid, s.desk.calls[rid], d)
  }

  /** The call is where this step starts, and what it needs from outside is to hand. */
  ghost predicate CallPcFits(s: System, rid: Id, c: Call, d: DataAct) {
    match d
    case Begin(_) => false
    case Mkdir(_) => c.pc.MakingDir?
    case CheckClosed => c.pc.CheckingClosed?
    case Undo => c.pc.Undoing?
    case Stage(path) =>
      && c.pc.Extracting? && rid in s.desk.stagings && s.desk.stagings[rid].state.StagingOpen?
      && path.dir == rid && rid in s.world.dirs && path !in s.world.names
    case Write(path, _) =>
      c.pc.Extracting? && rid in s.desk.stagings && path in s.desk.stagings[rid].files && path in s.world.disk
    case Reject(path) => c.pc.Extracting? && rid in s.desk.stagings && path in s.desk.stagings[rid].files
    case Handover(e) =>
      && c.pc.Extracting? && Free(s.desk, c.sid)
      && (e.Scans? ==> forall i, j :: 0 <= i < j < |e.docs| ==> e.docs[i].path != e.docs[j].path)
    case Stat(jobId, docIds) =>
      && c.pc.Statting? && rid in s.desk.stagings && |docIds| == |c.pc.docs|
      && FreshIds(s.world.issued, jobId, docIds)
    case CommitJob(order) =>
      && c.pc.Committing? && rid in s.desk.stagings
      && (CommitError(s.world.store, rid) == None ==>
            EvictionOrder(Booked(s.world.store, rid, c.pc.job, s.desk.stagings[rid].files).jobs, order))
    case Enqueue => c.pc.Enqueuing?
    case DropJob => c.pc.Dropping?
    case Abort => c.pc.Aborting? && rid in s.desk.stagings
    case ReleaseStaging => c.pc.Releasing?
  }

  ghost predicate FreshIds(issued: set<Id>, jobId: Id, docIds: seq<Id>) {
    && jobId !in issued && jobId !in docIds
    && (forall i :: 0 <= i < |docIds| ==> docIds[i] !in issued)
    && (forall i, j :: 0 <= i < j < |docIds| ==> docIds[i] != docIds[j])
  }

  ghost predicate WorkGuard(s: System, wid: WorkerId, k: WorkAct) {
    if k.Take? then wid !in s.workers && s.queue != []
    else wid in s.workers && PcFits(s, s.workers[wid], k)
  }

  ghost predicate PcFits(s: System, wk: Worker, k: WorkAct) {
    match k
    case Take => false
    case Start => wk.pc.Taken?
    case Open => wk.pc.OcrNext?
    case Ask => wk.pc.OcrAsk?
    case Touch(file) =>
      && wk.pc.OcrTouch?
      && (file.Some? ==>
            file.value.dir == wk.pc.dir && file.value.dir in s.world.dirs && file.value !in s.world.names)
    case RegisterOut => wk.pc.OcrRegister?
    case RunOcr(_, _) => wk.pc.OcrRun?
    case Lstat => wk.pc.OcrLstat?
    case Swap => wk.pc.OcrSwap?
    case StatOut => wk.pc.OcrStat?
    case Deliver(_) => wk.pc.Mailing?
    case NoticeTooLarge => wk.pc.TooLargeNotice?
    case Finish(order) => wk.pc.Finishing? && SortedFor(s, wk.job.id, Ready, "", order)
    case Fail(order) => wk.pc.Failing? && SortedFor(s, wk.job.id, Failed, wk.pc.reason, order)
    case NoticeFailed => wk.pc.FailNotice?
    case DeleteFailed => wk.pc.FailDelete?
  }

  ghost predicate SortedFor(s: System, id: Id, st: Status, msg: string, order: seq<Id>) {
    StatusError(s.world.store, id) == None ==>
      EvictionOrder(Settled(s.world.store, id, st, msg, s.world.clock).jobs, order)
  }

  predicate EnvGuard(s: System, e: EnvAct) {
    match e
    case Sweep(now) => now <= s.world.clock
    case Close => true
    case Remove(removal) => removal in s.world.removals
    case Pass(now) => s.world.clock <= now
  }

  ghost predicate Guard(s: System, a: Action) {
    match a
    case Command(c) => CommandGuard(s, c)
    case Data(rid, d) => DataGuard(s, rid, d)
    case Work(wid, k) => WorkGuard(s, wid, k)
    case Env(e) => EnvGuard(s, e)
  }

  // ---------- what an action does to the store and its files ----------

  /** Commit's own checks, made before anything is changed: an open staging, at least one document, and every one a
      regular file this staging created. */
  predicate Statable(w: World, st: Staging, docs: seq<NewDocument>) {
    && st.state.StagingOpen? && docs != []
    && forall i :: 0 <= i < |docs| ==> docs[i].path in st.files && docs[i].path in w.disk
  }

  ghost function DataOp(s: System, rid: Id, d: DataAct): Option<Op>
    requires DataGuard(s, rid, d)
  {
    if d.Begin? then Some(Op.Reserve(rid, s.cfg.maxMessageBytes))
    else
      var c := s.desk.calls[rid];
      match d
      case Mkdir(ok) => if ok then Some(MakeDir(rid)) else None
      case Undo => Some(Op.Release(rid, c.pc.rmdir))
      case Stage(path) => Some(CreateFile(path))
      case Write(path, size) => Some(WriteFile(path, size))
      case Reject(path) => Some(DropFile(path))
      case Stat(jobId, docIds) =>
        if Statable(s.world, s.desk.stagings[rid], c.pc.docs)
        then Some(Issue({jobId} + set i | 0 <= i < |docIds| :: docIds[i])) else None
      case CommitJob(order) =>
        if CommitError(s.world.store, rid) == None
        then Some(Op.Commit(rid, c.pc.job, s.desk.stagings[rid].files, order)) else None
      case DropJob => DeleteOp(s.world.store, c.pc.job.id)
      case ReleaseStaging => Some(Op.Release(rid, true))
      case _ => None
  }

  function DeleteOp(store: State, id: Id): Option<Op> {
    if id in store.jobs then Some(Op.Delete(id)) else None
  }

  function StatusOp(store: State, id: Id, st: Status, msg: string, order: seq<Id>): Option<Op> {
    if StatusError(store, id) == None then Some(Op.SetStatus(id, st, msg, order)) else None
  }

  /** ReplaceDocument would go through. */
  predicate CanSwap(store: State, wk: Worker)
    requires wk.pc.OcrSwap?
  {
    && wk.pc.i < |wk.job.documents|
    && ReplaceError(store, wk.job.id, wk.job.documents[wk.pc.i].id, wk.pc.out) == None
  }

  ghost function WorkOp(s: System, wid: WorkerId, k: WorkAct): Option<Op>
    requires WorkGuard(s, wid, k)
  {
    if k.Take? then None
    else
      var store := s.world.store;
      var wk := s.workers[wid];
      match k
      case Start => StatusOp(store, wk.job.id, Processing, "", [])
      case Touch(file) => if file.Some? then Some(CreateFile(file.value)) else None
      case RegisterOut =>
        if StatusError(store, wk.job.id) == None then Some(Op.Register(wk.job.id, wk.pc.out))
        else Some(DropFile(wk.pc.out))
      case RunOcr(_, size) => if wk.pc.out in s.world.disk then Some(WriteFile(wk.pc.out, size)) else None
      case Swap =>
        if CanSwap(store, wk) then Some(Op.Replace(wk.job.id, wk.job.documents[wk.pc.i].id, wk.pc.out, wk.pc.size))
        else None
      case Finish(order) =>
        if wk.job.caps.web then StatusOp(store, wk.job.id, Ready, "", order) else DeleteOp(store, wk.job.id)
      case Fail(order) => StatusOp(store, wk.job.id, Failed, wk.pc.reason, order)
      case DeleteFailed => DeleteOp(store, wk.job.id)
      case _ => None
  }

  ghost function OpOf(s: System, a: Action): Option<Op>
    requires Guard(s, a)
  {
    match a
    case Command(c) => if c.ResetRelease? then Some(Op.Release(c.rid, true)) else None
    case Data(rid, d) => DataOp(s, rid, d)
    case Work(wid, k) => WorkOp(s, wid, k)
    case Env(e) =>
      match e
      case Sweep(now) => Some(Op.Sweep(now))
      case Close => Some(Op.Close)
      case Remove(removal) => Some(RunRemoval(removal))
      case Pass(now) => Some(Tick(now))
  }

  // ---------- what it does to everything else ----------

  function StagedJob(w: World, c: Call, jobId: Id, docIds: seq<Id>): Job
    requires c.pc.Statting? && |docIds| == |c.pc.docs|
    requires forall i :: 0 <= i < |c.pc.docs| ==> c.pc.docs[i].path in w.disk
  {
    Job(jobId, w.clock, w.clock + w.store.ttl, c.profile, c.caps, c.pc.subject, c.recipients,
        seq(|docIds|, i requires 0 <= i < |docIds| =>
          Document(docIds[i], c.pc.docs[i].displayName, c.pc.docs[i].path, w.disk[c.pc.docs[i].path], false)),
        Pending, "")
  }

  function CommandMove(s: System, c: Command): Option<Move>
    requires CommandGuard(s, c)
  {
    match c
    case NewSession(sid) => Some(Connect(sid))
    case Mail(sid, from) =>
      var caps := s.cfg.profile(from);
      if caps.None? then None
      else Some(SetEnvelope(sid, s.cfg.canonical(from), caps.value, s.desk.sessions[sid].recipients))
    case Rcpt(sid, to) =>
      var canon := s.cfg.canonical(to);
      var ses := s.desk.sessions[sid];
      if canon == "" || !s.cfg.allowed(canon) || canon in ses.recipients then None
      else Some(SetEnvelope(sid, ses.profile, ses.caps, ses.recipients + [canon]))
    case Reset(sid) => Some(Move.Reset(sid))
    case ResetAbort(rid) => Some(Move.ResetAbort(rid))
    case ResetRelease(rid) => Some(Move.ResetRelease(rid))
  }

  function DataMove(s: System, rid: Id, d: DataAct): Option<Move>
    requires d.Begin? || rid in s.desk.calls
    requires !d.Begin? ==> CallPcReady(s, rid, s.desk.calls[rid], d)
  {
    if d.Begin? then Some(Move.Reserve(d.sid, rid))
    else
      var c := s.desk.calls[rid];
      match d
      case Mkdir(ok) => Some(Advance(rid, if ok then CheckingClosed else Undoing(false)))
      case CheckClosed => if s.world.store.closed then Some(Advance(rid, Undoing(true))) else Some(OpenStaging(rid))
      case Undo => Some(ReturnReleased(rid))
      case Stage(path) => Some(AddFile(rid, path))
      case Handover(e) =>
        if e.Refused? then Some(Move.Handover(rid, true, [], ""))
        else Some(Move.Handover(rid, false, e.docs, e.subject))
      case Stat(jobId, docIds) =>
        if Statable(s.world, s.desk.stagings[rid], c.pc.docs)
        then Some(Advance(rid, Committing(StagedJob(s.world, c, jobId, docIds))))
        else Some(Advance(rid, Aborting))
      case CommitJob(_) =>
        if CommitError(s.world.store, rid) == None then Some(Move.Commit(rid)) else Some(Advance(rid, Aborting))
      case Enqueue => if |s.queue| < s.queueCap then Some(Return(rid)) else Some(Advance(rid, Dropping(c.pc.job)))
      case DropJob => Some(Return(rid))
      case Abort => Some(Move.Abort(rid))
      case ReleaseStaging => Some(ReturnReleased(rid))
      case _ => None
  }

  predicate CallPcReady(s: System, rid: Id, c: Call, d: DataAct) {
    && (d.Stat? ==> c.pc.Statting? && rid in s.desk.stagings && |d.docIds| == |c.pc.docs|)
    && (d.Enqueue? ==> c.pc.Enqueuing?)
  }

  ghost function MoveOf(s: System, a: Action): Option<Move>
    requires Guard(s, a)
  {
    match a
    case Command(c) => CommandMove(s, c)
    case Data(rid, d) => DataMove(s, rid, d)
    case Work(_, _) => None
    case Env(e) =>
      match e
      case Sweep(now) => Some(Leak(Leaked(s.world.store, now)))
      case Close => Some(Leak(s.world.store.reservations.Keys))
      case _ => None
  }

  /** Whose job it is now, and the queue. */
  ghost function DataStep(s: System, rid: Id, d: DataAct): System
    requires DataGuard(s, rid, d)
  {
    if d.Begin? then s
    else
      var pc := s.desk.calls[rid].pc;
      match d
      case Stat(jobId, _) =>
        if Statable(s.world, s.desk.stagings[rid], pc.docs) then s.(owner := s.owner[jobId := BySession(rid)]) else s
      case CommitJob(_) => if CommitError(s.world.store, rid) == None then s else s.(owner := s.owner - {pc.job.id})
      case Enqueue =>
        if |s.queue| < s.queueCap
        then s.(queue := s.queue + [pc.job], owner := s.owner[pc.job.id := Queued]) else s
      case DropJob => s.(owner := s.owner - {pc.job.id})
      case _ => s
  }

  function GoTo(s: System, wid: WorkerId, pc: WorkerPc): System
    requires wid in s.workers
  {
    s.(workers := s.workers[wid := s.workers[wid].(pc := pc)])
  }

  /** The worker is done with the job and waits for the next one. */
  function Done(s: System, wid: WorkerId): System
    requires wid in s.workers
  {
    s.(workers := s.workers - {wid}, owner := s.owner - {s.workers[wid].job.id})
  }

  function MailFor(s: System, id: Id): MailLog {
    if id in s.mail then s.mail[id] else MailLog([], [])
  }

  function Mailed(s: System, job: Job): System {
    s.(mail := s.mail[job.id := MailFor(s, job.id).(scans := MailFor(s, job.id).scans + [job])])
  }

  function Noticed(s: System, job: Job): System {
    s.(mail := s.mail[job.id := MailFor(s, job.id).(notices := MailFor(s, job.id).notices + [job])])
  }

  function AfterOcr(job: Job): WorkerPc {
    if job.caps.email then Mailing else Finishing
  }

  function OcrFailed(job: Job): WorkerPc {
    Failing(if job.caps.web then REASON_OCR_WEB else REASON_OCR)
  }

  function AfterNotice(s: System, wid: WorkerId): System
    requires wid in s.workers
  {
    if s.workers[wid].job.caps.web then Done(s, wid) else GoTo(s, wid, FailDelete)
  }

  function WithOcr(docs: seq<Document>, i: nat, out: Path, size: nat): (r: seq<Document>)
    requires i < |docs|
  {
    docs[i := docs[i].(path := out, size := size, ocrApplied := true)]
  }

  ghost function WorkStep(s: System, wid: WorkerId, k: WorkAct): System
    requires WorkGuard(s, wid, k)
  {
    if k.Take? then
      var job := s.queue[0];
      s.(queue := s.queue[1..], workers := s.workers[wid := Worker(job, Taken)],
         owner := s.owner[job.id := ByWorker(wid)])
    else
      var store := s.world.store;
      var wk := s.workers[wid];
      match k
      case Start =>
        if StatusError(store, wk.job.id) != None then Done(s, wid)
        else GoTo(s, wid, if wk.job.caps.ocr then OcrNext(0) else AfterOcr(wk.job))
      case Open =>
        if |wk.job.documents| <= wk.pc.i then GoTo(s, wid, AfterOcr(wk.job))
        else if wk.job.documents[wk.pc.i].path in s.world.disk then GoTo(s, wid, OcrAsk(wk.pc.i))
        else GoTo(s, wid, OcrFailed(wk.job))
      case Ask =>
        if StatusError(store, wk.job.id) != None then GoTo(s, wid, OcrFailed(wk.job))
        else GoTo(s, wid, OcrTouch(wk.pc.i, store.jobs[wk.job.id].dir))
      case Touch(file) =>
        if file.None? then GoTo(s, wid, OcrFailed(wk.job)) else GoTo(s, wid, OcrRegister(wk.pc.i, file.value))
      case RegisterOut =>
        if StatusError(store, wk.job.id) != None then GoTo(s, wid, OcrFailed(wk.job))
        else GoTo(s, wid, OcrRun(wk.pc.i, wk.pc.out))
      case RunOcr(ok, _) =>
        if ok then GoTo(s, wid, OcrLstat(wk.pc.i, wk.pc.out)) else GoTo(s, wid, OcrFailed(wk.job))
      case Lstat =>
        if wk.pc.out in s.world.disk then GoTo(s, wid, OcrSwap(wk.pc.i, wk.pc.out, s.world.disk[wk.pc.out]))
        else GoTo(s, wid, OcrFailed(wk.job))
      case Swap =>
        if CanSwap(store, wk) then GoTo(s, wid, OcrStat(wk.pc.i, wk.pc.out)) else GoTo(s, wid, OcrFailed(wk.job))
      case StatOut =>
        if wk.pc.i < |wk.job.documents| && wk.pc.out in s.world.disk then
          var docs := WithOcr(wk.job.documents, wk.pc.i, wk.pc.out, s.world.disk[wk.pc.out]);
          s.(workers := s.workers[wid := Worker(wk.job.(documents := docs), OcrNext(wk.pc.i + 1))])
        else GoTo(s, wid, OcrFailed(wk.job))
      case Deliver(outcome) =>
        GoTo(Mailed(s, wk.job), wid,
             match outcome case Sent => Finishing case TooLarge => TooLargeNotice case SendFailed => Failing(REASON_SEND))
      case NoticeTooLarge => GoTo(Noticed(s, wk.job), wid, Finishing)
      case Finish(_) => Done(s, wid)
      case Fail(_) => if wk.job.caps.email then GoTo(s, wid, FailNotice) else AfterNotice(s, wid)
      case NoticeFailed => AfterNotice(Noticed(s, wk.job), wid)
      case DeleteFailed => Done(s, wid)
  }

  ghost function LocalStep(s: System, a: Action): System
    requires Guard(s, a)
  {
    match a
    case Data(rid, d) => DataStep(s, rid, d)
    case Work(wid, k) => WorkStep(s, wid, k)
    case _ => s
  }

  /** The step on the store and the move on the desk, where there is one, are what `DiskStore` and `SessionDesk` let a
      client do that keeps to its own files, jobs and transactions. */
  ghost predicate KeepsTheRules(s: System, a: Action) {
    && Guard(s, a)
    && (OpOf(s, a).Some? ==> Enabled(s.world, OpOf(s, a).value))
    && (MoveOf(s, a).Some? ==> CanMove(s.desk, s.world.store.reservations.Keys, MoveOf(s, a).value))
  }

  ghost function NextWorld(s: System, a: Action): World
    requires KeepsTheRules(s, a)
  {
    if OpOf(s, a).Some? then Apply(s.world, OpOf(s, a).value) else s.world
  }

  ghost function NextDesk(s: System, a: Action): Desk
    requires KeepsTheRules(s, a)
  {
    if MoveOf(s, a).Some? then ApplyMove(s.desk, s.world.store.reservations.Keys, MoveOf(s, a).value) else s.desk
  }

  /** The next state. That `KeepsTheRules` follows from `Guard` in every reachable state is proved, not assumed. */
  ghost function Next(s: System, a: Action): System
    requires KeepsTheRules(s, a)
  {
    LocalStep(s, a).(world := NextWorld(s, a), desk := NextDesk(s, a))
  }

  ghost predicate Init(s: System) {
    && s.world.store == State(s.world.store.ttl, s.cfg.maxStoredBytes, map[], map[], 0, false)
    && 0 < s.world.store.ttl && 0 < s.cfg.maxStoredBytes
    && s.world.disk == map[] && s.world.dirs == {} && s.world.removals == {}
    && s.world.issued == {} && s.world.names == {}
    && s.desk == Desk(map[], map[], map[], map[], map[])
    && s.queue == [] && s.workers == map[] && s.owner == map[] && s.mail == map[]
  }
}
