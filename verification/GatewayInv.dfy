/** What holds in every reachable state of the gateway, said about one call, queue slot, worker or record at a time. */
module GatewayInv {
  import opened JobTypes
  import opened JobStore
  import opened DiskStore
  import opened SessionDesk
  import opened Gateway

  predicate OwnedBy(s: System, id: Id, o: Owner) {
    id in s.owner && s.owner[id] == o
  }

  /** The holder's copy of an unfinished job is the store's record of it. */
  predicate InHand(s: System, job: Job, st: Status) {
    s.world.store.closed || (job.id in s.world.store.jobs && s.world.store.jobs[job.id].job == job.(status := st))
  }

  predicate Unprocessed(job: Job) {
    job.status == Pending && job.error == ""
  }

  /** The documents Commit has checked stay what they are until the job is booked - or the reservation is gone. */
  ghost predicate ReadyToCommit(s: System, r: Id, job: Job) {
    && job.id !in s.world.store.jobs && job.id in s.world.issued
    && DistinctDocs(job.documents)
    && (r in s.world.store.reservations ==>
          r in s.desk.stagings && DocsOnDisk(s.world, r, s.desk.stagings[r].files, job.documents))
  }

  ghost predicate CallJobOk(s: System, r: Id) {
    r in s.desk.calls ==>
      && r in s.world.issued
      && match s.desk.calls[r].pc
         case Statting(docs, _) => forall i, j :: 0 <= i < j < |docs| ==> docs[i].path != docs[j].path
         case Committing(job) => OwnedBy(s, job.id, BySession(r)) && Unprocessed(job) && ReadyToCommit(s, r, job)
         case Enqueuing(job) => OwnedBy(s, job.id, BySession(r)) && Unprocessed(job) && InHand(s, job, Pending)
         case Dropping(job) => OwnedBy(s, job.id, BySession(r)) && Unprocessed(job) && InHand(s, job, Pending)
         case _ => true
  }

  ghost predicate StagedFilesOk(s: System, r: Id) {
    r in s.desk.stagings ==>
      r in s.world.issued && forall p :: p in s.desk.stagings[r].files ==> p.dir == r && p in s.world.names
  }

  predicate QueueSlotOk(s: System, i: nat) {
    i < |s.queue| ==>
      && OwnedBy(s, s.queue[i].id, Queued) && Unprocessed(s.queue[i]) && InHand(s, s.queue[i], Pending)
      && forall j :: 0 <= j < i ==> s.queue[j].id != s.queue[i].id
  }

  predicate AllOcr(docs: seq<Document>) {
    forall i :: 0 <= i < |docs| ==> docs[i].ocrApplied
  }

  /** The worker's OCR output is a file of the job's own that no document names yet. */
  ghost predicate OutOk(s: System, id: Id, out: Path) {
    s.world.store.closed ||
    (id in s.world.store.jobs
     && out.dir == s.world.store.jobs[id].dir && out in s.world.names && Kept(s.world, out)
     && out !in DocPaths(s.world.store.jobs[id].job.documents))
  }

  ghost predicate OutRegistered(s: System, id: Id, out: Path) {
    OutOk(s, id, out) && (s.world.store.closed || out in s.world.store.jobs[id].files)
  }

  predicate OcrSoFar(wk: Worker, i: nat) {
    wk.job.caps.ocr && i <= |wk.job.documents| && AllOcr(wk.job.documents[..i])
  }

  /** One document is replaced on the store's side and not yet in the worker's copy. */
  ghost predicate OneAhead(s: System, wk: Worker, i: nat, out: Path)
    requires i < |wk.job.documents|
  {
    s.world.store.closed ||
    (wk.job.id in s.world.store.jobs
     && out.dir == s.world.store.jobs[wk.job.id].dir && Kept(s.world, out)
     && s.world.store.jobs[wk.job.id].job
        == wk.job.(status := Processing, documents := WithOcr(wk.job.documents, i, out, s.world.disk[out])))
  }

  predicate OcrDone(job: Job) {
    job.caps.ocr ==> AllOcr(job.documents)
  }

  predicate Over(s: System, id: Id) {
    id in s.world.store.jobs ==> !Unfinished(s.world.store.jobs[id].job.status)
  }

  ghost predicate WorkerPcOk(s: System, wk: Worker) {
    var job := wk.job;
    match wk.pc
    case Taken => InHand(s, job, Pending)
    case OcrNext(i) => OcrSoFar(wk, i) && InHand(s, job, Processing)
    case OcrAsk(i) => i < |job.documents| && OcrSoFar(wk, i) && InHand(s, job, Processing)
    case OcrTouch(i, dir) =>
      && i < |job.documents| && OcrSoFar(wk, i) && InHand(s, job, Processing)
      && dir in s.world.issued && (s.world.store.closed || s.world.store.jobs[job.id].dir == dir)
    case OcrRegister(i, out) =>
      i < |job.documents| && OcrSoFar(wk, i) && InHand(s, job, Processing) && OutOk(s, job.id, out)
    case OcrRun(i, out) =>
      i < |job.documents| && OcrSoFar(wk, i) && InHand(s, job, Processing) && OutRegistered(s, job.id, out)
    case OcrLstat(i, out) =>
      i < |job.documents| && OcrSoFar(wk, i) && InHand(s, job, Processing) && OutRegistered(s, job.id, out)
    case OcrSwap(i, out, size) =>
      && i < |job.documents| && OcrSoFar(wk, i) && InHand(s, job, Processing) && OutRegistered(s, job.id, out)
      && (s.world.store.closed || s.world.disk[out] == size)
    case OcrStat(i, out) => i < |job.documents| && OcrSoFar(wk, i) && OneAhead(s, wk, i, out)
    case Mailing => job.caps.email && OcrDone(job) && InHand(s, job, Processing)
    case TooLargeNotice => job.caps.email && OcrDone(job) && InHand(s, job, Processing)
    case Finishing => OcrDone(job) && InHand(s, job, Processing)
    case Failing(_) =>
      s.world.store.closed
      || (job.id in s.world.store.jobs && s.world.store.jobs[job.id].job.status == Processing)
    case FailNotice => job.caps.email && Over(s, job.id)
    case FailDelete => Over(s, job.id)
  }

  ghost predicate WorkerOk(s: System, wid: WorkerId) {
    wid in s.workers ==>
      && OwnedBy(s, s.workers[wid].job.id, ByWorker(wid))
      && Unprocessed(s.workers[wid].job)
      && WorkerPcOk(s, s.workers[wid])
  }

  /** An unfinished job is always in exactly one pair of hands: nothing leaks. */
  ghost predicate InHands(s: System, id: Id) {
    id in s.owner &&
    match s.owner[id]
    case BySession(r) =>
      && r in s.desk.calls
      && (s.desk.calls[r].pc.Enqueuing? || s.desk.calls[r].pc.Dropping?) && s.desk.calls[r].pc.job.id == id
    case Queued => exists i :: 0 <= i < |s.queue| && s.queue[i].id == id
    case ByWorker(w) =>
      && w in s.workers && s.workers[w].job.id == id
      && !s.workers[w].pc.FailNotice? && !s.workers[w].pc.FailDelete?
  }

  ghost predicate RecordOk(s: System, id: Id) {
    id in s.world.store.jobs ==>
      && s.world.store.jobs[id].dir in s.desk.stagings
      && s.desk.stagings[s.world.store.jobs[id].dir].state.StagingCommitted?
      && (Unfinished(s.world.store.jobs[id].job.status) ==> InHands(s, id))
  }

  ghost predicate IdOk(s: System, id: Id) {
    id in s.owner || id in s.desk.outcomes ==> id in s.world.issued
  }

  ghost predicate SystemInv(s: System) {
    && DiskStore.Inv(s.world)
    && SessionDesk.Inv(s.desk, s.world.store.reservations.Keys)
    && (forall r :: CallJobOk(s, r))
    && (forall r :: StagedFilesOk(s, r))
    && (forall i: nat :: QueueSlotOk(s, i))
    && (forall w :: WorkerOk(s, w))
    && (forall id :: RecordOk(s, id))
    && (forall id :: IdOk(s, id))
  }
}
