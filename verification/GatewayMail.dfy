/** What is mailed, how often, and when a job may call itself ready. */
module GatewayMail {
  import opened JobTypes
  import opened JobStore
  import opened JobStoreBudget
  import opened DiskStore
  import opened SessionDesk
  import opened Gateway
  import opened GatewayInv
  import opened GatewayFrames
  import opened GatewayKept
  import opened GatewayRuns

  predicate Mailable(job: Job, id: Id) {
    job.id == id && job.caps.email && OcrDone(job)
  }

  /** At most one scan and one notice per job, only for jobs with email, and the scan only with OCR complete. */
  predicate LogOk(log: MailLog, id: Id) {
    && |log.scans| <= 1 && |log.notices| <= 1
    && (|log.scans| == 1 ==> Mailable(log.scans[0], id))
    && (|log.notices| == 1 ==> log.notices[0].id == id && log.notices[0].caps.email)
  }

  predicate NotMailedYet(pc: WorkerPc) {
    !pc.TooLargeNotice? && !pc.Finishing? && !pc.Failing? && !pc.FailNotice? && !pc.FailDelete?
  }

  predicate NoticeAhead(pc: WorkerPc) {
    pc.TooLargeNotice? || pc.Failing? || pc.FailNotice?
  }

  /** What has been sent for a job fits where the job is. */
  predicate MailOk(s: System, id: Id) {
    && (id in s.mail ==> LogOk(s.mail[id], id))
    && (id in s.mail && id in s.owner ==>
          && s.owner[id].ByWorker?
          && (s.owner[id].wid in s.workers && s.workers[s.owner[id].wid].job.id == id ==>
                var pc := s.workers[s.owner[id].wid].pc;
                !NotMailedYet(pc) && (NoticeAhead(pc) ==> s.mail[id].notices == [])))
  }

  predicate ReadyOk(s: System, id: Id) {
    id in s.world.store.jobs && s.world.store.jobs[id].job.status == Ready ==> OcrDone(s.world.store.jobs[id].job)
  }

  ghost predicate MailInv(s: System) {
    forall id :: MailOk(s, id) && ReadyOk(s, id) && (id in s.mail ==> id in s.world.issued)
  }

  // ---------- only a worker mails, and only about its own job ----------

  lemma DataMailsNothing(s: System, rid: Id, d: DataAct, id: Id)
    requires DataGuard(s, rid, d) && CallJobOk(s, rid) && MailOk(s, id) && (id in s.mail ==> id in s.world.issued)
    ensures DataStep(s, rid, d).mail == s.mail
    ensures id in s.mail && id in DataStep(s, rid, d).owner ==> id in s.owner && DataStep(s, rid, d).owner[id] == s.owner[id]
  {
    hide EvictionOrder, ReadyToCommit, InHand, LogOk;
  }

  lemma OtherMailStays(s: System, wid: WorkerId, k: WorkAct, id: Id)
    requires WorkGuard(s, wid, k)
    requires if k.Take? then s.queue[0].id != id else s.workers[wid].job.id != id
    ensures var s' := WorkStep(s, wid, k);
      && (id in s'.mail <==> id in s.mail) && (id in s.mail ==> s'.mail[id] == s.mail[id])
      && (id in s'.owner <==> id in s.owner) && (id in s.owner ==> s'.owner[id] == s.owner[id])
  {
    hide SortedFor, CanSwap, StatusError, OcrFailed;
  }

  lemma OtherWorkerStays(s: System, wid: WorkerId, k: WorkAct, x: WorkerId)
    requires WorkGuard(s, wid, k) && x in WorkStep(s, wid, k).workers
    ensures x == wid || (x in s.workers && WorkStep(s, wid, k).workers[x] == s.workers[x])
  {
    if x != wid {
      WorkLeavesOtherWorkers(s, wid, k, x);
    }
    hide WorkGuard, WorkStep;
  }

  lemma SameJob(s: System, wid: WorkerId, k: WorkAct)
    requires WorkGuard(s, wid, k) && wid in WorkStep(s, wid, k).workers
    ensures WorkStep(s, wid, k).workers[wid].job.id == if k.Take? then s.queue[0].id else s.workers[wid].job.id
  {
    hide SortedFor, CanSwap, StatusError;
  }

  predicate MailStep(k: WorkAct) {
    k.Deliver? || k.NoticeTooLarge? || k.NoticeFailed?
  }

  /** The mail log and the worker after one of the worker's own steps. */
  lemma OwnMailStep(s: System, wid: WorkerId, k: WorkAct)
    requires WorkGuard(s, wid, k) && MailStep(k) && WorkerOk(s, wid) && MailOk(s, s.workers[wid].job.id)
    ensures MailOk(LocalStep(s, Work(wid, k)), s.workers[wid].job.id)
  {
    hide InHand, OutOk, OutRegistered, OneAhead, OcrSoFar, AllOcr, Over;
  }

  lemma QuietOwnStep(s: System, wid: WorkerId, k: WorkAct)
    requires WorkGuard(s, wid, k) && !k.Take? && !MailStep(k)
    ensures var s' := WorkStep(s, wid, k); var id := s.workers[wid].job.id;
      && s'.mail == s.mail
      && (wid in s'.workers ==>
            && s'.workers[wid].job.id == id
            && (NotMailedYet(s'.workers[wid].pc) ==> NotMailedYet(s.workers[wid].pc))
            && (NoticeAhead(s'.workers[wid].pc) ==> NoticeAhead(s.workers[wid].pc) || NotMailedYet(s.workers[wid].pc)))
      && (id in s'.owner ==> id in s.owner && s'.owner[id] == s.owner[id])
  {
    hide SortedFor, CanSwap, StatusError;
  }

  lemma OwnMailIsKept(s: System, wid: WorkerId, k: WorkAct)
    requires WorkGuard(s, wid, k) && !k.Take? && WorkerOk(s, wid) && MailOk(s, s.workers[wid].job.id)
    ensures MailOk(LocalStep(s, Work(wid, k)), s.workers[wid].job.id)
  {
    hide WorkStep, WorkerPcOk, PcFits, LogOk;
    if MailStep(k) {
      OwnMailStep(s, wid, k);
    } else {
      QuietOwnStep(s, wid, k);
    }
  }

  lemma TakenMailIsKept(s: System, wid: WorkerId)
    requires WorkGuard(s, wid, Take) && QueueSlotOk(s, 0) && MailOk(s, s.queue[0].id)
    ensures MailOk(LocalStep(s, Work(wid, Take)), s.queue[0].id)
  {
    hide InHand, LogOk;
  }

  lemma OthersMailIsKept(s: System, wid: WorkerId, k: WorkAct, id: Id)
    requires WorkGuard(s, wid, k) && MailOk(s, id)
    requires if k.Take? then s.queue[0].id != id else s.workers[wid].job.id != id
    ensures MailOk(LocalStep(s, Work(wid, k)), id)
  {
    hide WorkStep, WorkGuard, LogOk;
    OtherMailStays(s, wid, k, id);
    if id in s.owner && s.owner[id].ByWorker? && s.owner[id].wid in WorkStep(s, wid, k).workers {
      OtherWorkerStays(s, wid, k, s.owner[id].wid);
      if s.owner[id].wid == wid {
        SameJob(s, wid, k);
      }
    }
  }

  lemma MailReadsLocalState(s: System, a: Action, id: Id)
    requires KeepsTheRules(s, a) && MailOk(LocalStep(s, a), id)
    ensures MailOk(Next(s, a), id)
  {
    hide LocalStep, Guard, OpOf, MoveOf, LogOk;
  }

  lemma DataMailIsKept(s: System, rid: Id, d: DataAct, id: Id)
    requires DataGuard(s, rid, d) && CallJobOk(s, rid) && MailOk(s, id) && (id in s.mail ==> id in s.world.issued)
    ensures MailOk(LocalStep(s, Data(rid, d)), id)
  {
    hide DataGuard, DataStep, CallJobOk, LogOk;
    DataMailsNothing(s, rid, d, id);
    DataLeavesWorkers(s, rid, d);
  }

  lemma MailIsKept(s: System, a: Action, id: Id)
    requires SystemInv(s) && KeepsTheRules(s, a) && MailOk(s, id) && (id in s.mail ==> id in s.world.issued)
    ensures MailOk(Next(s, a), id)
  {
    assert a.Data? ==> CallJobOk(s, a.rid);
    assert a.Work? ==> WorkerOk(s, a.wid);
    assert a.Work? && a.k.Take? ==> QueueSlotOk(s, 0);
    hide SystemInv, CallJobOk, WorkerPcOk, MailOk, KeepsTheRules;
    match a {
      case Data(rid, d) => DataMailIsKept(s, rid, d, id);
      case Work(wid, k) =>
        if k.Take? && s.queue[0].id == id {
          TakenMailIsKept(s, wid);
        } else if !k.Take? && s.workers[wid].job.id == id {
          OwnMailIsKept(s, wid, k);
        } else {
          OthersMailIsKept(s, wid, k, id);
        }
      case _ =>
    }
    MailReadsLocalState(s, a, id);
  }

  lemma MailedIsIssued(s: System, a: Action, id: Id)
    requires SystemInv(s) && KeepsTheRules(s, a) && (id in s.mail ==> id in s.world.issued)
    requires id in Next(s, a).mail
    ensures id in Next(s, a).world.issued
  {
    assert a.Data? ==> CallJobOk(s, a.rid);
    assert a.Work? ==> WorkerOk(s, a.wid);
    assert a.Work? && a.wid in s.workers ==> IdOk(s, s.workers[a.wid].job.id);
    hide SystemInv, WorkerPcOk;
    if OpOf(s, a).Some? {
      WorldGrows(s.world, OpOf(s, a).value);
    }
    NewMail(s, a, id);
  }

  lemma NewMail(s: System, a: Action, id: Id)
    requires Guard(s, a) && id in LocalStep(s, a).mail
    ensures id in s.mail || (a.Work? && a.wid in s.workers && s.workers[a.wid].job.id == id)
  {
    hide DataGuard, WorkGuard, DataStep, WorkStep;
    match a
    case Data(rid, d) => DataKeepsMail(s, rid, d);
    case Work(wid, k) =>
      if id !in s.mail {
        OnlyOwnMail(s, wid, k, id);
      }
    case _ =>
  }

  lemma DataKeepsMail(s: System, rid: Id, d: DataAct)
    requires DataGuard(s, rid, d)
    ensures DataStep(s, rid, d).mail == s.mail
  {
    hide EvictionOrder, FreshIds;
  }

  lemma OnlyOwnMail(s: System, wid: WorkerId, k: WorkAct, id: Id)
    requires WorkGuard(s, wid, k) && id !in s.mail && id in WorkStep(s, wid, k).mail
    ensures wid in s.workers && s.workers[wid].job.id == id
  {
    hide SortedFor, CanSwap, StatusError;
  }

  // ---------- ready means recognized ----------

  predicate SameDocs(a: Job, b: Job) {
    a.documents == b.documents && a.caps == b.caps
  }

  /** A record is ready because it was, or because its owner just said so. */
  lemma ReadyHistory(w: World, op: Op, id: Id)
    requires Enabled(w, op) && id in Apply(w, op).store.jobs && Apply(w, op).store.jobs[id].job.status == Ready
    ensures id in w.store.jobs && SameDocs(Apply(w, op).store.jobs[id].job, w.store.jobs[id].job)
    ensures w.store.jobs[id].job.status == Ready || (op.SetStatus? && op.id == id && op.st == Ready)
  {
    match op
    case Commit(rid, job, files, order) => EvictionTouchesOnlyVictims(Booked(w.store, rid, job, files), order);
    case SetStatus(x, st, msg, order) =>
      if Finished(st) {
        EvictionTouchesOnlyVictims(Settled(w.store, x, st, msg, w.clock), order);
      }
    case _ =>
  }

  lemma OnlyFinishSaysReady(s: System, a: Action)
    requires Guard(s, a) && OpOf(s, a).Some?
    requires var op := OpOf(s, a).value; op.SetStatus? && op.st == Ready
    ensures a.Work? && a.k.Finish? && a.wid in s.workers && s.workers[a.wid].pc.Finishing?
    ensures OpOf(s, a).value.id == s.workers[a.wid].job.id
  {
    hide SortedFor, EvictionOrder, CanSwap;
  }

  lemma FinishingIsRecognized(s: System, wid: WorkerId)
    requires WorkerOk(s, wid) && wid in s.workers && s.workers[wid].pc.Finishing?
    requires s.workers[wid].job.id in s.world.store.jobs && (s.world.store.closed ==> s.world.store.jobs == map[])
    ensures OcrDone(s.world.store.jobs[s.workers[wid].job.id].job)
  {
  }

  lemma ReadyIsKept(s: System, a: Action, id: Id)
    requires SystemInv(s) && KeepsTheRules(s, a) && ReadyOk(s, id)
    ensures ReadyOk(Next(s, a), id)
  {
    assert a.Work? ==> WorkerOk(s, a.wid);
    EmptyWhenClosed(s);
    hide SystemInv, WorkerOk, LocalStep, NextDesk, Enabled, OpOf, MoveOf, CanMove, Guard;
    var jobs' := NextWorld(s, a).store.jobs;
    if id in jobs' && jobs'[id].job.status == Ready && OpOf(s, a).Some? {
      var op := OpOf(s, a).value;
      ReadyHistory(s.world, op, id);
      if op.SetStatus? && op.id == id && op.st == Ready {
        OnlyFinishSaysReady(s, a);
        FinishingIsRecognized(s, a.wid);
      }
    }
  }

  lemma MailInvIsKept(s: System, a: Action, s': System)
    requires Follows(s, a, s') && MailInv(s)
    ensures MailInv(s')
  {
    hide SystemInv, KeepsTheRules, Next, MailOk, ReadyOk;
    forall id ensures MailOk(s', id) && ReadyOk(s', id) && (id in s'.mail ==> id in s'.world.issued) {
      assert MailOk(s, id) && ReadyOk(s, id);
      MailIsKept(s, a, id);
      ReadyIsKept(s, a, id);
      if id in s'.mail {
        MailedIsIssued(s, a, id);
      }
    }
  }

  lemma NothingMailedYet(ss: seq<System>, acts: seq<Action>)
    requires IsRun(ss, acts)
    ensures MailInv(ss[0])
  {
    FirstState(ss, acts);
    hide IsRun;
  }

  lemma {:induction false} MailInvThroughout(ss: seq<System>, acts: seq<Action>, i: nat)
    requires IsRun(ss, acts) && i < |ss|
    ensures MailInv(ss[i])
    decreases i
  {
    hide IsRun, Follows, MailInv;
    RunLength(ss, acts);
    if i == 0 {
      NothingMailedYet(ss, acts);
    } else {
      MailInvThroughout(ss, acts, i - 1);
      EveryStepFollows(ss, acts, i - 1);
      MailInvIsKept(ss[i - 1], acts[i - 1], ss[i]);
    }
  }

  /** For any outcome of OCR and mail, in any interleaving: a job's scan is mailed at most once and so is a notice about
      it; both only with email; the scan with attachments only if OCR is off or every document went through it; and a
      job with OCR is ready only when every document did. */
  lemma MailIsSentAtMostOnce(ss: seq<System>, acts: seq<Action>, i: nat, id: Id)
    requires IsRun(ss, acts) && i < |ss|
    ensures id in ss[i].mail ==>
      var log := ss[i].mail[id];
      && |log.scans| <= 1 && |log.notices| <= 1
      && (forall m :: m in log.scans ==> m.id == id && m.caps.email && (m.caps.ocr ==> AllOcr(m.documents)))
      && (forall m :: m in log.notices ==> m.id == id && m.caps.email)
    ensures id in ss[i].world.store.jobs ==>
      var job := ss[i].world.store.jobs[id].job;
      job.status == Ready && job.caps.ocr ==> AllOcr(job.documents)
  {
    hide IsRun, AllOcr;
    MailInvThroughout(ss, acts, i);
    assert MailOk(ss[i], id) && ReadyOk(ss[i], id);
  }
}
