/** Nobody is ever mailed who was not let in: recipients and capabilities travel from the session's checks to the mailer
    unchanged. */
module GatewayLicense {
  import opened JobTypes
  import opened Sums
  import opened JobStore
  import opened JobStoreBudget
  import opened DiskStore
  import opened SessionDesk
  import opened Gateway
  import opened GatewayInv
  import opened GatewayHands
  import opened GatewayKept
  import opened GatewayMail
  import opened GatewayRecords
  import opened GatewayRuns
  import opened GatewaySettlement

  /** Distinct recipients, each accepted by RCPT; capabilities some MAIL was granted, or none at all. */
  ghost predicate Licensed(cfg: Policy, recipients: seq<string>, caps: Capabilities) {
    && (forall i, j :: 0 <= i < j < |recipients| ==> recipients[i] != recipients[j])
    && (forall i :: 0 <= i < |recipients| ==> recipients[i] != "" && cfg.allowed(recipients[i]))
    && Granted(cfg, caps)
  }

  ghost predicate Granted(cfg: Policy, caps: Capabilities) {
    caps == NO_CAPS || exists from :: cfg.profile(from).Some? && cfg.profile(from).value == caps
  }

  ghost predicate SessionLicensed(cfg: Policy, k: Desk, sid: SessionId) {
    sid in k.sessions ==> Licensed(cfg, k.sessions[sid].recipients, k.sessions[sid].caps)
  }

  ghost predicate CallLicensed(cfg: Policy, k: Desk, r: Id) {
    r in k.calls ==> Licensed(cfg, k.calls[r].recipients, k.calls[r].caps)
  }

  ghost predicate JobLicensed(cfg: Policy, job: Job) {
    Licensed(cfg, job.recipients, job.caps)
  }

  ghost predicate HeldLicensed(s: System) {
    && (forall i :: 0 <= i < |s.queue| ==> JobLicensed(s.cfg, s.queue[i]))
    && (forall w :: w in s.workers ==> JobLicensed(s.cfg, s.workers[w].job))
  }

  ghost predicate MailLicensed(s: System, id: Id) {
    id in s.mail ==>
      && (forall i :: 0 <= i < |s.mail[id].scans| ==> JobLicensed(s.cfg, s.mail[id].scans[i]))
      && (forall i :: 0 <= i < |s.mail[id].notices| ==> JobLicensed(s.cfg, s.mail[id].notices[i]))
  }

  ghost predicate RecordLicensed(s: System, id: Id) {
    id in s.world.store.jobs ==> JobLicensed(s.cfg, s.world.store.jobs[id].job)
  }

  ghost predicate LicenseInv(s: System) {
    && (forall sid :: SessionLicensed(s.cfg, s.desk, sid))
    && (forall r :: CallLicensed(s.cfg, s.desk, r) && CarriesSnapshot(s.desk, r))
    && HeldLicensed(s)
    && (forall id :: MailLicensed(s, id) && RecordLicensed(s, id))
  }

  // ---------- the session ----------

  lemma MailIsGranted(s: System, sid: SessionId, from: string)
    requires SessionLicensed(s.cfg, s.desk, sid) && sid in s.desk.sessions && s.cfg.profile(from).Some?
    ensures Licensed(s.cfg, s.desk.sessions[sid].recipients, s.cfg.profile(from).value)
  {
  }

  /** RCPT adds a recipient only if it is allowed and not there already. */
  lemma RcptIsAllowed(s: System, sid: SessionId, canon: string)
    requires SessionLicensed(s.cfg, s.desk, sid) && sid in s.desk.sessions
    requires canon != "" && s.cfg.allowed(canon) && canon !in s.desk.sessions[sid].recipients
    ensures Licensed(s.cfg, s.desk.sessions[sid].recipients + [canon], s.desk.sessions[sid].caps)
  {
    hide Granted;
  }

  ghost predicate EnvelopeLicensed(cfg: Policy, m: Move) {
    m.SetEnvelope? ==> Licensed(cfg, m.recipients, m.caps)
  }

  lemma EnvelopesAreLicensed(s: System, a: Action)
    requires Guard(s, a) && MoveOf(s, a).Some?
    requires a.Command? && (a.c.Mail? || a.c.Rcpt?) ==> SessionLicensed(s.cfg, s.desk, a.c.sid)
    ensures EnvelopeLicensed(s.cfg, MoveOf(s, a).value)
  {
    hide Licensed;
    if a.Command? {
      match a.c
      case Mail(sid, from) => MailIsGranted(s, sid, from);
      case Rcpt(sid, to) => RcptIsAllowed(s, sid, s.cfg.canonical(to));
      case _ =>
    }
  }

  lemma NobodyIsLicensed(cfg: Policy)
    ensures Licensed(cfg, [], NO_CAPS)
  {
  }

  lemma SessionStaysLicensed(cfg: Policy, k: Desk, open: set<Id>, m: Move, sid: SessionId)
    requires CanMove(k, open, m) && SessionLicensed(cfg, k, sid) && EnvelopeLicensed(cfg, m)
    ensures SessionLicensed(cfg, ApplyMove(k, open, m), sid)
  {
    hide Licensed;
    NobodyIsLicensed(cfg);
  }

  lemma CallStaysLicensed(cfg: Policy, k: Desk, open: set<Id>, m: Move, r: Id)
    requires CanMove(k, open, m) && CallLicensed(cfg, k, r)
    requires m.Reserve? ==> SessionLicensed(cfg, k, m.sid)
    ensures CallLicensed(cfg, ApplyMove(k, open, m), r)
  {
    hide Licensed;
  }

  lemma DeskStaysLicensed(s: System, a: Action, s': System)
    requires Follows(s, a, s') && LicenseInv(s)
    ensures s'.cfg == s.cfg
    ensures forall sid :: SessionLicensed(s'.cfg, s'.desk, sid)
    ensures forall r :: CallLicensed(s'.cfg, s'.desk, r) && CarriesSnapshot(s'.desk, r)
  {
    hide SystemInv, Guard, Enabled, LocalStep, OpOf, MoveOf, CanMove, ApplyMove, SessionLicensed, CallLicensed, CarriesSnapshot;
    StepKeepsConfig(s, a, s');
    var open := s.world.store.reservations.Keys;
    forall r ensures CarriesSnapshot(s'.desk, r) {
      assert CarriesSnapshot(s.desk, r);
      SnapshotIsCarried(s, a, r);
    }
    if MoveOf(s, a).Some? {
      var m := MoveOf(s, a).value;
      EnvelopesAreLicensed(s, a);
      forall sid ensures SessionLicensed(s'.cfg, s'.desk, sid) {
        SessionStaysLicensed(s.cfg, s.desk, open, m, sid);
      }
      forall r ensures CallLicensed(s'.cfg, s'.desk, r) {
        CallStaysLicensed(s.cfg, s.desk, open, m, r);
      }
    }
  }

  // ---------- the job, wherever it is ----------

  lemma CarriedIsLicensed(s: System, rid: Id)
    requires LicenseInv(s) && rid in s.desk.calls && Closing(s.desk.calls[rid].pc)
    ensures JobLicensed(s.cfg, s.desk.calls[rid].pc.job)
  {
    assert CallLicensed(s.cfg, s.desk, rid) && CarriesSnapshot(s.desk, rid);
    hide Licensed, SessionLicensed;
  }

  lemma QueueStaysLicensed(s: System, a: Action)
    requires LicenseInv(s) && Guard(s, a)
    ensures forall i :: 0 <= i < |LocalStep(s, a).queue| ==> JobLicensed(s.cfg, LocalStep(s, a).queue[i])
  {
    hide LocalStep, JobLicensed;
    QueueAfter(s, a);
    if a.Data? && a.d.Enqueue? {
      assert a.rid in s.desk.calls && s.desk.calls[a.rid].pc.Enqueuing?;
      CarriedIsLicensed(s, a.rid);
    }
    assert HeldLicensed(s);
    hide LicenseInv, Guard;
  }

  /** A worker's copy is the queue's, and only its documents change. */
  lemma SameEnvelope(s: System, wid: WorkerId, k: WorkAct)
    requires WorkGuard(s, wid, k) && wid in WorkStep(s, wid, k).workers
    ensures var job := if k.Take? then s.queue[0] else s.workers[wid].job;
      var job' := WorkStep(s, wid, k).workers[wid].job;
      job'.recipients == job.recipients && job'.caps == job.caps
  {
    hide SortedFor, CanSwap, StatusError;
  }

  lemma WorkersStayLicensed(s: System, a: Action, w: WorkerId)
    requires HeldLicensed(s) && Guard(s, a) && w in LocalStep(s, a).workers
    ensures JobLicensed(s.cfg, LocalStep(s, a).workers[w].job)
  {
    hide Licensed, WorkGuard, DataGuard, WorkStep, DataStep;
    if a.Work? && a.wid == w {
      TakeHasAQueue(s, w, a.k);
      SameEnvelope(s, w, a.k);
    } else {
      hide LocalStep, Guard;
      WorkersStay(s, a, w);
    }
  }

  lemma TakeHasAQueue(s: System, wid: WorkerId, k: WorkAct)
    requires WorkGuard(s, wid, k)
    ensures if k.Take? then s.queue != [] else wid in s.workers
  {
  }

  /** What the mailer is asked to send is the worker's copy. */
  lemma MailComesFromWorkers(s: System, wid: WorkerId, k: WorkAct, id: Id)
    requires WorkGuard(s, wid, k) && id in WorkStep(s, wid, k).mail
    ensures var was := MailFor(s, id); var now := WorkStep(s, wid, k).mail[id];
      && (now.scans == was.scans || (wid in s.workers && now.scans == was.scans + [s.workers[wid].job]))
      && (now.notices == was.notices || (wid in s.workers && now.notices == was.notices + [s.workers[wid].job]))
  {
    hide SortedFor, CanSwap, StatusError;
  }

  lemma MailStaysLicensed(s: System, a: Action, id: Id)
    requires HeldLicensed(s) && MailLicensed(s, id) && Guard(s, a) && id in LocalStep(s, a).mail
    ensures var log := LocalStep(s, a).mail[id];
      && (forall i :: 0 <= i < |log.scans| ==> JobLicensed(s.cfg, log.scans[i]))
      && (forall i :: 0 <= i < |log.notices| ==> JobLicensed(s.cfg, log.notices[i]))
  {
    hide JobLicensed, WorkGuard, DataGuard, WorkStep, DataStep;
    match a
    case Data(rid, d) => DataKeepsMail(s, rid, d);
    case Work(wid, k) => MailComesFromWorkers(s, wid, k, id);
    case _ =>
  }

  lemma RecordKeepsEnvelope(w: World, op: Op, id: Id)
    requires Enabled(w, op) && id in Apply(w, op).store.jobs
    ensures var job' := Apply(w, op).store.jobs[id].job;
      if Comes(op, id) then job' == op.job
      else id in w.store.jobs && job'.recipients == w.store.jobs[id].job.recipients && job'.caps == w.store.jobs[id].job.caps
  {
    hide Total, SeqBytes, Cut, DocsOnDisk, DistinctDocs, Held, Promised, SweptDirs, EvictedDirs, ReserveError;
    match op
    case Commit(rid, job, files, order) => EvictionTouchesOnlyVictims(Booked(w.store, rid, job, files), order);
    case SetStatus(x, st, msg, order) =>
      if Finished(st) {
        EvictionTouchesOnlyVictims(Settled(w.store, x, st, msg, w.clock), order);
      }
    case _ =>
  }

  lemma CommitsItsOwnJob(s: System, a: Action, id: Id)
    requires KeepsTheRules(s, a) && OpOf(s, a).Some? && Comes(OpOf(s, a).value, id)
    ensures a.Data? && a.rid in s.desk.calls && s.desk.calls[a.rid].pc.Committing?
    ensures OpOf(s, a).value.job == s.desk.calls[a.rid].pc.job
  {
    hide Enabled, CanMove, SortedFor, EvictionOrder;
  }

  lemma RecordStaysLicensed(s: System, a: Action, s': System, id: Id)
    requires Follows(s, a, s') && LicenseInv(s) && s'.cfg == s.cfg
    ensures RecordLicensed(s', id)
  {
    hide SystemInv, Guard, LocalStep, OpOf, MoveOf, CanMove, Enabled, Licensed, LicenseInv;
    assert RecordLicensed(s, id) by {
      Unfold(s, id);
    }
    if id in s'.world.store.jobs && OpOf(s, a).Some? {
      RecordKeepsEnvelope(s.world, OpOf(s, a).value, id);
      if Comes(OpOf(s, a).value, id) {
        CommitsItsOwnJob(s, a, id);
        CarriedIsLicensed(s, a.rid);
      }
    }
  }

  lemma Unfold(s: System, id: Id)
    requires LicenseInv(s)
    ensures RecordLicensed(s, id) && MailLicensed(s, id) && HeldLicensed(s)
  {
  }

  lemma LicenseIsKept(s: System, a: Action, s': System)
    requires Follows(s, a, s') && LicenseInv(s)
    ensures LicenseInv(s')
  {
    hide SystemInv, Guard, Enabled, LocalStep, OpOf, MoveOf, CanMove, NextWorld, NextDesk, JobLicensed, Licensed;
    hide SessionLicensed, CallLicensed, CarriesSnapshot, RecordLicensed;
    DeskStaysLicensed(s, a, s');
    QueueStaysLicensed(s, a);
    forall w | w in s'.workers ensures JobLicensed(s'.cfg, s'.workers[w].job) {
      WorkersStayLicensed(s, a, w);
    }
    forall id ensures RecordLicensed(s', id) {
      RecordStaysLicensed(s, a, s', id);
    }
    forall id ensures MailLicensed(s', id) {
      assert MailLicensed(s, id);
      if id in s'.mail {
        MailStaysLicensed(s, a, id);
      }
    }
  }

  lemma NothingToLicense(ss: seq<System>, acts: seq<Action>)
    requires IsRun(ss, acts)
    ensures LicenseInv(ss[0])
  {
    FirstState(ss, acts);
    hide IsRun;
  }

  lemma {:induction false} LicensedThroughout(ss: seq<System>, acts: seq<Action>, i: nat)
    requires IsRun(ss, acts) && i < |ss|
    ensures LicenseInv(ss[i])
    decreases i
  {
    hide IsRun, Follows, LicenseInv;
    RunLength(ss, acts);
    if i == 0 {
      NothingToLicense(ss, acts);
    } else {
      LicensedThroughout(ss, acts, i - 1);
      EveryStepFollows(ss, acts, i - 1);
      LicenseIsKept(ss[i - 1], acts[i - 1], ss[i]);
    }
  }

  /** In any interleaving, every job on the books and every message ever handed to the mailer names distinct recipients
      that RCPT allowed, and enables only what some MAIL was granted. */
  lemma OnlyLicensedMail(ss: seq<System>, acts: seq<Action>, i: nat, id: Id)
    requires IsRun(ss, acts) && i < |ss|
    ensures id in ss[i].world.store.jobs ==> JobLicensed(ss[0].cfg, ss[i].world.store.jobs[id].job)
    ensures id in ss[i].mail ==>
      forall m :: m in ss[i].mail[id].scans || m in ss[i].mail[id].notices ==> JobLicensed(ss[0].cfg, m)
  {
    hide IsRun, LicenseInv, JobLicensed;
    LicensedThroughout(ss, acts, i);
    ConfigIsFixed(ss, acts, i);
    Unfold(ss[i], id);
  }
}
