/** The session protocol of internal/smtpin/session.go: mutexes, generations, stagings and what became of every
    reservation. A Data call is named by the reservation it takes. `open` is the set of reservations on the store's
    books. Everything is said about one call, session, staging or reservation at a time. */
module SessionDesk {
  import opened JobTypes

  type SessionId = nat

  const NO_CAPS := Capabilities(false, false, false)

  /** `holder` is the Data call that holds the session's mutex across several steps. */
  datatype Session = Session(
    generation: nat, holder: Option<Id>, staging: Option<Id>,
    profile: string, caps: Capabilities, recipients: seq<string>)

  datatype StagingState = StagingOpen | StagingCommitted | StagingAborted

  datatype Staging = Staging(sid: SessionId, state: StagingState, files: set<Path>)

  datatype NewDocument = NewDocument(displayName: string, path: Path)

  /** Where a Data call is. Everywhere but in Extracting it holds the session's mutex. */
  datatype DataPc =
    | MakingDir
    | CheckingClosed
    | Undoing(rmdir: bool)
    | Extracting
    | Statting(docs: seq<NewDocument>, subject: string)
    | Committing(job: Job)
    | Enqueuing(job: Job)
    | Dropping(job: Job)
    | Aborting
    | Releasing

  /** The transaction as snapshotted with its generation. */
  datatype Call = Call(
    sid: SessionId, gen: nat, profile: string, caps: Capabilities, recipients: seq<string>, pc: DataPc)

  /** Where an Abort started by Reset is; it runs outside the session's mutex. */
  datatype ResetPc = ResetAborting | ResetReleasing

  datatype Outcome = CommittedAs(jobId: Id) | Released

  datatype Desk = Desk(
    sessions: map<SessionId, Session>, calls: map<Id, Call>, stagings: map<Id, Staging>, resets: map<Id, ResetPc>,
    outcomes: map<Id, Outcome>)

  // ---------- moves ----------

  datatype Move =
    | Connect(sid: SessionId)
    | SetEnvelope(sid: SessionId, profile: string, caps: Capabilities, recipients: seq<string>)
    | Reset(sid: SessionId)
    | ResetAbort(rid: Id)
    | ResetRelease(rid: Id)
    | Reserve(sid: SessionId, rid: Id)
    | Advance(rid: Id, pc: DataPc)
    | OpenStaging(rid: Id)
    | AddFile(rid: Id, path: Path)
    | Handover(rid: Id, refused: bool, docs: seq<NewDocument>, subject: string)
    | Commit(rid: Id)
    | Abort(rid: Id)
    | Return(rid: Id)
    | ReturnReleased(rid: Id)
    | Leak(rids: set<Id>)

  predicate Advances(from: DataPc, to: DataPc) {
    match from
    case MakingDir => to.CheckingClosed? || to.Undoing?
    case CheckingClosed => to.Undoing?
    case Statting(_, _) => to.Committing? || to.Aborting?
    case Committing(_) => to.Aborting?
    case Enqueuing(_) => to.Dropping?
    case _ => false
  }

  predicate CanMove(k: Desk, open: set<Id>, m: Move) {
    match m
    case Connect(sid) => sid !in k.sessions
    case SetEnvelope(sid, _, _, _) => Free(k, sid)
    case Reset(sid) => Free(k, sid)
    case ResetAbort(rid) => rid in k.resets && k.resets[rid].ResetAborting? && rid in k.stagings
    case ResetRelease(rid) => rid in k.resets && k.resets[rid].ResetReleasing?
    case Reserve(sid, rid) =>
      Free(k, sid) && rid !in k.calls && rid !in k.stagings && rid !in k.outcomes && rid !in open && rid !in k.resets
    case Advance(rid, pc) => rid in k.calls && Advances(k.calls[rid].pc, pc)
    case OpenStaging(rid) => InCall(k, rid) && k.calls[rid].pc.CheckingClosed?
    case AddFile(rid, _) => rid in k.stagings
    case Handover(rid, _, _, _) => rid in k.calls && k.calls[rid].pc.Extracting? && Free(k, k.calls[rid].sid)
    case Commit(rid) => rid in k.calls && k.calls[rid].pc.Committing? && rid in k.stagings && rid in open
    case Abort(rid) => InCall(k, rid) && k.calls[rid].pc.Aborting? && rid in k.stagings
    case Return(rid) => InCall(k, rid) && (k.calls[rid].pc.Enqueuing? || k.calls[rid].pc.Dropping?)
    case ReturnReleased(rid) => InCall(k, rid) && (k.calls[rid].pc.Releasing? || k.calls[rid].pc.Undoing?)
    case Leak(_) => true
  }

  predicate Free(k: Desk, sid: SessionId) {
    sid in k.sessions && k.sessions[sid].holder.None?
  }

  /** The call is there, and so is its session. */
  predicate InCall(k: Desk, rid: Id) {
    rid in k.calls && k.calls[rid].sid in k.sessions
  }

  /** No Reset, Mail or Logout since the call's snapshot. */
  predicate Current(k: Desk, r: Id) {
    InCall(k, r) && k.sessions[k.calls[r].sid].generation == k.calls[r].gen
  }

  function SetPc(k: Desk, rid: Id, pc: DataPc): Desk
    requires rid in k.calls
  {
    k.(calls := k.calls[rid := k.calls[rid].(pc := pc)])
  }

  /** Data returns: the call is over and the session's mutex is free. */
  function EndCall(k: Desk, rid: Id): Desk
    requires InCall(k, rid)
  {
    k.(calls := k.calls - {rid},
       sessions := k.sessions[k.calls[rid].sid := k.sessions[k.calls[rid].sid].(holder := None)])
  }

  /** The reservation is gone from the books, for good. */
  function Settle(k: Desk, open: set<Id>, rid: Id, o: Outcome): Desk {
    if rid in open then k.(outcomes := k.outcomes[rid := o]) else k
  }

  function SetState(k: Desk, rid: Id, state: StagingState): Desk
    requires rid in k.stagings
  {
    k.(stagings := k.stagings[rid := k.stagings[rid].(state := state)])
  }

  function ApplyMove(k: Desk, open: set<Id>, m: Move): Desk
    requires CanMove(k, open, m)
  {
    match m
    case Connect(sid) => k.(sessions := k.sessions[sid := Session(0, None, None, "", NO_CAPS, [])])
    case SetEnvelope(sid, profile, caps, recipients) =>
      k.(sessions := k.sessions[sid := k.sessions[sid].(profile := profile, caps := caps, recipients := recipients)])
    case Reset(sid) =>
      var ses := k.sessions[sid];
      k.(sessions := k.sessions[sid := Session(ses.generation + 1, None, None, "", NO_CAPS, [])],
         resets := if ses.staging.Some? then k.resets[ses.staging.value := ResetAborting] else k.resets)
    case ResetAbort(rid) =>
      if k.stagings[rid].state.StagingOpen?
      then SetState(k, rid, StagingAborted).(resets := k.resets[rid := ResetReleasing])
      else k.(resets := k.resets - {rid})
    case ResetRelease(rid) => Settle(k, open, rid, Released).(resets := k.resets - {rid})
    case Reserve(sid, rid) =>
      var ses := k.sessions[sid];
      k.(sessions := k.sessions[sid := ses.(holder := Some(rid))],
         calls := k.calls[rid := Call(sid, ses.generation, ses.profile, ses.caps, ses.recipients, MakingDir)])
    case Advance(rid, pc) => SetPc(k, rid, pc)
    case OpenStaging(rid) =>
      var sid := k.calls[rid].sid;
      SetPc(k, rid, Extracting).(
        stagings := k.stagings[rid := Staging(sid, StagingOpen, {})],
        sessions := k.sessions[sid := k.sessions[sid].(staging := Some(rid), holder := None)])
    case AddFile(rid, path) =>
      k.(stagings := k.stagings[rid := k.stagings[rid].(files := k.stagings[rid].files + {path})])
    case Handover(rid, refused, docs, subject) =>
      var ses := k.sessions[k.calls[rid].sid];
      SetPc(k, rid, if ses.generation != k.calls[rid].gen || refused then Aborting else Statting(docs, subject)).(
        sessions := k.sessions[k.calls[rid].sid := ses.(holder := Some(rid), staging := None)])
    case Commit(rid) =>
      var job := k.calls[rid].pc.job;
      SetState(SetPc(k, rid, Enqueuing(job)), rid, StagingCommitted).(
        outcomes := k.outcomes[rid := CommittedAs(job.id)])
    case Abort(rid) =>
      if k.stagings[rid].state.StagingOpen?
      then SetState(SetPc(k, rid, Releasing), rid, StagingAborted)
      else EndCall(k, rid)
    case Return(rid) => EndCall(k, rid)
    case ReturnReleased(rid) => EndCall(Settle(k, open, rid, Released), rid)
    case Leak(rids) => k.(outcomes := k.outcomes + map r | r in rids && r in open :: Released)
  }

  /** The reservations on the books after a move. */
  function OpenAfter(open: set<Id>, m: Move): set<Id> {
    match m
    case Reserve(_, rid) => open + {rid}
    case ResetRelease(rid) => open - {rid}
    case ReturnReleased(rid) => open - {rid}
    case Commit(rid) => open - {rid}
    case Leak(rids) => open - rids
    case _ => open
  }

  // ---------- what always holds ----------

  predicate Early(pc: DataPc) {
    pc.MakingDir? || pc.CheckingClosed? || pc.Undoing?
  }

  /** Between the snapshot and the end of Commit. */
  predicate BeforeCommit(pc: DataPc) {
    pc.Extracting? || pc.Statting? || pc.Committing?
  }

  predicate StateFits(pc: DataPc, state: StagingState) {
    match pc
    case Releasing => state.StagingAborted?
    case Enqueuing(_) => state.StagingCommitted?
    case Dropping(_) => state.StagingCommitted?
    case _ => !state.StagingCommitted?
  }

  /** A call holds its session's mutex exactly while it is not extracting. While its generation is current its
      staging is open and no Reset is after it - however many stale calls have cleared the session's slot. */
  predicate CallOk(k: Desk, open: set<Id>, r: Id) {
    r in k.calls ==>
      var c := k.calls[r];
      && c.sid in k.sessions && c.gen <= k.sessions[c.sid].generation
      && (!c.pc.Extracting? ==> k.sessions[c.sid].holder.Some? && k.sessions[c.sid].holder.value == r)
      && (r in k.stagings <==> !Early(c.pc))
      && (r in k.stagings ==> k.stagings[r].sid == c.sid && StateFits(c.pc, k.stagings[r].state))
      && (Early(c.pc) || c.pc.Statting? || c.pc.Committing? ==> Current(k, r))
      && (Current(k, r) && BeforeCommit(c.pc) ==>
            r in k.stagings && k.stagings[r].state.StagingOpen? && r !in k.resets)
      && (r in open || r in k.outcomes)
  }

  predicate SessionOk(k: Desk, sid: SessionId) {
    sid in k.sessions ==>
      var ses := k.sessions[sid];
      && (ses.holder.Some? ==>
            var r := ses.holder.value;
            r in k.calls && k.calls[r].sid == sid && !k.calls[r].pc.Extracting?)
      && (ses.staging.Some? ==>
            var r := ses.staging.value;
            r in k.calls && k.calls[r].sid == sid && k.calls[r].pc.Extracting? && Current(k, r))
  }

  predicate StagingOk(k: Desk, open: set<Id>, r: Id) {
    r in k.stagings ==>
      && (k.stagings[r].state.StagingOpen? ==>
            r in k.calls && (BeforeCommit(k.calls[r].pc) || k.calls[r].pc.Aborting?))
      && (k.stagings[r].state.StagingCommitted? <==> r in k.outcomes && k.outcomes[r].CommittedAs?)
      && (r in open || r in k.outcomes)
  }

  predicate ResetOk(k: Desk, r: Id) {
    r in k.resets ==> r in k.stagings && (k.resets[r].ResetReleasing? ==> k.stagings[r].state.StagingAborted?)
  }

  /** Somebody is still going to settle this reservation: its own call, or a Reset halfway through aborting it. */
  predicate Attended(k: Desk, r: Id) {
    || (r in k.calls && (Early(k.calls[r].pc) || k.calls[r].pc.Releasing?
                         || (r in k.stagings && k.stagings[r].state.StagingOpen?)))
    || (r in k.resets && k.resets[r].ResetReleasing?)
  }

  predicate ReservationOk(k: Desk, open: set<Id>, r: Id) {
    && (r in open ==> r !in k.outcomes && Attended(k, r))
    && (r in k.outcomes && k.outcomes[r].CommittedAs? ==> r in k.stagings)
  }

  ghost predicate Inv(k: Desk, open: set<Id>) {
    && (forall r :: CallOk(k, open, r) && StagingOk(k, open, r) && ResetOk(k, r) && ReservationOk(k, open, r))
    && (forall sid :: SessionOk(k, sid))
  }
}
