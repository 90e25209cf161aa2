/** What a step leaves alone: other calls, other owners' jobs, other files. */
module GatewayFrames {
  import opened JobTypes
  import opened JobStore
  import opened JobStoreBudget
  import opened DiskStore
  import opened DiskStoreProofs
  import opened SessionDesk
  import SessionDeskProofs
  import opened Gateway
  import opened GatewayInv
  import opened GatewayRules

  /** Whoever takes this step, as the owner of a job. */
  predicate ActsFor(a: Action, o: Owner) {
    match a
    case Data(rid, _) => o == BySession(rid)
    case Work(wid, _) => o == ByWorker(wid)
    case _ => false
  }

  /** Ids and names are only ever added, and a closed store stays closed. */
  lemma WorldGrows(w: World, op: Op)
    requires Enabled(w, op)
    ensures w.issued <= Apply(w, op).issued && w.names <= Apply(w, op).names
    ensures w.store.closed ==> Apply(w, op).store.closed
  {
  }

  /** The store's reservations are what the desk's moves say they are. */
  lemma ReservationsAfter(w: World, op: Op)
    requires Enabled(w, op)
    ensures var r' := Apply(w, op).store.reservations.Keys; var r := w.store.reservations.Keys;
      match op
      case Reserve(rid, _) => r' == r + {rid}
      case Release(rid, _) => r' == r - {rid}
      case Commit(rid, _, _, _) => r' == r - {rid}
      case Sweep(now) => r' == r - Leaked(w.store, now)
      case Close => w.store.closed || r' == {}
      case _ => r' == r
  {
  }

  ghost predicate BooksAgree(s: System, a: Action)
    requires KeepsTheRules(s, a)
  {
    var open := s.world.store.reservations.Keys;
    NextWorld(s, a).store.reservations.Keys == if MoveOf(s, a).Some? then OpenAfter(open, MoveOf(s, a).value) else open
  }

  lemma DataBooksAgree(s: System, rid: Id, d: DataAct)
    requires KeepsTheRules(s, Data(rid, d))
    ensures BooksAgree(s, Data(rid, d))
  {
    if DataOp(s, rid, d).Some? {
      ReservationsAfter(s.world, DataOp(s, rid, d).value);
    }
  }

  lemma WorkBooksAgree(s: System, wid: WorkerId, k: WorkAct)
    requires KeepsTheRules(s, Work(wid, k))
    ensures BooksAgree(s, Work(wid, k))
  {
    if WorkOp(s, wid, k).Some? {
      ReservationsAfter(s.world, WorkOp(s, wid, k).value);
    }
  }

  lemma OtherBooksAgree(s: System, a: Action)
    requires Valid(s.world.store) && KeepsTheRules(s, a) && (a.Command? || a.Env?)
    ensures BooksAgree(s, a)
  {
    if OpOf(s, a).Some? {
      ReservationsAfter(s.world, OpOf(s, a).value);
    }
  }

  lemma DeskKeepsInv(s: System, a: Action)
    requires SystemInv(s) && KeepsTheRules(s, a)
    ensures SessionDesk.Inv(Next(s, a).desk, Next(s, a).world.store.reservations.Keys)
  {
    assert Valid(s.world.store) && SessionDesk.Inv(s.desk, s.world.store.reservations.Keys);
    assert Next(s, a).desk == NextDesk(s, a) && Next(s, a).world == NextWorld(s, a);
    hide SystemInv, KeepsTheRules, Next, Guard;
    match a {
      case Data(rid, d) => DataBooksAgree(s, rid, d);
      case Work(wid, k) => WorkBooksAgree(s, wid, k);
      case _ => OtherBooksAgree(s, a);
    }
    DeskMoves(s, a);
  }

  lemma DeskMoves(s: System, a: Action)
    requires SessionDesk.Inv(s.desk, s.world.store.reservations.Keys) && KeepsTheRules(s, a) && BooksAgree(s, a)
    ensures SessionDesk.Inv(NextDesk(s, a), NextWorld(s, a).store.reservations.Keys)
  {
    if MoveOf(s, a).Some? {
      SessionDeskProofs.MoveKeepsInv(s.desk, s.world.store.reservations.Keys, MoveOf(s, a).value);
    }
  }

  /** A move changes no call but the one it is about. */
  lemma OtherCallsStay(k: Desk, open: set<Id>, m: Move, r: Id)
    requires CanMove(k, open, m)
    requires match m
      case Reserve(_, rid) => r != rid
      case Advance(rid, _) => r != rid
      case OpenStaging(rid) => r != rid
      case Handover(rid, _, _, _) => r != rid
      case Commit(rid) => r != rid
      case Abort(rid) => r != rid
      case Return(rid) => r != rid
      case ReturnReleased(rid) => r != rid
      case _ => true
    ensures var k' := ApplyMove(k, open, m);
      (r in k'.calls <==> r in k.calls) && (r in k.calls ==> k'.calls[r] == k.calls[r])
  {
  }

  lemma OtherFilesStay(k: Desk, open: set<Id>, m: Move, r: Id)
    requires CanMove(k, open, m)
    requires match m case OpenStaging(rid) => r != rid case AddFile(rid, _) => r != rid case _ => true
    ensures var k' := ApplyMove(k, open, m);
      (r in k'.stagings <==> r in k.stagings) && (r in k.stagings ==> k'.stagings[r].files == k.stagings[r].files)
  {
  }

  /** Once committed, a staging stays committed. */
  lemma CommittedStays(k: Desk, open: set<Id>, m: Move, r: Id)
    requires CanMove(k, open, m) && r in k.stagings && k.stagings[r].state.StagingCommitted?
    requires m.OpenStaging? ==> m.rid !in k.stagings
    ensures var k' := ApplyMove(k, open, m); r in k'.stagings && k'.stagings[r].state.StagingCommitted?
  {
  }

  lemma OwnersStay(s: System, a: Action, id: Id)
    requires Guard(s, a) && id in s.owner && id in s.world.issued && !ActsFor(a, s.owner[id])
    requires a.Data? && InCall(s.desk, a.rid) ==> CallJobOk(s, a.rid)
    requires a.Work? ==> WorkerOk(s, a.wid)
    requires a.Work? && a.k.Take? ==> id != s.queue[0].id
    ensures var s' := LocalStep(s, a); id in s'.owner && s'.owner[id] == s.owner[id]
  {
  }
}
