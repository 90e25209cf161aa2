/** Every move keeps the protocol's invariant. */
module SessionDeskProofs {
  import opened JobTypes
  import opened SessionDesk

  /** What is known about whatever a move is about. */
  predicate Focus(k: Desk, open: set<Id>, r: Id) {
    CallOk(k, open, r) && StagingOk(k, open, r) && ResetOk(k, r) && ReservationOk(k, open, r)
  }

  function Subject(k: Desk, m: Move): Id {
    match m
    case Reset(sid) => if sid in k.sessions && k.sessions[sid].staging.Some? then k.sessions[sid].staging.value else 0
    case ResetAbort(rid) => rid
    case ResetRelease(rid) => rid
    case Reserve(_, rid) => rid
    case Advance(rid, _) => rid
    case OpenStaging(rid) => rid
    case AddFile(rid, _) => rid
    case Handover(rid, _, _, _) => rid
    case Commit(rid) => rid
    case Abort(rid) => rid
    case Return(rid) => rid
    case ReturnReleased(rid) => rid
    case _ => 0
  }

  /** The call a move is about. */
  lemma OwnCallStep(k: Desk, open: set<Id>, m: Move)
    requires CanMove(k, open, m) && Focus(k, open, Subject(k, m))
    requires m.Reset? ==> SessionOk(k, m.sid)
    ensures CallOk(ApplyMove(k, open, m), OpenAfter(open, m), Subject(k, m))
  {
  }

  /** Any other call: it cannot be holding the mutex the move needs. */
  lemma OtherCallStep(k: Desk, open: set<Id>, m: Move, x: Id)
    requires CanMove(k, open, m) && Focus(k, open, Subject(k, m)) && CallOk(k, open, x) && x != Subject(k, m)
    requires m.Reset? ==> SessionOk(k, m.sid)
    ensures CallOk(ApplyMove(k, open, m), OpenAfter(open, m), x)
  {
  }

  lemma StagingStep(k: Desk, open: set<Id>, m: Move, x: Id)
    requires CanMove(k, open, m) && Focus(k, open, Subject(k, m)) && StagingOk(k, open, x) && ReservationOk(k, open, x)
    ensures StagingOk(ApplyMove(k, open, m), OpenAfter(open, m), x)
  {
  }

  lemma ResetStep(k: Desk, open: set<Id>, m: Move, x: Id)
    requires CanMove(k, open, m) && Focus(k, open, Subject(k, m)) && ResetOk(k, x)
    requires m.Reset? ==> SessionOk(k, m.sid)
    ensures ResetOk(ApplyMove(k, open, m), x)
  {
  }

  lemma ReservationStep(k: Desk, open: set<Id>, m: Move, x: Id)
    requires CanMove(k, open, m) && Focus(k, open, Subject(k, m)) && ReservationOk(k, open, x)
    requires m.Reset? ==> SessionOk(k, m.sid)
    ensures ReservationOk(ApplyMove(k, open, m), OpenAfter(open, m), x)
  {
  }

  lemma SessionStep(k: Desk, open: set<Id>, m: Move, sid: SessionId)
    requires CanMove(k, open, m) && Focus(k, open, Subject(k, m)) && SessionOk(k, sid)
    ensures SessionOk(ApplyMove(k, open, m), sid)
  {
  }

  lemma MoveKeepsInv(k: Desk, open: set<Id>, m: Move)
    requires Inv(k, open) && CanMove(k, open, m)
    ensures Inv(ApplyMove(k, open, m), OpenAfter(open, m))
  {
    hide CallOk, StagingOk, ResetOk, ReservationOk, SessionOk, CanMove, ApplyMove, OpenAfter, Subject;
    var r := Subject(k, m);
    assert CallOk(k, open, r) && StagingOk(k, open, r) && ResetOk(k, r) && ReservationOk(k, open, r);
    var k' := ApplyMove(k, open, m);
    var open' := OpenAfter(open, m);
    forall x ensures CallOk(k', open', x) && StagingOk(k', open', x) && ResetOk(k', x) && ReservationOk(k', open', x) {
      assert CallOk(k, open, x) && StagingOk(k, open, x) && ResetOk(k, x) && ReservationOk(k, open, x);
      if x == r {
        OwnCallStep(k, open, m);
      } else {
        OtherCallStep(k, open, m, x);
      }
      StagingStep(k, open, m, x);
      ResetStep(k, open, m, x);
      ReservationStep(k, open, m, x);
    }
    forall sid ensures SessionOk(k', sid) {
      assert SessionOk(k, sid);
      SessionStep(k, open, m, sid);
    }
  }
}
