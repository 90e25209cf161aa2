/** The budget of the job store: what Reserve admits, makeRoomLocked can always make room for. */
module JobStoreBudget {
  import opened JobTypes
  import opened Sums
  import opened JobStore

  // ---------- sums over one changed record ----------

  lemma HeldUpdate(jobs: map<Id, Record>, id: Id, r: Record)
    ensures Total(JobCharges(jobs[id := r]))
         == Total(JobCharges(jobs)) - (if id in jobs then jobs[id].bytes else 0) + r.bytes
  {
    TotalUpdate(JobCharges(jobs), id, r.bytes);
    assert JobCharges(jobs[id := r]) == JobCharges(jobs)[id := r.bytes];
  }

  lemma HeldRemove(jobs: map<Id, Record>, id: Id)
    requires id in jobs
    ensures Total(JobCharges(jobs - {id})) == Total(JobCharges(jobs)) - jobs[id].bytes
  {
    TotalRemove(JobCharges(jobs), id);
    assert JobCharges(jobs - {id}) == JobCharges(jobs) - {id};
  }

  lemma UnsettledRemove(jobs: map<Id, Record>, id: Id)
    requires id in jobs
    ensures Total(UnfinishedCharges(jobs - {id}))
         == Total(UnfinishedCharges(jobs)) - UnfinishedBytes(jobs[id])
  {
    TotalRemove(UnfinishedCharges(jobs), id);
    assert UnfinishedCharges(jobs - {id}) == UnfinishedCharges(jobs) - {id};
  }

  lemma UnsettledUpdate(jobs: map<Id, Record>, id: Id, r: Record)
    ensures Total(UnfinishedCharges(jobs[id := r]))
         == Total(UnfinishedCharges(jobs)) - (if id in jobs then UnfinishedBytes(jobs[id]) else 0) + UnfinishedBytes(r)
  {
    TotalUpdate(UnfinishedCharges(jobs), id, UnfinishedBytes(r));
    assert UnfinishedCharges(jobs[id := r]) == UnfinishedCharges(jobs)[id := UnfinishedBytes(r)];
  }

  lemma PromisedRemove(rs: map<Id, Reservation>, id: Id)
    requires id in rs
    ensures Total(ReservationCharges(rs - {id})) == Total(ReservationCharges(rs)) - rs[id].bytes
  {
    TotalRemove(ReservationCharges(rs), id);
    assert ReservationCharges(rs - {id}) == ReservationCharges(rs) - {id};
  }

  lemma {:induction false} TotalZero<K>(m: map<K, int>)
    requires forall k :: k in m ==> m[k] == 0
    ensures Total(m) == 0
    decreases |m|
  {
    if m != map[] {
      var j :| j in m;
      TotalRemove(m, j);
      TotalZero(m - {j});
    }
  }

  /** Tombstones are free, so finished and unfinished jobs hold everything between them. */
  lemma HeldIsFinishedPlusUnfinished(jobs: map<Id, Record>)
    requires WellFormedJobs(jobs)
    ensures Total(JobCharges(jobs)) == Total(FinishedCharges(jobs)) + Total(UnfinishedCharges(jobs))
    ensures 0 <= Total(FinishedCharges(jobs)) && 0 <= Total(UnfinishedCharges(jobs))
  {
    hide Total;
    forall id | id in jobs ensures 0 <= jobs[id].bytes && (jobs[id].job.status == Evicted ==> jobs[id].bytes == 0) {
      assert WellFormedRecord(id, jobs[id]);
    }
    TotalSum(FinishedCharges(jobs), UnfinishedCharges(jobs), JobCharges(jobs));
    TotalNonNegative(FinishedCharges(jobs));
    TotalNonNegative(UnfinishedCharges(jobs));
  }

  // ---------- admission ----------

  /** Reserve looks at everything charged, yet decides on reservations and unfinished work alone:
      finished or expired-but-unswept jobs never cost a new message its place. */
  lemma ReserveAdmitsExactly(s: State, want: int)
    requires Accounted(s)
    ensures ReserveError(s, want) == Some(StoreClosed) <==> s.closed
    ensures !s.closed ==> (ReserveError(s, want) == None <==> Promised(s) + Unsettled(s) + want <= s.maxBytes)
  {
    hide Total;
    HeldIsFinishedPlusUnfinished(s.jobs);
  }

  lemma ReserveKeepsBudget(s: State, id: Id, want: int, now: int)
    requires Valid(s) && 0 <= want && id !in s.reservations && ReserveError(s, want) == None
    ensures Valid(AfterReserve(s, id, want, now))
  {
    hide Total;
    ReserveAdmitsExactly(s, want);
    var s' := AfterReserve(s, id, want, now);
    PromisedRemove(s'.reservations, id);
    assert s'.reservations - {id} == s.reservations;
  }

  lemma ReleaseKeepsBudget(s: State, id: Id)
    requires Valid(s)
    ensures Valid(AfterRelease(s, id))
  {
    hide Total;
    if id in s.reservations {
      PromisedRemove(s.reservations, id);
    }
  }

  // ---------- eviction ----------

  lemma {:induction false} SeqBytesSplit(jobs: map<Id, Record>, a: seq<Id>, b: seq<Id>)
    requires forall i :: 0 <= i < |a| ==> a[i] in jobs
    requires forall i :: 0 <= i < |b| ==> b[i] in jobs
    ensures forall i :: 0 <= i < |a + b| ==> (a + b)[i] in jobs
    ensures SeqBytes(jobs, a + b) == SeqBytes(jobs, a) + SeqBytes(jobs, b)
  {
    if a == [] {
      assert a + b == b;
    } else {
      assert (a + b)[1..] == a[1..] + b;
      SeqBytesSplit(jobs, a[1..], b);
    }
  }

  /** The loop stops as early as it can: everything it took was needed, and it only runs out when nothing is left. */
  lemma {:induction false} CutIsLeast(jobs: map<Id, Record>, excess: int, order: seq<Id>)
    requires forall i :: 0 <= i < |order| ==> order[i] in jobs
    ensures var k := Cut(jobs, excess, order);
      && (k < |order| ==> excess <= SeqBytes(jobs, order[..k]))
      && (0 < k ==> SeqBytes(jobs, order[..k - 1]) < excess)
    decreases order
  {
    if order != [] && 0 < excess {
      var excess' := excess - jobs[order[0]].bytes;
      CutIsLeast(jobs, excess', order[1..]);
      var k := Cut(jobs, excess, order);
      assert order[..k][1..] == order[1..][..k - 1];
      if 1 < k {
        assert order[..k - 1][1..] == order[1..][..k - 2];
      }
    }
  }

  /** Burying distinct jobs frees exactly their charges. */
  lemma {:induction false} BuriedHeld(jobs: map<Id, Record>, ids: seq<Id>)
    requires forall i :: 0 <= i < |ids| ==> ids[i] in jobs
    requires forall i, j :: 0 <= i < j < |ids| ==> ids[i] != ids[j]
    ensures Total(JobCharges(Buried(jobs, ids))) == Total(JobCharges(jobs)) - SeqBytes(jobs, ids)
    decreases ids
  {
    hide Total;
    if ids == [] {
      assert Buried(jobs, ids) == jobs;
    } else {
      var id := ids[0];
      var jobs' := jobs[id := Tombstone(jobs[id])];
      BuriedHeld(jobs', ids[1..]);
      HeldUpdate(jobs, id, Tombstone(jobs[id]));
      SeqBytesUntouched(jobs, jobs', ids[1..]);
      assert Buried(jobs', ids[1..]) == Buried(jobs, ids);
    }
  }

  lemma {:induction false} SeqBytesUntouched(jobs: map<Id, Record>, jobs': map<Id, Record>, ids: seq<Id>)
    requires forall i :: 0 <= i < |ids| ==> ids[i] in jobs && ids[i] in jobs' && jobs[ids[i]] == jobs'[ids[i]]
    ensures SeqBytes(jobs, ids) == SeqBytes(jobs', ids)
  {
    if ids != [] {
      SeqBytesUntouched(jobs, jobs', ids[1..]);
    }
  }

  lemma BuriedUnsettled(jobs: map<Id, Record>, ids: seq<Id>)
    requires DistinctCandidates(jobs, ids)
    ensures UnfinishedCharges(Buried(jobs, ids)) == UnfinishedCharges(jobs)
  {
  }

  /** All that may give way adds up to everything finished jobs hold. */
  lemma CandidatesHoldAllFinished(jobs: map<Id, Record>, order: seq<Id>)
    requires WellFormedJobs(jobs)
    requires EvictionOrder(jobs, order)
    ensures SeqBytes(jobs, order) == Total(FinishedCharges(jobs))
  {
    hide Total;
    var bare := Buried(jobs, order);
    BuriedHeld(jobs, order);
    BuriedUnsettled(jobs, order);
    HeldIsFinishedPlusUnfinished(jobs);
    HeldIsFinishedPlusUnfinished(bare);
    TotalZero(FinishedCharges(bare));
  }

  /** Burying finished jobs leaves the counter equal to the sum of the charges and unfinished work alone. */
  lemma BurialIsAccounted(s: State, ids: seq<Id>)
    requires Accounted(s) && DistinctCandidates(s.jobs, ids)
    ensures var s' := s.(jobs := Buried(s.jobs, ids), used := s.used - SeqBytes(s.jobs, ids));
      Accounted(s') && Held(s') == Held(s) - SeqBytes(s.jobs, ids) && Unsettled(s') == Unsettled(s)
  {
    hide Total, SeqBytes;
    BuriedHeld(s.jobs, ids);
    BuriedUnsettled(s.jobs, ids);
    forall id | id in s.jobs ensures WellFormedRecord(id, Buried(s.jobs, ids)[id]) {
      assert WellFormedRecord(id, s.jobs[id]);
    }
  }

  /** Once everything that may give way is gone, only unfinished work is left. */
  lemma CutFreesEnough(s: State, order: seq<Id>)
    requires Accounted(s) && EvictionOrder(s.jobs, order) && Unsettled(s) <= s.maxBytes
    ensures Held(s) - SeqBytes(s.jobs, Victims(s, order)) <= s.maxBytes
  {
    hide Total;
    CutIsLeast(s.jobs, s.used - Promised(s) - s.maxBytes, order);
    if Victims(s, order) == order {
      HeldIsFinishedPlusUnfinished(s.jobs);
      CandidatesHoldAllFinished(s.jobs, order);
    }
  }

  /** The theorem of the allocator: whatever committed jobs hold, however it came to exceed the budget, evicting
      oldest-first brings it back as long as reservations and unfinished work fit - which admission guarantees. */
  lemma MakeRoomAlwaysSucceeds(s: State, order: seq<Id>)
    requires Accounted(s) && EvictionOrder(s.jobs, order)
    requires Promised(s) + Unsettled(s) <= s.maxBytes
    ensures Valid(MakeRoom(s, order))
    ensures Unsettled(MakeRoom(s, order)) == Unsettled(s)
  {
    hide Total, SeqBytes;
    TotalNonNegative(ReservationCharges(s.reservations));
    CutFreesEnough(s, order);
    BurialIsAccounted(s, Victims(s, order));
  }

  /** What eviction leaves alone: unfinished work, reservations, and every job that is not a victim. */
  lemma EvictionTouchesOnlyVictims(s: State, order: seq<Id>)
    requires DistinctCandidates(s.jobs, order)
    ensures var s' := MakeRoom(s, order);
      && s'.jobs.Keys == s.jobs.Keys && s'.reservations == s.reservations
      && forall id :: id in s.jobs ==>
           if id in Victims(s, order) then Candidate(s.jobs[id]) && s'.jobs[id] == Tombstone(s.jobs[id])
           else s'.jobs[id] == s.jobs[id]
  {
  }

  /** Nobody's scan goes while an older finished one stays. */
  lemma EvictionIsOldestFirst(s: State, order: seq<Id>, v: Id, id: Id)
    requires EvictionOrder(s.jobs, order)
    requires v in Victims(s, order) && id in s.jobs && Candidate(s.jobs[id]) && id !in Victims(s, order)
    ensures s.jobs[v].job.receivedAt <= s.jobs[id].job.receivedAt
  {
    var k := |Victims(s, order)|;
    var i :| 0 <= i < k && order[i] == v;
    var j :| 0 <= j < |order| && order[j] == id;
    assert Victims(s, order)[..k] == order[..k];
  }

  /** Not one job more than needed: nothing goes from a store that fits, and sparing the last victim would not do. */
  lemma EvictionIsLeast(s: State, order: seq<Id>)
    requires Accounted(s) && DistinctCandidates(s.jobs, order)
    ensures var victims := Victims(s, order);
      && (Held(s) <= s.maxBytes ==> victims == [])
      && (victims != [] ==>
            Held(MakeRoom(s, order)) + s.jobs[victims[|victims| - 1]].bytes > s.maxBytes)
  {
    hide Total, SeqBytes, Buried;
    var victims := Victims(s, order);
    CutIsLeast(s.jobs, s.used - Promised(s) - s.maxBytes, order);
    BurialIsAccounted(s, victims);
    if victims != [] {
      SeqBytesLast(s.jobs, victims);
      assert order[..|victims| - 1] == victims[..|victims| - 1];
    }
  }

  lemma SeqBytesLast(jobs: map<Id, Record>, ids: seq<Id>)
    requires DistinctCandidates(jobs, ids) && ids != []
    ensures SeqBytes(jobs, ids) == SeqBytes(jobs, ids[..|ids| - 1]) + jobs[ids[|ids| - 1]].bytes
  {
    var last := ids[|ids| - 1];
    assert ids == ids[..|ids| - 1] + [last];
    SeqBytesSplit(jobs, ids[..|ids| - 1], [last]);
  }

  /** An open reservation never decides what is destroyed: with any other set of them, the same jobs go. */
  lemma EvictionIgnoresReservations(s: State, t: State, order: seq<Id>)
    requires Accounted(s) && Accounted(t) && s.jobs == t.jobs && s.maxBytes == t.maxBytes
    requires DistinctCandidates(s.jobs, order)
    ensures Victims(s, order) == Victims(t, order) && MakeRoom(s, order).jobs == MakeRoom(t, order).jobs
  {
    hide Total;
    assert s.used - Promised(s) == t.used - Promised(t);
  }

  // ---------- every other transition ----------

  lemma BookedIsAccounted(s: State, rid: Id, job: Job, files: set<Path>)
    requires Accounted(s) && CommitError(s, rid) == None
    requires job.id !in s.jobs && job.status == Pending && job.error == ""
    ensures var b := Booked(s, rid, job, files);
      Accounted(b) && Promised(b) + Unsettled(b) == Promised(s) + Unsettled(s)
  {
    hide Total;
    var r := Record(job, rid, s.reservations[rid].bytes, files);
    PromisedRemove(s.reservations, rid);
    HeldUpdate(s.jobs, job.id, r);
    UnsettledUpdate(s.jobs, job.id, r);
  }

  lemma CommitKeepsBudget(s: State, rid: Id, job: Job, files: set<Path>, order: seq<Id>)
    requires Valid(s) && CommitError(s, rid) == None
    requires job.id !in s.jobs && job.status == Pending && job.error == ""
    requires EvictionOrder(Booked(s, rid, job, files).jobs, order)
    ensures Valid(MakeRoom(Booked(s, rid, job, files), order))
  {
    hide Total;
    BookedIsAccounted(s, rid, job, files);
    MakeRoomAlwaysSucceeds(Booked(s, rid, job, files), order);
  }

  /** The charge a record ends up with does not have to be what it was booked at, however large. */
  lemma SettledIsAccounted(s: State, id: Id, st: Status, msg: string, now: int)
    requires Accounted(s) && StatusError(s, id) == None
    requires st != Evicted && (Finished(s.jobs[id].job.status) ==> Finished(st))
    ensures Accounted(Settled(s, id, st, msg, now))
    ensures Unsettled(Settled(s, id, st, msg, now)) <= Unsettled(s)
    ensures !Finished(st) ==> Held(Settled(s, id, st, msg, now)) == Held(s)
  {
    hide Total;
    var s' := Settled(s, id, st, msg, now);
    HeldUpdate(s.jobs, id, s'.jobs[id]);
    UnsettledUpdate(s.jobs, id, s'.jobs[id]);
    assert WellFormedRecord(id, s'.jobs[id]);
  }

  lemma SetStatusKeepsBudget(s: State, id: Id, st: Status, msg: string, now: int, order: seq<Id>)
    requires Valid(s) && StatusError(s, id) == None
    requires st != Evicted && (Finished(s.jobs[id].job.status) ==> Finished(st))
    requires Finished(st) ==> EvictionOrder(Settled(s, id, st, msg, now).jobs, order)
    ensures Valid(AfterSetStatus(s, id, st, msg, now, order))
  {
    hide Total;
    SettledIsAccounted(s, id, st, msg, now);
    if Finished(st) {
      MakeRoomAlwaysSucceeds(Settled(s, id, st, msg, now), order);
    }
  }

  /** Outside the lifecycle the pipeline follows, SetStatus keeps the budget exactly when the job stays on the same
      side of "finished", becomes finished, or the work in flight still has room for it; "removed" is never safe to
      pass unless the job already is an empty, free record. */
  lemma SetStatusKeepsBudgetIff(s: State, id: Id, st: Status, msg: string, now: int, order: seq<Id>)
    requires Valid(s) && StatusError(s, id) == None
    requires Finished(st) ==> EvictionOrder(Settled(s, id, st, msg, now).jobs, order)
    ensures Valid(AfterSetStatus(s, id, st, msg, now, order)) <==>
      var r := s.jobs[id];
      if st == Evicted then r.bytes == 0 && r.job.documents == [] && r.files == {}
      else Finished(r.job.status) && !Finished(st) ==> Promised(s) + Unsettled(s) + r.bytes <= s.maxBytes
  {
    hide Total;
    var r := s.jobs[id];
    if st != Evicted && (Finished(r.job.status) ==> Finished(st)) {
      SetStatusKeepsBudget(s, id, st, msg, now, order);
    } else {
      var s' := Settled(s, id, st, msg, now);
      HeldUpdate(s.jobs, id, s'.jobs[id]);
      UnsettledUpdate(s.jobs, id, s'.jobs[id]);
      assert AfterSetStatus(s, id, st, msg, now, order) == s';
      assert WellFormedRecord(id, s'.jobs[id]) <==> (st == Evicted ==> IsTombstone(s'.jobs[id]));
      assert Accounted(s') <==> WellFormedRecord(id, s'.jobs[id]);
    }
  }

  lemma SwappedIsAccounted(s: State, id: Id, docId: Id, path: Path, size: nat, ocr: bool)
    requires Accounted(s) && ReplaceError(s, id, docId, path) == None
    ensures var s' := Swapped(s, id, docId, path, size, ocr);
      && Accounted(s') && Unsettled(s') == Unsettled(s)
      && (!Finished(s.jobs[id].job.status) ==> Held(s') == Held(s))
  {
    hide Total;
    var s' := Swapped(s, id, docId, path, size, ocr);
    HeldUpdate(s.jobs, id, s'.jobs[id]);
    UnsettledUpdate(s.jobs, id, s'.jobs[id]);
    assert WellFormedRecord(id, s.jobs[id]);
    assert WellFormedRecord(id, s'.jobs[id]);
  }

  lemma ReplaceKeepsBudget(s: State, id: Id, docId: Id, path: Path, size: nat, ocr: bool, order: seq<Id>)
    requires Valid(s) && ReplaceError(s, id, docId, path) == None
    requires Finished(s.jobs[id].job.status) ==> EvictionOrder(Swapped(s, id, docId, path, size, ocr).jobs, order)
    ensures Valid(AfterReplace(s, id, docId, path, size, ocr, order))
  {
    hide Total;
    SwappedIsAccounted(s, id, docId, path, size, ocr);
    if Finished(s.jobs[id].job.status) {
      MakeRoomAlwaysSucceeds(Swapped(s, id, docId, path, size, ocr), order);
    }
  }

  lemma RegisterKeepsBudget(s: State, id: Id, path: Path)
    requires Valid(s) && StatusError(s, id) == None
    ensures Valid(AfterRegister(s, id, path))
  {
    hide Total;
    var s' := AfterRegister(s, id, path);
    HeldUpdate(s.jobs, id, s'.jobs[id]);
    UnsettledUpdate(s.jobs, id, s'.jobs[id]);
  }

  lemma DeleteKeepsBudget(s: State, id: Id)
    requires Valid(s) && id in s.jobs
    ensures Valid(AfterDelete(s, id))
  {
    hide Total;
    HeldRemove(s.jobs, id);
    UnsettledRemove(s.jobs, id);
    HeldIsFinishedPlusUnfinished(s.jobs);
  }

  lemma SweepKeepsBudget(s: State, now: int)
    requires Valid(s)
    ensures Valid(AfterSweep(s, now))
  {
    hide Total;
    var s' := AfterSweep(s, now);
    TotalSubset(JobCharges(s'.jobs), JobCharges(s.jobs));
    TotalSubset(ReservationCharges(s'.reservations), ReservationCharges(s.reservations));
    HeldIsFinishedPlusUnfinished(s.jobs);
    TotalSubset(UnfinishedCharges(s'.jobs), UnfinishedCharges(s.jobs));
  }

  lemma CloseKeepsBudget(s: State)
    requires Valid(s)
    ensures Valid(AfterClose(s))
  {
    var s' := AfterClose(s);
    if !s.closed {
      assert JobCharges(s'.jobs) == map[] && ReservationCharges(s'.reservations) == map[];
      assert UnfinishedCharges(s'.jobs) == map[];
    }
  }
}
