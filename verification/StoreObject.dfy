/** The store as the mutable object it is: every method is one critical section of internal/jobs/store.go,
    proved against the transition of the same name in `JobStore`. */
module StoreObject {
  import opened JobTypes
  import opened Sums
  import opened JobStore
  import opened JobStoreBudget

  datatype Result<+T> = Ok(value: T) | Err(error: Error)

  /** `order` with one more candidate, behind everything that arrived no later. */
  function Insert(jobs: map<Id, Record>, order: seq<Id>, id: Id): (r: seq<Id>)
    requires DistinctCandidates(jobs, order) && OldestFirst(jobs, order)
    requires id in jobs && Candidate(jobs[id]) && id !in order
    ensures forall x :: x in r <==> x in order || x == id
    ensures DistinctCandidates(jobs, r) && OldestFirst(jobs, r)
  {
    if order == [] || jobs[id].job.receivedAt < jobs[order[0]].job.receivedAt then [id] + order
    else
      var rest := Insert(jobs, order[1..], id);
      assert forall i :: 0 <= i < |rest| ==>
          order[0] != rest[i] && jobs[order[0]].job.receivedAt <= jobs[rest[i]].job.receivedAt by {
        forall i | 0 <= i < |rest|
          ensures order[0] != rest[i] && jobs[order[0]].job.receivedAt <= jobs[rest[i]].job.receivedAt
        {
          assert rest[i] in rest;
          if rest[i] != id {
            var k :| 0 <= k < |order[1..]| && order[1..][k] == rest[i];
            assert order[k + 1] == rest[i];
          }
        }
      }
      [order[0]] + rest
  }

  lemma SomeEvictionOrder(jobs: map<Id, Record>) returns (order: seq<Id>)
    ensures EvictionOrder(jobs, order)
  {
    order := [];
    var todo := jobs.Keys;
    while todo != {}
      invariant todo <= jobs.Keys
      invariant DistinctCandidates(jobs, order) && OldestFirst(jobs, order)
      invariant forall id :: id in jobs && Candidate(jobs[id]) ==> (id in order <==> id !in todo)
      decreases todo
    {
      var id :| id in todo;
      todo := todo - {id};
      if Candidate(jobs[id]) {
        order := Insert(jobs, order, id);
      }
    }
  }

  /** One turn of the eviction loop. */
  lemma BuryOneMore(jobs: map<Id, Record>, candidates: seq<Id>, i: nat, excess: int)
    requires DistinctCandidates(jobs, candidates) && i < |candidates| && 0 < excess
    ensures candidates[..i + 1] == candidates[..i] + [candidates[i]]
    ensures var id := candidates[i];
      && id in Buried(jobs, candidates[..i]) && Buried(jobs, candidates[..i])[id] == jobs[id]
      && Buried(jobs, candidates[..i + 1]) == Buried(jobs, candidates[..i])[id := Tombstone(jobs[id])]
      && SeqBytes(jobs, candidates[..i + 1]) == SeqBytes(jobs, candidates[..i]) + jobs[id].bytes
      && Cut(jobs, excess, candidates[i..]) == 1 + Cut(jobs, excess - jobs[id].bytes, candidates[i + 1..])
  {
    var id := candidates[i];
    assert id !in candidates[..i];
    assert candidates[i..][1..] == candidates[i + 1..];
    SeqBytesSplit(jobs, candidates[..i], [id]);
  }

  lemma BuryNone(jobs: map<Id, Record>)
    ensures Buried(jobs, []) == jobs && SeqBytes(jobs, []) == 0
  {
  }

  lemma StopBurying(jobs: map<Id, Record>, excess: int, left: seq<Id>)
    requires DistinctCandidates(jobs, left) && (left == [] || excess <= 0)
    ensures Cut(jobs, excess, left) == 0
  {
  }

  class Store {
    const ttl: int
    const maxBytes: int
    var jobs: map<Id, Record>
    var reservations: map<Id, Reservation>
    var used: int
    var closed: bool

    ghost function Abs(): State
      reads this
    {
      State(ttl, maxBytes, jobs, reservations, used, closed)
    }

    ghost predicate Valid()
      reads this
    {
      JobStore.Valid(Abs())
    }

    constructor (ttl: int, maxBytes: int)
      requires 0 < ttl && 0 < maxBytes
      ensures Valid() && Abs() == State(ttl, maxBytes, map[], map[], 0, false)
    {
      this.ttl, this.maxBytes := ttl, maxBytes;
      jobs, reservations, used, closed := map[], map[], 0, false;
      new;
      assert JobCharges(jobs) == map[] && UnfinishedCharges(jobs) == map[];
      assert ReservationCharges(reservations) == map[];
    }

    method AdmitsLocked(want: int) returns (ok: bool)
      requires Valid()
      ensures ok <==> Admits(Abs(), want)
    {
      if used + want <= maxBytes {
        return true;
      }
      var freeable := FreeableLocked();
      ok := used - freeable + want <= maxBytes;
    }

    method FreeableLocked() returns (freeable: int)
      ensures freeable == Total(FinishedCharges(jobs))
    {
      freeable := 0;
      var todo := jobs.Keys;
      ghost var seen: map<Id, int> := map[];
      while todo != {}
        invariant todo <= jobs.Keys
        invariant seen == map id | id in jobs && id !in todo :: FinishedCharges(jobs)[id]
        invariant freeable == Total(seen)
        decreases todo
      {
        hide Total;
        var id :| id in todo;
        todo := todo - {id};
        TotalUpdate(seen, id, FinishedCharges(jobs)[id]);
        seen := seen[id := FinishedCharges(jobs)[id]];
        if Finished(jobs[id].job.status) {
          freeable := freeable + jobs[id].bytes;
        }
      }
      assert seen == FinishedCharges(jobs);
    }

    /** The locked half of Reserve. */
    method Reserve(want: int, id: Id, now: int) returns (r: Result<Id>)
      requires Valid() && 0 <= want && id !in reservations
      modifies this
      ensures Valid()
      ensures match old(ReserveError(Abs(), want))
        case Some(e) => r == Err(e) && Abs() == old(Abs())
        case None => r == Ok(id) && Abs() == old(AfterReserve(Abs(), id, want, now))
    {
      if closed {
        return Err(StoreClosed);
      }
      var ok := AdmitsLocked(want);
      if !ok {
        return Err(AtCapacity);
      }
      ReserveKeepsBudget(Abs(), id, want, now);
      reservations := reservations[id := Reservation(now, want)];
      used := used + want;
      r := Ok(id);
    }

    method ReleaseReservation(id: Id)
      requires Valid()
      modifies this
      ensures Valid() && Abs() == old(AfterRelease(Abs(), id))
    {
      ReleaseKeepsBudget(Abs(), id);
      if id in reservations {
        used := used - reservations[id].bytes;
        reservations := reservations - {id};
      }
    }

    /** All of Reserve: a staging directory that cannot be made leaves the store as if nobody had asked. */
    method OpenStaging(want: int, id: Id, now: int, directoryMade: bool) returns (r: Result<Id>)
      requires Valid() && 0 <= want && id !in reservations
      modifies this
      ensures Valid()
      ensures r.Ok? <==> old(ReserveError(Abs(), want)) == None && directoryMade
      ensures r.Err? ==> Abs() == old(Abs())
      ensures r.Ok? ==> reservations == old(reservations)[id := Reservation(now, want)] && jobs == old(jobs)
    {
      r := Reserve(want, id, now);
      if r.Ok? && !directoryMade {
        ReleaseReservation(id);
        assert reservations == old(reservations);
        r := Err(NoDirectory);
      }
    }

    /** sort.Slice by arrival over the finished jobs that hold anything. */
    method SortedCandidates() returns (order: seq<Id>)
      ensures EvictionOrder(jobs, order)
    {
      order := [];
      var todo := jobs.Keys;
      while todo != {}
        invariant todo <= jobs.Keys
        invariant DistinctCandidates(jobs, order) && OldestFirst(jobs, order)
        invariant forall id :: id in jobs && Candidate(jobs[id]) ==> (id in order <==> id !in todo)
        decreases todo
      {
        var id :| id in todo;
        todo := todo - {id};
        if Candidate(jobs[id]) {
          order := Insert(jobs, order, id);
        }
      }
    }

    /** The eviction loop over already sorted candidates. */
    method EvictWhileOver(candidates: seq<Id>, start: int) returns (evicted: seq<Id>)
      requires Accounted(Abs()) && DistinctCandidates(jobs, candidates)
      requires start == used - Promised(Abs())
      modifies this`jobs, this`used
      ensures Abs() == old(MakeRoom(Abs(), candidates)) && evicted == old(Victims(Abs(), candidates))
    {
      hide Total, Promised, Held, Accounted, Buried, Cut, SeqBytes;
      ghost var was := jobs;
      var i, held := 0, start;
      evicted := [];
      BuryNone(was);
      assert candidates[0..] == candidates;
      while i < |candidates| && held > maxBytes
        invariant i <= |candidates| && evicted == candidates[..i]
        invariant Cut(was, start - maxBytes, candidates) == i + Cut(was, held - maxBytes, candidates[i..])
        invariant jobs == Buried(was, evicted) && used == old(used) - SeqBytes(was, evicted)
      {
        BuryOneMore(was, candidates, i, held - maxBytes);
        var id := candidates[i];
        var rec := jobs[id];
        held := held - rec.bytes;
        evicted := evicted + [id];
        jobs := jobs[id := Tombstone(rec)];
        used := used - rec.bytes;
        i := i + 1;
      }
      StopBurying(was, held - maxBytes, candidates[i..]);
    }

    /** `held` is what committed jobs hold, never what is only promised. */
    method MakeRoomLocked() returns (evicted: seq<Id>, ghost order: seq<Id>)
      requires Accounted(Abs()) && Promised(Abs()) + Unsettled(Abs()) <= maxBytes
      modifies this`jobs, this`used
      ensures Valid() && EvictionOrder(old(jobs), order)
      ensures Abs() == old(MakeRoom(Abs(), order)) && evicted == old(Victims(Abs(), order))
    {
      var held := HeldLocked();
      if held <= maxBytes {
        order := SomeEvictionOrder(jobs);
        MakeRoomAlwaysSucceeds(Abs(), order);
        assert Buried(jobs, []) == jobs;
        evicted := [];
      } else {
        var candidates := SortedCandidates();
        order := candidates;
        MakeRoomAlwaysSucceeds(Abs(), order);
        evicted := EvictWhileOver(candidates, held);
      }
    }

    method HeldLocked() returns (held: int)
      ensures held == used - Promised(Abs())
    {
      held := used;
      var todo := reservations.Keys;
      ghost var seen: map<Id, int> := map[];
      while todo != {}
        invariant todo <= reservations.Keys
        invariant seen == map id | id in reservations && id !in todo :: reservations[id].bytes
        invariant held == used - Total(seen)
        decreases todo
      {
        hide Total;
        var id :| id in todo;
        todo := todo - {id};
        TotalUpdate(seen, id, reservations[id].bytes);
        seen := seen[id := reservations[id].bytes];
        held := held - reservations[id].bytes;
      }
      assert seen == ReservationCharges(reservations);
    }

    method CommitReservation(rid: Id, job: Job, files: set<Path>)
      returns (r: Result<()>, evicted: seq<Id>, ghost order: seq<Id>)
      requires Valid() && job.id !in jobs && job.status == Pending && job.error == ""
      modifies this
      ensures Valid()
      ensures match old(CommitError(Abs(), rid))
        case Some(e) => r == Err(e) && evicted == [] && Abs() == old(Abs())
        case None =>
          var booked := old(Booked(Abs(), rid, job, files));
          r == Ok(()) && EvictionOrder(booked.jobs, order)
          && Abs() == MakeRoom(booked, order) && evicted == Victims(booked, order)
    {
      order, evicted := [], [];
      if closed {
        return Err(StoreClosed), [], [];
      }
      if rid !in reservations {
        return Err(ReservationGone), [], [];
      }
      BookedIsAccounted(Abs(), rid, job, files);
      var promise := reservations[rid];
      reservations := reservations - {rid};
      jobs := jobs[job.id := Record(job, rid, promise.bytes, files)];
      evicted, order := MakeRoomLocked();
      r := Ok(());
    }

    method SetStatus(id: Id, st: Status, msg: string, now: int)
      returns (r: Result<()>, evicted: seq<Id>, leftovers: set<Path>, ghost order: seq<Id>)
      requires Valid()
      modifies this
      ensures st != Evicted && (id in old(jobs) && Finished(old(jobs)[id].job.status) ==> Finished(st)) ==> Valid()
      ensures match old(StatusError(Abs(), id))
        case Some(e) => r == Err(e) && Abs() == old(Abs()) && evicted == [] && leftovers == {}
        case None =>
          r == Ok(()) && leftovers == old(Leftovers(Abs(), id, st))
          && (if Finished(st)
              then EvictionOrder(old(Settled(Abs(), id, st, msg, now)).jobs, order)
                   && evicted == Victims(old(Settled(Abs(), id, st, msg, now)), order)
              else evicted == [])
          && Abs() == old(AfterSetStatus(Abs(), id, st, msg, now, order))
    {
      hide Total, SeqBytes;
      order, evicted, leftovers := [], [], {};
      if id !in jobs || jobs[id].job.status == Evicted {
        return Err(NotFound), [], {}, [];
      }
      r := Ok(());
      if Finished(st) {
        evicted, leftovers, order := SettleLocked(id, st, msg, now);
      } else {
        if st != Evicted && !Finished(jobs[id].job.status) {
          SettledIsAccounted(Abs(), id, st, msg, now);
        }
        jobs := jobs[id := jobs[id].(job := WithStatus(jobs[id].job, st, msg))];
      }
    }

    /** What SetStatus does for a final state: new deadline, real charge, leftovers, room. */
    method SettleLocked(id: Id, st: Status, msg: string, now: int)
      returns (evicted: seq<Id>, leftovers: set<Path>, ghost order: seq<Id>)
      requires Valid() && StatusError(Abs(), id) == None && Finished(st)
      modifies this`jobs, this`used
      ensures Valid() && leftovers == old(Leftovers(Abs(), id, st))
      ensures var settled := old(Settled(Abs(), id, st, msg, now));
        EvictionOrder(settled.jobs, order) && evicted == Victims(settled, order) && Abs() == MakeRoom(settled, order)
    {
      hide Total, SeqBytes;
      SettledIsAccounted(Abs(), id, st, msg, now);
      var rec := jobs[id];
      var job := WithStatus(rec.job, st, msg).(expiresAt := now + ttl);
      var keep := DocPaths(job.documents);
      var charge := DocBytes(job.documents);
      leftovers := rec.files - keep;
      used := used + charge - rec.bytes;
      jobs := jobs[id := rec.(job := job, bytes := charge, files := rec.files * keep)];
      assert Abs() == old(Settled(Abs(), id, st, msg, now));
      evicted, order := MakeRoomLocked();
    }

    /** The locked half of ReplaceDocument; `size` is what Lstat said. Returns the path to remove afterwards. */
    method ReplaceDocument(id: Id, docId: Id, path: Path, size: nat, ocr: bool)
      returns (r: Result<Path>, evicted: seq<Id>, ghost order: seq<Id>)
      requires Valid()
      modifies this
      ensures Valid()
      ensures match old(ReplaceError(Abs(), id, docId, path))
        case Some(e) => r == Err(e) && evicted == [] && Abs() == old(Abs())
        case None =>
          var docs := old(jobs)[id].job.documents;
          var swapped := old(Swapped(Abs(), id, docId, path, size, ocr));
          r == Ok(docs[DocIndex(docs, docId)].path)
          && (Finished(old(jobs)[id].job.status) ==>
                EvictionOrder(swapped.jobs, order) && evicted == Victims(swapped, order))
          && (!Finished(old(jobs)[id].job.status) ==> evicted == [])
          && Abs() == old(AfterReplace(Abs(), id, docId, path, size, ocr, order))
    {
      hide Total, SeqBytes;
      order, evicted := [], [];
      if id !in jobs {
        return Err(NotFound), [], [];
      }
      var rec := jobs[id];
      if path !in rec.files {
        return Err(NotOurFile), [], [];
      }
      var docs := rec.job.documents;
      var i := 0;
      while i < |docs| && docs[i].id != docId
        invariant i <= |docs|
        invariant forall k :: 0 <= k < i ==> docs[k].id != docId
      {
        i := i + 1;
      }
      if i == |docs| {
        return Err(NotFound), [], [];
      }
      SwappedIsAccounted(Abs(), id, docId, path, size, ocr);
      r := Ok(docs[i].path);
      docs := docs[i := docs[i].(path := path, size := size, ocrApplied := ocr)];
      if Finished(rec.job.status) {
        var charge := DocBytes(docs);
        used := used + charge - rec.bytes;
        jobs := jobs[id := rec.(job := rec.job.(documents := docs), bytes := charge)];
        assert Abs() == old(Swapped(Abs(), id, docId, path, size, ocr));
        evicted, order := MakeRoomLocked();
      } else {
        jobs := jobs[id := rec.(job := rec.job.(documents := docs))];
      }
    }

    /** The locked half of CreateFile that runs once the file exists; the first half asks the same question. */
    method RegisterFile(id: Id, path: Path) returns (r: Result<()>)
      requires Valid()
      modifies this
      ensures Valid()
      ensures match old(StatusError(Abs(), id))
        case Some(e) => r == Err(e) && Abs() == old(Abs())
        case None => r == Ok(()) && Abs() == old(AfterRegister(Abs(), id, path))
    {
      if id !in jobs || jobs[id].job.status == Evicted {
        return Err(NotFound);
      }
      RegisterKeepsBudget(Abs(), id, path);
      jobs := jobs[id := jobs[id].(files := jobs[id].files + {path})];
      r := Ok(());
    }

    /** Returns the directory to remove after unlocking. */
    method Delete(id: Id) returns (r: Result<Id>)
      requires Valid()
      modifies this
      ensures Valid()
      ensures id !in old(jobs) ==> r == Err(NotFound) && Abs() == old(Abs())
      ensures id in old(jobs) ==> r == Ok(old(jobs)[id].dir) && Abs() == old(AfterDelete(Abs(), id))
    {
      if id !in jobs {
        return Err(NotFound);
      }
      DeleteKeepsBudget(Abs(), id);
      var rec := jobs[id];
      used := used + (0 - rec.bytes);
      jobs := jobs - {id};
      r := Ok(rec.dir);
    }

    /** Returns what to remove after unlocking: expired jobs and leaked stagings. */
    method CleanExpired(now: int) returns (expired: set<Id>, leaked: set<Id>)
      requires Valid()
      modifies this
      ensures Valid() && Abs() == old(AfterSweep(Abs(), now))
      ensures expired == old(Expired(Abs(), now)) && leaked == old(Leaked(Abs(), now))
    {
      SweepKeepsBudget(Abs(), now);
      expired := SweepJobs(now);
      leaked := SweepReservations(now);
      assert jobs == old(jobs) - expired;
    }

    method SweepJobs(now: int) returns (expired: set<Id>)
      modifies this`jobs, this`used
      ensures expired == old(Expired(Abs(), now)) && jobs == old(jobs) - expired
      ensures used == old(used) - (old(Held(Abs())) - Held(Abs()))
    {
      expired := {};
      var todo := jobs.Keys;
      ghost var was := jobs;
      while todo != {}
        invariant todo <= was.Keys && expired !! todo
        invariant expired == set id | id in was && id !in todo && !Live(was[id].job, now)
        invariant jobs == was - expired
        invariant used == old(used) - (Total(JobCharges(was)) - Total(JobCharges(jobs)))
        decreases todo
      {
        hide Total;
        var id :| id in todo;
        todo := todo - {id};
        if !Live(jobs[id].job, now) {
          HeldRemove(jobs, id);
          expired := expired + {id};
          used := used + (0 - jobs[id].bytes);
          jobs := jobs - {id};
        }
      }
    }

    method SweepReservations(now: int) returns (leaked: set<Id>)
      modifies this`reservations, this`used
      ensures leaked == old(Leaked(Abs(), now)) && reservations == old(reservations) - leaked
      ensures used == old(used) - (old(Promised(Abs())) - Promised(Abs()))
    {
      leaked := {};
      var todo := reservations.Keys;
      ghost var was := reservations;
      while todo != {}
        invariant todo <= was.Keys && leaked !! todo
        invariant leaked == set id | id in was && id !in todo && Stale(was[id], now)
        invariant reservations == was - leaked
        invariant used == old(used) - (Total(ReservationCharges(was)) - Total(ReservationCharges(reservations)))
        decreases todo
      {
        hide Total;
        var id :| id in todo;
        todo := todo - {id};
        if Stale(reservations[id], now) {
          PromisedRemove(reservations, id);
          leaked := leaked + {id};
          used := used - reservations[id].bytes;
          reservations := reservations - {id};
        }
      }
    }

    method Close()
      requires Valid()
      modifies this
      ensures Valid() && Abs() == old(AfterClose(Abs()))
    {
      CloseKeepsBudget(Abs());
      if !closed {
        closed := true;
        jobs, reservations, used := map[], map[], 0;
      }
    }

    method Get(id: Id, now: int) returns (job: Option<Job>)
      ensures job == JobStore.Get(Abs(), id, now)
    {
      if id !in jobs || !Live(jobs[id].job, now) {
        return None;
      }
      job := Some(jobs[id].job);
    }

    /** Every visible job exactly once, newest first. */
    method ListForUser(identities: seq<string>, now: int) returns (out: seq<Job>)
      requires forall id :: id in jobs ==> jobs[id].job.id == id
      ensures forall i :: 0 <= i < |out| ==> out[i].id in Listed(Abs(), identities, now) && out[i] == jobs[out[i].id].job
      ensures forall id :: id in Listed(Abs(), identities, now) ==> jobs[id].job in out
      ensures forall i, j :: 0 <= i < j < |out| ==> out[i].id != out[j].id && out[i].receivedAt >= out[j].receivedAt
    {
      out := [];
      var want := set w | w in identities && w != "";
      var todo := jobs.Keys;
      while todo != {}
        invariant todo <= jobs.Keys
        invariant NewestFirst(out)
        invariant forall j :: j in out ==>
          j.id in jobs && j.id !in todo && VisibleTo(j, want, now) && j == jobs[j.id].job
        invariant forall id :: id in jobs && id !in todo && VisibleTo(jobs[id].job, want, now) ==> jobs[id].job in out
        decreases todo
      {
        var id :| id in todo;
        todo := todo - {id};
        var j := jobs[id].job;
        if VisibleTo(j, want, now) {
          out := InsertNewest(out, j);
        }
      }
      forall i | 0 <= i < |out| ensures out[i].id in Listed(Abs(), identities, now) && out[i] == jobs[out[i].id].job {
        assert out[i] in out;
      }
    }
  }

  ghost predicate NewestFirst(out: seq<Job>) {
    forall i, j :: 0 <= i < j < |out| ==> out[i].id != out[j].id && out[i].receivedAt >= out[j].receivedAt
  }

  /** The order ListForUser sorts into. */
  function InsertNewest(out: seq<Job>, j: Job): (r: seq<Job>)
    requires NewestFirst(out) && forall k :: 0 <= k < |out| ==> out[k].id != j.id
    ensures forall x :: x in r <==> x in out || x == j
    ensures NewestFirst(r)
  {
    if out == [] || j.receivedAt > out[0].receivedAt then [j] + out
    else
      var rest := InsertNewest(out[1..], j);
      assert forall i :: 0 <= i < |rest| ==>
          out[0].id != rest[i].id && out[0].receivedAt >= rest[i].receivedAt by {
        forall i | 0 <= i < |rest| ensures out[0].id != rest[i].id && out[0].receivedAt >= rest[i].receivedAt {
          assert rest[i] in rest;
          if rest[i] != j {
            var k :| 0 <= k < |out[1..]| && out[1..][k] == rest[i];
            assert out[k + 1] == rest[i];
          }
        }
      }
      [out[0]] + rest
  }
}
