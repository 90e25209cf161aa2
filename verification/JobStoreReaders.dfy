/** What web readers see: sweeps never change it, and a tombstone stays what it is. */
module JobStoreReaders {
  import opened JobTypes
  import opened JobStore
  import opened JobStoreBudget
  import opened DiskStore

  /** A sweep only removes what readers were already told is gone: at any time at or after it, Get and ListForUser
      answer as if it had not run. */
  lemma SweepIsInvisible(s: State, swept: int, now: int, id: Id, identities: seq<string>)
    requires swept <= now
    ensures Get(AfterSweep(s, swept), id, now) == Get(s, id, now)
    ensures Listed(AfterSweep(s, swept), identities, now) == Listed(s, identities, now)
  {
    var s' := AfterSweep(s, swept);
    forall x ensures x in Listed(s', identities, now) <==> x in Listed(s, identities, now) {
      assert x in s'.jobs <==> x in s.jobs && Live(s.jobs[x].job, swept);
    }
  }

  /** Whoever is listed a job can open it, and only a web job addressed to one of their names is listed. */
  lemma ListedCanBeOpened(s: State, id: Id, identities: seq<string>, now: int)
    ensures id in Listed(s, identities, now) <==>
      Get(s, id, now).Some? && Get(s, id, now).value.caps.web
      && exists i :: 0 <= i < |Get(s, id, now).value.recipients|
                  && Get(s, id, now).value.recipients[i] in identities && Get(s, id, now).value.recipients[i] != ""
  {
    if id in s.jobs && Live(s.jobs[id].job, now) {
      var want := set w | w in identities && w != "";
      var rs := s.jobs[id].job.recipients;
      assert forall i :: 0 <= i < |rs| ==> (rs[i] in want <==> rs[i] in identities && rs[i] != "");
    }
  }

  ghost predicate Ends(op: Op, id: Id, deadline: int) {
    match op
    case Delete(x) => x == id
    case Sweep(now) => deadline <= now
    case Close => true
    case _ => false
  }

  lemma MakingRoomKeepsDeadlines(s: State, order: seq<Id>, id: Id)
    requires DistinctCandidates(s.jobs, order) && id in s.jobs
    ensures var r := MakeRoom(s, order).jobs; id in r && r[id].job.expiresAt == s.jobs[id].job.expiresAt
    ensures MakeRoom(s, order).jobs[id] == s.jobs[id]
            || (Candidate(s.jobs[id]) && MakeRoom(s, order).jobs[id] == Tombstone(s.jobs[id]))
  {
    EvictionTouchesOnlyVictims(s, order);
  }

  /** A job that is over keeps its deadline until that has passed, and its record until then, unless it is evicted,
      deleted or the store closes. */
  lemma OverKeepsItsDeadline(w: World, op: Op, id: Id)
    requires Enabled(w, op) && id in w.store.jobs && !Unfinished(w.store.jobs[id].job.status)
    requires !Ends(op, id, w.store.jobs[id].job.expiresAt)
    ensures var jobs := Apply(w, op).store.jobs;
      && id in jobs && jobs[id].job.expiresAt == w.store.jobs[id].job.expiresAt
      && (jobs[id] == w.store.jobs[id] || (Finished(w.store.jobs[id].job.status) && jobs[id] == Tombstone(w.store.jobs[id])))
  {
    hide MakeRoom, EvictedDirs, SweptDirs, ReserveError, DocsOnDisk, DistinctDocs;
    match op
    case Commit(rid, job, files, order) => MakingRoomKeepsDeadlines(Booked(w.store, rid, job, files), order, id);
    case SetStatus(x, st, msg, order) =>
      if Finished(st) {
        MakingRoomKeepsDeadlines(Settled(w.store, x, st, msg, w.clock), order, id);
      }
    case _ =>
  }

  /** A tombstone has no documents, no charge and no files, and every writer is told it is not there. */
  lemma TombstoneRefusesWriters(s: State, id: Id, docId: Id, path: Path)
    requires WellFormedJobs(s.jobs) && id in s.jobs && s.jobs[id].job.status == Evicted
    ensures s.jobs[id].bytes == 0 && s.jobs[id].job.documents == [] && s.jobs[id].files == {}
    ensures StatusError(s, id) == Some(NotFound) && ReplaceError(s, id, docId, path) == Some(NotOurFile)
    ensures !Candidate(s.jobs[id])
  {
    assert WellFormedRecord(id, s.jobs[id]);
  }
}
