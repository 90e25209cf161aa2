/** A worker's process, runOCR, deliver and fail (internal/pipeline/pipeline.go) as the straight code they are, over the
    store object, when nobody else comes between two of their steps. `Gateway` has the same steps with everybody in
    between. */
module PipelineObject {
  import opened JobTypes
  import opened Sums
  import opened JobStore
  import opened JobStoreBudget
  import opened Gateway
  import opened GatewayInv
  import StoreObject

  /** Every document again, through OCR: the same scan under the same id, in a new file of the size the service sent. */
  ghost predicate Recognized(ocr: Path -> Option<nat>, was: seq<Document>, now: seq<Document>) {
    && |now| == |was|
    && forall i :: 0 <= i < |was| ==>
         && now[i].id == was[i].id && now[i].displayName == was[i].displayName && now[i].ocrApplied
         && ocr(was[i].path).Some? && now[i].size == ocr(was[i].path).value
  }

  ghost predicate Recognizable(ocr: Path -> Option<nat>, docs: seq<Document>) {
    forall i :: 0 <= i < |docs| ==> ocr(docs[i].path).Some?
  }

  /** `docs` with the first `i` through OCR. */
  ghost predicate HalfWay(ocr: Path -> Option<nat>, was: seq<Document>, now: seq<Document>, i: nat) {
    && i <= |was| == |now|
    && Recognized(ocr, was[..i], now[..i]) && now[i..] == was[i..]
  }

  class Pipeline {
    const store: StoreObject.Store
    /** What the services answer: the size of the searchable PDF, and what became of a mail. */
    const ocr: Path -> Option<nat>
    const send: Job -> SendOutcome
    const now: int
    var disk: map<Path, nat>
    var nextName: nat
    var scans: seq<Job>
    var notices: seq<Job>

    constructor (store: StoreObject.Store, ocr: Path -> Option<nat>, send: Job -> SendOutcome, now: int)
      ensures this.store == store && this.ocr == ocr && this.send == send && this.now == now
      ensures disk == map[] && scans == [] && notices == [] && nextName == 0
    {
      this.store, this.ocr, this.send, this.now := store, ocr, send, now;
      disk, nextName, scans, notices := map[], 0, [], [];
    }

    /** The worker's copy is the store's record, its documents are on disk, and nothing there is newer than the next
        name. */
    ghost predicate Holds(job: Job, st: Status)
      reads this, store
    {
      && store.Valid() && DistinctDocs(job.documents)
      && job.id in store.jobs && store.jobs[job.id].job == job.(status := st)
      && (forall i :: 0 <= i < |job.documents| ==>
            job.documents[i].path in disk && disk[job.documents[i].path] == job.documents[i].size)
      && (forall p :: p in disk ==> p.name < nextName)
    }

    /** One document. On success the store's record and the worker's copy have moved on together. */
    method RunOcrOn(job: Job, i: nat) returns (ok: bool, out: Job)
      requires Holds(job, Processing) && i < |job.documents|
      modifies this`disk, this`nextName, store
      ensures store.Valid() && |out.documents| == |job.documents|
      ensures ok <==> ocr(job.documents[i].path).Some?
      ensures !ok ==> out == job && job.id in store.jobs && store.jobs[job.id].job == job.(status := Processing)
      ensures ok ==>
        && Holds(out, Processing) && out.documents[i].path.name >= old(nextName)
        && out == job.(documents :=
             WithOcr(job.documents, i, out.documents[i].path, ocr(job.documents[i].path).value))
    {
      hide Total, SeqBytes, Held, Promised, Unsettled, Accounted, WithinBudget;
      out := job;
      var doc := job.documents[i];
      if doc.path !in disk {
        return false, out;
      }
      var path := Path(store.jobs[job.id].dir, nextName);
      nextName := nextName + 1;
      disk := disk[path := 0];
      var registered := store.RegisterFile(job.id, path);
      var answer := ocr(doc.path);
      if answer.None? {
        return false, out;
      }
      disk := disk[path := answer.value];
      FirstWithItsId(job.documents, i);
      var replaced, evicted, order := store.ReplaceDocument(job.id, doc.id, path, disk[path], true);
      disk := disk - {doc.path};
      out := job.(documents := job.documents[i := doc.(path := path, size := disk[path], ocrApplied := true)]);
      ok := true;
    }

    /** Succeeds exactly if the service recognizes every document. */
    method RunOcr(job: Job) returns (ok: bool, out: Job)
      requires Holds(job, Processing)
      modifies this`disk, this`nextName, store
      ensures store.Valid() && out.id == job.id && out.caps == job.caps && out == job.(documents := out.documents)
      ensures ok <==> Recognizable(ocr, job.documents)
      ensures ok ==> Holds(out, Processing) && Recognized(ocr, job.documents, out.documents)
      ensures !ok ==> job.id in store.jobs && store.jobs[job.id].job == out.(status := Processing)
    {
      out := job;
      var i := 0;
      while i < |out.documents|
        invariant out == job.(documents := out.documents)
        invariant Holds(out, Processing) && HalfWay(ocr, job.documents, out.documents, i)
      {
        ghost var was := out.documents;
        ok, out := RunOcrOn(out, i);
        if !ok {
          assert job.documents[i] == was[i] by {
            assert was[i..][0] == job.documents[i..][0];
          }
          return;
        }
        OneMoreRecognized(ocr, job.documents, was, out.documents, i);
        i := i + 1;
      }
      ok := true;
      assert job.documents[..i] == job.documents && out.documents[..i] == out.documents;
    }

    /** SetStatus to a final state: the record comes out as asked, or evicted in the same step. */
    method End(job: Job, st: Status, reason: string)
      requires store.Valid() && job.id in store.jobs && store.jobs[job.id].job == job.(status := Processing)
      requires Finished(st)
      modifies store
      ensures store.Valid() && EndsAs(store.jobs, job, st, reason, now + store.ttl)
    {
      hide Total, SeqBytes, Held, Promised, Unsettled, Accounted, WithinBudget;
      var r, evicted, leftovers, order := store.SetStatus(job.id, st, reason, now);
      EvictionTouchesOnlyVictims(old(Settled(store.Abs(), job.id, st, reason, now)), order);
    }

    method DeleteJob(id: Id)
      requires store.Valid()
      modifies store
      ensures store.Valid() && id !in store.jobs
    {
      var r := store.Delete(id);
    }

    method Notice(job: Job)
      modifies this`notices
      ensures notices == old(notices) + [job]
    {
      notices := notices + [job];
    }

    /** A mail that is too large is not a failure: the recipients get a notice instead. */
    method Deliver(job: Job) returns (ok: bool)
      modifies this`scans, this`notices
      ensures ok <==> send(job) != SendFailed
      ensures scans == old(scans) + [job]
      ensures notices == old(notices) + if send(job) == TooLarge then [job] else []
    {
      scans := scans + [job];
      if send(job) == TooLarge {
        Notice(job);
      }
      ok := send(job) != SendFailed;
    }

    method Fail(job: Job, reason: string)
      requires store.Valid() && job.id in store.jobs && store.jobs[job.id].job == job.(status := Processing)
      modifies this`notices, store
      ensures store.Valid()
      ensures notices == old(notices) + if job.caps.email then [job] else []
      ensures if job.caps.web then EndsAs(store.jobs, job, Failed, reason, now + store.ttl)
              else job.id !in store.jobs
    {
      End(job, Failed, reason);
      if job.caps.email {
        Notice(job);
      }
      if !job.caps.web {
        DeleteJob(job.id);
      }
    }

    /** Whatever the services answer, exactly one of the documented ends: mailed at most once, a notice exactly when the
        scan could not be delivered, ready only if everything that was asked for happened, and nothing left behind
        without web. */
    method Process(job: Job) returns (out: Job)
      requires Holds(job, Pending) && job.status == Pending && job.error == ""
      modifies this, store
      ensures store.Valid() && out == job.(documents := out.documents)
      ensures var recognized := !job.caps.ocr || Recognizable(ocr, job.documents);
        var failed := !recognized || (job.caps.email && send(out) == SendFailed);
        && (recognized ==> if job.caps.ocr then Recognized(ocr, job.documents, out.documents) else out == job)
        && scans == old(scans) + (if recognized && job.caps.email then [out] else [])
        && notices == old(notices) + (if job.caps.email && (!recognized || send(out) != Sent) then [out] else [])
        && (!job.caps.web ==> job.id !in store.jobs)
        && (job.caps.web && !failed ==> EndsAs(store.jobs, out, Ready, "", now + store.ttl))
        && (job.caps.web && failed ==>
              EndsAs(store.jobs, out, Failed, if recognized then REASON_SEND else REASON_OCR_WEB, now + store.ttl))
    {
      hide Total, SeqBytes, Held, Promised, Unsettled, Accounted, WithinBudget, Recognizable, Recognized;
      out := job;
      var started, evicted, leftovers, order := store.SetStatus(job.id, Processing, "", now);
      if job.caps.ocr {
        var ok;
        ok, out := RunOcr(job);
        if !ok {
          Fail(out, if job.caps.web then REASON_OCR_WEB else REASON_OCR);
          return;
        }
      }
      if job.caps.email {
        var ok := Deliver(out);
        if !ok {
          Fail(out, REASON_SEND);
          return;
        }
      }
      if job.caps.web {
        End(out, Ready, "");
      } else {
        DeleteJob(job.id);
      }
    }
  }

  /** The record of `job` in its final state - or evicted in that very step, under the same deadline. */
  predicate EndsAs(jobs: map<Id, Record>, job: Job, st: Status, reason: string, deadline: int) {
    && job.id in jobs && jobs[job.id].job.expiresAt == deadline
    && (jobs[job.id].job.status == Evicted
        || jobs[job.id].job == WithStatus(job, st, reason).(expiresAt := deadline))
  }

  lemma FirstWithItsId(docs: seq<Document>, i: nat)
    requires DistinctDocs(docs) && i < |docs|
    ensures DocIndex(docs, docs[i].id) == i
  {
    assert DocIndex(docs, docs[i].id) <= i;
  }

  lemma OneMoreRecognized(
    ocr: Path -> Option<nat>, first: seq<Document>, was: seq<Document>, now: seq<Document>, i: nat)
    requires HalfWay(ocr, first, was, i) && i < |was| && ocr(was[i].path).Some? && i < |now|
    requires now == WithOcr(was, i, now[i].path, ocr(was[i].path).value)
    ensures HalfWay(ocr, first, now, i + 1)
  {
    assert was[i] == first[i] by {
      assert was[i..][0] == first[i..][0];
    }
    assert now[..i] == was[..i] && now[i + 1..] == was[i + 1..] && was[i + 1..] == was[i..][1..];
    assert first[i + 1..] == first[i..][1..];
    forall j | 0 <= j <= i
      ensures && now[j].id == first[j].id && now[j].displayName == first[j].displayName && now[j].ocrApplied
              && ocr(first[j].path).Some? && now[j].size == ocr(first[j].path).value
    {
      if j < i {
        assert now[j] == now[..i][j] && first[j] == first[..i][j];
      }
    }
  }
}
