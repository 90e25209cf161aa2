/** What every step of `DiskStore` keeps, and what nobody else's step can do to work in flight. */
module DiskStoreProofs {
  import opened JobTypes
  import opened JobStore
  import opened JobStoreBudget
  import opened DiskStore

  // ---------- the budget ----------

  lemma StepKeepsBudget(w: World, op: Op)
    requires Inv(w) && Enabled(w, op)
    ensures Valid(Apply(w, op).store)
  {
    match op
    case Reserve(rid, want) => ReserveKeepsBudget(w.store, rid, want, w.clock);
    case Release(rid, rmdir) => ReleaseKeepsBudget(w.store, rid);
    case Commit(rid, job, files, order) => CommitKeepsBudget(w.store, rid, job, files, order);
    case SetStatus(id, st, msg, order) => SetStatusKeepsBudget(w.store, id, st, msg, w.clock, order);
    case Register(id, path) => RegisterKeepsBudget(w.store, id, path);
    case Replace(id, docId, path, size) => ReplaceKeepsBudget(w.store, id, docId, path, size, true, []);
    case Delete(id) => DeleteKeepsBudget(w.store, id);
    case Sweep(now) => SweepKeepsBudget(w.store, now);
    case Close => CloseKeepsBudget(w.store);
    case _ =>
  }

  // ---------- files ----------

  /** Steps that change no record keep every document where it is. */
  lemma QuietStepKeepsFiles(w: World, op: Op)
    requires FilesInv(w) && IdsInv(w) && DirsInv(w) && Enabled(w, op)
    requires op.Reserve? || op.MakeDir? || op.CreateFile? || op.WriteFile? || op.DropFile? || op.Release? || op.Issue? || op.Tick?
    ensures FilesInv(Apply(w, op))
  {
    var w' := Apply(w, op);
    forall id | id in w'.store.jobs ensures RecordOnDisk(w', w'.store.jobs[id]) {
      var r := w.store.jobs[id];
      assert RecordOnDisk(w, r);
      forall i | 0 <= i < |r.job.documents| && r.job.status != Evicted
        ensures Kept(w', r.job.documents[i].path) && w'.disk[r.job.documents[i].path] == r.job.documents[i].size
      {
        assert r.job.documents[i].path in DocPaths(r.job.documents);
      }
    }
  }

  lemma RemovalKeepsFiles(w: World, removal: Removal)
    requires FilesInv(w) && removal in w.removals
    ensures FilesInv(RunStep(w, removal))
  {
    var w' := RunStep(w, removal);
    forall id | id in w'.store.jobs ensures RecordOnDisk(w', w'.store.jobs[id]) {
      assert RecordOnDisk(w, w.store.jobs[id]);
    }
  }

  /** Making room destroys finished jobs' directories and nothing any other document lives in. */
  lemma EvictionKeepsFiles(w: World, w': World, s: State, order: seq<Id>)
    requires FilesInv(w.(store := s)) && DirsInv(w.(store := s)) && EvictionOrder(s.jobs, order)
    requires w'.store == MakeRoom(s, order) && w'.disk == w.disk
    requires w'.removals == w.removals + EvictedDirs(s.jobs, Victims(s, order))
    ensures FilesInv(w')
  {
    EvictionTouchesOnlyVictims(s, order);
    var victims := Victims(s, order);
    forall id | id in w'.store.jobs ensures RecordOnDisk(w', w'.store.jobs[id]) {
      var r := s.jobs[id];
      assert RecordOnDisk(w.(store := s), r);
      if id !in victims {
        forall i | 0 <= i < |r.job.documents| && r.job.status != Evicted
          ensures Kept(w', r.job.documents[i].path)
        {
          assert Kept(w.(store := s), r.job.documents[i].path);
        }
      }
    }
  }

  lemma CommitKeepsFiles(w: World, rid: Id, job: Job, files: set<Path>, order: seq<Id>)
    requires Inv(w) && CanCommit(w, rid, job, files, order)
    ensures FilesInv(CommitStep(w, rid, job, files, order))
  {
    hide Valid;
    var booked := Booked(w.store, rid, job, files);
    var mid := w.(store := booked);
    forall id | id in booked.jobs ensures RecordOnDisk(mid, booked.jobs[id]) {
      assert id != job.id ==> RecordOnDisk(w, w.store.jobs[id]);
    }
    EvictionKeepsFiles(w, CommitStep(w, rid, job, files, order), booked, order);
  }

  ghost function WithLeftovers(w: World, id: Id, st: Status): World
    requires id in w.store.jobs
  {
    w.(removals := w.removals + set p | p in Leftovers(w.store, id, st) :: RemoveFile(p))
  }

  /** Finishing a job leaves it registered for exactly its documents' files. */
  lemma SettlingKeepsFiles(w: World, id: Id, st: Status, msg: string, order: seq<Id>)
    requires FilesInv(w) && DirsInv(w) && CanSetStatus(w, id, st, msg, order) && Finished(st)
    ensures FilesInv(WithLeftovers(w, id, st).(store := Settled(w.store, id, st, msg, w.clock)))
  {
    var mid := WithLeftovers(w, id, st).(store := Settled(w.store, id, st, msg, w.clock));
    forall x | x in mid.store.jobs ensures RecordOnDisk(mid, mid.store.jobs[x]) {
      var r := w.store.jobs[x];
      assert RecordOnDisk(w, r);
      assert x == id ==> DocPaths(r.job.documents) <= r.files;
      forall i | 0 <= i < |r.job.documents| && r.job.status != Evicted
        ensures r.job.documents[i].path !in Leftovers(w.store, id, st)
      {
        assert r.job.documents[i].path in DocPaths(r.job.documents);
      }
    }
  }

  lemma SettlingKeepsDirs(w: World, id: Id, st: Status, msg: string, order: seq<Id>)
    requires DirsInv(w) && CanSetStatus(w, id, st, msg, order) && Finished(st)
    ensures DirsInv(WithLeftovers(w, id, st).(store := Settled(w.store, id, st, msg, w.clock)))
  {
  }

  lemma FinishKeepsFiles(w: World, id: Id, st: Status, msg: string, order: seq<Id>)
    requires FilesInv(w) && DirsInv(w) && CanSetStatus(w, id, st, msg, order) && Finished(st)
    ensures FilesInv(FinalStep(w, id, st, msg, order))
  {
    SettlingKeepsFiles(w, id, st, msg, order);
    SettlingKeepsDirs(w, id, st, msg, order);
    EvictionKeepsFiles(WithLeftovers(w, id, st), FinalStep(w, id, st, msg, order),
                       Settled(w.store, id, st, msg, w.clock), order);
  }

  lemma ReplaceKeepsFiles(w: World, id: Id, docId: Id, path: Path, size: nat)
    requires Inv(w) && CanReplace(w, id, docId, path, size)
    ensures FilesInv(ReplaceStep(w, id, docId, path, size))
  {
    hide Valid;
    var w' := ReplaceStep(w, id, docId, path, size);
    var docs := w.store.jobs[id].job.documents;
    var gone := docs[DocIndex(docs, docId)].path;
    assert RecordOnDisk(w, w.store.jobs[id]);
    forall x | x in w'.store.jobs ensures RecordOnDisk(w', w'.store.jobs[x]) {
      assert RecordOnDisk(w, w.store.jobs[x]);
      assert forall i :: 0 <= i < |docs| ==> docs[i].path in DocPaths(docs);
    }
  }

  lemma StatusKeepsFiles(w: World, id: Id, st: Status, msg: string)
    requires Inv(w) && CanSetStatus(w, id, st, msg, []) && !Finished(st)
    ensures FilesInv(Apply(w, SetStatus(id, st, msg, [])))
  {
    hide Valid;
    var w' := Apply(w, SetStatus(id, st, msg, []));
    forall x | x in w'.store.jobs ensures RecordOnDisk(w', w'.store.jobs[x]) {
      assert RecordOnDisk(w, w.store.jobs[x]);
    }
  }

  lemma RegisterKeepsFiles(w: World, id: Id, path: Path)
    requires Inv(w) && Enabled(w, Register(id, path))
    ensures FilesInv(Apply(w, Register(id, path)))
  {
    hide Valid;
    var w' := Apply(w, Register(id, path));
    forall x | x in w'.store.jobs ensures RecordOnDisk(w', w'.store.jobs[x]) {
      assert RecordOnDisk(w, w.store.jobs[x]);
    }
  }

  lemma DeleteKeepsFiles(w: World, id: Id)
    requires Inv(w) && id in w.store.jobs
    ensures FilesInv(Apply(w, Delete(id)))
  {
    hide Valid;
    var w' := Apply(w, Delete(id));
    forall x | x in w'.store.jobs ensures RecordOnDisk(w', w'.store.jobs[x]) {
      assert RecordOnDisk(w, w.store.jobs[x]);
    }
  }

  lemma SweepKeepsFiles(w: World, now: int)
    requires Inv(w)
    ensures FilesInv(w.(store := AfterSweep(w.store, now), removals := w.removals + SweptDirs(w.store, now)))
  {
    hide Valid;
    var w' := w.(store := AfterSweep(w.store, now), removals := w.removals + SweptDirs(w.store, now));
    forall x | x in w'.store.jobs ensures RecordOnDisk(w', w'.store.jobs[x]) {
      assert RecordOnDisk(w, w.store.jobs[x]);
    }
  }

  // ---------- directories and ids ----------

  lemma EvictionKeepsDirs(w: World, w': World, s: State, order: seq<Id>)
    requires DirsInv(w.(store := s)) && EvictionOrder(s.jobs, order)
    requires w'.store == MakeRoom(s, order)
    requires w'.removals == w.removals + EvictedDirs(s.jobs, Victims(s, order))
    ensures DirsInv(w')
  {
    EvictionTouchesOnlyVictims(s, order);
  }

  lemma EvictionKeepsIds(w: World, w': World, s: State, order: seq<Id>)
    requires IdsInv(w.(store := s)) && EvictionOrder(s.jobs, order)
    requires w' == w.(store := MakeRoom(s, order), removals := w.removals + EvictedDirs(s.jobs, Victims(s, order)))
    ensures IdsInv(w')
  {
    EvictionTouchesOnlyVictims(s, order);
  }

  /** A fresh reservation's directory is nobody's, and nobody has asked for it to go. */
  lemma ReserveKeepsDirs(w: World, rid: Id, want: nat)
    requires DirsInv(w) && IdsInv(w) && rid !in w.issued
    ensures DirsInv(w.(store := AfterReserve(w.store, rid, want, w.clock), issued := w.issued + {rid}))
  {
  }

  lemma ReleaseKeepsDirs(w: World, rid: Id, rmdir: bool)
    requires DirsInv(w) && Enabled(w, Release(rid, rmdir))
    ensures DirsInv(Apply(w, Release(rid, rmdir)))
  {
    var w' := Apply(w, Release(rid, rmdir));
    assert w'.store.jobs == w.store.jobs && rid !in w'.store.reservations;
  }

  lemma DeleteKeepsDirs(w: World, id: Id)
    requires DirsInv(w) && id in w.store.jobs
    ensures DirsInv(Apply(w, Delete(id)))
  {
  }

  lemma ReplaceKeepsDirs(w: World, id: Id, docId: Id, path: Path, size: nat)
    requires FilesInv(w) && DirsInv(w) && CanReplace(w, id, docId, path, size)
    ensures DirsInv(ReplaceStep(w, id, docId, path, size))
  {
    assert RecordOnDisk(w, w.store.jobs[id]);
  }

  lemma SweepKeepsDirs(w: World, now: int)
    requires DirsInv(w)
    ensures DirsInv(w.(store := AfterSweep(w.store, now), removals := w.removals + SweptDirs(w.store, now)))
  {
  }

  lemma FinishKeepsDirs(w: World, id: Id, st: Status, msg: string, order: seq<Id>)
    requires DirsInv(w) && CanSetStatus(w, id, st, msg, order) && Finished(st)
    ensures DirsInv(FinalStep(w, id, st, msg, order))
  {
    SettlingKeepsDirs(w, id, st, msg, order);
    EvictionKeepsDirs(WithLeftovers(w, id, st), FinalStep(w, id, st, msg, order),
                      Settled(w.store, id, st, msg, w.clock), order);
  }

  lemma FinishKeepsIds(w: World, id: Id, st: Status, msg: string, order: seq<Id>)
    requires IdsInv(w) && CanSetStatus(w, id, st, msg, order) && Finished(st)
    ensures IdsInv(FinalStep(w, id, st, msg, order))
  {
    var settled := Settled(w.store, id, st, msg, w.clock);
    var mid := w.(removals := w.removals + set p | p in Leftovers(w.store, id, st) :: RemoveFile(p));
    EvictionKeepsIds(mid, FinalStep(w, id, st, msg, order), settled, order);
  }

  lemma FileStepKeepsIds(w: World, op: Op)
    requires IdsInv(w) && Enabled(w, op)
    requires op.MakeDir? || op.CreateFile? || op.WriteFile? || op.DropFile? || op.RunRemoval? || op.Issue? || op.Tick?
    ensures IdsInv(Apply(w, op))
  {
  }

  lemma StoreStepKeepsIds(w: World, op: Op)
    requires IdsInv(w) && Enabled(w, op)
    requires op.Reserve? || op.Release? || op.Register? || op.Close? || op.Delete?
    ensures IdsInv(Apply(w, op))
  {
  }

  lemma ReplaceKeepsIds(w: World, id: Id, docId: Id, path: Path, size: nat)
    requires FilesInv(w) && IdsInv(w) && CanReplace(w, id, docId, path, size)
    ensures IdsInv(ReplaceStep(w, id, docId, path, size))
  {
    assert RecordOnDisk(w, w.store.jobs[id]);
  }

  lemma SweepKeepsIds(w: World, now: int)
    requires IdsInv(w)
    ensures IdsInv(w.(store := AfterSweep(w.store, now), removals := w.removals + SweptDirs(w.store, now)))
  {
  }

  // ---------- every step ----------

  lemma StepKeepsFiles(w: World, op: Op)
    requires Inv(w) && Enabled(w, op)
    ensures FilesInv(Apply(w, op))
  {
    hide Valid, FilesInv, DirsInv, IdsInv;
    match op
    case Commit(rid, job, files, order) => CommitKeepsFiles(w, rid, job, files, order);
    case SetStatus(id, st, msg, order) =>
      if Finished(st) {
        FinishKeepsFiles(w, id, st, msg, order);
      } else {
        StatusKeepsFiles(w, id, st, msg);
      }
    case Register(id, path) => RegisterKeepsFiles(w, id, path);
    case Replace(id, docId, path, size) => ReplaceKeepsFiles(w, id, docId, path, size);
    case Delete(id) => DeleteKeepsFiles(w, id);
    case Sweep(now) => SweepKeepsFiles(w, now);
    case Close => CloseKeepsFiles(w);
    case RunRemoval(removal) => RemovalKeepsFiles(w, removal);
    case _ => QuietStepKeepsFiles(w, op);
  }

  lemma CloseKeepsFiles(w: World)
    requires FilesInv(w)
    ensures FilesInv(Apply(w, Close))
  {
  }

  lemma FileStepKeepsDirs(w: World, op: Op)
    requires DirsInv(w) && Enabled(w, op)
    requires op.MakeDir? || op.CreateFile? || op.WriteFile? || op.DropFile? || op.RunRemoval? || op.Issue? || op.Tick?
    ensures DirsInv(Apply(w, op))
  {
    var w' := Apply(w, op);
    assert w'.store == w.store && w'.removals <= w.removals;
  }

  lemma RegisterKeepsDirs(w: World, id: Id, path: Path)
    requires DirsInv(w) && Enabled(w, Register(id, path))
    ensures DirsInv(Apply(w, Register(id, path)))
  {
  }

  lemma StatusKeepsDirs(w: World, id: Id, st: Status, msg: string, order: seq<Id>)
    requires DirsInv(w) && CanSetStatus(w, id, st, msg, order) && !Finished(st)
    ensures DirsInv(Apply(w, SetStatus(id, st, msg, order)))
  {
  }

  lemma CloseKeepsDirs(w: World)
    requires DirsInv(w)
    ensures DirsInv(Apply(w, Close))
  {
  }

  lemma StepKeepsDirs(w: World, op: Op)
    requires Inv(w) && Enabled(w, op)
    ensures DirsInv(Apply(w, op))
  {
    assert op.Reserve? ==> op.rid !in w.issued;
    hide Valid, FilesInv, DirsInv, IdsInv;
    match op
    case Commit(rid, job, files, order) => CommitKeepsDirs(w, rid, job, files, order);
    case SetStatus(id, st, msg, order) =>
      if Finished(st) {
        FinishKeepsDirs(w, id, st, msg, order);
      } else {
        StatusKeepsDirs(w, id, st, msg, order);
      }
    case Register(id, path) => RegisterKeepsDirs(w, id, path);
    case Close => CloseKeepsDirs(w);
    case Replace(id, docId, path, size) => ReplaceKeepsDirs(w, id, docId, path, size);
    case Sweep(now) => SweepKeepsDirs(w, now);
    case Reserve(rid, want) => ReserveKeepsDirs(w, rid, want);
    case Release(rid, rmdir) => ReleaseKeepsDirs(w, rid, rmdir);
    case Delete(id) => DeleteKeepsDirs(w, id);
    case _ => FileStepKeepsDirs(w, op);
  }

  lemma CommitKeepsDirs(w: World, rid: Id, job: Job, files: set<Path>, order: seq<Id>)
    requires DirsInv(w) && CanCommit(w, rid, job, files, order)
    ensures DirsInv(CommitStep(w, rid, job, files, order))
  {
    EvictionKeepsDirs(w, CommitStep(w, rid, job, files, order), Booked(w.store, rid, job, files), order);
  }

  lemma StepKeepsIds(w: World, op: Op)
    requires Inv(w) && Enabled(w, op)
    ensures IdsInv(Apply(w, op))
  {
    hide Valid, FilesInv, DirsInv;
    match op
    case Commit(rid, job, files, order) =>
      EvictionKeepsIds(w, Apply(w, op), Booked(w.store, rid, job, files), order);
    case SetStatus(id, st, msg, order) =>
      if Finished(st) {
        FinishKeepsIds(w, id, st, msg, order);
      }
    case Replace(id, docId, path, size) => ReplaceKeepsIds(w, id, docId, path, size);
    case Sweep(now) => SweepKeepsIds(w, now);
    case _ =>
      if op.Reserve? || op.Release? || op.Register? || op.Close? || op.Delete? {
        StoreStepKeepsIds(w, op);
      } else {
        FileStepKeepsIds(w, op);
      }
  }

  lemma StepKeepsInv(w: World, op: Op)
    requires Inv(w) && Enabled(w, op)
    ensures Inv(Apply(w, op))
  {
    hide Valid, FilesInv, DirsInv, IdsInv, Enabled, Apply;
    StepKeepsBudget(w, op);
    StepKeepsFiles(w, op);
    StepKeepsDirs(w, op);
    StepKeepsIds(w, op);
  }

  // ---------- work in flight ----------

  /** Job `id` and the files in its directory came through a step as they were, or the store was closed. */
  ghost predicate Undisturbed(w: World, w': World, id: Id)
    requires id in w.store.jobs
  {
    w'.store.closed ||
    (id in w'.store.jobs && w'.store.jobs[id] == w.store.jobs[id]
     && DirUndisturbed(w, w', w.store.jobs[id].dir))
  }

  ghost predicate DirUndisturbed(w: World, w': World, dir: Id) {
    forall p: Path :: p.dir == dir && Kept(w, p) ==> Kept(w', p) && w'.disk[p] == w.disk[p]
  }

  /** Whether the step is one that only the owner of this job or directory takes. */
  predicate OwnJob(op: Op, id: Id) {
    match op
    case SetStatus(x, _, _, _) => x == id
    case Register(x, _) => x == id
    case Replace(x, _, _, _) => x == id
    case Delete(x) => x == id
    case _ => false
  }

  predicate OwnDir(op: Op, dir: Id) {
    match op
    case WriteFile(path, _) => path.dir == dir
    case DropFile(path) => path.dir == dir
    case _ => false
  }

  /** A directory is safe as long as nobody asks for it, for something in it or for everything to be removed. */
  lemma NoRequestNoDisturbance(w: World, w': World, dir: Id)
    requires w'.disk == w.disk
    requires RemoveDir(dir) in w'.removals ==> RemoveDir(dir) in w.removals
    requires RemoveTree in w'.removals ==> RemoveTree in w.removals
    requires forall p: Path :: p.dir == dir && RemoveFile(p) in w'.removals ==> RemoveFile(p) in w.removals
    ensures DirUndisturbed(w, w', dir)
  {
  }

  predicate FileStep(op: Op) {
    op.CreateFile? || op.WriteFile? || op.DropFile? || op.MakeDir? || op.Issue? || op.Tick? || op.RunRemoval?
  }

  lemma FileStepsDoNotDisturb(w: World, op: Op, dir: Id)
    requires IdsInv(w) && Enabled(w, op) && !OwnDir(op, dir) && FileStep(op)
    ensures DirUndisturbed(w, Apply(w, op), dir)
  {
  }

  /** A directory that an open reservation or an unfinished job lives in. */
  ghost predicate InUse(s: State, dir: Id) {
    dir in s.reservations || exists id :: id in s.jobs && Unfinished(s.jobs[id].job.status) && s.jobs[id].dir == dir
  }

  lemma CommitDoesNotDisturb(w: World, rid: Id, job: Job, files: set<Path>, order: seq<Id>, dir: Id)
    requires DirsInv(w) && CanCommit(w, rid, job, files, order) && InUse(w.store, dir)
    ensures DirUndisturbed(w, CommitStep(w, rid, job, files, order), dir)
  {
    var booked := Booked(w.store, rid, job, files);
    assert RemoveDir(dir) !in EvictedDirs(booked.jobs, Victims(booked, order));
    NoRequestNoDisturbance(w, CommitStep(w, rid, job, files, order), dir);
  }

  lemma FinishDoesNotDisturb(w: World, id: Id, st: Status, msg: string, order: seq<Id>, dir: Id)
    requires DirsInv(w) && CanSetStatus(w, id, st, msg, order) && Finished(st)
    requires InUse(w.store, dir) && w.store.jobs[id].dir != dir
    ensures DirUndisturbed(w, FinalStep(w, id, st, msg, order), dir)
  {
    var settled := Settled(w.store, id, st, msg, w.clock);
    assert RemoveDir(dir) !in EvictedDirs(settled.jobs, Victims(settled, order));
    NoRequestNoDisturbance(w, FinalStep(w, id, st, msg, order), dir);
  }

  lemma ReplaceDoesNotDisturb(w: World, id: Id, docId: Id, path: Path, size: nat, dir: Id)
    requires FilesInv(w) && CanReplace(w, id, docId, path, size) && w.store.jobs[id].dir != dir
    ensures DirUndisturbed(w, ReplaceStep(w, id, docId, path, size), dir)
  {
    assert RecordOnDisk(w, w.store.jobs[id]);
    NoRequestNoDisturbance(w, ReplaceStep(w, id, docId, path, size), dir);
  }

  lemma SweepDoesNotDisturb(w: World, now: int, dir: Id)
    requires now <= w.clock && DirsInv(w) && InUse(w.store, dir) && InUse(AfterSweep(w.store, now), dir)
    ensures DirUndisturbed(w, Apply(w, Sweep(now)), dir)
  {
    NoRequestNoDisturbance(w, Apply(w, Sweep(now)), dir);
  }

  /** As long as a reservation or an unfinished job lives in it, nothing kept in a directory goes away or changes
      by anyone else's step. */
  lemma OthersDoNotDisturbDir(w: World, op: Op, dir: Id)
    requires Inv(w) && Enabled(w, op) && !OwnDir(op, dir)
    requires InUse(w.store, dir) && InUse(Apply(w, op).store, dir)
    requires forall id :: id in w.store.jobs && OwnJob(op, id) ==> w.store.jobs[id].dir != dir
    ensures DirUndisturbed(w, Apply(w, op), dir)
  {
    hide Valid, FilesInv;
    if FileStep(op) {
      FileStepsDoNotDisturb(w, op, dir);
    } else {
      match op
      case Commit(rid, job, files, order) => CommitDoesNotDisturb(w, rid, job, files, order, dir);
      case SetStatus(x, st, msg, order) =>
        if Finished(st) {
          FinishDoesNotDisturb(w, x, st, msg, order, dir);
        }
      case Replace(x, docId, path, size) => ReplaceDoesNotDisturb(w, x, docId, path, size, dir);
      case Sweep(now) => SweepDoesNotDisturb(w, now, dir);
      case _ =>
    }
  }

  lemma RecordUntouched(w: World, op: Op, id: Id)
    requires Enabled(w, op) && !OwnJob(op, id) && !op.Close?
    requires id in w.store.jobs && Unfinished(w.store.jobs[id].job.status)
    ensures id in Apply(w, op).store.jobs && Apply(w, op).store.jobs[id] == w.store.jobs[id]
  {
    match op
    case Commit(rid, job, files, order) => EvictionTouchesOnlyVictims(Booked(w.store, rid, job, files), order);
    case SetStatus(x, st, msg, order) =>
      if Finished(st) {
        EvictionTouchesOnlyVictims(Settled(w.store, x, st, msg, w.clock), order);
      }
    case _ =>
  }

  /** From commit to its final status, a job is changed by nobody but its owner: no other commit, eviction, sweep,
      release or removal touches its record or the files it holds. */
  lemma OthersDoNotDisturb(w: World, op: Op, id: Id)
    requires Inv(w) && Enabled(w, op)
    requires id in w.store.jobs && Unfinished(w.store.jobs[id].job.status)
    requires !OwnJob(op, id) && !OwnDir(op, w.store.jobs[id].dir)
    ensures Undisturbed(w, Apply(w, op), id)
  {
    if !op.Close? {
      RecordUntouched(w, op, id);
      assert InUse(w.store, w.store.jobs[id].dir) && InUse(Apply(w, op).store, w.store.jobs[id].dir) by {
        assert Apply(w, op).store.jobs[id] == w.store.jobs[id];
      }
      assert DirsInv(w);
      hide Inv, Enabled, Apply;
      OthersDoNotDisturbDir(w, op, w.store.jobs[id].dir);
    }
  }
}
