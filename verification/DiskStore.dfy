/** The store together with the files it accounts for. A locked region and the removals it asks for are one step;
    each removal runs later, on its own, in any order (internal/jobs/store.go does file I/O outside the mutex). */
module DiskStore {
  import opened JobTypes
  import opened JobStore

  datatype Removal = RemoveDir(dir: Id) | RemoveFile(path: Path) | RemoveTree

  /** `removals` are requested and not yet run. `issued` and `names` are every id and file name ever made up:
      newID and CreateTemp never repeat one. */
  datatype World = World(
    store: State, disk: map<Path, nat>, dirs: set<Id>, removals: set<Removal>, clock: int,
    issued: set<Id>, names: set<Path>)

  datatype Op =
    | Reserve(rid: Id, want: nat)
    | MakeDir(rid: Id)
    | CreateFile(path: Path)
    | WriteFile(path: Path, size: nat)
    | DropFile(path: Path)
    | Release(rid: Id, rmdir: bool)
    | Commit(rid: Id, job: Job, files: set<Path>, order: seq<Id>)
    | SetStatus(id: Id, st: Status, msg: string, order: seq<Id>)
    | Register(id: Id, path: Path)
    | Replace(id: Id, docId: Id, path: Path, size: nat)
    | Delete(id: Id)
    | Sweep(now: int)
    | Close
    | RunRemoval(removal: Removal)
    | Issue(ids: set<Id>)
    | Tick(now: int)

  /** On disk, and nobody has asked for it to go. */
  ghost predicate Kept(w: World, p: Path) {
    p in w.disk && RemoveTree !in w.removals && RemoveDir(p.dir) !in w.removals && RemoveFile(p) !in w.removals
  }

  ghost predicate DocsOnDisk(w: World, dir: Id, files: set<Path>, docs: seq<Document>) {
    forall i :: 0 <= i < |docs| ==>
      && docs[i].path in files && docs[i].path.dir == dir
      && Kept(w, docs[i].path) && w.disk[docs[i].path] == docs[i].size
  }

  /** A path some job could still serve. */
  ghost predicate Published(w: World, p: Path) {
    exists id :: id in w.store.jobs && p in DocPaths(w.store.jobs[id].job.documents)
  }

  ghost predicate CanCommit(w: World, rid: Id, job: Job, files: set<Path>, order: seq<Id>) {
    && CommitError(w.store, rid) == None
    && job.id !in w.store.jobs && job.id in w.issued && job.status == Pending && job.error == ""
    && DistinctDocs(job.documents) && DocsOnDisk(w, rid, files, job.documents)
    && (forall p :: p in files ==> p in w.names && p.dir == rid)
    && EvictionOrder(Booked(w.store, rid, job, files).jobs, order)
  }

  ghost predicate CanSetStatus(w: World, id: Id, st: Status, msg: string, order: seq<Id>) {
    && StatusError(w.store, id) == None
    && st != Evicted && Unfinished(w.store.jobs[id].job.status)
    && (Finished(st) ==> EvictionOrder(Settled(w.store, id, st, msg, w.clock).jobs, order))
  }

  ghost predicate CanReplace(w: World, id: Id, docId: Id, path: Path, size: nat) {
    && ReplaceError(w.store, id, docId, path) == None
    && Unfinished(w.store.jobs[id].job.status)
    && path.dir == w.store.jobs[id].dir && path !in DocPaths(w.store.jobs[id].job.documents)
    && Kept(w, path) && w.disk[path] == size
  }

  /** When a client that keeps to its own files and jobs may take a step. */
  ghost predicate Enabled(w: World, op: Op) {
    match op
    case Reserve(rid, want) => rid !in w.issued && ReserveError(w.store, want) == None
    case MakeDir(rid) => rid in w.issued
    case CreateFile(path) => path.dir in w.dirs && path.dir in w.issued && path !in w.names
    case WriteFile(path, size) => path in w.disk && !Published(w, path)
    case DropFile(path) => !Published(w, path)
    case Release(rid, rmdir) => rid in w.issued && forall id :: id in w.store.jobs ==> w.store.jobs[id].dir != rid
    case Commit(rid, job, files, order) => CanCommit(w, rid, job, files, order)
    case SetStatus(id, st, msg, order) => CanSetStatus(w, id, st, msg, order)
    case Register(id, path) =>
      StatusError(w.store, id) == None && Unfinished(w.store.jobs[id].job.status)
      && path in w.names && path.dir == w.store.jobs[id].dir
    case Replace(id, docId, path, size) => CanReplace(w, id, docId, path, size)
    case Delete(id) => id in w.store.jobs
    case Sweep(now) => now <= w.clock
    case Close => true
    case RunRemoval(removal) => removal in w.removals
    case Issue(ids) => ids !! w.issued
    case Tick(now) => w.clock <= now
  }

  ghost function EvictedDirs(jobs: map<Id, Record>, victims: seq<Id>): set<Removal> {
    set id | id in jobs && id in victims :: RemoveDir(jobs[id].dir)
  }

  ghost function SweptDirs(s: State, now: int): set<Removal> {
    (set id | id in Expired(s, now) :: RemoveDir(s.jobs[id].dir)) + (set r | r in Leaked(s, now) :: RemoveDir(r))
  }

  ghost function FinalStep(w: World, id: Id, st: Status, msg: string, order: seq<Id>): World
    requires CanSetStatus(w, id, st, msg, order) && Finished(st)
  {
    var settled := Settled(w.store, id, st, msg, w.clock);
    w.(store := MakeRoom(settled, order),
       removals := w.removals + EvictedDirs(settled.jobs, Victims(settled, order))
                 + set p | p in Leftovers(w.store, id, st) :: RemoveFile(p))
  }

  ghost function CommitStep(w: World, rid: Id, job: Job, files: set<Path>, order: seq<Id>): World
    requires CanCommit(w, rid, job, files, order)
  {
    var booked := Booked(w.store, rid, job, files);
    w.(store := MakeRoom(booked, order),
       removals := w.removals + EvictedDirs(booked.jobs, Victims(booked, order)))
  }

  ghost function ReplaceStep(w: World, id: Id, docId: Id, path: Path, size: nat): World
    requires CanReplace(w, id, docId, path, size)
  {
    var docs := w.store.jobs[id].job.documents;
    w.(store := AfterReplace(w.store, id, docId, path, size, true, []),
       removals := w.removals + {RemoveFile(docs[DocIndex(docs, docId)].path)})
  }

  function RunStep(w: World, removal: Removal): World {
    var w' := w.(removals := w.removals - {removal});
    match removal
    case RemoveDir(dir) => w'.(disk := map p | p in w.disk && p.dir != dir :: w.disk[p], dirs := w.dirs - {dir})
    case RemoveFile(path) => w'.(disk := w.disk - {path})
    case RemoveTree => w'.(disk := map[], dirs := {})
  }

  ghost function Apply(w: World, op: Op): World
    requires Enabled(w, op)
  {
    match op
    case Reserve(rid, want) =>
      w.(store := AfterReserve(w.store, rid, want, w.clock), issued := w.issued + {rid})
    case MakeDir(rid) => w.(dirs := w.dirs + {rid})
    case CreateFile(path) => w.(disk := w.disk[path := 0], names := w.names + {path})
    case WriteFile(path, size) => w.(disk := w.disk[path := size])
    case DropFile(path) => w.(disk := w.disk - {path})
    case Release(rid, rmdir) =>
      w.(store := AfterRelease(w.store, rid),
         removals := if rmdir then w.removals + {RemoveDir(rid)} else w.removals)
    case Commit(rid, job, files, order) => CommitStep(w, rid, job, files, order)
    case SetStatus(id, st, msg, order) =>
      if Finished(st) then FinalStep(w, id, st, msg, order)
      else w.(store := Settled(w.store, id, st, msg, w.clock))
    case Register(id, path) => w.(store := AfterRegister(w.store, id, path))
    case Replace(id, docId, path, size) => ReplaceStep(w, id, docId, path, size)
    case Delete(id) =>
      w.(store := AfterDelete(w.store, id), removals := w.removals + {RemoveDir(w.store.jobs[id].dir)})
    case Sweep(now) =>
      w.(store := AfterSweep(w.store, now), removals := w.removals + SweptDirs(w.store, now))
    case Close =>
      if w.store.closed then w
      else w.(store := AfterClose(w.store), removals := w.removals + {RemoveTree})
    case RunRemoval(removal) => RunStep(w, removal)
    case Issue(ids) => w.(issued := w.issued + ids)
    case Tick(now) => w.(clock := now)
  }

  // ---------- what always holds ----------

  /** Every document of a job that was not evicted is a registered file on disk that nothing is about to remove,
      and a finished job is registered for exactly its documents' files. */
  ghost predicate RecordOnDisk(w: World, r: Record) {
    r.job.status != Evicted ==>
      && DistinctDocs(r.job.documents)
      && DocsOnDisk(w, r.dir, r.files, r.job.documents)
      && (Finished(r.job.status) ==> r.files == DocPaths(r.job.documents))
  }

  ghost predicate FilesInv(w: World) {
    forall id :: id in w.store.jobs ==> RecordOnDisk(w, w.store.jobs[id])
  }

  /** A directory belongs to one reservation or one job, and is never queued for removal while it does. */
  ghost predicate DirsInv(w: World) {
    && (forall a, b :: a in w.store.jobs && b in w.store.jobs && a != b ==> w.store.jobs[a].dir != w.store.jobs[b].dir)
    && (forall id :: id in w.store.jobs ==> w.store.jobs[id].dir !in w.store.reservations)
    && (forall id, p :: id in w.store.jobs && p in w.store.jobs[id].files ==> p.dir == w.store.jobs[id].dir)
    && (forall id :: id in w.store.jobs && w.store.jobs[id].job.status != Evicted ==>
          RemoveDir(w.store.jobs[id].dir) !in w.removals)
    && (forall r :: r in w.store.reservations ==> RemoveDir(r) !in w.removals)
    && (forall p :: RemoveFile(p) in w.removals ==> p.dir !in w.store.reservations)
    && (RemoveTree in w.removals ==> w.store.closed)
  }

  ghost predicate IdsInv(w: World) {
    && (forall r :: r in w.store.reservations ==> r in w.issued)
    && (forall id :: id in w.store.jobs ==> id in w.issued && w.store.jobs[id].dir in w.issued)
    && (forall d :: RemoveDir(d) in w.removals ==> d in w.issued)
    && (forall id, p :: id in w.store.jobs && p in w.store.jobs[id].files ==> p in w.names)
    && (forall p :: p in w.disk ==> p in w.names)
    && (forall p :: RemoveFile(p) in w.removals ==> p in w.names)
    && (forall p :: p in w.names ==> p.dir in w.issued)
  }

  ghost predicate Inv(w: World) {
    Valid(w.store) && FilesInv(w) && DirsInv(w) && IdsInv(w)
  }
}
