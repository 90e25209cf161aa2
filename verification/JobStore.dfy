/** The bookkeeping of internal/jobs/store.go as pure transitions: one function per locked region.
    `StoreObject` proves the mutating code against them; `Gateway` interleaves them. */
module JobStore {
  import opened JobTypes
  import opened Sums

  /** One committed job. `bytes` is its charge; `files` are the paths this store created for it. */
  datatype Record = Record(job: Job, dir: Id, bytes: int, files: set<Path>)

  /** One open staging; its directory is named by its id. */
  datatype Reservation = Reservation(reservedAt: int, bytes: int)

  datatype State = State(
    ttl: int, maxBytes: int, jobs: map<Id, Record>, reservations: map<Id, Reservation>,
    used: int, closed: bool)

  datatype Error = AtCapacity | StoreClosed | NotFound | ReservationGone | NotOurFile | NoDirectory

  const STALE_RESERVATION_AFTER := 15 * 60

  // ---------- what the budget is spent on ----------

  ghost function JobCharges(jobs: map<Id, Record>): map<Id, int> {
    map id | id in jobs :: jobs[id].bytes
  }

  ghost function FinishedCharges(jobs: map<Id, Record>): map<Id, int> {
    map id | id in jobs :: if Finished(jobs[id].job.status) then jobs[id].bytes else 0
  }

  ghost function UnfinishedCharges(jobs: map<Id, Record>): map<Id, int> {
    map id | id in jobs :: UnfinishedBytes(jobs[id])
  }

  function UnfinishedBytes(r: Record): int {
    if Unfinished(r.job.status) then r.bytes else 0
  }

  ghost function ReservationCharges(rs: map<Id, Reservation>): map<Id, int> {
    map id | id in rs :: rs[id].bytes
  }

  /** Bytes charged to committed jobs. */
  ghost function Held(s: State): int {
    Total(JobCharges(s.jobs))
  }

  /** Bytes promised to open reservations. */
  ghost function Promised(s: State): int {
    Total(ReservationCharges(s.reservations))
  }

  /** Bytes charged to jobs the pipeline has not finished with. */
  ghost function Unsettled(s: State): int {
    Total(UnfinishedCharges(s.jobs))
  }

  ghost predicate WellFormedRecord(id: Id, r: Record) {
    && r.job.id == id
    && 0 <= r.bytes
    && (Finished(r.job.status) ==> r.bytes == DocBytes(r.job.documents))
    && (r.job.status == Evicted ==> IsTombstone(r))
    && (r.job.status != Failed ==> r.job.error == "")
  }

  ghost predicate WellFormedJobs(jobs: map<Id, Record>) {
    forall id :: id in jobs ==> WellFormedRecord(id, jobs[id])
  }

  predicate IsTombstone(r: Record) {
    r.job.status == Evicted && r.bytes == 0 && r.job.documents == [] && r.files == {} && r.job.error == ""
  }

  /** What no operation needs a lifecycle for: the counter is the sum of the charges. */
  ghost predicate Accounted(s: State) {
    && 0 < s.ttl && 0 < s.maxBytes
    && WellFormedJobs(s.jobs)
    && (forall id :: id in s.reservations ==> 0 <= s.reservations[id].bytes)
    && s.used == Held(s) + Promised(s)
    && (s.closed ==> s.jobs == map[] && s.reservations == map[])
  }

  /** The budget: committed jobs fit, and so does all the work that can never be evicted. */
  ghost predicate WithinBudget(s: State) {
    Held(s) <= s.maxBytes && Promised(s) + Unsettled(s) <= s.maxBytes
  }

  ghost predicate Valid(s: State) {
    Accounted(s) && WithinBudget(s)
  }

  // ---------- Reserve, releaseReservation ----------

  ghost predicate Admits(s: State, want: int) {
    s.used + want <= s.maxBytes || s.used - Total(FinishedCharges(s.jobs)) + want <= s.maxBytes
  }

  ghost function ReserveError(s: State, want: int): Option<Error> {
    if s.closed then Some(StoreClosed)
    else if !Admits(s, want) then Some(AtCapacity)
    else None
  }

  function AfterReserve(s: State, id: Id, want: int, now: int): State {
    s.(reservations := s.reservations[id := Reservation(now, want)], used := s.used + want)
  }

  function AfterRelease(s: State, id: Id): State {
    if id in s.reservations
    then s.(reservations := s.reservations - {id}, used := s.used - s.reservations[id].bytes)
    else s
  }

  // ---------- makeRoomLocked ----------

  predicate Candidate(r: Record) {
    0 < r.bytes && Finished(r.job.status)
  }

  function Tombstone(r: Record): Record {
    r.(job := r.job.(status := Evicted, error := "", documents := []), files := {}, bytes := 0)
  }

  /** `order` lists exactly the jobs that may give way, oldest first. Go's sort leaves ties in any order,
      so several sequences qualify. */
  ghost predicate EvictionOrder(jobs: map<Id, Record>, order: seq<Id>) {
    && DistinctCandidates(jobs, order)
    && (forall id :: id in jobs && Candidate(jobs[id]) ==> id in order)
    && OldestFirst(jobs, order)
  }

  ghost predicate DistinctCandidates(jobs: map<Id, Record>, ids: seq<Id>) {
    && (forall i :: 0 <= i < |ids| ==> ids[i] in jobs && Candidate(jobs[ids[i]]))
    && (forall i, j :: 0 <= i < j < |ids| ==> ids[i] != ids[j])
  }

  ghost predicate OldestFirst(jobs: map<Id, Record>, ids: seq<Id>)
    requires DistinctCandidates(jobs, ids)
  {
    forall i, j :: 0 <= i < j < |ids| ==> jobs[ids[i]].job.receivedAt <= jobs[ids[j]].job.receivedAt
  }

  function SeqBytes(jobs: map<Id, Record>, ids: seq<Id>): int
    requires forall i :: 0 <= i < |ids| ==> ids[i] in jobs
  {
    if ids == [] then 0 else jobs[ids[0]].bytes + SeqBytes(jobs, ids[1..])
  }

  /** How many jobs the loop takes off the front of `order` to get rid of `excess` bytes. */
  function Cut(jobs: map<Id, Record>, excess: int, order: seq<Id>): (k: nat)
    requires forall i :: 0 <= i < |order| ==> order[i] in jobs
    ensures k <= |order|
    decreases order
  {
    if order == [] || excess <= 0 then 0
    else 1 + Cut(jobs, excess - jobs[order[0]].bytes, order[1..])
  }

  function Buried(jobs: map<Id, Record>, ids: seq<Id>): map<Id, Record> {
    map id | id in jobs :: if id in ids then Tombstone(jobs[id]) else jobs[id]
  }

  ghost function Victims(s: State, order: seq<Id>): seq<Id>
    requires DistinctCandidates(s.jobs, order)
  {
    order[..Cut(s.jobs, s.used - Promised(s) - s.maxBytes, order)]
  }

  ghost function MakeRoom(s: State, order: seq<Id>): State
    requires DistinctCandidates(s.jobs, order)
  {
    var victims := Victims(s, order);
    s.(jobs := Buried(s.jobs, victims), used := s.used - SeqBytes(s.jobs, victims))
  }

  // ---------- commitReservation ----------

  function CommitError(s: State, rid: Id): Option<Error> {
    if s.closed then Some(StoreClosed)
    else if rid !in s.reservations then Some(ReservationGone)
    else None
  }

  /** The reservation has become a job carrying its charge; room is made next. */
  function Booked(s: State, rid: Id, job: Job, files: set<Path>): State
    requires rid in s.reservations
  {
    s.(reservations := s.reservations - {rid},
       jobs := s.jobs[job.id := Record(job, rid, s.reservations[rid].bytes, files)])
  }

  // ---------- SetStatus ----------

  function StatusError(s: State, id: Id): Option<Error> {
    if id !in s.jobs || s.jobs[id].job.status == Evicted then Some(NotFound) else None
  }

  function WithStatus(j: Job, st: Status, msg: string): Job {
    j.(status := st, error := if st == Failed then msg else "")
  }

  /** SetStatus up to makeRoomLocked: a finished job is charged what its documents occupy. */
  function Settled(s: State, id: Id, st: Status, msg: string, now: int): State
    requires id in s.jobs
  {
    var r := s.jobs[id];
    var job := WithStatus(r.job, st, msg);
    if Finished(st) then
      s.(jobs := s.jobs[id := r.(job := job.(expiresAt := now + s.ttl),
                                 bytes := DocBytes(job.documents),
                                 files := r.files * DocPaths(job.documents))],
         used := s.used + DocBytes(job.documents) - r.bytes)
    else
      s.(jobs := s.jobs[id := r.(job := job)])
  }

  function Leftovers(s: State, id: Id, st: Status): set<Path>
    requires id in s.jobs
  {
    if Finished(st) then s.jobs[id].files - DocPaths(s.jobs[id].job.documents) else {}
  }

  ghost function AfterSetStatus(s: State, id: Id, st: Status, msg: string, now: int, order: seq<Id>): State
    requires id in s.jobs
    requires Finished(st) ==> EvictionOrder(Settled(s, id, st, msg, now).jobs, order)
  {
    if Finished(st) then MakeRoom(Settled(s, id, st, msg, now), order) else Settled(s, id, st, msg, now)
  }

  // ---------- ReplaceDocument ----------

  /** Index of the first document with this id, or the number of documents. */
  function DocIndex(docs: seq<Document>, docId: Id): (i: nat)
    ensures i <= |docs|
    ensures i < |docs| ==> docs[i].id == docId
    ensures forall k :: 0 <= k < i ==> docs[k].id != docId
  {
    if docs == [] || docs[0].id == docId then 0 else 1 + DocIndex(docs[1..], docId)
  }

  function ReplaceError(s: State, id: Id, docId: Id, path: Path): Option<Error> {
    if id !in s.jobs then Some(NotFound)
    else if path !in s.jobs[id].files then Some(NotOurFile)
    else if DocIndex(s.jobs[id].job.documents, docId) == |s.jobs[id].job.documents| then Some(NotFound)
    else None
  }

  /** ReplaceDocument up to makeRoomLocked: a job that is already finished is charged again. */
  function Swapped(s: State, id: Id, docId: Id, path: Path, size: nat, ocr: bool): State
    requires ReplaceError(s, id, docId, path) == None
  {
    var r := s.jobs[id];
    var i := DocIndex(r.job.documents, docId);
    var docs := r.job.documents[i := r.job.documents[i].(path := path, size := size, ocrApplied := ocr)];
    if Finished(r.job.status) then
      s.(jobs := s.jobs[id := r.(job := r.job.(documents := docs), bytes := DocBytes(docs))],
         used := s.used + DocBytes(docs) - r.bytes)
    else
      s.(jobs := s.jobs[id := r.(job := r.job.(documents := docs))])
  }

  ghost function AfterReplace(s: State, id: Id, docId: Id, path: Path, size: nat, ocr: bool, order: seq<Id>): State
    requires ReplaceError(s, id, docId, path) == None
    requires Finished(s.jobs[id].job.status) ==> EvictionOrder(Swapped(s, id, docId, path, size, ocr).jobs, order)
  {
    if Finished(s.jobs[id].job.status) then MakeRoom(Swapped(s, id, docId, path, size, ocr), order)
    else Swapped(s, id, docId, path, size, ocr)
  }

  // ---------- CreateFile, Delete, CleanExpired, Close ----------

  function AfterRegister(s: State, id: Id, path: Path): State
    requires id in s.jobs
  {
    s.(jobs := s.jobs[id := s.jobs[id].(files := s.jobs[id].files + {path})])
  }

  function AfterDelete(s: State, id: Id): State
    requires id in s.jobs
  {
    s.(jobs := s.jobs - {id}, used := s.used - s.jobs[id].bytes)
  }

  /** The package's one definition of "expired". */
  predicate Live(j: Job, now: int) {
    Unfinished(j.status) || now < j.expiresAt
  }

  predicate Stale(r: Reservation, now: int) {
    now - r.reservedAt > STALE_RESERVATION_AFTER
  }

  function Expired(s: State, now: int): set<Id> {
    set id | id in s.jobs && !Live(s.jobs[id].job, now)
  }

  function Leaked(s: State, now: int): set<Id> {
    set id | id in s.reservations && Stale(s.reservations[id], now)
  }

  ghost function AfterSweep(s: State, now: int): State {
    var jobs := s.jobs - Expired(s, now);
    var reservations := s.reservations - Leaked(s, now);
    s.(jobs := jobs, reservations := reservations,
       used := s.used - (Held(s) - Total(JobCharges(jobs)))
                      - (Promised(s) - Total(ReservationCharges(reservations))))
  }

  function AfterClose(s: State): State {
    if s.closed then s else s.(closed := true, jobs := map[], reservations := map[], used := 0)
  }

  // ---------- readers ----------

  function Get(s: State, id: Id, now: int): Option<Job> {
    if id in s.jobs && Live(s.jobs[id].job, now) then Some(s.jobs[id].job) else None
  }

  predicate VisibleTo(j: Job, identities: set<string>, now: int) {
    j.caps.web && Live(j, now) && exists i :: 0 <= i < |j.recipients| && j.recipients[i] in identities
  }

  /** Which jobs ListForUser shows. */
  function Listed(s: State, identities: seq<string>, now: int): set<Id> {
    var want := (set w | w in identities && w != "");
    set id | id in s.jobs && VisibleTo(s.jobs[id].job, want, now)
  }
}
