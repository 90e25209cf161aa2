/** The entities of internal/jobs/job.go, and where their files live. */
module JobTypes {

  /** Unguessable ids are only ever compared for equality, so any infinite supply of tokens will do. */
  type Id = nat

  /** A regular file inside the directory the store made for reservation `dir`. */
  datatype Path = Path(dir: Id, name: nat)

  datatype Capabilities = Capabilities(email: bool, web: bool, ocr: bool)

  datatype Status = Pending | Processing | Ready | Failed | Evicted

  datatype Document = Document(id: Id, displayName: string, path: Path, size: nat, ocrApplied: bool)

  datatype Job = Job(
    id: Id, receivedAt: int, expiresAt: int, profile: string, caps: Capabilities, subject: string,
    recipients: seq<string>, documents: seq<Document>, status: Status, error: string)

  datatype Option<+T> = None | Some(value: T)

  predicate Finished(st: Status) {
    st == Ready || st == Failed
  }

  predicate Unfinished(st: Status) {
    st == Pending || st == Processing
  }

  function DocBytes(docs: seq<Document>): nat {
    if docs == [] then 0 else docs[0].size + DocBytes(docs[1..])
  }

  function DocPaths(docs: seq<Document>): set<Path> {
    set i | 0 <= i < |docs| :: docs[i].path
  }

  /** No two documents share a file or an id. */
  ghost predicate DistinctDocs(docs: seq<Document>) {
    forall i, j :: 0 <= i < j < |docs| ==> docs[i].path != docs[j].path && docs[i].id != docs[j].id
  }
}
