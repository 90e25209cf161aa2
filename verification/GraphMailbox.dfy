/** The strict mailbox of e2e/fakes/graph.go: drafts, upload sessions, sent messages. */
module GraphMailbox {

  type Byte = bv8

  datatype Option<+T> = None | Some(value: T)

  datatype Attachment = Attachment(name: string, bytes: seq<Byte>)

  datatype Mail = Mail(to: seq<string>, subject: string, body: string, attachments: seq<Attachment>)

  /** A session for one attachment of draft `draft`; `data` is as long as was announced, and `got` bytes have come. */
  datatype Upload = Upload(draft: nat, name: string, data: seq<Byte>, got: nat)

  datatype Box = Box(drafts: map<nat, Mail>, uploads: map<nat, Upload>, messages: seq<Mail>, nextId: nat)

  datatype Request =
    | CreateDraft(to: seq<string>, subject: string, body: string)
    | AddAttachment(draft: nat, name: string, bytes: seq<Byte>)
    | CreateSession(draft: nat, name: string, size: nat)
    | PutChunk(upload: nat, first: nat, last: int, total: nat, bytes: seq<Byte>)
    | SendDraft(draft: nat)

  datatype Reply = Accepted(id: nat) | Refused

  const ATTACHMENT_FLOOR := 3 * 1024 * 1024
  const REQUEST_MAX := 4 * 1024 * 1024

  /** Ids are made up afresh. */
  ghost predicate Fresh(b: Box) {
    (forall d :: d in b.drafts ==> d < b.nextId) && (forall u :: u in b.uploads ==> u < b.nextId)
  }

  predicate Accepts(b: Box, r: Request) {
    match r
    case CreateDraft(_, _, _) => true
    case AddAttachment(draft, name, bytes) =>
      name != "" && bytes != [] && |bytes| < ATTACHMENT_FLOOR && draft in b.drafts
    case CreateSession(draft, _, size) => ATTACHMENT_FLOOR <= size && draft in b.drafts
    case PutChunk(upload, first, last, total, bytes) =>
      && |bytes| < REQUEST_MAX && upload in b.uploads
      && first == b.uploads[upload].got && last + 1 == first + |bytes| && last + 1 <= total
      && first + |bytes| <= |b.uploads[upload].data|
    case SendDraft(draft) => draft in b.drafts
  }

  function Attached(m: Mail, a: Attachment): Mail {
    m.(attachments := m.attachments + [a])
  }

  function Placed(data: seq<Byte>, first: nat, bytes: seq<Byte>): seq<Byte>
    requires first + |bytes| <= |data|
  {
    data[..first] + bytes + data[first + |bytes|..]
  }

  function Zeros(n: nat): (s: seq<Byte>)
    ensures |s| == n
  {
    seq(n, i => 0)
  }

  function After(b: Box, r: Request): Box {
    if !Accepts(b, r) then b
    else
      match r
      case CreateDraft(to, subject, body) =>
        b.(drafts := b.drafts[b.nextId := Mail(to, subject, body, [])], nextId := b.nextId + 1)
      case AddAttachment(draft, name, bytes) =>
        b.(drafts := b.drafts[draft := Attached(b.drafts[draft], Attachment(name, bytes))], nextId := b.nextId + 1)
      case CreateSession(draft, name, size) =>
        b.(uploads := b.uploads[b.nextId := Upload(draft, name, Zeros(size), 0)], nextId := b.nextId + 1)
      case PutChunk(upload, first, last, total, bytes) =>
        var up := b.uploads[upload];
        var data := Placed(up.data, first, bytes);
        if first + |bytes| < total then b.(uploads := b.uploads[upload := up.(data := data, got := first + |bytes|)])
        else
          b.(uploads := b.uploads - {upload},
             drafts := if up.draft in b.drafts
                       then b.drafts[up.draft := Attached(b.drafts[up.draft], Attachment(up.name, data))] else b.drafts)
      case SendDraft(draft) =>
        b.(drafts := b.drafts - {draft}, messages := b.messages + [b.drafts[draft]])
  }

  function ReplyTo(b: Box, r: Request): Reply {
    if Accepts(b, r) then Accepted(b.nextId) else Refused
  }

  function Bytes(chunks: seq<seq<Byte>>): seq<Byte> {
    if chunks == [] then [] else Bytes(chunks[..|chunks| - 1]) + chunks[|chunks| - 1]
  }

  lemma BytesAdd(chunks: seq<seq<Byte>>, chunk: seq<Byte>)
    ensures Bytes(chunks + [chunk]) == Bytes(chunks) + chunk
  {
    assert (chunks + [chunk])[..|chunks|] == chunks;
  }

  /** A draft is waiting or sent, never both, and was sent at most once. */
  ghost predicate DraftsFit(b: Box, sent: seq<nat>) {
    && |sent| == |b.messages|
    && (forall i, j :: 0 <= i < j < |sent| ==> sent[i] != sent[j])
    && (forall d :: d in sent ==> d < b.nextId && d !in b.drafts)
  }

  /** What has arrived in a session is its accepted chunks, one after the other, from its first byte on. */
  ghost predicate UploadsFit(b: Box, chunks: map<nat, seq<seq<Byte>>>) {
    forall u :: u in b.uploads ==> u in chunks && UploadFits(b.uploads[u], chunks[u])
  }

  ghost predicate UploadFits(up: Upload, chunks: seq<seq<Byte>>) {
    up.got <= |up.data| && up.data[..up.got] == Bytes(chunks)
  }

  lemma PlacedNext(up: Upload, chunks: seq<seq<Byte>>, bytes: seq<Byte>)
    requires UploadFits(up, chunks) && up.got + |bytes| <= |up.data|
    ensures var data := Placed(up.data, up.got, bytes);
      |data| == |up.data| && data[..up.got + |bytes|] == Bytes(chunks + [bytes])
  {
    BytesAdd(chunks, bytes);
    var data := Placed(up.data, up.got, bytes);
    assert data[..up.got + |bytes|] == up.data[..up.got] + bytes;
  }

  /** Each handler is one critical section of the fake. */
  class Mailbox {
    var drafts: map<nat, Mail>
    var uploads: map<nat, Upload>
    var messages: seq<Mail>
    var nextId: nat
    /** The drafts behind `messages`, and every session's accepted chunks. */
    ghost var sent: seq<nat>
    ghost var chunks: map<nat, seq<seq<Byte>>>

    ghost predicate Valid()
      reads this
    {
      Fresh(Now()) && DraftsFit(Now(), sent) && UploadsFit(Now(), chunks)
    }

    constructor ()
      ensures Valid() && Now() == Box(map[], map[], [], 0)
    {
      drafts, uploads, messages, nextId := map[], map[], [], 0;
      sent, chunks := [], map[];
    }

    function Now(): Box
      reads this
    {
      Box(drafts, uploads, messages, nextId)
    }

    /** A new draft is one that never existed, sent or not. */
    method CreateDraftHandler(to: seq<string>, subject: string, body: string) returns (reply: Reply)
      requires Valid()
      modifies this
      ensures Valid() && reply.Accepted? && reply.id !in old(drafts) && reply.id !in sent && sent == old(sent)
      ensures reply == ReplyTo(old(Now()), CreateDraft(to, subject, body))
      ensures Now() == After(old(Now()), CreateDraft(to, subject, body))
    {
      drafts := drafts[nextId := Mail(to, subject, body, [])];
      reply := Accepted(nextId);
      nextId := nextId + 1;
    }

    method AddAttachmentHandler(draft: nat, name: string, bytes: seq<Byte>) returns (reply: Reply)
      requires Valid()
      modifies this
      ensures Valid() && sent == old(sent)
      ensures reply == ReplyTo(old(Now()), AddAttachment(draft, name, bytes))
      ensures Now() == After(old(Now()), AddAttachment(draft, name, bytes))
    {
      if name == "" || bytes == [] || |bytes| >= ATTACHMENT_FLOOR || draft !in drafts {
        return Refused;
      }
      var msg := drafts[draft];
      drafts := drafts[draft := msg.(attachments := msg.attachments + [Attachment(name, bytes)])];
      reply := Accepted(nextId);
      nextId := nextId + 1;
    }

    method CreateSessionHandler(draft: nat, name: string, size: nat) returns (reply: Reply)
      requires Valid()
      modifies this
      ensures Valid() && sent == old(sent)
      ensures reply == ReplyTo(old(Now()), CreateSession(draft, name, size))
      ensures Now() == After(old(Now()), CreateSession(draft, name, size))
    {
      if size < ATTACHMENT_FLOOR || draft !in drafts {
        return Refused;
      }
      uploads := uploads[nextId := Upload(draft, name, Zeros(size), 0)];
      chunks := chunks[nextId := []];
      reply := Accepted(nextId);
      nextId := nextId + 1;
    }

    /** An accepted chunk continues the ones before it; the chunk that completes the announced size attaches exactly the
        accepted chunks, one after the other. */
    method PutChunkHandler(upload: nat, first: nat, last: int, total: nat, bytes: seq<Byte>) returns (reply: Reply)
      requires Valid()
      modifies this
      ensures Valid() && sent == old(sent)
      ensures if reply.Accepted? then
          && upload in old(uploads) && upload in old(chunks)
          && chunks == old(chunks)[upload := old(chunks)[upload] + [bytes]]
        else chunks == old(chunks)
      ensures reply.Accepted? && upload !in uploads ==>
        var up := old(uploads)[upload];
        up.draft in drafts ==>
          && |drafts[up.draft].attachments| > 0
          && var a := drafts[up.draft].attachments[|drafts[up.draft].attachments| - 1];
            a.name == up.name && |a.bytes| == |up.data| && Bytes(chunks[upload]) <= a.bytes
            && (total == |up.data| ==> a.bytes == Bytes(chunks[upload]))
      ensures reply == ReplyTo(old(Now()), PutChunk(upload, first, last, total, bytes))
      ensures Now() == After(old(Now()), PutChunk(upload, first, last, total, bytes))
    {
      hide Bytes;
      if |bytes| >= REQUEST_MAX || upload !in uploads {
        return Refused;
      }
      var up := uploads[upload];
      if first != up.got || last + 1 != first + |bytes| || last + 1 > total || first + |bytes| > |up.data| {
        return Refused;
      }
      PlacedNext(up, chunks[upload], bytes);
      up := up.(data := Placed(up.data, first, bytes), got := first + |bytes|);
      chunks := chunks[upload := chunks[upload] + [bytes]];
      reply := Accepted(nextId);
      if up.got < total {
        uploads := uploads[upload := up];
        return;
      }
      assert up.got == |up.data| ==> up.data[..up.got] == up.data;
      if up.draft in drafts {
        drafts := drafts[up.draft := Attached(drafts[up.draft], Attachment(up.name, up.data))];
      }
      uploads := uploads - {upload};
    }

    /** Accepted exactly for a draft that is waiting - so never for one that was sent - and then it is sent as it
        stands. */
    method SendDraftHandler(draft: nat) returns (reply: Reply)
      requires Valid()
      modifies this
      ensures Valid() && (reply.Accepted? <==> draft in old(drafts))
      ensures reply.Accepted? ==>
        draft !in old(sent) && sent == old(sent) + [draft] && messages == old(messages) + [old(drafts)[draft]]
      ensures reply.Refused? ==> sent == old(sent) && messages == old(messages)
      ensures reply == ReplyTo(old(Now()), SendDraft(draft)) && Now() == After(old(Now()), SendDraft(draft))
    {
      if draft !in drafts {
        return Refused;
      }
      messages := messages + [drafts[draft]];
      drafts := drafts - {draft};
      sent := sent + [draft];
      reply := Accepted(nextId);
    }

    method Handle(r: Request) returns (reply: Reply)
      requires Valid()
      modifies this
      ensures Valid() && reply == ReplyTo(old(Now()), r) && Now() == After(old(Now()), r)
    {
      hide After, ReplyTo, Fresh, DraftsFit, UploadsFit;
      match r
      case CreateDraft(to, subject, body) => reply := CreateDraftHandler(to, subject, body);
      case AddAttachment(draft, name, bytes) => reply := AddAttachmentHandler(draft, name, bytes);
      case CreateSession(draft, name, size) => reply := CreateSessionHandler(draft, name, size);
      case PutChunk(upload, first, last, total, bytes) => reply := PutChunkHandler(upload, first, last, total, bytes);
      case SendDraft(draft) => reply := SendDraftHandler(draft);
    }
  }

  /** The mailbox after `n` copies of one request. */
  function Served(b: Box, r: Request, n: nat): Box {
    if n == 0 then b else After(Served(b, r, n - 1), r)
  }
}
