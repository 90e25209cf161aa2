/** Sending a large mail as a draft with upload sessions (internal/graphmail/upload.go over internal/msapi/msapi.go), under
    any schedule of lost requests, lost replies, refusals and cancellations. */
module GraphUpload {
  import opened GraphMailbox

  /** What happens to one HTTP attempt. A Busy reply is a 429 or 5xx; Rejected any other error status; the two kinds of
      cancellation differ in whether the mailbox had already acted. */
  datatype Fault = Delivered | RequestLost | ReplyLost | Busy | Rejected | CancelledBefore | CancelledAfter

  datatype File = File(name: string, bytes: seq<Byte>)

  datatype Message = Message(to: seq<string>, subject: string, body: string, files: seq<File>)

  const MAX_ATTEMPTS := 4
  const CHUNK := 3840 * 1024

  // ---------- one logical request ----------

  /** The mailbox got the request and acted on it. */
  predicate Acts(f: Fault) {
    f == Delivered || f == ReplyLost || f == CancelledAfter
  }

  /** The client tries again. */
  predicate Retried(f: Fault) {
    f == RequestLost || f == ReplyLost || f == Busy
  }

  /** How often a request is handled, whether an answer comes back in the end, and which attempt is next. */
  datatype Tried = Tried(handled: nat, delivered: bool, next: nat)

  /** What the schedule makes of up to `left` attempts from `t` on. */
  function Try(faults: nat -> Fault, t: nat, left: nat): (r: Tried)
    ensures r.handled <= left && t <= r.next <= t + left && (r.delivered ==> r.handled >= 1)
    decreases left
  {
    if left == 0 then Tried(0, false, t)
    else if !Retried(faults(t)) then Tried(if Acts(faults(t)) then 1 else 0, faults(t) == Delivered, t + 1)
    else
      var later := Try(faults, t + 1, left - 1);
      later.(handled := later.handled + if faults(t) == ReplyLost then 1 else 0)
  }

  function LostReplies(faults: nat -> Fault, from: nat, to: nat): nat
    decreases if from < to then to - from else 0
  {
    if to <= from then 0 else (if faults(from) == ReplyLost then 1 else 0) + LostReplies(faults, from + 1, to)
  }

  /** An answered request was handled once, and once more for every reply that got lost. */
  lemma {:induction false} AnsweredOnceMoreThanLost(faults: nat -> Fault, t: nat, left: nat)
    requires Try(faults, t, left).delivered
    ensures Try(faults, t, left).handled == 1 + LostReplies(faults, t, Try(faults, t, left).next)
    decreases left
  {
    if Retried(faults(t)) {
      AnsweredOnceMoreThanLost(faults, t + 1, left - 1);
    }
  }

  predicate EveryReplyComes(faults: nat -> Fault, from: nat, to: nat) {
    forall t :: from <= t < to ==> faults(t) != ReplyLost
  }

  lemma {:induction false} NoneLost(faults: nat -> Fault, from: nat, to: nat)
    ensures LostReplies(faults, from, to) == 0 <==> EveryReplyComes(faults, from, to)
    decreases if from < to then to - from else 0
  {
    if from < to {
      NoneLost(faults, from + 1, to);
    }
  }

  /** The first of up to `left` attempts that is not simply repeated unseen. */
  function FirstTelling(faults: nat -> Fault, t: nat, left: nat): Option<Fault>
    decreases left
  {
    if left == 0 then None
    else if faults(t) == RequestLost || faults(t) == Busy then FirstTelling(faults, t + 1, left - 1)
    else Some(faults(t))
  }

  /** The mailbox acts at all exactly if the first telling attempt reaches it; and it acts once, with the client hearing
      so, exactly if that attempt is delivered. */
  lemma {:induction false} FirstAttemptTells(faults: nat -> Fault, t: nat, left: nat)
    ensures var f := FirstTelling(faults, t, left); var r := Try(faults, t, left);
      && (r.handled >= 1 <==> f.Some? && Acts(f.value))
      && (r.handled == 1 && r.delivered <==> f == Some(Delivered))
    decreases left
  {
    if left > 0 && Retried(faults(t)) {
      FirstAttemptTells(faults, t + 1, left - 1);
    }
  }

  /** One logical request, exactly: handled as often as the schedule says, and answered if the last of them was delivered
      and accepted. */
  ghost predicate Answered(was: Box, now: Box, r: Request, tried: Tried, reply: Option<Reply>) {
    && now == Served(was, r, tried.handled)
    && reply == (if tried.delivered && tried.handled > 0 && Accepts(Served(was, r, tried.handled - 1), r)
                 then Some(ReplyTo(Served(was, r, tried.handled - 1), r)) else None)
  }

  /** What a caller may conclude: the mailbox handled the request some `n` times, and success means the last of them was
      accepted. */
  ghost predicate Done(was: Box, now: Box, r: Request, n: nat, reply: Option<Reply>) {
    && n <= MAX_ATTEMPTS && now == Served(was, r, n)
    && (reply.Some? ==> n > 0 && reply.value.Accepted? && reply.value == ReplyTo(Served(was, r, n - 1), r))
  }

  /** The same with `more` handled before. */
  function More(r: Tried, more: nat): Tried {
    r.(handled := r.handled + more)
  }

  lemma TryOnce(faults: nat -> Fault, t: nat, left: nat)
    requires left > 0
    ensures Try(faults, t, left) ==
      if Retried(faults(t)) then More(Try(faults, t + 1, left - 1), if faults(t) == ReplyLost then 1 else 0)
      else Tried(if Acts(faults(t)) then 1 else 0, faults(t) == Delivered, t + 1)
    ensures Try(faults, t, 0) == Tried(0, false, t)
  {
  }

  // ---------- what repeating a request does ----------

  function Copies(a: Attachment, n: nat): seq<Attachment> {
    seq(n, i => a)
  }

  /** A repeated attachment POST attaches again. */
  lemma {:induction false} RepeatedAttachment(b: Box, r: Request, n: nat)
    requires r.AddAttachment? && r.draft in b.drafts
    ensures var a := Attachment(r.name, r.bytes); var b' := Served(b, r, n);
      if r.name == "" || r.bytes == [] || |r.bytes| >= ATTACHMENT_FLOOR then b' == b
      else
        && b'.uploads == b.uploads && b'.messages == b.messages && b'.nextId == b.nextId + n
        && b'.drafts == b.drafts[r.draft := b.drafts[r.draft].(attachments := b.drafts[r.draft].attachments + Copies(a, n))]
  {
    var a := Attachment(r.name, r.bytes);
    if n == 0 {
      assert b.drafts[r.draft].attachments + Copies(a, 0) == b.drafts[r.draft].attachments;
    } else {
      RepeatedAttachment(b, r, n - 1);
      assert Copies(a, n) == Copies(a, n - 1) + [a];
      var had := b.drafts[r.draft].attachments;
      assert had + Copies(a, n) == had + Copies(a, n - 1) + [a];
    }
  }

  /** A repeated chunk or SEND is refused: the session has moved on, the draft is gone. */
  lemma {:induction false} RefusedTheSecondTime(b: Box, r: Request, n: nat)
    requires (r.PutChunk? && r.bytes != []) || r.SendDraft?
    ensures n > 0 ==> Served(b, r, n) == After(b, r)
    ensures n > 1 ==> ReplyTo(Served(b, r, n - 1), r) == Refused
  {
    if n > 1 {
      RefusedTheSecondTime(b, r, n - 1);
    }
  }

  /** Repeated CREATE calls leave strays behind and touch nothing that was there. */
  ghost predicate Undisturbed(b: Box, b': Box) {
    && b.nextId <= b'.nextId && b'.messages == b.messages
    && (forall d :: d in b.drafts && d < b.nextId ==> d in b'.drafts && b'.drafts[d] == b.drafts[d])
    && (forall u :: u in b.uploads && u < b.nextId ==> u in b'.uploads && b'.uploads[u] == b.uploads[u])
  }

  lemma {:induction false} RepeatedCreate(b: Box, r: Request, n: nat)
    requires r.CreateDraft? || r.CreateSession?
    ensures Undisturbed(b, Served(b, r, n)) && (r.CreateSession? ==> Served(b, r, n).drafts == b.drafts)
    ensures n > 0 && Accepts(Served(b, r, n - 1), r) ==>
      var before := Served(b, r, n - 1);
      && before.nextId >= b.nextId && Served(b, r, n).nextId == before.nextId + 1
      && (r.CreateDraft? ==>
            Served(b, r, n).drafts == before.drafts[before.nextId := Mail(r.to, r.subject, r.body, [])])
      && (r.CreateSession? ==>
            && Served(b, r, n).drafts == b.drafts
            && Served(b, r, n).uploads == before.uploads[before.nextId := Upload(r.draft, r.name, Zeros(r.size), 0)])
  {
    if n > 0 {
      RepeatedCreate(b, r, n - 1);
    }
  }

  // ---------- chunk ranges ----------

  function ChunkEnd(off: nat, size: nat): nat {
    if size - off < CHUNK then size else off + CHUNK
  }

  /** The [first, end) ranges the loop sends from `off` on. */
  function Ranges(off: nat, size: nat): seq<(nat, nat)>
    requires off <= size
    decreases size - off
  {
    if off == size then [] else [(off, ChunkEnd(off, size))] + Ranges(ChunkEnd(off, size), size)
  }

  /** They are non-empty, in order, without gap or overlap from the first byte to the last, and each fits a request. */
  lemma {:induction false} RangesPartition(off: nat, size: nat)
    requires off <= size
    ensures var rs := Ranges(off, size);
      && (off < size ==> rs != [] && rs[0].0 == off && rs[|rs| - 1].1 == size)
      && (forall i :: 0 <= i < |rs| ==> rs[i].0 < rs[i].1 && rs[i].1 - rs[i].0 < REQUEST_MAX)
      && (forall i :: 0 <= i < |rs| - 1 ==> rs[i].1 == rs[i + 1].0)
    decreases size - off
  {
    if off < size {
      RangesPartition(ChunkEnd(off, size), size);
    }
  }

  // ---------- what recipients get ----------

  function AsAttachment(f: File): Attachment {
    Attachment(f.name, f.bytes)
  }

  /** Each file as often as it was attached. */
  function Expand(files: seq<File>, copies: seq<nat>): seq<Attachment>
    requires |files| == |copies|
  {
    if files == [] then []
    else Expand(files[..|files| - 1], copies[..|files| - 1]) + Copies(AsAttachment(files[|files| - 1]), copies[|files| - 1])
  }

  predicate Large(f: File) {
    |f.bytes| >= ATTACHMENT_FLOOR
  }

  /** How often a file ends up attached when its attempts run from `from` to `to`: once if it went through an upload
      session, and otherwise once and once more for every reply lost. */
  function CopiesMade(faults: nat -> Fault, f: File, from: nat, to: nat): nat {
    if Large(f) then 1 else 1 + LostReplies(faults, from, to)
  }

  ghost predicate CopiesFit(files: seq<File>, copies: seq<nat>, faults: nat -> Fault, marks: seq<nat>) {
    && |copies| == |files| < |marks|
    && forall i :: 0 <= i < |files| ==>
         copies[i] == CopiesMade(faults, files[i], marks[i], marks[i + 1]) && 1 <= copies[i] <= MAX_ATTEMPTS
  }

  /** The mail as the recipients get it: every file, in order, byte for byte, as often as the schedule makes it. */
  ghost predicate IsMail(sent: Mail, m: Message, faults: nat -> Fault, marks: seq<nat>) {
    && sent.to == m.to && sent.subject == m.subject && sent.body == m.body
    && exists copies :: CopiesFit(m.files, copies, faults, marks) && sent.attachments == Expand(m.files, copies)
  }

  ghost predicate SentOnce(was: seq<Mail>, now: seq<Mail>, m: Message, faults: nat -> Fault, marks: seq<nat>) {
    |now| == |was| + 1 && now[..|was|] == was && IsMail(now[|was|], m, faults, marks)
  }

  lemma CopiesFitOneMore(
    files: seq<File>, copies: seq<nat>, faults: nat -> Fault, marks: seq<nat>, i: nat, more: nat, tick: nat)
    requires i < |files| && |marks| == i + 1 && CopiesFit(files[..i], copies, faults, marks)
    requires more == CopiesMade(faults, files[i], marks[i], tick) && 1 <= more <= MAX_ATTEMPTS
    ensures CopiesFit(files[..i + 1], copies + [more], faults, marks + [tick])
  {
    hide CopiesMade;
  }

  /** A small file's attempts are one logical request: it is done when that is, and goes through exactly if that is
      answered and the file has a name and bytes. */
  ghost predicate MarksFit(files: seq<File>, faults: nat -> Fault, marks: seq<nat>) {
    forall i :: 0 <= i < |files| && i < |marks| && !Large(files[i]) ==> MarkFits(files[i], faults, marks, i)
  }

  predicate MarkFits(f: File, faults: nat -> Fault, marks: seq<nat>, i: nat)
    requires i < |marks|
  {
    var tried := Try(faults, marks[i], MAX_ATTEMPTS);
    && (i + 1 < |marks| <==> tried.delivered && f.name != "" && f.bytes != [])
    && (i + 1 < |marks| ==> marks[i + 1] == tried.next)
  }

  lemma NothingYet(files: seq<File>, faults: nat -> Fault, tick: nat)
    ensures CopiesFit(files[..0], [], faults, [tick]) && MarksFit(files[..0], faults, [tick])
    ensures Expand(files[..0], []) == []
  {
  }

  lemma MarksFitOneMore(files: seq<File>, faults: nat -> Fault, marks: seq<nat>, i: nat, tick: nat)
    requires i < |files| && |marks| == i + 1 && MarksFit(files[..i], faults, marks)
    requires !Large(files[i]) ==> MarkFits(files[i], faults, marks + [tick], i)
    ensures MarksFit(files[..i + 1], faults, marks + [tick])
  {
    hide Large, Try;
    forall j | 0 <= j < i && !Large(files[j]) ensures MarkFits(files[j], faults, marks + [tick], j) {
      assert files[..i][j] == files[j];
      assert MarkFits(files[..i][j], faults, marks, j);
    }
    assert forall j :: 0 <= j <= i ==> files[..i + 1][j] == files[j];
  }

  lemma MarksFitAtFailure(files: seq<File>, faults: nat -> Fault, marks: seq<nat>, i: nat)
    requires i < |files| && |marks| == i + 1 && MarksFit(files[..i], faults, marks)
    requires !Large(files[i]) ==>
      !(Try(faults, marks[i], MAX_ATTEMPTS).delivered && files[i].name != "" && files[i].bytes != [])
    ensures MarksFit(files, faults, marks)
  {
    hide Try, Large;
    assert forall j :: 0 <= j < i ==> files[..i][j] == files[j];
  }

  lemma NoMarks(files: seq<File>, faults: nat -> Fault)
    ensures MarksFit(files, faults, [])
  {
  }

  lemma TriedOnce(faults: nat -> Fault, t: nat)
    ensures (forall t :: faults(t) == Delivered) ==> Try(faults, t, MAX_ATTEMPTS) == Tried(1, true, t + 1)
  {
  }

  lemma AllDelivered(faults: nat -> Fault, t: nat)
    ensures (forall t :: faults(t) == Delivered) ==>
      Try(faults, t, MAX_ATTEMPTS).delivered && FirstTelling(faults, t, MAX_ATTEMPTS) == Some(Delivered)
  {
  }

  lemma AnsweredIsDone(b: Box, b': Box, r: Request, tried: Tried, reply: Option<Reply>)
    requires Answered(b, b', r, tried, reply) && tried.handled <= MAX_ATTEMPTS && (tried.delivered ==> tried.handled >= 1)
    ensures Done(b, b', r, tried.handled, reply)
    ensures tried.handled == 1 && tried.delivered && Accepts(b, r) ==> reply.Some?
  {
    hide After, Accepts;
    assert Served(b, r, 0) == b;
  }

  lemma ServedNone(b: Box, r: Request)
    ensures Served(b, r, 0) == b
  {
  }

  lemma ServedOnceMore(b: Box, r: Request, n: nat)
    ensures Served(b, r, n + 1) == After(Served(b, r, n), r)
    ensures ReplyTo(Served(b, r, n), r).Accepted? <==> Accepts(Served(b, r, n), r)
  {
    hide After, Accepts;
  }

  lemma MailboxIsFresh(mailbox: Mailbox)
    requires mailbox.Valid()
    ensures Fresh(mailbox.Now())
  {
  }

  lemma {:induction false} ExpandOnce(files: seq<File>, copies: seq<nat>)
    requires |files| == |copies| && forall i :: 0 <= i < |copies| ==> copies[i] == 1
    ensures |Expand(files, copies)| == |files|
    ensures forall i :: 0 <= i < |files| ==> Expand(files, copies)[i] == AsAttachment(files[i])
  {
    if files != [] {
      ExpandOnce(files[..|files| - 1], copies[..|files| - 1]);
    }
  }

  lemma {:induction false} ExpandGrows(files: seq<File>, copies: seq<nat>)
    requires |files| == |copies| && forall i :: 0 <= i < |copies| ==> copies[i] >= 1
    ensures |Expand(files, copies)| >= |files|
    ensures (exists i :: 0 <= i < |copies| && copies[i] > 1) ==> |Expand(files, copies)| > |files|
  {
    if files != [] {
      var n := |files| - 1;
      ExpandGrows(files[..n], copies[..n]);
      if exists i :: 0 <= i < |copies| && copies[i] > 1 {
        var i :| 0 <= i < |copies| && copies[i] > 1;
        assert i < n ==> copies[..n][i] > 1;
      }
    }
  }

  ghost predicate ExactlyTheFiles(atts: seq<Attachment>, files: seq<File>) {
    |atts| == |files| && forall i :: 0 <= i < |files| ==> atts[i] == AsAttachment(files[i])
  }

  /** The recipients get every file exactly once if and only if no reply to a small file's POST was lost. */
  lemma ExactlyOnceIff(m: Message, sent: Mail, faults: nat -> Fault, marks: seq<nat>)
    requires IsMail(sent, m, faults, marks)
    ensures |marks| > |m.files|
    ensures ExactlyTheFiles(sent.attachments, m.files) <==>
      forall i :: 0 <= i < |m.files| && !Large(m.files[i]) ==> EveryReplyComes(faults, marks[i], marks[i + 1])
  {
    hide Expand, LostReplies, Large, EveryReplyComes;
    var copies :| CopiesFit(m.files, copies, faults, marks) && sent.attachments == Expand(m.files, copies);
    ExpandGrows(m.files, copies);
    if forall i :: 0 <= i < |m.files| && !Large(m.files[i]) ==> EveryReplyComes(faults, marks[i], marks[i + 1]) {
      forall i | 0 <= i < |copies| ensures copies[i] == 1 {
        NoneLost(faults, marks[i], marks[i + 1]);
        assert copies[i] == CopiesMade(faults, m.files[i], marks[i], marks[i + 1]);
      }
      ExpandOnce(m.files, copies);
    } else {
      var i :| 0 <= i < |m.files| && !Large(m.files[i]) && !EveryReplyComes(faults, marks[i], marks[i + 1]);
      NoneLost(faults, marks[i], marks[i + 1]);
      assert copies[i] > 1;
    }
  }

  lemma ExpandOneMore(files: seq<File>, copies: seq<nat>, i: nat, more: nat)
    requires i < |files| && |copies| == i
    ensures Expand(files[..i + 1], copies + [more]) == Expand(files[..i], copies) + Copies(AsAttachment(files[i]), more)
  {
    assert files[..i + 1][..i] == files[..i] && (copies + [more])[..i] == copies;
  }

  lemma {:induction false} CreateStaysFresh(b: Box, r: Request, n: nat)
    requires Fresh(b) && (r.CreateDraft? || r.CreateSession?)
    ensures Fresh(Served(b, r, n))
  {
    if n > 0 {
      CreateStaysFresh(b, r, n - 1);
    }
  }

  /** Half-way through: what has arrived is the beginning of the file, and the draft is as it was. */
  ghost predicate InProgress(b: Box, id: nat, url: nat, f: File, off: nat, draft: Mail) {
    && off < |f.bytes| && id in b.drafts && b.drafts[id] == draft
    && url in b.uploads
    && var up := b.uploads[url];
      && up.draft == id && up.name == f.name && up.got == off && |up.data| == |f.bytes| && up.data[..off] == f.bytes[..off]
  }

  lemma ChunkStep(b: Box, id: nat, url: nat, f: File, off: nat, draft: Mail, n: nat)
    requires InProgress(b, id, url, f, off, draft) && Fresh(b)
    ensures var end := ChunkEnd(off, |f.bytes|);
      var r := PutChunk(url, off, end - 1, |f.bytes|, f.bytes[off..end]); var b' := Served(b, r, n);
      && Accepts(b, r) && Fresh(b') && b'.messages == b.messages && id in b'.drafts
      && (n > 1 ==> ReplyTo(Served(b, r, n - 1), r) == Refused)
      && (n > 0 ==> if end < |f.bytes| then InProgress(b', id, url, f, end, draft)
                    else b'.drafts[id] == Attached(draft, AsAttachment(f)))
  {
    var end := ChunkEnd(off, |f.bytes|);
    var r := PutChunk(url, off, end - 1, |f.bytes|, f.bytes[off..end]);
    var up := b.uploads[url];
    RefusedTheSecondTime(b, r, n);
    var data := Placed(up.data, off, r.bytes);
    assert data[..end] == f.bytes[..end] by {
      assert data[..end] == up.data[..off] + f.bytes[off..end];
      assert f.bytes[..end] == f.bytes[..off] + f.bytes[off..end];
    }
    if end == |f.bytes| {
      assert data == data[..end] && f.bytes == f.bytes[..end];
    }
  }

  lemma ChunkIsAccepted(b: Box, id: nat, url: nat, f: File, off: nat, draft: Mail)
    requires InProgress(b, id, url, f, off, draft) && Fresh(b)
    ensures var end := ChunkEnd(off, |f.bytes|); Accepts(b, PutChunk(url, off, end - 1, |f.bytes|, f.bytes[off..end]))
  {
    ChunkStep(b, id, url, f, off, draft, 0);
  }

  /** A chunk the client sees acknowledged was placed exactly once. */
  lemma ChunkDone(
    b: Box, b': Box, id: nat, url: nat, f: File, off: nat, draft: Mail, n: nat, reply: Option<Reply>)
    requires InProgress(b, id, url, f, off, draft) && Fresh(b)
    requires var end := ChunkEnd(off, |f.bytes|);
      Done(b, b', PutChunk(url, off, end - 1, |f.bytes|, f.bytes[off..end]), n, reply)
    ensures Fresh(b') && b'.messages == b.messages && id in b'.drafts
    ensures reply.Some? ==> n == 1
    ensures var end := ChunkEnd(off, |f.bytes|);
      reply.Some? ==> if end < |f.bytes| then InProgress(b', id, url, f, end, draft)
                      else b'.drafts[id] == Attached(draft, AsAttachment(f))
  {
    hide InProgress, After, Accepts, Fresh, Served;
    ChunkStep(b, id, url, f, off, draft, n);
  }

  lemma SessionIsAccepted(b: Box, r: Request)
    requires r.CreateSession? && ATTACHMENT_FLOOR <= r.size && r.draft in b.drafts
    ensures Accepts(b, r)
  {
  }

  lemma SessionStarts(b: Box, b': Box, r: Request, n: nat, reply: Option<Reply>, f: File)
    requires Fresh(b) && r.CreateSession? && r.draft in b.drafts && r.name == f.name && r.size == |f.bytes| && 0 < r.size
    requires Done(b, b', r, n, reply)
    ensures Fresh(b') && b'.messages == b.messages && b'.drafts == b.drafts
    ensures reply.Some? ==> InProgress(b', r.draft, reply.value.id, f, 0, b.drafts[r.draft])
  {
    hide After, Fresh;
    RepeatedCreate(b, r, n);
    CreateStaysFresh(b, r, n);
  }

  lemma DraftCanBeSent(b: Box, id: nat)
    requires id in b.drafts
    ensures Accepts(b, SendDraft(id))
  {
  }

  /** However often SEND arrives, the draft goes out at most once. It goes out exactly if the first telling attempt
      reaches the mailbox, and the client hears so exactly if that attempt's reply comes back: a lost reply, or a
      cancellation behind the mailbox's back, is reported as a failure although the mail is out. */
  lemma SendDone(b: Box, b': Box, id: nat, faults: nat -> Fault, t: nat, reply: Option<Reply>)
    requires id in b.drafts && Answered(b, b', SendDraft(id), Try(faults, t, MAX_ATTEMPTS), reply)
    ensures var f := FirstTelling(faults, t, MAX_ATTEMPTS);
      && b'.messages == (if f.Some? && Acts(f.value) then b.messages + [b.drafts[id]] else b.messages)
      && (reply.Some? <==> f == Some(Delivered))
  {
    hide Try, FirstTelling;
    var n := Try(faults, t, MAX_ATTEMPTS).handled;
    FirstAttemptTells(faults, t, MAX_ATTEMPTS);
    RefusedTheSecondTime(b, SendDraft(id), n);
    DraftCanBeSent(b, id);
  }

  // ---------- the client ----------

  class Client {
    const mailbox: Mailbox
    const faults: nat -> Fault
    var tick: nat

    constructor (mailbox: Mailbox, faults: nat -> Fault)
      ensures this.mailbox == mailbox && this.faults == faults && tick == 0
    {
      this.mailbox, this.faults, tick := mailbox, faults, 0;
    }

    /** Up to four attempts; a 429, a 5xx and a network error are retried, anything else is final. */
    method Do(r: Request) returns (reply: Option<Reply>)
      requires mailbox.Valid()
      modifies this, mailbox
      ensures mailbox.Valid()
      ensures tick == Try(faults, old(tick), MAX_ATTEMPTS).next
      ensures Answered(old(mailbox.Now()), mailbox.Now(), r, Try(faults, old(tick), MAX_ATTEMPTS), reply)
    {
      hide After, Accepts, Try, Served, ReplyTo, Fresh, DraftsFit, UploadsFit;
      ghost var was := mailbox.Now();
      ghost var n := 0;
      ServedNone(was, r);
      reply := None;
      TryOnce(faults, tick, MAX_ATTEMPTS);
      var attempt := 1;
      while attempt <= MAX_ATTEMPTS
        invariant 1 <= attempt <= MAX_ATTEMPTS + 1
        invariant mailbox.Valid() && mailbox.Now() == Served(was, r, n) && reply.None?
        invariant Try(faults, old(tick), MAX_ATTEMPTS) == More(Try(faults, tick, MAX_ATTEMPTS + 1 - attempt), n)
      {
        var fault := faults(tick);
        TryOnce(faults, tick, MAX_ATTEMPTS + 1 - attempt);
        TryOnce(faults, tick + 1, MAX_ATTEMPTS);
        tick := tick + 1;
        if fault == CancelledBefore || fault == Rejected {
          return;
        }
        if fault == Delivered || fault == ReplyLost || fault == CancelledAfter {
          ServedOnceMore(was, r, n);
          var answer := mailbox.Handle(r);
          n := n + 1;
          if fault == CancelledAfter {
            return;
          }
          if fault == Delivered {
            if answer.Accepted? {
              reply := Some(answer);
            }
            return;
          }
        }
        attempt := attempt + 1;
      }
    }

    method CreateDraft(m: Message) returns (id: Option<nat>)
      requires mailbox.Valid()
      modifies this, mailbox
      ensures mailbox.Valid() && mailbox.messages == old(mailbox.messages)
      ensures tick == Try(faults, old(tick), MAX_ATTEMPTS).next
      ensures id.Some? <==> Try(faults, old(tick), MAX_ATTEMPTS).delivered
      ensures id.Some? ==> id.value in mailbox.drafts && mailbox.drafts[id.value] == Mail(m.to, m.subject, m.body, [])
    {
      var r := Request.CreateDraft(m.to, m.subject, m.body);
      ghost var was := mailbox.Now();
      var reply := Do(r);
      RepeatedCreate(was, r, Try(faults, old(tick), MAX_ATTEMPTS).handled);
      hide After, Undisturbed;
      id := if reply.None? then None else Some(reply.value.id);
    }

    /** Under the floor. On success the draft has one copy of the file, and one more for every reply that got lost. */
    method AttachSmall(id: nat, f: File) returns (ok: bool, ghost copies: nat)
      requires mailbox.Valid() && id in mailbox.drafts && !Large(f)
      modifies this, mailbox
      ensures mailbox.Valid() && id in mailbox.drafts && mailbox.messages == old(mailbox.messages)
      ensures tick == Try(faults, old(tick), MAX_ATTEMPTS).next
      ensures ok <==> Try(faults, old(tick), MAX_ATTEMPTS).delivered && f.name != "" && f.bytes != []
      ensures ok ==>
        && copies == 1 + LostReplies(faults, old(tick), tick)
        && 1 <= copies <= MAX_ATTEMPTS
        && mailbox.drafts[id] == old(mailbox.drafts)[id].(
             attachments := old(mailbox.drafts)[id].attachments + Copies(AsAttachment(f), copies))
    {
      var r := AddAttachment(id, f.name, f.bytes);
      ghost var was := mailbox.Now();
      ghost var tried := Try(faults, tick, MAX_ATTEMPTS);
      var reply := Do(r);
      hide Try;
      copies := tried.handled;
      RepeatedAttachment(was, r, copies);
      if tried.delivered {
        RepeatedAttachment(was, r, copies - 1);
        AnsweredOnceMoreThanLost(faults, old(tick), MAX_ATTEMPTS);
      }
      ok := reply.Some?;
    }

    /** From the floor on. On success the draft has the file exactly once, put there in exactly the ranges of the
        partition. */
    method AttachLarge(id: nat, f: File) returns (ok: bool, ghost ranges: seq<(nat, nat)>)
      requires mailbox.Valid() && id in mailbox.drafts && Large(f)
      modifies this, mailbox
      ensures mailbox.Valid() && id in mailbox.drafts && mailbox.messages == old(mailbox.messages)
      ensures ok ==>
        && mailbox.drafts[id] == Attached(old(mailbox.drafts)[id], AsAttachment(f))
        && ranges == Ranges(0, |f.bytes|)
      ensures (forall t :: faults(t) == Delivered) ==> ok
    {
      hide After, Accepts, Served, InProgress, Fresh, Undisturbed, Attached, Zeros, Answered;
      ghost var was := mailbox.Now();
      ghost var draft := mailbox.drafts[id];
      var size := |f.bytes|;
      ranges := [];
      var r := CreateSession(id, f.name, size);
      SessionIsAccepted(was, r);
      ghost var tried := Try(faults, tick, MAX_ATTEMPTS);
      var reply := Do(r);
      AnsweredIsDone(was, mailbox.Now(), r, tried, reply);
      MailboxIsFresh(mailbox);
      SessionStarts(was, mailbox.Now(), r, tried.handled, reply, f);
      if reply.None? {
        return false, ranges;
      }
      var url := reply.value.id;
      var off := 0;
      while off < size
        invariant 0 <= off <= size
        invariant mailbox.Valid() && mailbox.messages == was.messages && id in mailbox.drafts
        invariant off < size ==> InProgress(mailbox.Now(), id, url, f, off, draft)
        invariant off == size ==> mailbox.drafts[id] == Attached(draft, AsAttachment(f))
        invariant ranges + Ranges(off, size) == Ranges(0, size)
      {
        var end := ChunkEnd(off, size);
        ok := PutRange(id, url, f, off, end, draft);
        if !ok {
          return;
        }
        assert ranges + Ranges(off, size) == (ranges + [(off, end)]) + Ranges(end, size);
        ranges := ranges + [(off, end)];
        off := end;
      }
      ok := true;
    }

    /** One PUT of the loop. */
    method PutRange(id: nat, url: nat, f: File, off: nat, end: nat, ghost draft: Mail) returns (ok: bool)
      requires mailbox.Valid() && InProgress(mailbox.Now(), id, url, f, off, draft)
      requires off < |f.bytes| && end == ChunkEnd(off, |f.bytes|)
      modifies this, mailbox
      ensures mailbox.Valid() && mailbox.messages == old(mailbox.messages) && id in mailbox.drafts
      ensures ok && end < |f.bytes| ==> InProgress(mailbox.Now(), id, url, f, end, draft)
      ensures ok && end == |f.bytes| ==> mailbox.drafts[id] == Attached(draft, AsAttachment(f))
      ensures (forall t :: faults(t) == Delivered) ==> ok
    {
      hide After, Accepts, Served, InProgress, Fresh, Attached, Answered, Try;
      ghost var before := mailbox.Now();
      var chunk := PutChunk(url, off, end - 1, |f.bytes|, f.bytes[off..end]);
      MailboxIsFresh(mailbox);
      ChunkIsAccepted(before, id, url, f, off, draft);
      ghost var tried := Try(faults, tick, MAX_ATTEMPTS);
      TriedOnce(faults, tick);
      var reply := Do(chunk);
      AnsweredIsDone(before, mailbox.Now(), chunk, tried, reply);
      ChunkDone(before, mailbox.Now(), id, url, f, off, draft, tried.handled, reply);
      ok := reply.Some?;
    }

    /** The draft gains `copies` of the file and nothing else anybody can see changes; on failure it is still unsent. */
    method Attach(id: nat, f: File) returns (ok: bool, ghost copies: nat)
      requires mailbox.Valid() && id in mailbox.drafts
      modifies this, mailbox
      ensures mailbox.Valid() && id in mailbox.drafts && mailbox.messages == old(mailbox.messages)
      ensures !Large(f) ==> tick == Try(faults, old(tick), MAX_ATTEMPTS).next
      ensures !Large(f) ==> (ok <==> Try(faults, old(tick), MAX_ATTEMPTS).delivered && f.name != "" && f.bytes != [])
      ensures ok ==> copies == CopiesMade(faults, f, old(tick), tick) && 1 <= copies <= MAX_ATTEMPTS
      ensures ok ==> mailbox.drafts[id] == old(mailbox.drafts)[id].(
        attachments := old(mailbox.drafts)[id].attachments + Copies(AsAttachment(f), copies))
      ensures (forall t :: faults(t) == Delivered) && f.name != "" && f.bytes != [] ==> ok
    {
      var size := |f.bytes|;
      if size < ATTACHMENT_FLOOR {
        ok, copies := AttachSmall(id, f);
      } else {
        ghost var ranges;
        ok, ranges := AttachLarge(id, f);
        copies := 1;
        assert Copies(AsAttachment(f), 1) == [AsAttachment(f)];
      }
    }

    /** One after the other, up to the first that fails. `marks` are the attempts at which each began, and at which the last
        one was done. */
    method AttachAll(id: nat, files: seq<File>) returns (ok: bool, ghost copies: seq<nat>, ghost marks: seq<nat>)
      requires mailbox.Valid() && id in mailbox.drafts && mailbox.drafts[id].attachments == []
      modifies this, mailbox
      ensures mailbox.Valid() && id in mailbox.drafts && mailbox.messages == old(mailbox.messages)
      ensures 0 < |marks| <= |files| + 1 && marks[0] == old(tick) && (ok <==> |marks| == |files| + 1)
      ensures MarksFit(files, faults, marks)
      ensures ok ==>
        && marks[|files|] == tick && CopiesFit(files, copies, faults, marks)
        && mailbox.drafts[id] == old(mailbox.drafts)[id].(attachments := Expand(files, copies))
      ensures (forall t :: faults(t) == Delivered) && (forall f :: f in files ==> f.name != "" && f.bytes != []) ==> ok
    {
      hide Try, CopiesMade, Copies, CopiesFit, MarksFit, Expand;
      var i := 0;
      copies, marks := [], [tick];
      NothingYet(files, faults, tick);
      while i < |files|
        invariant 0 <= i <= |files| && |copies| == i && |marks| == i + 1 && marks[0] == old(tick) && marks[i] == tick
        invariant mailbox.Valid() && mailbox.messages == old(mailbox.messages) && id in mailbox.drafts
        invariant CopiesFit(files[..i], copies, faults, marks) && MarksFit(files[..i], faults, marks)
        invariant mailbox.drafts[id] == old(mailbox.drafts)[id].(attachments := Expand(files[..i], copies))
      {
        ghost var more;
        ok, more := Attach(id, files[i]);
        if !ok {
          MarksFitAtFailure(files, faults, marks, i);
          return;
        }
        ExpandOneMore(files, copies, i, more);
        CopiesFitOneMore(files, copies, faults, marks, i, more, tick);
        MarksFitOneMore(files, faults, marks, i, tick);
        copies, marks := copies + [more], marks + [tick];
        i := i + 1;
      }
      assert files[..|files|] == files;
      ok := true;
    }

    /** `marks` are the attempts at which each attachment, and then SEND, began. Once SEND has begun, the mail goes out
        exactly if its first telling attempt reaches the mailbox, and success is reported exactly if that attempt is
        delivered. Before that nothing goes out and failure is reported. What goes out is complete. */
    method SendLarge(m: Message) returns (ok: bool, ghost marks: seq<nat>)
      requires mailbox.Valid()
      modifies this, mailbox
      ensures mailbox.Valid() && |marks| <= |m.files| + 1
      ensures |marks| <= |m.files| ==> !ok && mailbox.messages == old(mailbox.messages)
      ensures |marks| == |m.files| + 1 ==>
        var f := FirstTelling(faults, marks[|m.files|], MAX_ATTEMPTS);
        && (ok <==> f == Some(Delivered))
        && if f.Some? && Acts(f.value) then SentOnce(old(mailbox.messages), mailbox.messages, m, faults, marks)
           else mailbox.messages == old(mailbox.messages)
      ensures |marks| > 0 <==> Try(faults, old(tick), MAX_ATTEMPTS).delivered
      ensures |marks| > 0 ==> marks[0] == Try(faults, old(tick), MAX_ATTEMPTS).next
      ensures MarksFit(m.files, faults, marks)
      ensures (forall t :: faults(t) == Delivered) && (forall f :: f in m.files ==> f.name != "" && f.bytes != []) ==> ok
    {
      hide Try, FirstTelling, Answered, CopiesFit, Expand, MarksFit;
      var created := CreateDraft(m);
      AllDelivered(faults, old(tick));
      if created.None? {
        marks := [];
        NoMarks(m.files, faults);
        return false, marks;
      }
      var id := created.value;
      ghost var copies;
      ok, copies, marks := AttachAll(id, m.files);
      if !ok {
        return;
      }
      ghost var complete := mailbox.Now();
      var reply := Do(SendDraft(id));
      SendDone(complete, mailbox.Now(), id, faults, marks[|m.files|], reply);
      AllDelivered(faults, marks[|m.files|]);
      ok := reply.Some?;
    }
  }

  // ---------- two schedules ----------

  /** One small file, as big as a file that needs the upload path but no session can be. */
  predicate OneSmallFile(m: Message) {
    |m.files| == 1 && !Large(m.files[0]) && m.files[0].name != "" && m.files[0].bytes != []
  }

  function LostAt(n: nat): nat -> Fault {
    t => if t == n then ReplyLost else Delivered
  }

  lemma TriesAt(n: nat, t: nat)
    ensures t != n ==> Try(LostAt(n), t, MAX_ATTEMPTS) == Tried(1, true, t + 1)
    ensures Try(LostAt(n), n, MAX_ATTEMPTS) == Tried(2, true, n + 2)
    ensures t != n ==> FirstTelling(LostAt(n), t, MAX_ATTEMPTS) == Some(Delivered)
    ensures FirstTelling(LostAt(n), n, MAX_ATTEMPTS) == Some(ReplyLost)
  {
    assert Try(LostAt(n), n, MAX_ATTEMPTS) == More(Try(LostAt(n), n + 1, MAX_ATTEMPTS - 1), 1);
  }

  lemma MarksOfOneFile(m: Message, faults: nat -> Fault, marks: seq<nat>)
    requires OneSmallFile(m) && MarksFit(m.files, faults, marks) && 0 < |marks| <= 2
    requires Try(faults, marks[0], MAX_ATTEMPTS).delivered
    ensures |marks| == 2 && marks[1] == Try(faults, marks[0], MAX_ATTEMPTS).next
  {
    hide Try;
    assert MarkFits(m.files[0], faults, marks, 0);
  }

  /** Draft, file, SEND with its reply lost, SEND again and refused: the mail is out and the sender is told it failed. */
  method FailedThoughSent(m: Message) returns (ok: bool, mailbox: Mailbox, ghost marks: seq<nat>)
    requires OneSmallFile(m)
    ensures !ok && fresh(mailbox) && SentOnce([], mailbox.messages, m, LostAt(2), marks)
  {
    hide Try, FirstTelling, SentOnce, MarksFit;
    mailbox := new Mailbox();
    var client := new Client(mailbox, LostAt(2));
    TriesAt(2, 0);
    TriesAt(2, 1);
    TriesAt(2, 2);
    ok, marks := client.SendLarge(m);
    MarksOfOneFile(m, LostAt(2), marks);
    assert marks[|m.files|] == 2;
  }

  /** Draft, file with its reply lost, file again, SEND: success, and the recipients get the file twice. */
  method TwoCopiesArrive(m: Message) returns (ok: bool, mailbox: Mailbox)
    requires OneSmallFile(m)
    ensures ok && fresh(mailbox)
    ensures var a := AsAttachment(m.files[0]); mailbox.messages == [Mail(m.to, m.subject, m.body, [a, a])]
  {
    hide Try, FirstTelling, MarksFit;
    mailbox := new Mailbox();
    var client := new Client(mailbox, LostAt(1));
    ghost var marks;
    TriesAt(1, 0);
    TriesAt(1, 1);
    TriesAt(1, 3);
    ok, marks := client.SendLarge(m);
    MarksOfOneFile(m, LostAt(1), marks);
    assert marks == [1, 3];
    ghost var copies :|
      CopiesFit(m.files, copies, LostAt(1), marks) && mailbox.messages[0].attachments == Expand(m.files, copies);
    assert LostReplies(LostAt(1), 1, 3) == 1;
    assert copies == [2];
    assert m.files[..0] == [] && copies[..0] == [];
    ghost var a := AsAttachment(m.files[0]);
    assert Copies(a, 2) == [a, a];
    assert Expand(m.files, copies) == Expand([], []) + Copies(a, 2);
    assert Expand(m.files, copies) == [a, a];
    assert mailbox.messages[0] == Mail(m.to, m.subject, m.body, [a, a]);
    assert mailbox.messages == [mailbox.messages[0]];
  }
}
