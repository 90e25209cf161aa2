/** What Extract's verdict says about the message: the three limits, the PDFs, and when nothing was attached. */
module MimeVerdict {
  import opened MimeTree
  import opened MimeScan

  // ---------- the tree, said without a walk ----------

  function Height(node: Node): nat {
    if node.Multi? && node.parts != [] then 1 + MaxHeight(node.parts) else 0
  }

  function MaxHeight(parts: seq<Node>): nat {
    if parts == [] then 0
    else
      var rest := MaxHeight(parts[1..]);
      if Height(parts[0]) > rest then Height(parts[0]) else rest
  }

  /** How many parts the tree has below its root. */
  function Size(node: Node): nat
    decreases node, 0
  {
    if node.Multi? then PartsSize(node.parts) else 0
  }

  function PartsSize(parts: seq<Node>): nat
    decreases parts
  {
    if parts == [] then 0 else 1 + Size(parts[0]) + PartsSize(parts[1..])
  }

  function Leaves(node: Node): (ls: seq<Node>)
    ensures forall l :: l in ls ==> l.Leaf?
    decreases node, 0
  {
    match node
    case Leaf(_, _, _, _, _, _) => [node]
    case Sealed(_) => []
    case Multi(_, parts, _) => PartsLeaves(parts)
  }

  function PartsLeaves(parts: seq<Node>): (ls: seq<Node>)
    ensures forall l :: l in ls ==> l.Leaf?
    decreases parts
  {
    if parts == [] then [] else Leaves(parts[0]) + PartsLeaves(parts[1..])
  }

  /** Some header or container in the tree could not be understood. */
  predicate Doubtful(node: Node)
    decreases node, 0
  {
    node.badType || node.Sealed? || (node.Multi? && (!node.cleanEnd || node.parts == [] || AnyDoubtful(node.parts)))
  }

  predicate AnyDoubtful(parts: seq<Node>)
    decreases parts
  {
    parts != [] && (Doubtful(parts[0]) || AnyDoubtful(parts[1..]))
  }

  function PdfsAmong(ls: seq<Node>): (r: seq<Node>)
    requires forall l :: l in ls ==> l.Leaf?
    ensures forall l :: l in r ==> l.Leaf?
  {
    if ls == [] then []
    else PdfsAmong(ls[..|ls| - 1]) + if IsPdf(ls[|ls| - 1]) then [ls[|ls| - 1]] else []
  }

  /** One more claim to be a PDF after sixteen that were. */
  predicate TooManyPdfs(ls: seq<Node>)
    requires forall l :: l in ls ==> l.Leaf?
  {
    exists j :: 0 <= j < |ls| && OneTooMany(ls, j)
  }

  predicate OneTooMany(ls: seq<Node>, j: nat)
    requires forall l :: l in ls ==> l.Leaf?
    requires j < |ls|
  {
    Claims(ls[j]) && |PdfsAmong(ls[..j])| >= MAX_PDFS
  }

  // ---------- the flattened tree ----------

  function PartCount(evs: seq<Event>): nat {
    if evs == [] then 0 else PartCount(evs[..|evs| - 1]) + if evs[|evs| - 1].PartStarts? then 1 else 0
  }

  function LeavesRead(evs: seq<Event>): (ls: seq<Node>)
    requires AllLeaves(evs)
    ensures forall l :: l in ls ==> l.Leaf?
  {
    if evs == [] then []
    else LeavesRead(evs[..|evs| - 1]) + if evs[|evs| - 1].Reads? then [evs[|evs| - 1].leaf] else []
  }

  lemma {:induction false} PartCountAdds(a: seq<Event>, b: seq<Event>)
    ensures PartCount(a + b) == PartCount(a) + PartCount(b)
  {
    if b == [] {
      assert a + b == a;
    } else {
      PartCountAdds(a, b[..|b| - 1]);
      assert (a + b)[..|a + b| - 1] == a + b[..|b| - 1];
    }
  }

  lemma {:induction false} LeavesReadAdds(a: seq<Event>, b: seq<Event>)
    requires AllLeaves(a) && AllLeaves(b)
    ensures LeavesRead(a + b) == LeavesRead(a) + LeavesRead(b)
  {
    if b == [] {
      assert a + b == a;
    } else {
      LeavesReadAdds(a, b[..|b| - 1]);
      assert (a + b)[..|a + b| - 1] == a + b[..|b| - 1];
    }
  }

  // ---------- the walk sees the tree ----------

  lemma {:induction false} NestedMeansTooHigh(node: Node, depth: nat)
    ensures Nested in Events(node, depth) <==> depth + Height(node) > MAX_DEPTH
    decreases node, 0
  {
    if depth <= MAX_DEPTH && node.Multi? {
      NestedParts(node.parts, depth + 1);
    }
  }

  lemma {:induction false} NestedParts(parts: seq<Node>, depth: nat)
    ensures Nested in PartEvents(parts, depth) <==> parts != [] && depth + MaxHeight(parts) > MAX_DEPTH
    decreases parts
  {
    if parts != [] {
      NestedMeansTooHigh(parts[0], depth);
      NestedParts(parts[1..], depth);
    }
  }

  lemma {:induction false} WalkSeesTheTree(node: Node, depth: nat)
    requires depth + Height(node) <= MAX_DEPTH
    ensures PartCount(Events(node, depth)) == Size(node)
    ensures LeavesRead(Events(node, depth)) == Leaves(node)
    ensures Unclear in Events(node, depth) <==> Doubtful(node)
    decreases node, 0
  {
    hide PartCount, LeavesRead;
    DoubtIsNothing(node.badType);
    PartCountAdds(Doubt(node.badType), Inside(node, depth));
    LeavesReadAdds(Doubt(node.badType), Inside(node, depth));
    match node
    case Leaf(_, _, _, _, _, _) => OneEvent(Reads(node));
    case Sealed(_) => OneEvent(Unclear);
    case Multi(_, parts, cleanEnd) =>
      WalkSeesTheParts(parts, depth + 1);
      DoubtIsNothing(!cleanEnd || parts == []);
      PartCountAdds(PartEvents(parts, depth + 1), Doubt(!cleanEnd || parts == []));
      LeavesReadAdds(PartEvents(parts, depth + 1), Doubt(!cleanEnd || parts == []));
  }

  lemma {:induction false} WalkSeesTheParts(parts: seq<Node>, depth: nat)
    requires parts != [] ==> depth + MaxHeight(parts) <= MAX_DEPTH
    ensures PartCount(PartEvents(parts, depth)) == PartsSize(parts)
    ensures LeavesRead(PartEvents(parts, depth)) == PartsLeaves(parts)
    ensures Unclear in PartEvents(parts, depth) <==> AnyDoubtful(parts)
    decreases parts
  {
    hide PartCount, LeavesRead, Events, Size, Leaves, Doubtful, Height;
    if parts == [] {
      NoEvents();
    } else {
      var first, rest := Events(parts[0], depth), PartEvents(parts[1..], depth);
      WalkSeesTheTree(parts[0], depth);
      WalkSeesTheParts(parts[1..], depth);
      OneEvent(PartStarts);
      PartCountAdds([PartStarts], first);
      PartCountAdds([PartStarts] + first, rest);
      LeavesReadAdds([PartStarts], first);
      LeavesReadAdds([PartStarts] + first, rest);
    }
  }

  lemma NoEvents()
    ensures PartCount([]) == 0 && LeavesRead([]) == []
  {
  }

  lemma OneEvent(e: Event)
    requires e.Reads? ==> e.leaf.Leaf?
    ensures PartCount([e]) == if e.PartStarts? then 1 else 0
    ensures LeavesRead([e]) == if e.Reads? then [e.leaf] else []
  {
    assert [e][..0] == [];
  }

  lemma DoubtIsNothing(doubtful: bool)
    ensures PartCount(Doubt(doubtful)) == 0 && LeavesRead(Doubt(doubtful)) == []
  {
    OneEvent(Unclear);
  }

  // ---------- the fold, without storage faults ----------

  ghost predicate Faultless(faults: nat -> Fault) {
    forall n :: faults(n) == NoFault
  }

  ghost predicate Stopped(evs: seq<Event>)
    requires AllLeaves(evs)
  {
    Nested in evs || PartCount(evs) > MAX_PARTS || TooManyPdfs(LeavesRead(evs))
  }

  ghost predicate NothingAttached(evs: seq<Event>)
    requires AllLeaves(evs)
  {
    Unclear !in evs && forall l :: l in LeavesRead(evs) ==> !LooksAttached(l)
  }

  ghost predicate Matches(pdfs: seq<Pdf>, ls: seq<Node>)
    requires forall l :: l in ls ==> l.Leaf?
  {
    |pdfs| == |ls| && forall i :: 0 <= i < |pdfs| ==> pdfs[i].name == ls[i].name && pdfs[i].data == ls[i].data
  }

  lemma RunSnoc(faults: nat -> Fault, p: Progress, evs: seq<Event>)
    requires AllLeaves(evs) && evs != []
    ensures var o := Run(faults, p, evs[..|evs| - 1]);
      Run(faults, p, evs) == if o.err.Some? then o else Step(faults, o.now, evs[|evs| - 1])
  {
    var init := evs[..|evs| - 1];
    assert evs == init + [evs[|evs| - 1]];
    RunInTwo(faults, p, init, [evs[|evs| - 1]]);
    RunOne(faults, Run(faults, p, init).now, evs[|evs| - 1]);
  }

  lemma OneMoreLeaf(ls: seq<Node>, l: Node)
    requires l.Leaf? && forall x :: x in ls ==> x.Leaf?
    ensures TooManyPdfs(ls + [l]) <==> TooManyPdfs(ls) || (Claims(l) && |PdfsAmong(ls)| >= MAX_PDFS)
    ensures PdfsAmong(ls + [l]) == PdfsAmong(ls) + if IsPdf(l) then [l] else []
  {
    hide Claims, IsPdf;
    var all := ls + [l];
    assert all[..|ls|] == ls;
    assert forall j :: 0 <= j <= |ls| ==> all[..j] == ls[..j];
    if TooManyPdfs(all) {
      var j :| 0 <= j < |all| && OneTooMany(all, j);
      if j < |ls| {
        assert OneTooMany(ls, j);
      }
    }
    if TooManyPdfs(ls) {
      var j :| 0 <= j < |ls| && OneTooMany(ls, j);
      assert OneTooMany(all, j);
    }
    if Claims(l) && |PdfsAmong(ls)| >= MAX_PDFS {
      assert OneTooMany(all, |ls|);
    }
  }

  lemma OneMoreEvent(evs: seq<Event>)
    requires AllLeaves(evs) && evs != []
    ensures var e := evs[|evs| - 1]; var init := evs[..|evs| - 1];
      && (Stopped(evs) <==>
            || Stopped(init) || e.Nested? || (e.PartStarts? && PartCount(init) == MAX_PARTS)
            || (e.Reads? && Claims(e.leaf) && |PdfsAmong(LeavesRead(init))| >= MAX_PDFS))
      && (NothingAttached(evs) <==> NothingAttached(init) && !e.Unclear? && (e.Reads? ==> !LooksAttached(e.leaf)))
      && PdfsAmong(LeavesRead(evs)) == PdfsAmong(LeavesRead(init)) + if e.Reads? && IsPdf(e.leaf) then [e.leaf] else []
  {
    hide Claims, IsPdf, LooksAttached, TooManyPdfs, PdfsAmong;
    var e := evs[|evs| - 1];
    var init := evs[..|evs| - 1];
    assert evs == init + [e];
    assert Nested in evs <==> Nested in init || e.Nested?;
    assert Unclear in evs <==> Unclear in init || e.Unclear?;
    if e.Reads? {
      OneMoreLeaf(LeavesRead(init), e.leaf);
    } else {
      assert LeavesRead(evs) == LeavesRead(init);
    }
  }

  /** Without storage faults the walk fails exactly when one of the three limits is passed somewhere, and otherwise has
      kept every PDF in reading order. */
  lemma {:induction false} FaultlessRun(faults: nat -> Fault, evs: seq<Event>)
    requires Faultless(faults) && AllLeaves(evs)
    ensures var o := Run(faults, START, evs);
      if Stopped(evs) then o.err == Some(TooComplex)
      else
        && o.err == None && o.now.parts == PartCount(evs)
        && Matches(o.now.pdfs, PdfsAmong(LeavesRead(evs))) && (o.now.plainText <==> NothingAttached(evs))
    decreases evs
  {
    hide Contains, Tail, Claims, LooksAttached;
    if evs == [] {
    } else {
      RunSnoc(faults, START, evs);
      OneMoreEvent(evs);
      FaultlessRun(faults, evs[..|evs| - 1]);
      hide Stopped, NothingAttached, LeavesRead, PdfsAmong;
      if !Stopped(evs[..|evs| - 1]) {
        FaultlessStep(faults, Run(faults, START, evs[..|evs| - 1]).now, evs);
      }
    }
  }

  lemma FaultlessStep(faults: nat -> Fault, p: Progress, evs: seq<Event>)
    requires Faultless(faults) && AllLeaves(evs) && evs != []
    requires var init := evs[..|evs| - 1];
      !Stopped(init) && p.parts == PartCount(init) && Matches(p.pdfs, PdfsAmong(LeavesRead(init)))
      && (p.plainText <==> NothingAttached(init))
    ensures var o := Step(faults, p, evs[|evs| - 1]);
      if Stopped(evs) then o.err == Some(TooComplex)
      else
        && o.err == None && o.now.parts == PartCount(evs)
        && Matches(o.now.pdfs, PdfsAmong(LeavesRead(evs))) && (o.now.plainText <==> NothingAttached(evs))
  {
    hide Contains, Tail, LooksAttached, TooManyPdfs, LeavesRead, PdfsAmong, NothingAttached;
    OneMoreEvent(evs);
    assert PartCount(evs[..|evs| - 1]) <= MAX_PARTS;
    assert PartCount(evs) == PartCount(evs[..|evs| - 1]) + if evs[|evs| - 1].PartStarts? then 1 else 0;
    hide Stopped, PartCount;
  }

  // ---------- with any faults ----------

  lemma {:induction false} FaultsNeedClaims(f: nat -> Fault, g: nat -> Fault, p: Progress, evs: seq<Event>)
    requires AllLeaves(evs) && forall i :: 0 <= i < |evs| && evs[i].Reads? ==> !Claims(evs[i].leaf)
    ensures Run(f, p, evs) == Run(g, p, evs)
    decreases evs
  {
    hide Claims, LooksAttached;
    if evs != [] {
      var first := Step(f, p, evs[0]);
      if first.err.None? {
        FaultsNeedClaims(f, g, first.now, evs[1..]);
      }
    }
  }

  ghost predicate PlainOk(o: Outcome, evs: seq<Event>)
    requires AllLeaves(evs)
  {
    && (o.err.None? ==> (o.now.plainText <==> NothingAttached(evs)))
    && (o.now.pdfs != [] ==> !o.now.plainText)
  }

  lemma StoreKeepsPlainText(faults: nat -> Fault, p: Progress, l: Node)
    requires l.Leaf?
    ensures Store(faults, p, l).now.plainText == p.plainText
  {
  }

  lemma PlainStep(faults: nat -> Fault, p: Progress, e: Event)
    requires (e.Reads? ==> e.leaf.Leaf?) && (p.pdfs != [] ==> !p.plainText)
    ensures var o := Step(faults, p, e);
      && (o.err.None? ==> (o.now.plainText <==> p.plainText && !e.Unclear? && (e.Reads? ==> !LooksAttached(e.leaf))))
      && (o.now.pdfs != [] ==> !o.now.plainText)
  {
    hide Store, Unreadable;
    if e.Reads? {
      StoreKeepsPlainText(faults, p.(plainText := false), e.leaf);
    }
  }

  lemma {:induction false} PlainTextMeansNothingAttached(faults: nat -> Fault, evs: seq<Event>)
    requires AllLeaves(evs)
    ensures PlainOk(Run(faults, START, evs), evs)
    decreases evs
  {
    hide Step, Store, LooksAttached, Claims, LeavesRead, Stopped;
    if evs == [] {
      EmptyPlain(faults);
    } else {
      PlainTextMeansNothingAttached(faults, evs[..|evs| - 1]);
      hide NothingAttached, Run;
      RunSnoc(faults, START, evs);
      OneMoreEvent(evs);
      PlainStep(faults, Run(faults, START, evs[..|evs| - 1]).now, evs[|evs| - 1]);
    }
  }

  lemma EmptyPlain(faults: nat -> Fault)
    ensures PlainOk(Run(faults, START, []), [])
  {
  }

  lemma {:induction false} ReadLeavesAreEvents(evs: seq<Event>)
    requires AllLeaves(evs)
    ensures forall l :: l in LeavesRead(evs) <==> Reads(l) in evs
    decreases evs
  {
    if evs == [] {
    } else {
      ReadLeavesAreEvents(evs[..|evs| - 1]);
      assert evs == evs[..|evs| - 1] + [evs[|evs| - 1]];
    }
  }

  lemma QuietEventsClaimNothing(evs: seq<Event>)
    requires AllLeaves(evs) && NothingAttached(evs)
    ensures forall i :: 0 <= i < |evs| && evs[i].Reads? ==> !Claims(evs[i].leaf)
  {
    hide MAGIC;
    ReadLeavesAreEvents(evs);
    forall i | 0 <= i < |evs| && evs[i].Reads? ensures !Claims(evs[i].leaf) {
      assert evs[i] == Reads(evs[i].leaf);
      assert evs[i].leaf in LeavesRead(evs);
    }
  }

  // ---------- the verdict ----------

  ghost predicate PassesALimit(node: Node) {
    Height(node) > MAX_DEPTH || Size(node) > MAX_PARTS || TooManyPdfs(Leaves(node))
  }

  ghost predicate Empty(node: Node) {
    !Doubtful(node) && forall l :: l in Leaves(node) ==> !LooksAttached(l)
  }

  lemma TreeAndEvents(node: Node)
    ensures Stopped(Events(node, 0)) <==> PassesALimit(node)
    ensures Height(node) <= MAX_DEPTH ==>
      && LeavesRead(Events(node, 0)) == Leaves(node) && (NothingAttached(Events(node, 0)) <==> Empty(node))
      && PartCount(Events(node, 0)) == Size(node)
  {
    hide TooManyPdfs, LooksAttached, PartCount, LeavesRead, Leaves, Events;
    NestedMeansTooHigh(node, 0);
    if Height(node) <= MAX_DEPTH {
      WalkSeesTheTree(node, 0);
    }
  }

  /** Where storage works: "too complex" exactly when the message is more than ten levels deep, has more than a hundred
      parts, or has something that claims to be a PDF after sixteen that were one; otherwise exactly its PDFs, in order
      and byte for byte; and with none, "no attachments" exactly when nothing about it was in doubt or looked
      attached. */
  lemma VerdictWithoutFaults(faults: nat -> Fault, node: Node)
    requires Faultless(faults)
    ensures var v := VerdictOf(faults, Some(node)); var found := PdfsAmong(Leaves(node));
      if PassesALimit(node) then v == Failed(TooComplex)
      else if found != [] then v.Extracted? && Matches(v.pdfs, found)
      else v == if Empty(node) then NoAttachments else NoPdf
  {
    hide TooManyPdfs, LooksAttached, PartCount, LeavesRead, Leaves, Events, Run, PdfsAmong;
    FaultlessRun(faults, Events(node, 0));
    TreeAndEvents(node);
    hide Stopped, PassesALimit, NothingAttached, Empty;
    if !PassesALimit(node) {
      LimitsKeepHeight(node);
    }
  }

  lemma LimitsKeepHeight(node: Node)
    requires !PassesALimit(node)
    ensures Height(node) <= MAX_DEPTH
  {
  }

  /** Whatever storage does: a message is accepted and dropped exactly when it is within the structural limits, every
      header and container in it was understood, and no leaf names a file, is declared as one, is not text, or begins
      like a PDF. */
  lemma NothingAttachedExactly(faults: nat -> Fault, node: Node)
    ensures VerdictOf(faults, Some(node)) == NoAttachments <==>
      Height(node) <= MAX_DEPTH && Size(node) <= MAX_PARTS && Empty(node)
  {
    hide TooManyPdfs, LooksAttached, PartCount, LeavesRead, Leaves, Events, Run, Claims;
    var evs := Events(node, 0);
    var calm := n => NoFault;
    PlainTextMeansNothingAttached(faults, evs);
    TreeAndEvents(node);
    FaultlessRun(calm, evs);
    NestedMeansTooHigh(node, 0);
    if NothingAttached(evs) {
      QuietEventsClaimNothing(evs);
      FaultsNeedClaims(faults, calm, START, evs);
      QuietLeaves(evs);
    }
  }

  lemma QuietLeaves(evs: seq<Event>)
    requires AllLeaves(evs) && NothingAttached(evs)
    ensures !TooManyPdfs(LeavesRead(evs))
  {
    hide PdfsAmong, LeavesRead;
    var ls := LeavesRead(evs);
    forall j | 0 <= j < |ls| ensures !OneTooMany(ls, j) {
      assert ls[j] in ls;
    }
  }

  // ---------- files ----------

  /** The files on disk are those of the PDFs found so far, under distinct names, with their bytes. */
  ghost predicate Tidy(p: Progress) {
    Stored(p) && NoStray(p)
  }

  ghost predicate Stored(p: Progress) {
    && (forall i :: 0 <= i < |p.pdfs| ==>
          p.pdfs[i].file in p.files && p.files[p.pdfs[i].file] == p.pdfs[i].data && p.pdfs[i].file < p.created)
    && (forall i, j :: 0 <= i < j < |p.pdfs| ==> p.pdfs[i].file != p.pdfs[j].file)
  }

  ghost predicate NoStray(p: Progress) {
    forall f :: f in p.files ==> exists i :: 0 <= i < |p.pdfs| && p.pdfs[i].file == f
  }

  lemma {:induction false} WalkIsTidy(faults: nat -> Fault, p: Progress, evs: seq<Event>)
    requires AllLeaves(evs) && Tidy(p)
    ensures Tidy(Run(faults, p, evs).now)
    decreases evs
  {
    hide Claims, LooksAttached, IsPdf;
    if evs != [] {
      StepIsTidy(faults, p, evs[0]);
      hide Step, Tidy;
      if Step(faults, p, evs[0]).err.None? {
        WalkIsTidy(faults, Step(faults, p, evs[0]).now, evs[1..]);
      }
    }
  }

  lemma StepIsTidy(faults: nat -> Fault, p: Progress, e: Event)
    requires (e.Reads? ==> e.leaf.Leaf?) && Tidy(p)
    ensures Tidy(Step(faults, p, e).now)
  {
    hide Claims, LooksAttached, Store;
    if e.Reads? {
      StoreIsTidy(faults, p, e.leaf);
      StoreIsTidy(faults, p.(plainText := false), e.leaf);
    }
  }

  lemma StoreIsTidy(faults: nat -> Fault, p: Progress, l: Node)
    requires l.Leaf? && Tidy(p)
    ensures Tidy(Store(faults, p, l).now)
  {
    hide IsPdf;
    if faults(p.created) == NoFault && IsPdf(l) {
      KeepingIsTidy(p, Pdf(l.name, p.created, l.data));
    }
  }

  function Keeping(p: Progress, pdf: Pdf): Progress {
    p.(created := p.created + 1, pdfs := p.pdfs + [pdf], files := p.files[p.created := pdf.data])
  }

  lemma KeepingIsTidy(p: Progress, pdf: Pdf)
    requires Tidy(p) && pdf.file == p.created
    ensures Tidy(Keeping(p, pdf))
  {
    hide Stored, NoStray, Keeping;
    KeepingIsStored(p, pdf);
    KeepingLeavesNoStray(p, pdf);
  }

  lemma KeepingIsStored(p: Progress, pdf: Pdf)
    requires Stored(p) && pdf.file == p.created
    ensures Stored(Keeping(p, pdf))
  {
  }

  lemma KeepingLeavesNoStray(p: Progress, pdf: Pdf)
    requires NoStray(p) && pdf.file == p.created
    ensures NoStray(Keeping(p, pdf))
  {
    var q := Keeping(p, pdf);
    forall f | f in q.files ensures exists i :: 0 <= i < |q.pdfs| && q.pdfs[i].file == f {
      if f == p.created {
        assert q.pdfs[|p.pdfs|].file == f;
      } else {
        var i :| 0 <= i < |p.pdfs| && p.pdfs[i].file == f;
        assert q.pdfs[i].file == f;
      }
    }
  }

  /** Whatever storage does: the files left behind are exactly those of the returned PDFs, each with its part's bytes;
      after any error, and for a message with no PDF, there are none. */
  lemma SurvivorsAreTheReturnedPdfs(faults: nat -> Fault, message: Option<Node>)
    ensures var v := VerdictOf(faults, message); var files := SurvivorsOf(faults, message);
      if v.Extracted? then
        && (forall f :: f in files <==> exists i :: 0 <= i < |v.pdfs| && v.pdfs[i].file == f)
        && (forall i :: 0 <= i < |v.pdfs| ==> v.pdfs[i].file in files && files[v.pdfs[i].file] == v.pdfs[i].data)
        && (forall i, j :: 0 <= i < j < |v.pdfs| ==> v.pdfs[i].file != v.pdfs[j].file)
      else files == map[]
  {
    hide Run, Events;
    if message.Some? {
      WalkIsTidy(faults, START, Events(message.value, 0));
    }
  }

  predicate ReadToItsEnd(node: Node) {
    forall l :: l in Leaves(node) ==> l.end == Clean
  }

  /** The comment on ErrNoAttachments promises it only for a message "understood completely"
      (internal/mimescan/mimescan.go:48-53). That holds exactly for the messages that are not called empty in the first
      place, or whose every leaf decodes to its clean end. */
  lemma UnderstoodExactly(faults: nat -> Fault, node: Node)
    ensures (VerdictOf(faults, Some(node)) == NoAttachments ==> ReadToItsEnd(node)) <==>
      Height(node) > MAX_DEPTH || Size(node) > MAX_PARTS || !Empty(node) || ReadToItsEnd(node)
  {
    NothingAttachedExactly(faults, node);
    hide VerdictOf, Height, Size, Empty, Leaves;
  }

  /** And it does fail, wherever the decoding breaks: any data that does not begin like a PDF, under silent headers. */
  lemma BrokenLeafPassesForText(faults: nat -> Fault, data: seq<Byte>, end: End)
    requires !(MAGIC <= data) && end != Clean
    ensures var node := Leaf(false, "", false, false, data, end);
      VerdictOf(faults, Some(node)) == NoAttachments && !ReadToItsEnd(node)
  {
    var node := Leaf(false, "", false, false, data, end);
    assert !HasMagic(node);
    assert node in Leaves(node);
    NothingAttachedExactly(faults, node);
    hide VerdictOf;
  }
}
