/** What mimescan makes of a message, as a fold over its MIME tree flattened in reading order
    (multipart as in section 5.1.1 of RFC 2046). */
module MimeTree {

  type Byte = bv8

  datatype Option<+T> = None | Some(value: T)

  /** How a part's decoded bytes end: cleanly, cut short (io.ErrUnexpectedEOF), or in any other error. */
  datatype End = Clean | Truncated | Broken

  /** A part as mime and net/mail present it. `badType`: a Content-Type was sent and did not parse. A multipart without a
      boundary is `Sealed`. `cleanEnd`: the closing boundary was reached. */
  datatype Node =
    | Leaf(badType: bool, name: string, disposition: bool, nonText: bool, data: seq<Byte>, end: End)
    | Sealed(badType: bool)
    | Multi(badType: bool, parts: seq<Node>, cleanEnd: bool)

  datatype Error = TooComplex | Storage

  /** What may go wrong with the n-th file this extraction creates. */
  datatype Fault = NoFault | CreateFails | WriteFails | ReadBackFails | CloseFails

  datatype Pdf = Pdf(name: string, file: nat, data: seq<Byte>)

  const MAX_PARTS := 100
  const MAX_DEPTH := 10
  const MAX_PDFS := 16
  const HEAD_BYTES := 1024
  const TAIL_BYTES := 4096
  const MAGIC: seq<Byte> := [0x25, 0x50, 0x44, 0x46, 0x2D]
  const MARKER: seq<Byte> := [0x25, 0x25, 0x45, 0x4F, 0x46]

  // ---------- one leaf ----------

  predicate HasMagic(l: Node)
    requires l.Leaf?
  {
    MAGIC <= l.data
  }

  /** Reading the head ended in an error that is not the end of the data. */
  predicate Unreadable(l: Node)
    requires l.Leaf?
  {
    l.end == Broken && |l.data| < HEAD_BYTES
  }

  predicate OccursAt(hay: seq<Byte>, needle: seq<Byte>, i: nat) {
    i + |needle| <= |hay| && hay[i..i + |needle|] == needle
  }

  predicate Contains(hay: seq<Byte>, needle: seq<Byte>) {
    exists i :: 0 <= i <= |hay| && OccursAt(hay, needle, i)
  }

  function Tail(data: seq<Byte>): seq<Byte> {
    if |data| <= TAIL_BYTES then data else data[|data| - TAIL_BYTES..]
  }

  /** A document worth a file: it can be read far enough, and starts like a PDF. */
  predicate Claims(l: Node)
    requires l.Leaf?
  {
    HasMagic(l) && !Unreadable(l)
  }

  /** A PDF attachment: complete, with both markers where they belong. */
  predicate IsPdf(l: Node)
    requires l.Leaf?
  {
    HasMagic(l) && l.end == Clean && Contains(Tail(l.data), MARKER)
  }

  /** Names a file, is declared as one, is not text, or reads like a document. */
  predicate LooksAttached(l: Node)
    requires l.Leaf?
  {
    l.name != "" || l.disposition || l.nonText || HasMagic(l)
  }

  // ---------- the tree, in reading order ----------

  datatype Event = PartStarts | Nested | Unclear | Reads(leaf: Node)

  predicate AllLeaves(evs: seq<Event>) {
    forall i :: 0 <= i < |evs| && evs[i].Reads? ==> evs[i].leaf.Leaf?
  }

  function Doubt(doubtful: bool): seq<Event> {
    if doubtful then [Unclear] else []
  }

  /** Everything the walk comes across from `node` on, if nothing stops it. */
  function Events(node: Node, depth: nat): (evs: seq<Event>)
    ensures AllLeaves(evs)
    decreases node, 1
  {
    if depth > MAX_DEPTH then [Nested] else Doubt(node.badType) + Inside(node, depth)
  }

  function Inside(node: Node, depth: nat): (evs: seq<Event>)
    ensures AllLeaves(evs)
    decreases node, 0
  {
    match node
    case Leaf(_, _, _, _, _, _) => [Reads(node)]
    case Sealed(_) => [Unclear]
    case Multi(_, parts, cleanEnd) => PartEvents(parts, depth + 1) + Doubt(!cleanEnd || parts == [])
  }

  function PartEvents(parts: seq<Node>, depth: nat): (evs: seq<Event>)
    ensures AllLeaves(evs)
    decreases parts
  {
    if parts == [] then [] else [PartStarts] + Events(parts[0], depth) + PartEvents(parts[1..], depth)
  }

  // ---------- the walk's state ----------

  datatype Progress = Progress(
    parts: nat, plainText: bool, pdfs: seq<Pdf>, created: nat, files: map<nat, seq<Byte>>)

  datatype Outcome = Outcome(now: Progress, err: Option<Error>)

  /** Storing a part that claims to be a PDF. */
  function Store(faults: nat -> Fault, p: Progress, l: Node): Outcome
    requires l.Leaf?
  {
    match faults(p.created)
    case CreateFails => Outcome(p.(created := p.created + 1), Some(Storage))
    case WriteFails => Outcome(p.(created := p.created + 1), Some(Storage))
    case CloseFails => Outcome(p.(created := p.created + 1), Some(Storage))
    case ReadBackFails => Outcome(p.(created := p.created + 1), None)
    case NoFault =>
      if IsPdf(l) then
        Outcome(p.(created := p.created + 1, pdfs := p.pdfs + [Pdf(l.name, p.created, l.data)],
                   files := p.files[p.created := l.data]), None)
      else Outcome(p.(created := p.created + 1), None)
  }

  function Step(faults: nat -> Fault, p: Progress, e: Event): Outcome
    requires e.Reads? ==> e.leaf.Leaf?
  {
    match e
    case PartStarts =>
      Outcome(p.(parts := p.parts + 1), if p.parts + 1 > MAX_PARTS then Some(TooComplex) else None)
    case Nested => Outcome(p, Some(TooComplex))
    case Unclear => Outcome(p.(plainText := false), None)
    case Reads(l) =>
      var p' := if LooksAttached(l) then p.(plainText := false) else p;
      if !Claims(l) then Outcome(p', None)
      else if |p'.pdfs| >= MAX_PDFS then Outcome(p', Some(TooComplex))
      else Store(faults, p', l)
  }

  /** The walk: event by event, until one fails. */
  function Run(faults: nat -> Fault, p: Progress, evs: seq<Event>): Outcome
    requires AllLeaves(evs)
    decreases evs
  {
    if evs == [] then Outcome(p, None)
    else
      var first := Step(faults, p, evs[0]);
      if first.err.Some? then first else Run(faults, first.now, evs[1..])
  }

  const START := Progress(0, true, [], 0, map[])

  lemma RunOne(faults: nat -> Fault, p: Progress, e: Event)
    requires e.Reads? ==> e.leaf.Leaf?
    ensures Run(faults, p, [e]) == Step(faults, p, e)
  {
    assert [e][1..] == [];
  }

  lemma {:induction false} RunInTwo(faults: nat -> Fault, p: Progress, a: seq<Event>, b: seq<Event>)
    requires AllLeaves(a) && AllLeaves(b)
    ensures Run(faults, p, a + b)
         == var first := Run(faults, p, a); if first.err.Some? then first else Run(faults, first.now, b)
    decreases a
  {
    if a == [] {
      assert a + b == b;
    } else {
      assert (a + b)[0] == a[0] && (a + b)[1..] == a[1..] + b;
      var first := Step(faults, p, a[0]);
      if first.err.None? {
        RunInTwo(faults, first.now, a[1..], b);
      }
    }
  }

  lemma RunInside(faults: nat -> Fault, p: Progress, node: Node, depth: nat)
    requires depth <= MAX_DEPTH
    ensures Run(faults, p, Events(node, depth))
         == Run(faults, if node.badType then p.(plainText := false) else p, Inside(node, depth))
  {
    RunInTwo(faults, p, Doubt(node.badType), Inside(node, depth));
    RunOne(faults, p, Unclear);
  }

  lemma RunNextPart(faults: nat -> Fault, p: Progress, parts: seq<Node>, depth: nat)
    requires parts != []
    ensures Run(faults, p, PartEvents(parts, depth)) ==
      var q := p.(parts := p.parts + 1);
      if q.parts > MAX_PARTS then Outcome(q, Some(TooComplex))
      else
        var o := Run(faults, q, Events(parts[0], depth));
        if o.err.Some? then o else Run(faults, o.now, PartEvents(parts[1..], depth))
  {
    RunInTwo(faults, p, [PartStarts] + Events(parts[0], depth), PartEvents(parts[1..], depth));
    RunInTwo(faults, p, [PartStarts], Events(parts[0], depth));
    RunOne(faults, p, PartStarts);
  }

  lemma RunContainer(faults: nat -> Fault, p: Progress, parts: seq<Node>, cleanEnd: bool, depth: nat)
    ensures var o := Run(faults, p, PartEvents(parts, depth));
      Run(faults, p, PartEvents(parts, depth) + Doubt(!cleanEnd || parts == []))
      == if o.err.None? && (!cleanEnd || parts == []) then Outcome(o.now.(plainText := false), None) else o
  {
    var o := Run(faults, p, PartEvents(parts, depth));
    RunInTwo(faults, p, PartEvents(parts, depth), Doubt(!cleanEnd || parts == []));
    RunOne(faults, o.now, Unclear);
  }
}
