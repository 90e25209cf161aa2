/** The extractor of internal/mimescan/mimescan.go: a recursive walk over mutable state, proved against `MimeTree`. */
module MimeScan {
  import opened MimeTree

  datatype Verdict = Extracted(pdfs: seq<Pdf>) | NoAttachments | NoPdf | Failed(error: Error) | NotAMessage

  lemma StepNested(faults: nat -> Fault, p: Progress)
    ensures Step(faults, p, Nested) == Outcome(p, Some(TooComplex))
  {
  }

  lemma StepUnclear(faults: nat -> Fault, p: Progress)
    ensures Step(faults, p, Unclear) == Outcome(p.(plainText := false), None)
  {
  }

  lemma NoPartsLeft(faults: nat -> Fault, p: Progress, depth: nat)
    ensures Run(faults, p, PartEvents([], depth)) == Outcome(p, None)
  {
  }

  class Extractor {
    const faults: nat -> Fault
    var parts: nat
    var plainText: bool
    var pdfs: seq<Pdf>
    var created: nat
    var files: map<nat, seq<Byte>>

    constructor (faults: nat -> Fault)
      ensures Now() == START && this.faults == faults
    {
      this.faults := faults;
      parts, plainText, pdfs, created, files := 0, true, [], 0, map[];
    }

    function Now(): Progress
      reads this
    {
      Progress(parts, plainText, pdfs, created, files)
    }

    method Leaf(l: Node) returns (err: Option<Error>)
      requires l.Leaf?
      modifies this
      ensures Outcome(Now(), err) == Step(faults, old(Now()), Reads(l))
    {
      err := None;
      if l.name != "" || l.disposition || l.nonText {
        plainText := false;
      }
      var n := if |l.data| < HEAD_BYTES then |l.data| else HEAD_BYTES;
      var head := l.data[..n];
      assert MAGIC <= head <==> MAGIC <= l.data by {
        if MAGIC <= l.data {
          assert head[..5] == l.data[..5];
        }
      }
      if MAGIC <= head {
        plainText := false;
      }
      if n < HEAD_BYTES && l.end == Broken {
        return;
      }
      if !(MAGIC <= head) {
        return;
      }
      if |pdfs| >= MAX_PDFS {
        return Some(TooComplex);
      }
      err := StorePdf(l);
    }

    /** The file is written in full before anybody looks at its end; whatever is not kept is removed again. */
    method StorePdf(l: Node) returns (err: Option<Error>)
      requires l.Leaf? && HasMagic(l)
      modifies this
      ensures Outcome(Now(), err) == Store(faults, old(Now()), l)
      ensures parts == old(parts) && plainText == old(plainText)
    {
      err := None;
      var f, fault := created, faults(created);
      created := created + 1;
      if fault == CreateFails {
        return Some(Storage);
      }
      var before := files;
      files := files[f := l.data];
      var ok := false;
      if fault != WriteFails && l.end == Clean && fault != ReadBackFails {
        ok := Contains(Tail(l.data), MARKER);
      }
      if fault == WriteFails || fault == CloseFails {
        files := before;
        return Some(Storage);
      }
      if !ok {
        files := before;
        return;
      }
      pdfs := pdfs + [Pdf(l.name, f, l.data)];
    }

    method Walk(node: Node, depth: nat) returns (err: Option<Error>)
      modifies this
      ensures Outcome(Now(), err) == Run(faults, old(Now()), Events(node, depth))
      decreases node
    {
      hide Step, PartEvents;
      err := None;
      if depth > MAX_DEPTH {
        RunOne(faults, Now(), Nested);
        StepNested(faults, Now());
        return Some(TooComplex);
      }
      RunInside(faults, Now(), node, depth);
      if node.badType {
        plainText := false;
      }
      match node
      case Leaf(_, _, _, _, _, _) =>
        RunOne(faults, Now(), Reads(node));
        err := Leaf(node);
      case Sealed(_) =>
        RunOne(faults, Now(), Unclear);
        StepUnclear(faults, Now());
        plainText := false;
      case Multi(_, ps, cleanEnd) =>
        ghost var begun := Now();
        RunContainer(faults, begun, ps, cleanEnd, depth + 1);
        var seen := 0;
        while seen < |ps|
          invariant 0 <= seen <= |ps| && err.None?
          invariant Run(faults, begun, PartEvents(ps, depth + 1)) == Run(faults, Now(), PartEvents(ps[seen..], depth + 1))
        {
          assert ps[seen..][1..] == ps[seen + 1..];
          RunNextPart(faults, Now(), ps[seen..], depth + 1);
          parts := parts + 1;
          if parts > MAX_PARTS {
            return Some(TooComplex);
          }
          err := Walk(ps[seen], depth + 1);
          if err.Some? {
            return;
          }
          seen := seen + 1;
        }
        assert ps[seen..] == [];
        NoPartsLeft(faults, Now(), depth + 1);
        if !cleanEnd || seen == 0 {
          plainText := false;
        }
    }

    /** Extract: on an error every file stored so far goes again. */
    method Extract(message: Option<Node>) returns (v: Verdict)
      requires Now() == START
      modifies this
      ensures v == VerdictOf(faults, message)
      ensures files == SurvivorsOf(faults, message)
    {
      if message.None? {
        return NotAMessage;
      }
      var err := Walk(message.value, 0);
      if err.Some? {
        ghost var walked := Now();
        var i := 0;
        while i < |pdfs|
          invariant 0 <= i <= |pdfs|
          invariant Now() == walked.(files := walked.files - set k | 0 <= k < i :: pdfs[k].file)
        {
          files := files - {pdfs[i].file};
          i := i + 1;
        }
        return Failed(err.value);
      }
      if pdfs == [] {
        return if plainText then NoAttachments else NoPdf;
      }
      return Extracted(pdfs);
    }
  }

  function Walked(faults: nat -> Fault, message: Node): Outcome {
    Run(faults, START, Events(message, 0))
  }

  function VerdictOf(faults: nat -> Fault, message: Option<Node>): Verdict {
    if message.None? then NotAMessage
    else
      var o := Walked(faults, message.value);
      if o.err.Some? then Failed(o.err.value)
      else if o.now.pdfs == [] then if o.now.plainText then NoAttachments else NoPdf
      else Extracted(o.now.pdfs)
  }

  function SurvivorsOf(faults: nat -> Fault, message: Option<Node>): map<nat, seq<Byte>> {
    if message.None? then map[]
    else
      var o := Walked(faults, message.value);
      if o.err.Some? then o.now.files - set k | 0 <= k < |o.now.pdfs| :: o.now.pdfs[k].file else o.now.files
  }
}
