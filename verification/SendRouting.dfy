/** Which way a mail goes out, and when it is refused as too large (internal/graphmail/graphmail.go). */
module SendRouting {
  import opened Streams

  const MAX_MESSAGE := 4 * 1024 * 1024
  const MAX_ATTACHED := MAX_MESSAGE * 9 / 16

  /** One attachment: the bytes its part header costs, and its size on disk, if it can be read. */
  datatype Attachment = Attachment(header: nat, size: int)

  datatype Route = OneRequest | Upload | TooLarge | Unreadable

  /** base64.StdEncoding.EncodedLen. */
  function EncodedLen(n: nat): nat {
    (n + 2) / 3 * 4
  }

  function WrappedLen(n: nat): nat {
    n + 2 * (n / LINE)
  }

  /** attachFile's output: the part header, then the file in base64, in lines. */
  function PartLen(a: Attachment): nat
    requires 0 <= a.size
  {
    a.header + WrappedLen(EncodedLen(a.size))
  }

  predicate Readable(atts: seq<Attachment>) {
    forall i :: 0 <= i < |atts| ==> 0 <= atts[i].size
  }

  function PartsLen(atts: seq<Attachment>): nat
    requires Readable(atts)
  {
    if atts == [] then 0 else PartsLen(atts[..|atts| - 1]) + PartLen(atts[|atts| - 1])
  }

  function SizeSum(atts: seq<Attachment>): nat
    requires Readable(atts)
  {
    if atts == [] then 0 else SizeSum(atts[..|atts| - 1]) + atts[|atts| - 1].size
  }

  /** How long the request body would be. `framing` is everything that is not an attachment part. */
  function RequestLen(framing: nat, atts: seq<Attachment>): nat
    requires Readable(atts)
  {
    EncodedLen(framing + PartsLen(atts))
  }

  lemma PartGrows(size: nat)
    ensures 3 * WrappedLen(EncodedLen(size)) >= 4 * size
  {
  }

  /** Base64 inside costs at least a third, whatever the number and sizes of the attachments. */
  lemma {:induction false} PartsGrow(atts: seq<Attachment>)
    requires Readable(atts)
    ensures 3 * PartsLen(atts) >= 4 * SizeSum(atts)
  {
    if atts != [] {
      PartsGrow(atts[..|atts| - 1]);
      PartGrows(atts[|atts| - 1].size);
    }
  }

  /** The shortcut taken on sizes alone never gives up a message that would have fitted. */
  lemma PastTheEstimateNothingFits(framing: nat, atts: seq<Attachment>)
    requires Readable(atts) && SizeSum(atts) > MAX_ATTACHED
    ensures RequestLen(framing, atts) > MAX_MESSAGE
  {
    PartsGrow(atts);
    hide PartsLen, SizeSum;
  }

  /** The figure a notice quotes is no promise: it is exact only up to headers and line ends, so a scan at the limit is
      already too large. */
  lemma TheLimitItselfDoesNotFit(framing: nat)
    ensures RequestLen(framing, [Attachment(0, MAX_ATTACHED)]) > MAX_MESSAGE
  {
    var a := Attachment(0, MAX_ATTACHED);
    assert PartsLen([a]) == PartsLen([a][..0]) + PartLen(a);
    assert [a][..0] == [];
  }

  /** attachFile: whatever pieces the encoder hands on, what is written is the part header and the encoded file in lines -
      and exactly as long as the arithmetic here says. */
  method AttachFile(header: seq<Byte>, pieces: seq<seq<Byte>>) returns (part: seq<Byte>)
    ensures part == header + Wrap(Concat(pieces))
    ensures |part| == |header| + WrappedLen(|Concat(pieces)|)
  {
    hide Wrap;
    var w := new LineWrap();
    for i := 0 to |pieces|
      invariant fresh(w) && w.Valid() && w.input == Concat(pieces[..i])
    {
      assert pieces[..i + 1][..i] == pieces[..i];
      w.Write(pieces[i]);
    }
    assert pieces[..|pieces|] == pieces;
    WrapLength(Concat(pieces));
    part := header + w.out;
  }

  /** Every readable message goes out in one request exactly if it fits, and is refused exactly if it does not and
      there is no upload path. */
  method Send(framing: nat, atts: seq<Attachment>, largeScans: bool) returns (route: Route)
    ensures route == Unreadable <==> !Readable(atts)
    ensures Readable(atts) ==> (route == OneRequest <==> RequestLen(framing, atts) <= MAX_MESSAGE)
    ensures Readable(atts) ==> (route == TooLarge <==> RequestLen(framing, atts) > MAX_MESSAGE && !largeScans)
  {
    var attached := 0;
    for i := 0 to |atts|
      invariant Readable(atts[..i]) && attached == SizeSum(atts[..i])
    {
      if atts[i].size < 0 {
        return Unreadable;
      }
      assert atts[..i + 1][..i] == atts[..i];
      attached := attached + atts[i].size;
    }
    assert atts[..|atts|] == atts;
    if attached > MAX_ATTACHED {
      PastTheEstimateNothingFits(framing, atts);
      return if largeScans then Upload else TooLarge;
    }
    var composed := Compose(framing, atts);
    if EncodedLen(composed) > MAX_MESSAGE {
      return if largeScans then Upload else TooLarge;
    }
    return OneRequest;
  }

  /** buildMessage, by length. */
  method Compose(framing: nat, atts: seq<Attachment>) returns (n: nat)
    requires Readable(atts)
    ensures n == framing + PartsLen(atts)
  {
    n := framing;
    for i := 0 to |atts|
      invariant n == framing + PartsLen(atts[..i])
    {
      assert atts[..i + 1][..i] == atts[..i];
      n := n + PartLen(atts[i]);
    }
    assert atts[..|atts|] == atts;
  }
}
