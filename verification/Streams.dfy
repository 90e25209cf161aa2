/** Two byte streams that must not care how they are cut into pieces: lineWrap (internal/graphmail/message.go) and
    spaceFilter (internal/mimescan/mimescan.go). */
module Streams {

  type Byte = bv8

  const LINE := 76
  const CR: Byte := 0x0D
  const LF: Byte := 0x0A

  // ---------- lineWrap ----------

  /** The text in lines of 76, each full one ended by CRLF. */
  function Wrap(text: seq<Byte>): seq<Byte> {
    if |text| < LINE then text else text[..LINE] + [CR, LF] + Wrap(text[LINE..])
  }

  /** Where every byte of the output comes from: lines of exactly 76 bytes but for the last, shorter one; nothing lost,
      nothing moved (section 6.8 of RFC 2045). */
  lemma {:induction false} WrapByte(text: seq<Byte>, line: nat, col: nat)
    requires 78 * line + col < |Wrap(text)| && col < 78
    ensures col < LINE ==> 76 * line + col < |text| && Wrap(text)[78 * line + col] == text[76 * line + col]
    ensures col == LINE ==> Wrap(text)[78 * line + col] == CR
    ensures col == LINE + 1 ==> Wrap(text)[78 * line + col] == LF
  {
    if |text| >= LINE && line > 0 {
      var rest := text[LINE..];
      assert Wrap(text) == text[..LINE] + [CR, LF] + Wrap(rest);
      WrapByte(rest, line - 1, col);
      assert Wrap(text)[78 * line + col] == Wrap(rest)[78 * (line - 1) + col];
    }
  }

  lemma {:induction false} WrapLength(text: seq<Byte>)
    ensures |Wrap(text)| == |text| + 2 * (|text| / LINE)
  {
    if |text| >= LINE {
      WrapLength(text[LINE..]);
    }
  }

  /** What one pass of Write's loop adds: at most the rest of the line, and its end. */
  lemma {:induction false} WrapMore(text: seq<Byte>, more: seq<Byte>)
    requires more != [] && |text| % LINE + |more| <= LINE
    ensures Wrap(text + more) == Wrap(text) + more + if |text| % LINE + |more| == LINE then [CR, LF] else []
  {
    if |text| < LINE {
      if |text| + |more| == LINE {
        assert (text + more)[..LINE] == text + more && (text + more)[LINE..] == [];
        assert Wrap([]) == [];
      }
    } else {
      var rest := text[LINE..];
      WrapMore(rest, more);
      assert (text + more)[..LINE] == text[..LINE] && (text + more)[LINE..] == rest + more;
      assert |rest| % LINE == |text| % LINE;
    }
  }

  lemma NextColumn(len: nat, n: nat)
    requires len % LINE + n <= LINE
    ensures (len + n) % LINE == if len % LINE + n == LINE then 0 else len % LINE + n
  {
  }

  class LineWrap {
    var col: nat
    var out: seq<Byte>
    /** Everything written so far, however it was split. */
    ghost var input: seq<Byte>

    constructor ()
      ensures Valid() && input == [] && out == []
    {
      col, out, input := 0, [], [];
    }

    ghost predicate Valid()
      reads this
    {
      out == Wrap(input) && col == |input| % LINE
    }

    method Write(p: seq<Byte>)
      requires Valid()
      modifies this
      ensures Valid() && input == old(input) + p
    {
      hide Wrap;
      var i := 0;
      while i < |p|
        invariant 0 <= i <= |p|
        invariant Valid() && input == old(input) + p[..i]
      {
        var n := if LINE - col < |p| - i then LINE - col else |p| - i;
        ghost var piece := p[i..i + n];
        WrapMore(input, piece);
        NextColumn(|input|, n);
        assert p[..i + n] == p[..i] + piece;
        out := out + p[i..i + n];
        col := col + n;
        i := i + n;
        assert old(input) + p[..i] == input + piece;
        input := input + piece;
        if col == LINE {
          out := out + [CR, LF];
          col := 0;
        }
      }
      assert p[..|p|] == p;
    }
  }

  // ---------- spaceFilter ----------

  predicate IsBlank(c: Byte) {
    c == 0x20 || c == 0x09 || c == 0x0D || c == 0x0A || c == 0x0B || c == 0x0C
  }

  function NonBlank(s: seq<Byte>): seq<Byte> {
    if s == [] then []
    else NonBlank(s[..|s| - 1]) + if IsBlank(s[|s| - 1]) then [] else [s[|s| - 1]]
  }

  lemma {:induction false} NonBlankAdds(a: seq<Byte>, b: seq<Byte>)
    ensures NonBlank(a + b) == NonBlank(a) + NonBlank(b)
  {
    if b == [] {
      assert a + b == a;
    } else {
      NonBlankAdds(a, b[..|b| - 1]);
      assert (a + b)[..|a + b| - 1] == a + b[..|b| - 1];
    }
  }

  /** No blank survives, and bytes keep their order: the i-th kept byte is where exactly i kept ones came before. */
  lemma {:induction false} NonBlankKeepsTheRest(s: seq<Byte>, i: nat)
    requires i < |s|
    ensures |NonBlank(s[..i])| <= |NonBlank(s)|
    ensures !IsBlank(s[i]) ==> |NonBlank(s[..i])| < |NonBlank(s)| && NonBlank(s)[|NonBlank(s[..i])|] == s[i]
    ensures forall k :: 0 <= k < |NonBlank(s)| ==> !IsBlank(NonBlank(s)[k])
  {
    var init := s[..|s| - 1];
    if i < |s| - 1 {
      NonBlankKeepsTheRest(init, i);
      assert init[..i] == s[..i];
    } else if |s| > 1 {
      NonBlankKeepsTheRest(init, 0);
    }
  }

  /** One Read: what the inner reader put into the buffer is compacted in place; bytes only ever move left. */
  method Compact(p: array<Byte>, n: nat) returns (kept: nat)
    requires n <= p.Length
    modifies p
    ensures kept <= n && p[..kept] == NonBlank(old(p[..n])) && p[n..] == old(p[n..])
  {
    kept := 0;
    for i := 0 to n
      invariant kept <= i
      invariant p[..kept] == NonBlank(old(p[..i]))
      invariant p[i..] == old(p[i..])
    {
      assert old(p[..i + 1])[..i] == old(p[..i]);
      var c := p[i];
      assert c == old(p[i]) by {
        assert p[i..][0] == old(p[i..])[0];
      }
      if !IsBlank(c) {
        p[kept] := c;
        kept := kept + 1;
      }
      assert p[i + 1..] == old(p[i + 1..]);
    }
  }

  function Concat(pieces: seq<seq<Byte>>): seq<Byte> {
    if pieces == [] then [] else Concat(pieces[..|pieces| - 1]) + pieces[|pieces| - 1]
  }

  /** Reading in pieces of any sizes recovers the whole blank-free input. */
  method ReadAll(pieces: seq<seq<Byte>>) returns (r: seq<Byte>)
    ensures r == NonBlank(Concat(pieces))
  {
    r := [];
    for i := 0 to |pieces|
      invariant r == NonBlank(Concat(pieces[..i]))
    {
      assert pieces[..i + 1][..i] == pieces[..i];
      var piece := pieces[i];
      var buf := new Byte[|piece|](j requires 0 <= j < |piece| => piece[j]);
      assert buf[..] == piece;
      assert buf[..|piece|] == piece;
      var kept := Compact(buf, |piece|);
      NonBlankAdds(Concat(pieces[..i]), piece);
      r := r + buf[..kept];
    }
    assert pieces[..|pieces|] == pieces;
  }
}
