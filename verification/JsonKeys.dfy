/** duplicateJSONKey (internal/config/env.go) on the token stream of a JSON value. */
module JsonKeys {

  datatype Option<+T> = None | Some(value: T)

  datatype Token = Delim(c: char) | Str(s: string) | Atom

  datatype Value = Scalar(text: Option<string>) | List(items: seq<Value>) | Object(members: seq<Member>)

  datatype Member = Member(key: string, value: Value)

  /** `failed` stands for a decoder error; `rest` is what has not been read. */
  datatype Scan = Scan(dup: string, rest: seq<Token>, failed: bool)

  predicate IsCloser(t: Token) {
    t == Delim('}') || t == Delim(']')
  }

  /** json.Decoder.More. */
  predicate More(ts: seq<Token>) {
    ts != [] && !IsCloser(ts[0])
  }

  function KeyOf(t: Token): string {
    if t.Str? then t.s else ""
  }

  function Close(ts: seq<Token>): Scan {
    if ts == [] then Scan("", [], true) else Scan("", ts[1..], false)
  }

  function ScanValue(ts: seq<Token>): (r: Scan)
    ensures |r.rest| <= |ts| && (ts != [] ==> |r.rest| < |ts|)
    decreases |ts|, 0
  {
    if ts == [] then Scan("", [], true)
    else if !ts[0].Delim? then Scan("", ts[1..], false)
    else if ts[0].c == '{' then ScanMembers(ts[1..], {})
    else ScanItems(ts[1..])
  }

  function ScanMembers(ts: seq<Token>, seen: set<string>): (r: Scan)
    ensures |r.rest| <= |ts|
    decreases |ts|, 1
  {
    if !More(ts) then Close(ts)
    else if KeyOf(ts[0]) in seen then Scan(KeyOf(ts[0]), ts[1..], false)
    else
      var r := ScanValue(ts[1..]);
      if r.dup != "" || r.failed then r else ScanMembers(r.rest, seen + {KeyOf(ts[0])})
  }

  function ScanItems(ts: seq<Token>): (r: Scan)
    ensures |r.rest| <= |ts|
    decreases |ts|, 1
  {
    if !More(ts) then Close(ts)
    else
      var r := ScanValue(ts);
      if r.dup != "" || r.failed then r else ScanItems(r.rest)
  }

  /** The recursive closure over one decoder. */
  class Finder {
    var left: seq<Token>

    constructor (tokens: seq<Token>)
      ensures left == tokens
    {
      left := tokens;
    }

    method Value() returns (dup: string, failed: bool)
      modifies this
      ensures Scan(dup, left, failed) == ScanValue(old(left))
      decreases |left|
    {
      if left == [] {
        return "", true;
      }
      var tok := left[0];
      left := left[1..];
      if !tok.Delim? {
        return "", false;
      }
      ghost var inside := left;
      if tok.c == '{' {
        var seen: set<string> := {};
        while More(left)
          invariant |left| <= |inside| && ScanMembers(inside, {}) == ScanMembers(left, seen)
          decreases |left|
        {
          var key := KeyOf(left[0]);
          left := left[1..];
          if key in seen {
            return key, false;
          }
          seen := seen + {key};
          dup, failed := Value();
          if dup != "" || failed {
            return;
          }
        }
      } else {
        while More(left)
          invariant |left| <= |inside| && ScanItems(inside) == ScanItems(left)
          decreases |left|
        {
          dup, failed := Value();
          if dup != "" || failed {
            return;
          }
        }
      }
      if left == [] {
        return "", true;
      }
      left := left[1..];
      return "", false;
    }
  }

  // ---------- the token stream of a value ----------

  function Tokens(v: Value): (ts: seq<Token>)
    ensures ts != [] && !IsCloser(ts[0])
    decreases v, 0
  {
    match v
    case Scalar(text) => [if text.Some? then Str(text.value) else Atom]
    case List(items) => [Delim('[')] + ItemTokens(items) + [Delim(']')]
    case Object(members) => [Delim('{')] + MemberTokens(members) + [Delim('}')]
  }

  function ItemTokens(items: seq<Value>): seq<Token>
    decreases items
  {
    if items == [] then [] else Tokens(items[0]) + ItemTokens(items[1..])
  }

  function MemberTokens(members: seq<Member>): seq<Token>
    decreases members
  {
    if members == [] then [] else [Str(members[0].key)] + Tokens(members[0].value) + MemberTokens(members[1..])
  }

  // ---------- the first repeated key, in reading order ----------

  function First(v: Value): Option<string>
    decreases v, 0
  {
    match v
    case Scalar(_) => None
    case List(items) => FirstInItems(items)
    case Object(members) => FirstInMembers(members, {})
  }

  function FirstInItems(items: seq<Value>): Option<string>
    decreases items
  {
    if items == [] then None
    else if First(items[0]).Some? then First(items[0])
    else FirstInItems(items[1..])
  }

  function FirstInMembers(members: seq<Member>, seen: set<string>): Option<string>
    decreases members
  {
    if members == [] then None
    else if members[0].key in seen then Some(members[0].key)
    else if First(members[0].value).Some? then First(members[0].value)
    else FirstInMembers(members[1..], seen + {members[0].key})
  }

  /** Some object in the value has the same key twice. */
  predicate Repeats(v: Value)
    decreases v, 0
  {
    match v
    case Scalar(_) => false
    case List(items) => exists i :: 0 <= i < |items| && Repeats(items[i])
    case Object(members) => TwiceIn(members) || exists i :: 0 <= i < |members| && Repeats(members[i].value)
  }

  predicate TwiceIn(members: seq<Member>) {
    exists i, j :: 0 <= i < j < |members| && members[i].key == members[j].key
  }

  lemma {:induction false} FirstIffRepeats(v: Value)
    ensures First(v).Some? <==> Repeats(v)
    decreases v, 0
  {
    match v
    case Scalar(_) =>
    case List(items) => FirstInItemsIff(items);
    case Object(members) => FirstInMembersIff(members, {});
  }

  lemma {:induction false} FirstInItemsIff(items: seq<Value>)
    ensures FirstInItems(items).Some? <==> exists i :: 0 <= i < |items| && Repeats(items[i])
    decreases items
  {
    if items != [] {
      FirstIffRepeats(items[0]);
      FirstInItemsIff(items[1..]);
      assert forall i :: 1 <= i < |items| ==> items[i] == items[1..][i - 1];
      assert forall i :: 0 <= i < |items[1..]| ==> items[1..][i] == items[i + 1];
    }
  }

  lemma {:induction false} FirstInMembersIff(members: seq<Member>, seen: set<string>)
    ensures FirstInMembers(members, seen).Some? <==>
      || TwiceIn(members) || (exists i :: 0 <= i < |members| && members[i].key in seen)
      || exists i :: 0 <= i < |members| && Repeats(members[i].value)
    decreases members
  {
    if members != [] {
      var rest := members[1..];
      assert forall i :: 0 <= i < |rest| ==> rest[i] == members[i + 1];
      assert forall i :: 1 <= i < |members| ==> members[i] == rest[i - 1];
      FirstIffRepeats(members[0].value);
      FirstInMembersIff(rest, seen + {members[0].key});
      TwiceSplits(members);
    }
  }

  lemma TwiceSplits(members: seq<Member>)
    requires members != []
    ensures TwiceIn(members) <==>
      TwiceIn(members[1..]) || exists i :: 0 <= i < |members[1..]| && members[1..][i].key == members[0].key
  {
    var rest := members[1..];
    if TwiceIn(members) {
      var i, j :| 0 <= i < j < |members| && members[i].key == members[j].key;
      assert rest[j - 1] == members[j];
      if i > 0 {
        assert rest[i - 1] == members[i];
      }
    }
    if TwiceIn(rest) {
      var i, j :| 0 <= i < j < |rest| && rest[i].key == rest[j].key;
      assert members[i + 1] == rest[i] && members[j + 1] == rest[j];
    }
  }

  // ---------- what the scan finds ----------

  ghost predicate Finds(r: Scan, first: Option<string>, rest: seq<Token>) {
    match first
    case None => r == Scan("", rest, false)
    case Some(k) => k != "" ==> r.dup == k && !r.failed
  }

  lemma {:induction false} ScanFinds(v: Value, rest: seq<Token>)
    ensures Finds(ScanValue(Tokens(v) + rest), First(v), rest)
    decreases v, 0
  {
    var ts := Tokens(v) + rest;
    match v
    case Scalar(_) => assert ts[1..] == rest;
    case List(items) =>
      assert ts[1..] == ItemTokens(items) + ([Delim(']')] + rest);
      ItemsFind(items, Delim(']'), rest);
    case Object(members) =>
      assert ts[1..] == MemberTokens(members) + ([Delim('}')] + rest);
      MembersFind(members, {}, rest);
  }

  lemma {:induction false} ItemsFind(items: seq<Value>, close: Token, rest: seq<Token>)
    requires IsCloser(close)
    ensures Finds(ScanItems(ItemTokens(items) + ([close] + rest)), FirstInItems(items), rest)
    decreases items
  {
    var ts := ItemTokens(items) + ([close] + rest);
    if items == [] {
      assert ts == [close] + rest && ts[1..] == rest;
    } else {
      var later := ItemTokens(items[1..]) + ([close] + rest);
      assert ts == Tokens(items[0]) + later;
      ScanFinds(items[0], later);
      ItemsFind(items[1..], close, rest);
    }
  }

  lemma {:induction false} MembersFind(members: seq<Member>, seen: set<string>, rest: seq<Token>)
    ensures Finds(ScanMembers(MemberTokens(members) + ([Delim('}')] + rest), seen), FirstInMembers(members, seen), rest)
    decreases members
  {
    var ts := MemberTokens(members) + ([Delim('}')] + rest);
    if members == [] {
      assert ts == [Delim('}')] + rest && ts[1..] == rest;
    } else {
      var later := MemberTokens(members[1..]) + ([Delim('}')] + rest);
      assert ts == [Str(members[0].key)] + (Tokens(members[0].value) + later);
      assert ts[1..] == Tokens(members[0].value) + later;
      ScanFinds(members[0].value, later);
      MembersFind(members[1..], seen + {members[0].key}, rest);
    }
  }

  /** What the comment promises: no error, a key reported exactly when some object repeats one, the first such key, and
      exactly the value's tokens read when there is none. */
  ghost predicate ReportsAsPromised(v: Value, rest: seq<Token>) {
    var r := ScanValue(Tokens(v) + rest);
    && !r.failed
    && (r.dup != "" <==> Repeats(v))
    && (r.dup != "" ==> First(v) == Some(r.dup))
    && (r.dup == "" ==> r.rest == rest)
  }

  /** The promise is kept exactly for the values whose first repeated key, in reading order, is not the empty one. */
  lemma ReportsExactly(v: Value, rest: seq<Token>)
    ensures ReportsAsPromised(v, rest) <==> First(v) != Some("")
  {
    FirstIffRepeats(v);
    ScanFinds(v, rest);
  }

  predicate NoEmptyKeys(v: Value)
    decreases v, 0
  {
    match v
    case Scalar(_) => true
    case List(items) => forall i :: 0 <= i < |items| ==> NoEmptyKeys(items[i])
    case Object(members) => forall i :: 0 <= i < |members| ==> members[i].key != "" && NoEmptyKeys(members[i].value)
  }

  /** In particular for any value whose keys are all non-empty. */
  lemma NoEmptyKeysReportExactly(v: Value, rest: seq<Token>)
    requires NoEmptyKeys(v)
    ensures ReportsAsPromised(v, rest)
  {
    NoEmptyKeysSuffice(v);
    ReportsExactly(v, rest);
  }

  lemma {:induction false} NoEmptyKeysSuffice(v: Value)
    requires NoEmptyKeys(v)
    ensures First(v) != Some("")
    decreases v, 0
  {
    match v
    case Scalar(_) =>
    case List(items) => ItemsNotEmpty(items);
    case Object(members) => MembersNotEmpty(members, {});
  }

  lemma {:induction false} ItemsNotEmpty(items: seq<Value>)
    requires forall i :: 0 <= i < |items| ==> NoEmptyKeys(items[i])
    ensures FirstInItems(items) != Some("")
    decreases items
  {
    if items != [] {
      NoEmptyKeysSuffice(items[0]);
      ItemsNotEmpty(items[1..]);
    }
  }

  lemma {:induction false} MembersNotEmpty(members: seq<Member>, seen: set<string>)
    requires forall i :: 0 <= i < |members| ==> members[i].key != "" && NoEmptyKeys(members[i].value)
    ensures FirstInMembers(members, seen) != Some("")
    decreases members
  {
    if members != [] {
      NoEmptyKeysSuffice(members[0].value);
      MembersNotEmpty(members[1..], seen + {members[0].key});
    }
  }

  const ATOM := Scalar(None)
  const TWO_BLANKS := Object([Member("", ATOM), Member("", ATOM)])

  lemma BlankTokens()
    ensures Tokens(TWO_BLANKS) == [Delim('{'), Str(""), Atom, Str(""), Atom, Delim('}')]
  {
    assert MemberTokens(TWO_BLANKS.members[1..]) == [Str("")] + Tokens(ATOM) + MemberTokens([]);
    assert MemberTokens(TWO_BLANKS.members) == [Str("")] + Tokens(ATOM) + MemberTokens(TWO_BLANKS.members[1..]);
  }

  /** The scan of the pair gives up half-way, reporting nothing. */
  lemma BlankPairStops(tail: seq<Token>)
    ensures ScanValue([Delim('{'), Str(""), Atom, Str(""), Atom, Delim('}')] + tail)
         == Scan("", [Atom, Delim('}')] + tail, false)
  {
    var inside := [Str(""), Atom, Str(""), Atom, Delim('}')] + tail;
    assert ([Delim('{'), Str(""), Atom, Str(""), Atom, Delim('}')] + tail)[1..] == inside;
    assert inside[1..] == [Atom, Str(""), Atom, Delim('}')] + tail;
    var second := [Str(""), Atom, Delim('}')] + tail;
    assert ScanValue(inside[1..]) == Scan("", second, false) by {
      assert inside[1..][1..] == second;
    }
    assert second[1..] == [Atom, Delim('}')] + tail;
    assert ScanMembers(second, {""}) == Scan("", second[1..], false);
    assert ScanMembers(inside, {}) == ScanMembers(second, {} + {""});
  }

  /** What is left of the pair then passes for the end of the list around it. */
  lemma LeftoversCloseTheList(tail: seq<Token>)
    ensures ScanItems([Atom, Delim('}')] + tail) == Scan("", tail, false)
  {
    assert ([Atom, Delim('}')] + tail)[1..] == [Delim('}')] + tail;
    assert ScanValue([Atom, Delim('}')] + tail) == Scan("", [Delim('}')] + tail, false);
    assert ([Delim('}')] + tail)[1..] == tail;
    assert ScanItems([Delim('}')] + tail) == Scan("", tail, false);
  }

  lemma BlankIsFirst()
    ensures First(TWO_BLANKS) == Some("")
  {
    var ms := TWO_BLANKS.members;
    assert ms[0].key == "" && First(ms[0].value) == None;
    assert ms[1..][0] == ms[1];
    assert FirstInMembers(ms[1..], {""}) == Some("");
    assert FirstInMembers(ms, {}) == FirstInMembers(ms[1..], {} + {""});
  }

  /** A repeated empty key is reported as no repetition, and the walk has lost its place: whatever repeats in `w` goes
      unseen, although the comment promises to find it anywhere in the value (internal/config/env.go:349-353). */
  lemma EmptyKeyHidesTheRest(w: Value)
    ensures Repeats(List([TWO_BLANKS, w])) && First(List([TWO_BLANKS, w])) == Some("")
    ensures var r := ScanValue(Tokens(List([TWO_BLANKS, w]))); r.dup == "" && !r.failed && r.rest != []
  {
    var v := List([TWO_BLANKS, w]);
    BlankIsFirst();
    assert First(v) == FirstInItems(v.items) == First(TWO_BLANKS);
    FirstIffRepeats(v);
    var tail := Tokens(w) + [Delim(']')];
    BlankTokens();
    assert v.items[1..] == [w];
    assert [w][1..] == [];
    assert ItemTokens([w]) == Tokens(w);
    var blanks := [Delim('{'), Str(""), Atom, Str(""), Atom, Delim('}')];
    assert Tokens(v)[1..] == blanks + tail;
    BlankPairStops(tail);
    assert ScanItems(blanks + tail) == ScanItems([Atom, Delim('}')] + tail);
    LeftoversCloseTheList(tail);
  }
}
