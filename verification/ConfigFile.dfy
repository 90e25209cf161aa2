/** The configuration file: ParseFile and Layer of internal/config/file.go, serialize and quoteValue of
    internal/web/setup.go. */
module ConfigFile {
  import opened JobTypes
  import opened ConfigRules
  import opened ConfigLoad

  const BOM: string := "\U{FEFF}"
  const EXPORT: string := "export "
  const FILE_SUFFIX: string := "_FILE"

  datatype Line = Skipped | Setting(name: string, value: string) | Malformed

  // ---------- reading ----------

  predicate Wrapped(s: string) {
    |s| >= 2 && (s[0] == '\'' || s[0] == '"') && s[|s| - 1] == s[0]
  }

  function Unquote(s: string): string {
    if Wrapped(s) then s[1..|s| - 1] else s
  }

  function WithoutExport(line: string): string {
    var t := TrimSpace(line);
    TrimSpace(if EXPORT <= t then t[|EXPORT|..] else t)
  }

  function ParseLine(line: string): Line {
    var t := WithoutExport(line);
    if t == "" || t[0] == '#' then Skipped
    else
      var at := Find(t, '=');
      var name := TrimSpace(t[..at]);
      if at == |t| || name == "" || ' ' in name || '\t' in name then Malformed
      else Setting(name, Unquote(TrimSpace(t[at + 1..])))
  }

  /** Every line's setting; nothing at all if a line is malformed or a name comes twice. */
  function Parsed(lines: seq<string>): Option<map<string, string>> {
    if lines == [] then Some(map[])
    else
      var before := Parsed(lines[..|lines| - 1]);
      if before.None? then None
      else
        match ParseLine(lines[|lines| - 1])
        case Skipped => before
        case Malformed => None
        case Setting(name, value) => if name in before.value then None else Some(before.value[name := value])
  }

  function Lines(text: string): seq<string> {
    Split(if BOM <= text then text[|BOM|..] else text, '\n')
  }

  method ParseFile(text: string) returns (out: Option<map<string, string>>)
    ensures out == Parsed(Lines(text))
  {
    var lines := Lines(text);
    var settings: map<string, string> := map[];
    for i := 0 to |lines|
      invariant Parsed(lines[..i]) == Some(settings)
    {
      assert lines[..i + 1][..i] == lines[..i];
      match ParseLine(lines[i]) {
        case Skipped =>
        case Malformed =>
          OnceRefusedAlwaysRefused(lines, i + 1);
          return None;
        case Setting(name, value) =>
          if name in settings {
            OnceRefusedAlwaysRefused(lines, i + 1);
            return None;
          }
          settings := settings[name := value];
      }
    }
    assert lines[..|lines|] == lines;
    return Some(settings);
  }

  lemma {:induction false} OnceRefusedAlwaysRefused(lines: seq<string>, n: nat)
    requires n <= |lines| && Parsed(lines[..n]).None?
    ensures Parsed(lines).None?
    decreases |lines|
  {
    if n == |lines| {
      assert lines[..n] == lines;
    } else {
      var init := lines[..|lines| - 1];
      assert init[..n] == lines[..n];
      OnceRefusedAlwaysRefused(init, n);
    }
  }

  // ---------- writing ----------

  function QuoteValue(v: string): string {
    if v == TrimSpace(v) && !Wrapped(v) && '#' !in v then v else "'" + v + "'"
  }

  function Written(name: string, value: string): string {
    name + "=" + QuoteValue(value)
  }

  function Unlines(lines: seq<string>): string {
    if lines == [] then "" else lines[0] + "\n" + Unlines(lines[1..])
  }

  predicate Less(a: string, b: string) {
    if b == "" then false
    else if a == "" then true
    else a[0] < b[0] || (a[0] == b[0] && Less(a[1..], b[1..]))
  }

  /** slices.Sorted of a map's keys. */
  ghost predicate SortedKeys(names: seq<string>, values: map<string, string>) {
    && (forall i :: 0 <= i < |names| ==> names[i] in values)
    && (forall n :: n in values ==> n in names)
    && (forall i, j :: 0 <= i < j < |names| ==> Less(names[i], names[j]))
  }

  function SettingLines(names: seq<string>, values: map<string, string>): seq<string>
    requires forall i :: 0 <= i < |names| ==> names[i] in values
  {
    seq(|names|, i requires 0 <= i < |names| => Written(names[i], values[names[i]]))
  }

  lemma {:induction false} UnlinesAdds(lines: seq<string>, line: string)
    ensures Unlines(lines + [line]) == Unlines(lines) + line + "\n"
  {
    if lines == [] {
      assert [line][1..] == [] && lines + [line] == [line];
    } else {
      UnlinesAdds(lines[1..], line);
      assert (lines + [line])[1..] == lines[1..] + [line];
    }
  }

  /** `notes` are the comment lines at the top, which depend on what is configured. */
  method Serialize(notes: seq<string>, names: seq<string>, values: map<string, string>) returns (text: string)
    requires SortedKeys(names, values)
    ensures text == Unlines(notes + SettingLines(names, values))
  {
    hide QuoteValue, Less;
    assert Unlines([]) == "";
    text := WriteLines("", [], notes);
    assert [] + notes == notes;
    hide Unlines;
    ghost var lines := SettingLines(names, values);
    assert notes + lines[..0] == notes;
    for i := 0 to |names|
      invariant text == Unlines(notes + lines[..i])
    {
      UnlinesAdds(notes + lines[..i], lines[i]);
      assert notes + lines[..i + 1] == notes + lines[..i] + [lines[i]];
      text := text + (names[i] + "=" + QuoteValue(values[names[i]])) + "\n";
    }
    assert lines[..|names|] == lines;
  }

  method WriteLines(text: string, ghost before: seq<string>, lines: seq<string>) returns (r: string)
    requires text == Unlines(before)
    ensures r == Unlines(before + lines)
  {
    hide Unlines;
    r := text;
    assert before + lines[..0] == before;
    for i := 0 to |lines|
      invariant r == Unlines(before + lines[..i])
    {
      UnlinesAdds(before + lines[..i], lines[i]);
      assert before + lines[..i + 1] == before + lines[..i] + [lines[i]];
      r := r + lines[i] + "\n";
    }
    assert lines[..|lines|] == lines;
  }

  // ---------- trimming ----------

  predicate Tidy(s: string) {
    s == "" || (!IsSpace(s[0]) && !IsSpace(s[|s| - 1]))
  }

  lemma {:induction false} TrimLeftIsTidy(s: string)
    ensures TrimLeft(s) == "" || !IsSpace(TrimLeft(s)[0])
  {
    if s != "" && IsSpace(s[0]) {
      TrimLeftIsTidy(s[1..]);
    }
  }

  lemma {:induction false} TrimRightIsTidy(s: string)
    ensures TrimRight(s) <= s
    ensures TrimRight(s) == "" || !IsSpace(TrimRight(s)[|TrimRight(s)| - 1])
  {
    if s != "" && IsSpace(s[|s| - 1]) {
      TrimRightIsTidy(s[..|s| - 1]);
    }
  }

  /** TrimSpace leaves exactly the strings alone that have nothing to trim. */
  lemma TrimIsIdentity(s: string)
    ensures TrimSpace(s) == s <==> Tidy(s)
  {
    hide IsSpace;
    TrimLeftIsTidy(s);
    TrimRightIsTidy(TrimLeft(s));
  }

  // ---------- the round trip ----------

  /** Any value at all survives being quoted, trimmed and unquoted. */
  lemma QuotingRoundTrip(v: string)
    ensures Unquote(TrimSpace(QuoteValue(v))) == v && Tidy(QuoteValue(v))
  {
    TrimIsIdentity(v);
    TrimIsIdentity(QuoteValue(v));
    var q := "'" + v + "'";
    assert q[1..|q| - 1] == v;
    hide TrimSpace;
  }

  /** A name ParseFile can give back: no blank, tab, "=" or line end in it, nothing to trim, and not a comment. */
  predicate GoodName(name: string) {
    && name != "" && Tidy(name) && name[0] != '#'
    && ' ' !in name && '\t' !in name && '=' !in name && '\n' !in name
  }

  predicate Writable(values: map<string, string>) {
    forall n :: n in values ==> GoodName(n) && '\n' !in values[n]
  }

  /** A comment or blank line, as the wizard writes above the settings. */
  predicate IsNote(line: string) {
    '\n' !in line && (line == "" || line[0] == '#')
  }

  lemma {:induction false} FindFirst(a: string, b: string, c: char)
    requires c !in a
    ensures Find(a + [c] + b, c) == |a|
  {
    if a == "" {
      assert (a + [c] + b)[0] == c;
    } else {
      FindFirst(a[1..], b, c);
      assert (a + [c] + b)[1..] == a[1..] + [c] + b;
    }
  }

  lemma WrittenIsTidy(name: string, value: string)
    requires GoodName(name)
    ensures Tidy(Written(name, value)) && TrimSpace(Written(name, value)) == Written(name, value)
  {
    hide IsSpace, QuoteValue, TrimSpace;
    QuotingRoundTrip(value);
    var line := Written(name, value);
    assert line[0] == name[0];
    if QuoteValue(value) == "" {
      assert line[|line| - 1] == '=';
      EqualsIsNoSpace();
    } else {
      assert line[|line| - 1] == QuoteValue(value)[|QuoteValue(value)| - 1];
    }
    TrimIsIdentity(line);
  }

  lemma EqualsIsNoSpace()
    ensures !IsSpace('=') && IsSpace(' ')
  {
  }

  lemma NoExport(name: string, rest: string)
    requires ' ' !in name
    ensures !(EXPORT <= name + "=" + rest)
  {
    var line := name + "=" + rest;
    assert EXPORT[6] == ' ' && forall i :: 0 <= i < 6 ==> EXPORT[i] != '=';
    if |name| < 6 {
      assert line[|name|] == '=' != EXPORT[|name|];
    } else {
      assert line[6] == (if |name| == 6 then '=' else name[6]) != EXPORT[6];
    }
  }

  /** A written line reads back as its setting. */
  lemma LineRoundTrip(name: string, value: string)
    requires GoodName(name)
    ensures ParseLine(Written(name, value)) == Setting(name, value)
  {
    hide IsSpace, QuoteValue, TrimSpace, Unquote, Find;
    var line := Written(name, value);
    WrittenIsTidy(name, value);
    NoExport(name, QuoteValue(value));
    FindFirst(name, QuoteValue(value), '=');
    assert line == name + ['='] + QuoteValue(value);
    assert line[..|name|] == name && line[|name| + 1..] == QuoteValue(value);
    TrimIsIdentity(name);
    QuotingRoundTrip(value);
    assert line[0] == name[0];
  }

  lemma {:induction false} TrimmingAddsNothing(s: string)
    ensures forall c :: c in TrimLeft(s) ==> c in s
    ensures forall c :: c in TrimRight(s) ==> c in s
  {
    if s != "" {
      TrimmingAddsNothing(s[1..]);
      TrimRightIsTidy(s);
    }
  }

  lemma TrimResult(s: string)
    ensures Tidy(TrimSpace(s)) && forall c :: c in TrimSpace(s) ==> c in s
  {
    TrimLeftIsTidy(s);
    TrimRightIsTidy(TrimLeft(s));
    TrimmingAddsNothing(s);
    TrimmingAddsNothing(TrimLeft(s));
  }

  /** And no other name does: what ParseFile can give back is exactly what `GoodName` says. */
  lemma LineRoundTripIff(name: string, value: string)
    requires '\n' !in name
    ensures ParseLine(Written(name, value)) == Setting(name, value) <==> GoodName(name)
  {
    hide IsSpace, QuoteValue, TrimSpace, Unquote, Find;
    if GoodName(name) {
      LineRoundTrip(name, value);
    } else if ParseLine(Written(name, value)).Setting? {
      var t := WithoutExport(Written(name, value));
      var at := Find(t, '=');
      FindBounds(t);
      TrimResult(t[..at]);
      if name != "" && name[0] == '#' {
        HashIsNoSpace();
        NoteKeepsItsHash(Written(name, value));
      }
    }
  }

  lemma FindBounds(t: string)
    ensures Find(t, '=') <= |t| && '=' !in t[..Find(t, '=')]
  {
  }

  lemma HashIsNoSpace()
    ensures !IsSpace('#')
  {
  }

  lemma NotesAreSkipped(line: string)
    requires IsNote(line)
    ensures ParseLine(line) == Skipped
  {
    if line != "" {
      assert TrimLeft(line) == line;
      var t := TrimSpace(line);
      TrimRightIsTidy(line);
      assert t <= line;
      NoteKeepsItsHash(line);
    }
  }

  lemma NoteKeepsItsHash(line: string)
    requires line != "" && line[0] == '#'
    ensures WithoutExport(line) != "" && WithoutExport(line)[0] == '#'
  {
    var t := TrimSpace(line);
    TrimKeepsHead(line);
    assert EXPORT[0] == 'e';
    TrimKeepsHead(t);
  }

  lemma {:induction false} TrimRightKeepsHead(s: string)
    requires s != "" && !IsSpace(s[0])
    ensures TrimRight(s) != "" && TrimRight(s)[0] == s[0]
  {
    if IsSpace(s[|s| - 1]) {
      TrimRightKeepsHead(s[..|s| - 1]);
    }
  }

  lemma TrimKeepsHead(s: string)
    requires s != "" && !IsSpace(s[0])
    ensures TrimSpace(s) != "" && TrimSpace(s)[0] == s[0]
  {
    TrimRightKeepsHead(s);
  }

  lemma {:induction false} SplitLines(lines: seq<string>)
    requires forall i :: 0 <= i < |lines| ==> '\n' !in lines[i]
    ensures Split(Unlines(lines), '\n') == lines + [""]
  {
    if lines != [] {
      SplitLines(lines[1..]);
      SplitAtFirst(lines[0], Unlines(lines[1..]), '\n');
      assert Unlines(lines) == lines[0] + ['\n'] + Unlines(lines[1..]);
    }
  }

  lemma {:induction false} SplitAtFirst(a: string, b: string, sep: char)
    requires sep !in a
    ensures Split(a + [sep] + b, sep) == [a] + Split(b, sep)
  {
    var s := a + [sep] + b;
    if a == "" {
      assert s[1..] == b;
    } else {
      SplitAtFirst(a[1..], b, sep);
      assert s[1..] == a[1..] + [sep] + b;
      assert s[0] == a[0] && a[0] in a;
      var rest := Split(s[1..], sep);
      assert rest == [a[1..]] + Split(b, sep);
      assert [s[0]] + rest[0] == a;
      assert rest[1..] == Split(b, sep);
    }
  }

  lemma {:induction false} NotesParseToNothing(notes: seq<string>)
    requires forall i :: 0 <= i < |notes| ==> IsNote(notes[i])
    ensures Parsed(notes) == Some(map[])
  {
    if notes != [] {
      NotesParseToNothing(notes[..|notes| - 1]);
      NotesAreSkipped(notes[|notes| - 1]);
    }
  }

  ghost function Restricted(values: map<string, string>, names: seq<string>): map<string, string> {
    map n | n in values && n in names :: values[n]
  }

  /** Line by line, the settings come back. */
  lemma {:induction false} LinesRoundTrip(notes: seq<string>, names: seq<string>, values: map<string, string>)
    requires forall i :: 0 <= i < |notes| ==> IsNote(notes[i])
    requires forall i :: 0 <= i < |names| ==> names[i] in values && GoodName(names[i])
    requires forall i, j :: 0 <= i < j < |names| ==> names[i] != names[j]
    ensures Parsed(notes + SettingLines(names, values)) == Some(Restricted(values, names))
  {
    hide GoodName, IsNote, Written, ParseLine;
    if names == [] {
      assert notes + SettingLines(names, values) == notes;
      NotesParseToNothing(notes);
      assert Restricted(values, names) == map[];
    } else {
      var init, last := names[..|names| - 1], names[|names| - 1];
      var lines := notes + SettingLines(names, values);
      assert lines[..|lines| - 1] == notes + SettingLines(init, values);
      LinesRoundTrip(notes, init, values);
      LineRoundTrip(last, values[last]);
      assert lines[|lines| - 1] == Written(last, values[last]);
      assert last !in init;
      assert Restricted(values, init)[last := values[last]] == Restricted(values, names);
    }
  }

  lemma {:induction false} LessIsStrict(a: string)
    ensures !Less(a, a)
  {
    if a != "" {
      LessIsStrict(a[1..]);
    }
  }

  lemma WrittenHasNoNewline(name: string, value: string)
    requires '\n' !in name && '\n' !in value
    ensures '\n' !in Written(name, value)
  {
  }

  /** Whatever the wizard wrote, the next start reads back exactly - edge blanks, quotes, "#", "=" and "export" included -
      for every map with names ParseFile can give back and values on one line. */
  lemma FileRoundTrip(notes: seq<string>, names: seq<string>, values: map<string, string>)
    requires SortedKeys(names, values) && Writable(values)
    requires notes != [] && notes[0] != "" && forall i :: 0 <= i < |notes| ==> IsNote(notes[i])
    ensures Parsed(Lines(Unlines(notes + SettingLines(names, values)))) == Some(values)
  {
    hide GoodName, Written, ParseLine, Less;
    var lines := notes + SettingLines(names, values);
    forall i | 0 <= i < |lines| ensures '\n' !in lines[i] {
      if i >= |notes| {
        var n := names[i - |notes|];
        NamesHaveNoNewline(n);
        WrittenHasNoNewline(n, values[n]);
      }
    }
    SplitLines(lines);
    var text := Unlines(lines);
    assert text[0] == notes[0][0] == '#';
    assert !(BOM <= text);
    forall i, j | 0 <= i < j < |names| ensures names[i] != names[j] {
      LessIsStrict(names[i]);
    }
    LinesRoundTrip(notes, names, values);
    assert Restricted(values, names) == values;
    assert (lines + [""])[..|lines|] == lines;
    BlankLine();
  }

  lemma NamesHaveNoNewline(n: string)
    requires GoodName(n)
    ensures '\n' !in n
  {
  }

  lemma BlankLine()
    ensures ParseLine("") == Skipped
  {
  }

  // ---------- writing twice writes the same ----------

  lemma {:induction false} LessOneWay(a: string, b: string)
    requires Less(a, b)
    ensures !Less(b, a) && a != b
  {
    if a != "" && a[0] == b[0] {
      LessOneWay(a[1..], b[1..]);
    }
  }

  lemma NotBothWays(a: string, b: string)
    ensures !(Less(a, b) && Less(b, a))
  {
    if Less(a, b) {
      LessOneWay(a, b);
    }
  }

  lemma HeadsAgree(a: seq<string>, b: seq<string>, values: map<string, string>)
    requires SortedKeys(a, values) && SortedKeys(b, values) && a != []
    ensures b != [] && a[0] == b[0]
  {
    hide Less;
    assert a[0] in values;
    assert b[0] in values;
    var i :| 0 <= i < |b| && b[i] == a[0];
    var j :| 0 <= j < |a| && a[j] == b[0];
    NotBothWays(a[0], b[0]);
  }

  /** A map's keys are sorted in one way only. */
  lemma {:induction false} SortingIsUnique(a: seq<string>, b: seq<string>, values: map<string, string>)
    requires SortedKeys(a, values) && SortedKeys(b, values)
    ensures a == b
    decreases |a|
  {
    hide Less;
    if a == [] {
      assert b == [];
    } else {
      HeadsAgree(a, b, values);
      TailIsSorted(a, values);
      TailIsSorted(b, values);
      hide SortedKeys;
      SortingIsUnique(a[1..], b[1..], values - {a[0]});
      assert a == [a[0]] + a[1..] && b == [b[0]] + b[1..];
    }
  }

  lemma TailIsSorted(a: seq<string>, values: map<string, string>)
    requires SortedKeys(a, values) && a != []
    ensures SortedKeys(a[1..], values - {a[0]})
  {
    hide Less;
    forall i | 0 <= i < |a[1..]| ensures a[1..][i] in values - {a[0]} {
      LessOneWay(a[0], a[i + 1]);
    }
    forall n | n in values - {a[0]} ensures n in a[1..] {
      var i :| 0 <= i < |a| && a[i] == n;
      assert a[1..][i - 1] == n;
    }
  }

  /** Reading a saved file and saving it again under the same notes writes the same lines. */
  lemma SavingAgainChangesNothing(notes: seq<string>, names: seq<string>, names': seq<string>, values: map<string, string>)
    requires SortedKeys(names, values) && Writable(values)
    requires notes != [] && notes[0] != "" && forall i :: 0 <= i < |notes| ==> IsNote(notes[i])
    requires var again := Parsed(Lines(Unlines(notes + SettingLines(names, values))));
      again.Some? ==> SortedKeys(names', again.value)
    ensures var again := Parsed(Lines(Unlines(notes + SettingLines(names, values))));
      again.Some? && notes + SettingLines(names', again.value) == notes + SettingLines(names, values)
  {
    FileRoundTrip(notes, names, values);
    hide Parsed, Lines, Unlines, Less;
    SortingIsUnique(names, names', values);
  }

  // ---------- precedence ----------

  function PairedName(name: string): string {
    if EndsInFile(name) then name[..|name| - |FILE_SUFFIX|] else name + FILE_SUFFIX
  }

  predicate EndsInFile(name: string) {
    |name| >= |FILE_SUFFIX| && name[|name| - |FILE_SUFFIX|..] == FILE_SUFFIX
  }

  /** What Load reads through: the environment's answer, or nothing if it has the other spelling, or the file's. */
  function Layer(file: map<string, string>, environ: string -> string, name: string): string {
    if environ(name) != "" then environ(name)
    else if environ(PairedName(name)) != "" then ""
    else if name in file then file[name] else ""
  }

  function FromFile(file: map<string, string>, name: string): string {
    if name in file then file[name] else ""
  }

  /** Both spellings of a setting come from one layer: the environment if it has either, the file otherwise. */
  ghost predicate OneLayer(file: map<string, string>, environ: string -> string, setting: string) {
    var other := setting + FILE_SUFFIX;
    if environ(setting) != "" || environ(other) != "" then
      Layer(file, environ, setting) == environ(setting) && Layer(file, environ, other) == environ(other)
    else
      Layer(file, environ, setting) == FromFile(file, setting) && Layer(file, environ, other) == FromFile(file, other)
  }

  lemma PairsUp(setting: string)
    ensures PairedName(setting + FILE_SUFFIX) == setting
    ensures !EndsInFile(setting) ==> PairedName(setting) == setting + FILE_SUFFIX
  {
    var other := setting + FILE_SUFFIX;
    assert other[|other| - |FILE_SUFFIX|..] == FILE_SUFFIX;
    assert other[..|other| - |FILE_SUFFIX|] == setting;
  }

  /** The environment overrides a setting, not one spelling of it, so a conflict between the two is only ever one the
      operator made within a layer. That holds for exactly the settings whose own name does not end in _FILE: for such a
      one, the other spelling of the setting it is taken for hides the file's value. */
  lemma OneLayerDecides(setting: string)
    ensures (forall file, environ :: OneLayer(file, environ, setting)) <==> !EndsInFile(setting)
  {
    PairsUp(setting);
    if !EndsInFile(setting) {
      forall file: map<string, string>, environ: string -> string ensures OneLayer(file, environ, setting) {
      }
    } else {
      var base := PairedName(setting);
      var file := map[setting := "file"];
      var environ := n => if n == base then "environment" else "";
      assert |base| < |setting|;
      assert !OneLayer(file, environ, setting);
    }
  }

  // ---------- whatever was read can be written ----------

  lemma ParsedLineIsGood(line: string)
    requires '\n' !in line
    ensures ParseLine(line).Setting? ==> GoodName(ParseLine(line).name) && '\n' !in ParseLine(line).value
  {
    hide IsSpace, TrimSpace, Find;
    var stripped := TrimSpace(line);
    TrimResult(line);
    var inner := if EXPORT <= stripped then stripped[|EXPORT|..] else stripped;
    TrimResult(inner);
    var t := WithoutExport(line);
    var at := Find(t, '=');
    FindBounds(t);
    TrimResult(t[..at]);
    if at < |t| {
      TrimResult(t[at + 1..]);
    }
    assert '\n' !in inner && '\n' !in t;
    if ParseLine(line).Setting? {
      TidyStartsAtOnce(t, at);
      var name, text := TrimSpace(t[..at]), TrimSpace(t[at + 1..]);
      assert '\n' !in t[..at] && '\n' !in t[at + 1..];
      assert '=' !in name && '\n' !in name && '\n' !in text;
      assert '\n' !in Unquote(text);
    }
  }

  /** A line that is already trimmed gives its first character to the name. */
  lemma TidyStartsAtOnce(t: string, at: nat)
    requires at <= |t| && t != "" && Tidy(t) && TrimSpace(t[..at]) != ""
    ensures TrimSpace(t[..at])[0] == t[0]
  {
    TrimKeepsHead(t[..at]);
  }

  /** Whatever ParseFile returns, Serialize can write. */
  lemma {:induction false} ParsedIsWritable(lines: seq<string>)
    requires forall i :: 0 <= i < |lines| ==> '\n' !in lines[i]
    ensures Parsed(lines).Some? ==> Writable(Parsed(lines).value)
  {
    hide ParseLine, GoodName;
    if lines != [] {
      ParsedIsWritable(lines[..|lines| - 1]);
      ParsedLineIsGood(lines[|lines| - 1]);
    }
  }

  /** Every file that parses at all survives being read, written and read again, with nothing assumed about it. */
  lemma ParsedFilesSurvive(text: string, notes: seq<string>, names: seq<string>)
    requires Parsed(Lines(text)).Some? && SortedKeys(names, Parsed(Lines(text)).value)
    requires notes != [] && notes[0] != "" && forall i :: 0 <= i < |notes| ==> IsNote(notes[i])
    ensures Parsed(Lines(Unlines(notes + SettingLines(names, Parsed(Lines(text)).value)))) == Parsed(Lines(text))
  {
    hide Parsed, Unlines, SettingLines, Less, Writable, Split;
    SplitIsFaithful(if BOM <= text then text[|BOM|..] else text, '\n');
    ParsedIsWritable(Lines(text));
    FileRoundTrip(notes, names, Parsed(Lines(text)).value);
  }
}
