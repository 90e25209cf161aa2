/** The setup wizard's shared state (internal/web/setup.go): presses fold, save and remember in separate critical sections,
    in any interleaving. */
module Wizard {
  import opened JobTypes

  type Values = map<string, string>

  const FILE_SUFFIX := "_FILE"
  const FORMS_KEPT := 4

  datatype Field = Field(name: string, secret: bool)

  /** What one rendered page handed back; `file` counts the saves before its values were folded. */
  datatype PendingForm = PendingForm(id: nat, values: Values, file: nat)

  /** `disk` is what a start would read. */
  datatype Server = Server(fileValues: Values, disk: Values, pending: seq<PendingForm>, file: nat)

  // ---------- folding a submission ----------

  /** A setting's two spellings. */
  datatype Spelling = Spelling(plain: Option<string>, inFile: Option<string>)

  function Lookup(values: Values, name: string): Option<string> {
    if name in values then Some(values[name]) else None
  }

  function SpellingOf(values: Values, name: string): Spelling {
    Spelling(Lookup(values, name), Lookup(values, name + FILE_SUFFIX))
  }

  function Typed(v: string): Spelling {
    Spelling(Some(v), None)
  }

  predicate InFileSpelling(s: Spelling) {
    s.inFile.Some? && s.inFile.value != ""
  }

  /** What a box with text `v` makes of a setting: the text, under one spelling; a blank keeps what the page cannot show
      and removes the rest. */
  function Folded1(s: Spelling, f: Field, v: string): Spelling {
    if v != "" then Typed(v)
    else if f.secret || InFileSpelling(s) then s
    else Spelling(None, None)
  }

  function AfterField(values: Values, f: Field, v: string): Values {
    if v != "" then values[f.name := v] - {f.name + FILE_SUFFIX}
    else if f.secret || InFileSpelling(SpellingOf(values, f.name)) then values
    else values - {f.name, f.name + FILE_SUFFIX}
  }

  function Fold(base: Values, fields: seq<Field>, form: string -> string): Values {
    if fields == [] then base
    else
      var f := fields[|fields| - 1];
      AfterField(Fold(base, fields[..|fields| - 1], form), f, form(f.name))
  }

  /** No two boxes write the same key. */
  predicate Apart(fields: seq<Field>) {
    forall i, j :: 0 <= i < |fields| && 0 <= j < |fields| ==>
      (i != j ==> fields[i].name != fields[j].name) && fields[i].name != fields[j].name + FILE_SUFFIX
  }

  lemma SuffixesAgree(a: string, b: string)
    requires a + FILE_SUFFIX == b + FILE_SUFFIX
    ensures a == b
  {
    assert (a + FILE_SUFFIX)[..|a|] == a && (b + FILE_SUFFIX)[..|b|] == b;
  }

  lemma OneField(values: Values, f: Field, v: string, name: string)
    requires name != f.name + FILE_SUFFIX && f.name != name + FILE_SUFFIX
    ensures SpellingOf(AfterField(values, f, v), name)
         == if name == f.name then Folded1(SpellingOf(values, name), f, v) else SpellingOf(values, name)
  {
    if name + FILE_SUFFIX == f.name + FILE_SUFFIX {
      SuffixesAgree(name, f.name);
    }
    assert f.name != f.name + FILE_SUFFIX;
  }

  /** Each box decides its own setting and no other. */
  lemma {:induction false} FoldDecidesEachSetting(base: Values, fields: seq<Field>, form: string -> string, i: nat)
    requires Apart(fields) && i < |fields|
    ensures SpellingOf(Fold(base, fields, form), fields[i].name)
         == Folded1(SpellingOf(base, fields[i].name), fields[i], form(fields[i].name))
  {
    var n := |fields| - 1;
    var before := Fold(base, fields[..n], form);
    OneField(before, fields[n], form(fields[n].name), fields[i].name);
    if i < n {
      FoldDecidesEachSetting(base, fields[..n], form, i);
    } else {
      FoldLeavesOthers(base, fields[..n], form, fields[n].name);
    }
  }

  lemma {:induction false} FoldLeavesOthers(base: Values, fields: seq<Field>, form: string -> string, name: string)
    requires forall f :: f in fields ==>
      name != f.name && name != f.name + FILE_SUFFIX && f.name != name + FILE_SUFFIX
    ensures SpellingOf(Fold(base, fields, form), name) == SpellingOf(base, name)
  {
    if fields != [] {
      var n := |fields| - 1;
      FoldLeavesOthers(base, fields[..n], form, name);
      OneField(Fold(base, fields[..n], form), fields[n], form(fields[n].name), name);
    }
  }

  // ---------- the server ----------

  /** The page's own answer, if it was remembered and the file has not changed since. */
  predicate Current(s: Server, id: nat) {
    var i := IndexOf(s.pending, id);
    i < |s.pending| && s.pending[i].file == s.file
  }

  function IndexOf(pending: seq<PendingForm>, id: nat): (i: nat)
    ensures i <= |pending|
    ensures i < |pending| ==> pending[i].id == id
    ensures forall k :: 0 <= k < i ==> pending[k].id != id
  {
    if pending == [] || pending[0].id == id then 0 else 1 + IndexOf(pending[1..], id)
  }

  function BaseOf(s: Server, id: nat): Values {
    if Current(s, id) then s.pending[IndexOf(s.pending, id)].values else s.fileValues
  }

  function Saved(s: Server, values: Values): Server {
    Server(values, values, [], s.file + 1)
  }

  function Remembered(s: Server, id: nat, values: Values, file: nat): Server {
    var all := s.pending + [PendingForm(id, values, file)];
    s.(pending := if |all| > FORMS_KEPT then all[|all| - FORMS_KEPT..] else all)
  }

  /** Each method is one critical section. */
  class SetupServer {
    const fields: seq<Field>
    var fileValues: Values
    var disk: Values
    var pending: seq<PendingForm>
    var file: nat
    /** Everything handed back since the last save, oldest first. */
    ghost var handed: seq<PendingForm>

    /** Memory is what is on disk, and what is remembered is exactly the newest forms handed back, up to four. */
    ghost predicate Valid()
      reads this
    {
      && fileValues == disk
      && NewestOf(pending, handed)
    }

    constructor (fields: seq<Field>, values: Values)
      ensures Valid() && this.fields == fields && Now() == Server(values, values, [], 0) && handed == []
    {
      this.fields, fileValues, disk, pending, file := fields, values, values, [], 0;
      handed := [];
    }

    function Now(): Server
      reads this
    {
      Server(fileValues, disk, pending, file)
    }

    method Base(id: nat) returns (values: Values, generation: nat)
      ensures values == BaseOf(Now(), id) && generation == file
    {
      var i := 0;
      while i < |pending| && pending[i].id != id
        invariant 0 <= i <= |pending|
        invariant IndexOf(pending, id) == i + IndexOf(pending[i..], id)
      {
        assert pending[i..][1..] == pending[i + 1..];
        i := i + 1;
      }
      if i < |pending| && pending[i].file == file {
        return pending[i].values, file;
      }
      return fileValues, file;
    }

    method FoldForm(id: nat, form: string -> string) returns (values: Values, generation: nat)
      ensures values == Fold(BaseOf(Now(), id), fields, form) && generation == file
    {
      values, generation := Base(id);
      for i := 0 to |fields|
        invariant values == Fold(BaseOf(Now(), id), fields[..i], form)
      {
        assert fields[..i + 1][..i] == fields[..i];
        var f := fields[i];
        var v := form(f.name);
        if v != "" {
          values := values[f.name := v];
          values := values - {f.name + FILE_SUFFIX};
        } else if f.secret || (f.name + FILE_SUFFIX in values && values[f.name + FILE_SUFFIX] != "") {
        } else {
          values := values - {f.name, f.name + FILE_SUFFIX};
        }
      }
      assert fields[..|fields|] == fields;
    }

    /** All or nothing: after a save every page, whatever it had handed back, starts from what was written; after a failed
        one everything is as it was. */
    method Save(values: Values, writable: bool) returns (ok: bool)
      requires Valid()
      modifies this
      ensures Valid() && ok == writable
      ensures ok ==> disk == values && handed == [] && file == old(file) + 1 && forall id :: BaseOf(Now(), id) == values
      ensures Now() == (if ok then Saved(old(Now()), values) else old(Now())) && (!ok ==> handed == old(handed))
    {
      if !writable {
        return false;
      }
      hide BaseOf;
      disk := values;
      fileValues, pending, file := values, [], file + 1;
      handed := [];
      NothingRemembered(Now());
      return true;
    }

    /** The new form is remembered, and of the others exactly the newest; a page nobody saw before starts from its own
        values as long as the file is the one they were folded from. */
    method Remember(id: nat, values: Values, generation: nat)
      requires Valid()
      modifies this
      ensures Valid() && handed == old(handed) + [PendingForm(id, values, generation)]
      ensures disk == old(disk) && file == old(file)
      ensures (forall p :: p in old(handed) ==> p.id != id) && generation == file ==> BaseOf(Now(), id) == values
      ensures Now() == Remembered(old(Now()), id, values, generation)
    {
      hide IndexOf, NewestOf;
      ghost var p := PendingForm(id, values, generation);
      NewestStaysNewest(pending, handed, p);
      pending := pending + [PendingForm(id, values, generation)];
      if |pending| > FORMS_KEPT {
        pending := pending[|pending| - FORMS_KEPT..];
      }
      if forall q :: q in handed ==> q.id != id {
        NewestIsFound(handed, pending, p);
      }
      handed := handed + [p];
    }
  }

  lemma NothingRemembered(s: Server)
    requires s.pending == []
    ensures forall id :: BaseOf(s, id) == s.fileValues
  {
  }

  /** The last ones handed back, up to four. */
  predicate NewestOf(pending: seq<PendingForm>, handed: seq<PendingForm>) {
    && |pending| == (if |handed| < FORMS_KEPT then |handed| else FORMS_KEPT)
    && pending == handed[|handed| - |pending|..]
  }

  function Trimmed(all: seq<PendingForm>): seq<PendingForm> {
    if |all| > FORMS_KEPT then all[|all| - FORMS_KEPT..] else all
  }

  lemma NewestStaysNewest(pending: seq<PendingForm>, handed: seq<PendingForm>, p: PendingForm)
    requires NewestOf(pending, handed)
    ensures NewestOf(Trimmed(pending + [p]), handed + [p])
  {
    var all, now := handed + [p], Trimmed(pending + [p]);
    assert all[|all| - |pending| - 1..] == pending + [p];
    assert now == all[|all| - |now|..];
  }

  lemma NewestIsFound(before: seq<PendingForm>, pending: seq<PendingForm>, p: PendingForm)
    requires NewestOf(pending, before + [p])
    requires forall q :: q in before ==> q.id != p.id
    ensures pending != [] && IndexOf(pending, p.id) == |pending| - 1 && pending[|pending| - 1] == p
  {
    assert |pending| <= |before| + 1;
    var n := |before| + 1 - |pending|;
    forall i | 0 <= i < |pending| - 1 ensures pending[i].id != p.id {
      assert pending[i] == (before + [p])[n + i] == before[n + i];
    }
    assert pending[|pending| - 1] == (before + [p])[|before|] == p;
    var found := IndexOf(pending, p.id);
    assert !(found < |pending| - 1);
    assert found <= |pending| - 1;
  }

  // ---------- runs ----------

  /** Secrets typed or generated on a page, and on the pages it grew out of, under one state of the file. */
  type Overlay = map<string, string>

  /** A submission between its fold and its end. */
  datatype Press = Press(values: Values, overlay: Overlay, file: nat)

  /** `pages` are all pages ever handed back, `files` all states the file has been in. */
  datatype State = State(server: Server, presses: map<nat, Press>, pages: map<nat, Press>, files: seq<Values>)

  datatype Action =
    | Submit(press: nat, page: nat, form: string -> string)
    | Generate(press: nat, name: string, value: string)
    | Save(press: nat, ok: bool)
    | HandBack(press: nat, page: nat)
    | Leave(press: nat)

  ghost predicate Guard(fields: seq<Field>, s: State, a: Action) {
    match a
    case Submit(press, _, _) => press !in s.presses
    case Generate(press, name, value) => press in s.presses && value != "" && IsSecret(fields, name)
    case Save(press, _) => press in s.presses
    case HandBack(press, page) => press in s.presses && page !in s.pages
    case Leave(press) => press in s.presses
  }

  predicate IsSecret(fields: seq<Field>, name: string) {
    exists i :: 0 <= i < |fields| && fields[i].name == name && fields[i].secret
  }

  ghost function TypedSecrets(fields: seq<Field>, form: string -> string): (o: Overlay)
    ensures forall n :: n in o <==> IsSecret(fields, n) && form(n) != ""
    ensures forall n :: n in o ==> o[n] == form(n)
  {
    map n | n in (set i | 0 <= i < |fields| && fields[i].secret :: fields[i].name) && form(n) != "" :: form(n)
  }

  ghost function PageOverlay(s: State, page: nat): Overlay {
    if Current(s.server, page) && page in s.pages then s.pages[page].overlay else map[]
  }

  ghost function Submitted(fields: seq<Field>, s: State, page: nat, form: string -> string): Press {
    Press(Fold(BaseOf(s.server, page), fields, form), PageOverlay(s, page) + TypedSecrets(fields, form), s.server.file)
  }

  function Generated(p: Press, name: string, value: string): Press {
    p.(values := p.values[name := value] - {name + FILE_SUFFIX}, overlay := p.overlay[name := value])
  }

  ghost function Next(fields: seq<Field>, s: State, a: Action): State
    requires Guard(fields, s, a)
  {
    match a
    case Submit(press, page, form) => s.(presses := s.presses[press := Submitted(fields, s, page, form)])
    case Generate(press, name, value) =>
      s.(presses := s.presses[press := Generated(s.presses[press], name, value)])
    case Save(press, ok) =>
      if ok then
        State(Saved(s.server, s.presses[press].values), s.presses - {press}, s.pages,
              s.files + [s.presses[press].values])
      else s
    case HandBack(press, page) =>
      s.(server := Remembered(s.server, page, s.presses[press].values, s.presses[press].file),
         presses := s.presses - {press}, pages := s.pages[page := s.presses[press]])
    case Leave(press) => s.(presses := s.presses - {press})
  }

  ghost predicate Init(s: State) {
    && s.server.fileValues == s.server.disk && s.server.pending == [] && s.server.file == 0
    && s.presses == map[] && s.pages == map[] && s.files == [s.server.disk]
  }

  ghost predicate IsRun(fields: seq<Field>, ss: seq<State>, acts: seq<Action>) {
    && |ss| == |acts| + 1 && Init(ss[0])
    && forall i :: 0 <= i < |acts| ==> Guard(fields, ss[i], acts[i]) && ss[i + 1] == Next(fields, ss[i], acts[i])
  }

  // ---------- what always holds ----------

  /** Every secret is what was typed on this page's line, or what the file held when it was folded. */
  ghost predicate SecretsFit(fields: seq<Field>, s: State, p: Press) {
    && p.file < |s.files|
    && forall n :: IsSecret(fields, n) ==> SpellingOf(p.values, n) == Expected(s.files[p.file], p.overlay, n)
  }

  function Expected(file: Values, overlay: Overlay, n: string): Spelling {
    if n in overlay then Typed(overlay[n]) else SpellingOf(file, n)
  }

  ghost predicate Inv(fields: seq<Field>, s: State) {
    && s.server.fileValues == s.server.disk
    && |s.files| == s.server.file + 1 && s.files[s.server.file] == s.server.disk
    && (forall p :: p in s.presses ==> SecretsFit(fields, s, s.presses[p]))
    && (forall g :: g in s.pages ==> SecretsFit(fields, s, s.pages[g]))
    && (forall i :: 0 <= i < |s.server.pending| ==> PendingFits(s, s.server.pending[i]))
  }

  predicate PendingFits(s: State, p: PendingForm) {
    p.id in s.pages && s.pages[p.id].values == p.values && s.pages[p.id].file == p.file
  }

  /** What a fold starts from already fits: the page's own values while they are current, the file otherwise. */
  lemma BaseFits(fields: seq<Field>, s: State, page: nat, n: string)
    requires Inv(fields, s) && IsSecret(fields, n)
    ensures SpellingOf(BaseOf(s.server, page), n) == Expected(s.server.disk, PageOverlay(s, page), n)
  {
    var i := IndexOf(s.server.pending, page);
    if Current(s.server, page) {
      assert PendingFits(s, s.server.pending[i]);
      assert SecretsFit(fields, s, s.pages[page]);
    }
  }

  lemma SubmittedFits(fields: seq<Field>, s: State, page: nat, form: string -> string)
    requires Apart(fields) && Inv(fields, s)
    ensures SecretsFit(fields, s, Submitted(fields, s, page, form))
  {
    var p := Submitted(fields, s, page, form);
    forall n | IsSecret(fields, n) ensures SpellingOf(p.values, n) == Expected(s.files[p.file], p.overlay, n) {
      var i :| 0 <= i < |fields| && fields[i].name == n && fields[i].secret;
      FoldDecidesEachSetting(BaseOf(s.server, page), fields, form, i);
      BaseFits(fields, s, page, n);
    }
  }

  lemma GeneratedFits(fields: seq<Field>, s: State, p: Press, name: string, value: string)
    requires Apart(fields) && SecretsFit(fields, s, p) && IsSecret(fields, name)
    ensures SecretsFit(fields, s, Generated(p, name, value))
  {
    var q := Generated(p, name, value);
    var j :| 0 <= j < |fields| && fields[j].name == name && fields[j].secret;
    forall n | IsSecret(fields, n) ensures SpellingOf(q.values, n) == Expected(s.files[q.file], q.overlay, n) {
      var i :| 0 <= i < |fields| && fields[i].name == n && fields[i].secret;
      assert name != name + FILE_SUFFIX;
      if n + FILE_SUFFIX == name + FILE_SUFFIX {
        SuffixesAgree(n, name);
      }
    }
  }

  lemma StillFits(fields: seq<Field>, s: State, s': State, p: Press)
    requires SecretsFit(fields, s, p) && s.files <= s'.files
    ensures SecretsFit(fields, s', p)
  {
    hide SpellingOf, Expected, IsSecret;
  }

  lemma StepKeepsInv(fields: seq<Field>, s: State, a: Action)
    requires Apart(fields) && Inv(fields, s) && Guard(fields, s, a)
    ensures Inv(fields, Next(fields, s, a)) && s.files <= Next(fields, s, a).files
  {
    hide Fold, SecretsFit, Submitted, Generated;
    var s' := Next(fields, s, a);
    match a {
      case Submit(press, page, form) => SubmittedFits(fields, s, page, form);
      case Generate(press, name, value) => GeneratedFits(fields, s, s.presses[press], name, value);
      case _ =>
    }
    forall p | p in s'.presses ensures SecretsFit(fields, s', s'.presses[p]) {
      PressFits(fields, s, a, p);
    }
    forall g | g in s'.pages ensures SecretsFit(fields, s', s'.pages[g]) {
      if g in s.pages {
        StillFits(fields, s, s', s.pages[g]);
      } else {
        StillFits(fields, s, s', s.presses[a.press]);
      }
    }
  }

  lemma PressFits(fields: seq<Field>, s: State, a: Action, p: nat)
    requires Apart(fields) && Inv(fields, s) && Guard(fields, s, a) && p in Next(fields, s, a).presses
    ensures SecretsFit(fields, Next(fields, s, a), Next(fields, s, a).presses[p])
  {
    hide Fold, SecretsFit, Submitted, Generated;
    var s' := Next(fields, s, a);
    match a {
      case Submit(press, page, form) => SubmittedFits(fields, s, page, form);
      case Generate(press, name, value) => GeneratedFits(fields, s, s.presses[press], name, value);
      case _ =>
    }
    if p in s.presses && s'.presses[p] == s.presses[p] {
      StillFits(fields, s, s', s.presses[p]);
    } else {
      StillFits(fields, s, s', s'.presses[p]);
    }
  }

  lemma {:induction false} InvThroughout(fields: seq<Field>, ss: seq<State>, acts: seq<Action>, i: nat)
    requires Apart(fields) && IsRun(fields, ss, acts) && i < |ss|
    ensures Inv(fields, ss[i])
    decreases i
  {
    hide Inv, Guard, Next, Apart;
    if i == 0 {
      InitFits(fields, ss[0]);
    } else {
      InvThroughout(fields, ss, acts, i - 1);
      StepKeepsInv(fields, ss[i - 1], acts[i - 1]);
    }
  }

  lemma InitFits(fields: seq<Field>, s: State)
    requires Init(s)
    ensures Inv(fields, s)
  {
  }

  // ---------- what that means ----------

  /** In every interleaving of renders, tests and saves - failed writes included - memory is what is on disk. */
  lemma MemoryAndDiskAgree(fields: seq<Field>, ss: seq<State>, acts: seq<Action>, i: nat)
    requires Apart(fields) && IsRun(fields, ss, acts) && i < |ss|
    ensures ss[i].server.fileValues == ss[i].server.disk
  {
    hide IsRun, Apart, Next, Guard;
    InvThroughout(fields, ss, acts, i);
  }

  /** A blank secret box yields what was typed or generated on its page since the file was last saved, if the wizard still
      holds that page, and otherwise exactly what is on disk - never an older value. */
  lemma BlankSecretKeepsTheRightOne(
    fields: seq<Field>, ss: seq<State>, acts: seq<Action>, i: nat, page: nat, form: string -> string, n: string)
    requires Apart(fields) && IsRun(fields, ss, acts) && i < |ss| && IsSecret(fields, n) && form(n) == ""
    ensures var s := ss[i];
      SpellingOf(Submitted(fields, s, page, form).values, n)
      == if Current(s.server, page) && page in s.pages && n in s.pages[page].overlay then Typed(s.pages[page].overlay[n])
         else SpellingOf(s.server.disk, n)
  {
    InvThroughout(fields, ss, acts, i);
    SubmittedFits(fields, ss[i], page, form);
    hide IsRun, Fold;
  }

  /** A page is current right after it was handed back exactly if no save came since its press folded; and a save makes
      every page out of date. */
  lemma HandedBackIsCurrent(fields: seq<Field>, s: State, press: nat, page: nat)
    requires Inv(fields, s) && Guard(fields, s, HandBack(press, page))
    ensures Current(Next(fields, s, HandBack(press, page)).server, page) <==> s.presses[press].file == s.server.file
    ensures forall id :: !Current(Saved(s.server, s.presses[press].values), id)
  {
    var all := s.server.pending + [PendingForm(page, s.presses[press].values, s.presses[press].file)];
    forall i | 0 <= i < |s.server.pending| ensures s.server.pending[i].id != page {
      assert PendingFits(s, s.server.pending[i]);
    }
    var kept := if |all| > FORMS_KEPT then all[|all| - FORMS_KEPT..] else all;
    assert kept[|kept| - 1] == all[|all| - 1];
    assert forall i :: 0 <= i < |kept| - 1 ==> kept[i].id != page;
  }

  /** What a save writes for a secret nobody typed on its page: what the file held when the press folded. So it leaves the
      secret on disk alone exactly if that is still the same - which a save in between may have changed. */
  lemma SaveWritesTheFoldedFile(fields: seq<Field>, ss: seq<State>, acts: seq<Action>, i: nat, n: string)
    requires Apart(fields) && IsRun(fields, ss, acts) && i < |acts| && acts[i].Save? && acts[i].ok && IsSecret(fields, n)
    ensures var s := ss[i]; var p := s.presses[acts[i].press];
      && p.file < |s.files|
      && SpellingOf(ss[i + 1].server.disk, n) == Expected(s.files[p.file], p.overlay, n)
      && (n !in p.overlay ==>
            (SpellingOf(ss[i + 1].server.disk, n) == SpellingOf(s.server.disk, n) <==>
               SpellingOf(s.files[p.file], n) == SpellingOf(s.server.disk, n)))
      && (n !in p.overlay && p.file == s.server.file ==>
            SpellingOf(ss[i + 1].server.disk, n) == SpellingOf(s.server.disk, n))
  {
    InvThroughout(fields, ss, acts, i);
    assert Guard(fields, ss[i], acts[i]) && ss[i + 1] == Next(fields, ss[i], acts[i]);
    assert SecretsFit(fields, ss[i], ss[i].presses[acts[i].press]);
  }

  const ONE_SECRET := [Field("SECRET", true)]
  const OLD := map["SECRET" := "old"]

  /** Fold and save are separate critical sections: a press that folded before another one's save still overwrites what
      that one saved. */
  lemma StaleFoldOverwrites(blank: string -> string, typed: string -> string) returns (ss: seq<State>)
    requires blank("SECRET") == "" && typed("SECRET") == "new"
    ensures IsRun(ONE_SECRET, ss, [Submit(1, 0, blank), Submit(2, 0, typed), Save(2, true), Save(1, true)])
    ensures ss[0].server.disk == OLD && ss[3].server.disk == map["SECRET" := "new"] && ss[4].server.disk == OLD
  {
    hide Submitted;
    OneSecretFolds(blank, typed);
    var s0 := State(Server(OLD, OLD, [], 0), map[], map[], [OLD]);
    var s1 := Next(ONE_SECRET, s0, Submit(1, 0, blank));
    var s2 := Next(ONE_SECRET, s1, Submit(2, 0, typed));
    var s3 := Next(ONE_SECRET, s2, Save(2, true));
    ss := [s0, s1, s2, s3, Next(ONE_SECRET, s3, Save(1, true))];
    assert s1.server == s0.server && s2.server == s0.server;
    SubmittedValues(s0, blank);
    SubmittedValues(s1, typed);
  }

  lemma SubmittedValues(s: State, form: string -> string)
    requires s.server == Server(OLD, OLD, [], 0)
    ensures Submitted(ONE_SECRET, s, 0, form).values == Fold(OLD, ONE_SECRET, form)
  {
  }

  lemma OneSecretFolds(blank: string -> string, typed: string -> string)
    requires blank("SECRET") == "" && typed("SECRET") == "new"
    ensures Fold(OLD, ONE_SECRET, blank) == OLD && Fold(OLD, ONE_SECRET, typed) == map["SECRET" := "new"]
  {
    assert ONE_SECRET[..0] == [];
    assert Fold(OLD, ONE_SECRET, blank) == AfterField(Fold(OLD, [], blank), ONE_SECRET[0], "") == OLD;
    assert Fold(OLD, ONE_SECRET, typed) == AfterField(Fold(OLD, [], typed), ONE_SECRET[0], "new");
    assert "SECRET" + FILE_SUFFIX !in OLD;
  }
}
