/** How internal/config turns settings into a `Config`, counting every problem it finds. */
module ConfigLoad {
  import opened JobTypes
  import opened SessionDesk
  import opened ConfigRules

  /** What `resolve` made of one variable. `Unreadable` (both spellings set, or a bad file) is already one error. */
  datatype Setting = Absent | Unreadable | Given(value: string)

  datatype Number = DefaultNumber | NotANumber | Number(n: int)

  datatype Flag = DefaultFlag | NotAFlag | Flag(on: bool)

  /** `profiles` is None where ParseProfiles refuses the value. The URL rules are None for a URL they refuse. Durations are
      nanoseconds. */
  datatype Settings = Settings(
    profiles: Option<map<string, Capabilities>>, domains: Setting, sender: Setting,
    diEndpoint: Setting, publicBaseUrl: Setting, tenantId: Setting, clientId: Setting, clientSecret: Setting,
    maxMessageBytes: Number, maxStoredBytes: Number, maxConcurrentJobs: Number, jobTtl: Number,
    httpAddr: Setting, smtpAddr: Setting, tempDir: Setting, uiTitle: Setting, logFormat: Setting, logLevel: Setting,
    smtpUsername: Setting, smtpPassword: Setting, smtpAnonymous: Flag,
    authorityUrl: Setting, tokenUrl: Setting, graphBaseUrl: Setting, graphScope: Setting,
    diApiVersion: Setting, diScope: Setting,
    diUrl: string -> Option<string>, publicUrl: string -> Option<string>, anyUrl: string -> Option<string>,
    systemTempDir: string, freshPassword: string)

  /** Who may log in over SMTP. */
  datatype Login = Anonymous | Login(username: string, password: string, generated: bool)

  /** The part of the configuration that decides nothing about senders, recipients or limits. */
  datatype Service = Service(
    httpAddr: string, smtpAddr: string, tempDir: string, uiTitle: string, logFormat: string, logLevel: string,
    login: Login, tenantId: string, clientId: string, clientSecret: string, authorityUrl: string, tokenUrl: string,
    graphBaseUrl: string, graphScope: string, diApiVersion: string, diScope: string,
    jobTtl: int, maxConcurrentJobs: int)

  datatype Loaded = Loaded(config: Config, service: Service)

  const MAX_MESSAGE_BYTES := 33554432
  const MAX_STORED_BYTES := 536870912
  const MAX_CONCURRENT_JOBS := 2
  const MINUTE := 60_000_000_000
  const JOB_TTL := 8 * 60 * MINUTE
  const SCANNER: string := "scanner"
  const GRAPH_URL: string := "https://graph.microsoft.com/v1.0"
  const LOGIN_URL: string := "https://login.microsoftonline.com/"
  const LOG_LEVELS := ["debug", "info", "warn", "warning", "error"]

  function ValueOf(x: Setting): string {
    if x.Given? then x.value else ""
  }

  function Split(s: string, sep: char): (parts: seq<string>)
    ensures parts != []
  {
    if s == "" then [""]
    else
      var rest := Split(s[1..], sep);
      if s[0] == sep then [""] + rest else [[s[0]] + rest[0]] + rest[1..]
  }

  function Join(parts: seq<string>, sep: char): string
    requires parts != []
  {
    if |parts| == 1 then parts[0] else parts[0] + [sep] + Join(parts[1..], sep)
  }

  /** Splitting loses nothing and leaves no separator behind. */
  lemma {:induction false} SplitIsFaithful(s: string, sep: char)
    ensures Join(Split(s, sep), sep) == s
    ensures forall i :: 0 <= i < |Split(s, sep)| ==> sep !in Split(s, sep)[i]
  {
    if s == "" {
    } else {
      SplitIsFaithful(s[1..], sep);
      var rest := Split(s[1..], sep);
      if s[0] == sep {
        assert ([""] + rest)[1..] == rest;
      } else {
        assert ([[s[0]] + rest[0]] + rest[1..])[1..] == rest[1..];
        assert s == [s[0]] + s[1..];
      }
    }
  }

  // ---------- the recipient domain allowlist ----------

  predicate ValidDomain(d: string) {
    && d != "" && |d| <= 253
    && '.' in d && d[0] != '.' && d[|d| - 1] != '.'
    && (forall i :: 0 <= i < |d| - 1 ==> !(d[i] == '.' && d[i + 1] == '.'))
    && (forall i :: 0 <= i < |d| ==> 'a' <= d[i] <= 'z' || '0' <= d[i] <= '9' || d[i] == '.' || d[i] == '-')
  }

  function Clean(part: string): string {
    Lower(TrimSpace(part))
  }

  /** The distinct valid entries, in order of first mention. */
  function Domains(parts: seq<string>): seq<string> {
    if parts == [] then []
    else
      var before := Domains(parts[..|parts| - 1]);
      var d := Clean(parts[|parts| - 1]);
      if d == "" || !ValidDomain(d) || d in before then before else before + [d]
  }

  function BadDomains(parts: seq<string>): nat {
    if parts == [] then 0
    else
      var d := Clean(parts[|parts| - 1]);
      BadDomains(parts[..|parts| - 1]) + if d != "" && !ValidDomain(d) then 1 else 0
  }

  ghost predicate Mentions(parts: seq<string>, d: string) {
    exists i :: 0 <= i < |parts| && Clean(parts[i]) == d
  }

  lemma MentionsOneMore(parts: seq<string>, d: string)
    requires parts != []
    ensures Mentions(parts, d) <==> Mentions(parts[..|parts| - 1], d) || Clean(parts[|parts| - 1]) == d
  {
    hide Clean;
    var init := parts[..|parts| - 1];
    if Mentions(parts, d) {
      var i :| 0 <= i < |parts| && Clean(parts[i]) == d;
      assert i < |init| ==> Clean(init[i]) == d;
    }
    if Mentions(init, d) {
      var i :| 0 <= i < |init| && Clean(init[i]) == d;
      assert Clean(parts[i]) == d;
    }
  }

  /** Exactly the valid entries, each once. */
  lemma {:induction false} DomainsExact(parts: seq<string>)
    ensures forall d :: d in Domains(parts) <==> ValidDomain(d) && Mentions(parts, d)
    ensures forall i, j :: 0 <= i < j < |Domains(parts)| ==> Domains(parts)[i] != Domains(parts)[j]
  {
    hide Clean;
    if parts == [] {
    } else {
      DomainsExact(parts[..|parts| - 1]);
      BlankIsNoDomain();
      hide ValidDomain, Mentions;
      forall d ensures d in Domains(parts) <==> ValidDomain(d) && Mentions(parts, d) {
        MentionsOneMore(parts, d);
      }
    }
  }

  lemma BlankIsNoDomain()
    ensures !ValidDomain("")
  {
  }

  /** No entry is refused exactly when every entry that is not blank is a valid domain. */
  lemma {:induction false} NoBadDomains(parts: seq<string>)
    ensures BadDomains(parts) == 0 <==>
      forall i :: 0 <= i < |parts| ==> Clean(parts[i]) == "" || ValidDomain(Clean(parts[i]))
  {
    if parts == [] {
    } else {
      var n := |parts| - 1;
      NoBadDomains(parts[..n]);
      assert forall i :: 0 <= i < n ==> parts[..n][i] == parts[i];
      hide ValidDomain, Clean;
    }
  }

  // ---------- sender profiles ----------

  predicate Enables(caps: Capabilities) {
    caps.email || caps.web || caps.ocr
  }

  /** Every key is an address, no two are the same address, and every profile does something. */
  ghost predicate ProfilesFit(raw: map<string, Capabilities>) {
    && (forall k :: k in raw ==> NormalizeAddress(k) != "" && Enables(raw[k]))
    && (forall k, k' :: k in raw && k' in raw && k != k' ==> NormalizeAddress(k) != NormalizeAddress(k'))
  }

  ghost predicate ProfilesOf(raw: map<string, Capabilities>, out: map<string, Capabilities>) {
    && (forall k :: k in raw ==> NormalizeAddress(k) in out && out[NormalizeAddress(k)] == raw[k])
    && (forall a :: a in out ==> exists k :: k in raw && NormalizeAddress(k) == a)
  }

  // ---------- capabilities need settings ----------

  predicate Backed(c: Config, caps: Capabilities) {
    && (caps.email ==> c.graphSender != "" && c.allowedDomains != [])
    && (caps.web ==> c.publicBaseUrl != "")
    && (caps.ocr ==> c.diEndpoint != "")
  }

  /** What everything downstream takes for granted about a configuration that loaded. */
  ghost predicate Sound(c: Config) {
    && (forall from :: Profile(c, from).Some? ==> Backed(c, Profile(c, from).value))
    && (forall d :: d in c.allowedDomains ==> ValidDomain(d))
    && 0 < c.maxMessageBytes && 2 * c.maxMessageBytes <= c.maxStoredBytes
  }

  /** A URL that passes has a scheme and a host. */
  ghost predicate UrlsHaveText(x: Settings) {
    forall s :: (x.diUrl(s).Some? ==> x.diUrl(s).value != "") && (x.publicUrl(s).Some? ==> x.publicUrl(s).value != "")
  }

  predicate UrlFits(x: Setting, required: bool, parse: string -> Option<string>) {
    !x.Unreadable? && if ValueOf(x) == "" then !required else parse(ValueOf(x)).Some?
  }

  function UrlOf(x: Setting, parse: string -> Option<string>): string {
    if ValueOf(x) == "" || parse(ValueOf(x)).None? then "" else parse(ValueOf(x)).value
  }

  predicate SenderFits(x: Setting, required: bool) {
    !x.Unreadable? && if ValueOf(x) == "" then !required else NormalizeAddress(ValueOf(x)) != ""
  }

  function AllowedOf(x: Setting): seq<string> {
    if x.Given? then Domains(Split(x.value, ',')) else []
  }

  predicate DomainsFit(x: Setting, required: bool) {
    && !x.Unreadable? && (required ==> AllowedOf(x) != [])
    && (x.Given? ==> forall part :: part in Split(x.value, ',') ==> Clean(part) == "" || ValidDomain(Clean(part)))
  }

  predicate IdentityFits(x: Settings) {
    ValueOf(x.tenantId) != "" && ValueOf(x.clientId) != "" && ValueOf(x.clientSecret) != ""
  }

  function TextOr(x: Setting, fallback: string): string {
    if x.Given? then x.value else fallback
  }

  function WordOf(x: Setting, fallback: string): string {
    if x.Given? then Lower(TrimSpace(x.value)) else fallback
  }

  /** Either nothing is configured, or a non-empty password, or anonymous and nothing else. */
  predicate LoginFits(x: Settings) {
    && !x.smtpUsername.Unreadable? && !x.smtpPassword.Unreadable? && !x.smtpAnonymous.NotAFlag?
    && (x.smtpAnonymous.Flag? && x.smtpAnonymous.on ==> x.smtpUsername.Absent? && x.smtpPassword.Absent?)
    && (x.smtpUsername.Given? ==> x.smtpUsername.value != "" && x.smtpPassword.Given?)
    && (x.smtpPassword.Given? ==> x.smtpPassword.value != "")
  }

  function LoginOf(x: Settings): Login {
    if x.smtpAnonymous.Flag? && x.smtpAnonymous.on then Anonymous
    else if x.smtpPassword.Given? then Login(TextOr(x.smtpUsername, SCANNER), x.smtpPassword.value, false)
    else Login(SCANNER, x.freshPassword, true)
  }

  function TenantUrlOf(x: Settings, s: Setting, suffix: string): string {
    if s.Given? then UrlText(x.anyUrl(s.value))
    else if ValueOf(x.tenantId) == "" then "" else LOGIN_URL + ValueOf(x.tenantId) + suffix
  }

  function UrlText(u: Option<string>): string {
    if u.Some? then u.value else ""
  }

  predicate ServiceFits(x: Settings) {
    && !x.httpAddr.Unreadable? && !x.smtpAddr.Unreadable? && !x.tempDir.Unreadable? && !x.uiTitle.Unreadable?
    && !x.logFormat.Unreadable? && WordOf(x.logFormat, "json") in ["json", "text"]
    && !x.logLevel.Unreadable? && WordOf(x.logLevel, "info") in LOG_LEVELS
    && LoginFits(x) && IdentityFits(x)
    && !x.authorityUrl.Unreadable? && (x.authorityUrl.Given? ==> x.anyUrl(x.authorityUrl.value).Some?)
    && !x.tokenUrl.Unreadable? && (x.tokenUrl.Given? ==> x.anyUrl(x.tokenUrl.value).Some?)
    && !x.graphBaseUrl.Unreadable? && x.anyUrl(TextOr(x.graphBaseUrl, GRAPH_URL)).Some?
    && !x.graphScope.Unreadable? && !x.diApiVersion.Unreadable? && !x.diScope.Unreadable?
    && !x.jobTtl.NotANumber? && Limit(x.jobTtl, JOB_TTL) >= MINUTE
    && !x.maxConcurrentJobs.NotANumber? && 0 < Limit(x.maxConcurrentJobs, MAX_CONCURRENT_JOBS)
  }

  function ServiceOf(x: Settings): Service {
    var title := TrimSpace(TextOr(x.uiTitle, ""));
    Service(
      TextOr(x.httpAddr, ":8080"), TextOr(x.smtpAddr, ":2525"), TextOr(x.tempDir, x.systemTempDir),
      if title == "" then "scan2graph" else title, WordOf(x.logFormat, "json"), WordOf(x.logLevel, "info"),
      LoginOf(x), ValueOf(x.tenantId), ValueOf(x.clientId), ValueOf(x.clientSecret),
      TenantUrlOf(x, x.authorityUrl, "/v2.0"), TenantUrlOf(x, x.tokenUrl, "/oauth2/v2.0/token"),
      UrlText(x.anyUrl(TextOr(x.graphBaseUrl, GRAPH_URL))),
      TextOr(x.graphScope, "https://graph.microsoft.com/.default"),
      TextOr(x.diApiVersion, "2024-11-30"), TextOr(x.diScope, "https://cognitiveservices.azure.com/.default"),
      Limit(x.jobTtl, JOB_TTL), Limit(x.maxConcurrentJobs, MAX_CONCURRENT_JOBS))
  }

  /** What a client of the SMTP server can rely on: it never comes up open by accident, and never with an empty
      password. */
  lemma LoginIsNeverOpenByAccident(x: Settings)
    requires LoginFits(x) && x.freshPassword != ""
    ensures LoginOf(x).Anonymous? <==> x.smtpAnonymous == Flag(true)
    ensures LoginOf(x).Login? ==>
      && LoginOf(x).username != "" && LoginOf(x).password != ""
      && (LoginOf(x).generated <==> x.smtpPassword.Absent?)
  {
  }

  function Limit(x: Number, fallback: int): int {
    if x.Number? then x.n else fallback
  }

  /** Two messages must fit. */
  predicate LimitsFit(x: Settings) {
    var message := Limit(x.maxMessageBytes, MAX_MESSAGE_BYTES);
    var stored := Limit(x.maxStoredBytes, MAX_STORED_BYTES);
    !x.maxMessageBytes.NotANumber? && !x.maxStoredBytes.NotANumber? && 0 < message && 2 * message <= stored
  }

  predicate AnyEmail(profiles: map<string, Capabilities>) {
    exists a :: a in profiles && profiles[a].email
  }

  predicate AnyWeb(profiles: map<string, Capabilities>) {
    exists a :: a in profiles && profiles[a].web
  }

  predicate AnyOcr(profiles: map<string, Capabilities>) {
    exists a :: a in profiles && profiles[a].ocr
  }

  /** With no profile, whatever is configured is what the appliance does - and it must deliver somehow. */
  predicate DefaultFits(x: Settings) {
    var sender := NormalizeAddress(ValueOf(x.sender));
    && (sender != "" ==> AllowedOf(x.domains) != [])
    && (sender != "" || UrlOf(x.publicBaseUrl, x.publicUrl) != "")
  }

  /** The settings Load accepts. */
  ghost predicate Acceptable(x: Settings) {
    && x.profiles.Some? && ProfilesFit(x.profiles.value)
    && UrlFits(x.diEndpoint, AnyOcr(x.profiles.value), x.diUrl)
    && DomainsFit(x.domains, AnyEmail(x.profiles.value))
    && UrlFits(x.publicBaseUrl, AnyWeb(x.profiles.value), x.publicUrl)
    && SenderFits(x.sender, AnyEmail(x.profiles.value))
    && (x.profiles.value == map[] ==> DefaultFits(x))
    && LimitsFit(x) && ServiceFits(x)
  }

  /** The configuration they make. */
  ghost predicate IsLoaded(x: Settings, c: Config)
    requires x.profiles.Some?
  {
    && ProfilesOf(x.profiles.value, c.profiles)
    && c.allowedDomains == AllowedOf(x.domains) && c.graphSender == NormalizeAddress(ValueOf(x.sender))
    && c.publicBaseUrl == UrlOf(x.publicBaseUrl, x.publicUrl) && c.diEndpoint == UrlOf(x.diEndpoint, x.diUrl)
    && c.maxMessageBytes == Limit(x.maxMessageBytes, MAX_MESSAGE_BYTES)
    && c.maxStoredBytes == Limit(x.maxStoredBytes, MAX_STORED_BYTES)
    && (c.profiles == map[] ==>
          c.defaultProfile
          == Capabilities(c.graphSender != "" && c.allowedDomains != [], c.publicBaseUrl != "", c.diEndpoint != ""))
  }

  lemma BlankIsNoAddress()
    ensures NormalizeAddress("") == ""
  {
  }

  lemma OneMoreProfile(done: map<string, Capabilities>, k: string, caps: Capabilities, out: map<string, Capabilities>)
    requires k !in done && (ProfilesFit(done) ==> ProfilesOf(done, out))
    ensures var canon := NormalizeAddress(k);
      ProfilesFit(done[k := caps]) <==> ProfilesFit(done) && canon != "" && Enables(caps) && canon !in out
    ensures ProfilesFit(done[k := caps]) ==> ProfilesOf(done[k := caps], out[NormalizeAddress(k) := caps])
  {
    hide NormalizeAddress;
    var more := done[k := caps];
    if ProfilesFit(more) {
      assert ProfilesFit(done) by {
        forall a | a in done ensures NormalizeAddress(a) != "" && Enables(done[a]) {
          assert a in more && more[a] == done[a];
        }
      }
      assert k in more;
    }
  }

  lemma SameNeeds(raw: map<string, Capabilities>, out: map<string, Capabilities>)
    requires ProfilesOf(raw, out)
    ensures AnyEmail(raw) <==> AnyEmail(out)
    ensures AnyWeb(raw) <==> AnyWeb(out)
    ensures AnyOcr(raw) <==> AnyOcr(out)
    ensures raw == map[] <==> out == map[]
  {
    hide NormalizeAddress;
    forall a | a in out ensures exists k :: k in raw && raw[k] == out[a] {
      var k :| k in raw && NormalizeAddress(k) == a;
    }
  }

  lemma DomainsFitExactly(x: Setting, required: bool)
    ensures DomainsFit(x, required) <==>
      !x.Unreadable? && !(required && AllowedOf(x) == []) && (x.Given? ==> BadDomains(Split(x.value, ',')) == 0)
  {
    hide Clean, ValidDomain, BadDomains, Domains;
    if x.Given? {
      NoBadDomains(Split(x.value, ','));
    }
  }

  lemma LoadedIsSound(x: Settings, c: Config)
    requires UrlsHaveText(x) && Acceptable(x) && IsLoaded(x, c)
    ensures Sound(c)
  {
    hide NormalizeAddress, ValidDomain, Domains;
    if x.domains.Given? {
      DomainsExact(Split(x.domains.value, ','));
    }
    forall from | Profile(c, from).Some? ensures Backed(c, Profile(c, from).value) {
      if c.profiles != map[] {
        var k :| k in x.profiles.value && NormalizeAddress(k) == NormalizeAddress(from);
        assert k in x.profiles.value && x.profiles.value[k] == Profile(c, from).value;
      }
    }
  }

  class Loader {
    var errs: nat

    constructor ()
      ensures errs == 0
    {
      errs := 0;
    }

    method ParseDomains(raw: string) returns (out: seq<string>)
      modifies this
      ensures out == Domains(Split(raw, ',')) && errs == old(errs) + BadDomains(Split(raw, ','))
    {
      var parts := Split(raw, ',');
      out := [];
      var seen: set<string> := {};
      var i := 0;
      while i < |parts|
        invariant 0 <= i <= |parts|
        invariant out == Domains(parts[..i]) && errs == old(errs) + BadDomains(parts[..i])
        invariant seen == set d | d in out
      {
        assert parts[..i + 1][..i] == parts[..i];
        var d := Clean(parts[i]);
        if d == "" {
        } else if !ValidDomain(d) {
          errs := errs + 1;
        } else if d !in seen {
          seen := seen + {d};
          out := out + [d];
        }
        i := i + 1;
      }
      assert parts[..|parts|] == parts;
    }

    method AllowedDomains(x: Setting, required: bool) returns (out: seq<string>)
      modifies this
      ensures out == if x.Given? then Domains(Split(x.value, ',')) else []
      ensures errs == old(errs) + (if x.Unreadable? then 1 else 0) + (if required && out == [] then 1 else 0)
                      + (if x.Given? then BadDomains(Split(x.value, ',')) else 0)
    {
      out := [];
      match x {
        case Given(raw) => out := ParseDomains(raw);
        case Unreadable => errs := errs + 1;
        case Absent =>
      }
      if required && out == [] {
        errs := errs + 1;
      }
    }

    /** The map's iteration order decides neither the verdict nor the profiles. */
    method Profiles(raw: map<string, Capabilities>) returns (out: map<string, Capabilities>)
      modifies this
      ensures old(errs) <= errs && (errs == old(errs) <==> ProfilesFit(raw))
      ensures errs == old(errs) ==> ProfilesOf(raw, out)
    {
      out := map[];
      var todo := raw.Keys;
      while todo != {}
        invariant todo <= raw.Keys && old(errs) <= errs
        invariant errs == old(errs) <==> ProfilesFit(raw - todo)
        invariant errs == old(errs) ==> ProfilesOf(raw - todo, out)
        decreases |todo|
      {
        var k :| k in todo;
        ghost var done := raw - todo;
        todo := todo - {k};
        assert raw - todo == done[k := raw[k]];
        var canon := NormalizeAddress(k);
        OneMoreProfile(done, k, raw[k], out);
        if canon == "" {
          errs := errs + 1;
        } else if !raw[k].email && !raw[k].web && !raw[k].ocr {
          errs := errs + 1;
        } else if canon in out {
          errs := errs + 1;
        } else {
          out := out[canon := raw[k]];
        }
      }
      assert raw - {} == raw;
    }

    /** The value, "" if there is none. */
    method RequiredIf(x: Setting, required: bool) returns (v: string)
      modifies this
      ensures v == ValueOf(x)
      ensures errs == old(errs) + (if x.Unreadable? then 1 else 0) + (if required && v == "" then 1 else 0)
    {
      v := "";
      match x {
        case Given(raw) => v := raw;
        case Unreadable => errs := errs + 1;
        case Absent =>
      }
      if required && v == "" {
        errs := errs + 1;
      }
    }

    method BaseUrl(x: Setting, required: bool, parse: string -> Option<string>) returns (v: string)
      modifies this
      ensures old(errs) <= errs
      ensures errs == old(errs) <==> UrlFits(x, required, parse)
      ensures errs == old(errs) ==> v == UrlOf(x, parse)
    {
      var raw := RequiredIf(x, required);
      v := "";
      if raw != "" {
        var u := parse(raw);
        if u.None? {
          errs := errs + 1;
        } else {
          v := u.value;
        }
      }
    }

    method GraphSender(x: Setting, required: bool) returns (v: string)
      modifies this
      ensures old(errs) <= errs
      ensures errs == old(errs) <==> SenderFits(x, required)
      ensures errs == old(errs) ==> v == NormalizeAddress(ValueOf(x))
    {
      BlankIsNoAddress();
      var raw := RequiredIf(x, required);
      v := "";
      if raw != "" {
        v := NormalizeAddress(raw);
        if v == "" {
          errs := errs + 1;
        }
      }
    }

    method Positive(x: Number, fallback: int) returns (n: int)
      requires 0 < fallback
      modifies this
      ensures n == if x.Number? then x.n else fallback
      ensures errs == old(errs) + if x.NotANumber? || n <= 0 then 1 else 0
    {
      n := fallback;
      match x
      case DefaultNumber =>
      case NotANumber => errs := errs + 1;
      case Number(given) =>
        n := given;
        if n <= 0 {
          errs := errs + 1;
        }
    }

    method Limits(x: Settings) returns (message: int, stored: int)
      modifies this
      ensures message == Limit(x.maxMessageBytes, MAX_MESSAGE_BYTES) && stored == Limit(x.maxStoredBytes, MAX_STORED_BYTES)
      ensures old(errs) <= errs && (errs == old(errs) <==> LimitsFit(x))
    {
      message := Positive(x.maxMessageBytes, MAX_MESSAGE_BYTES);
      stored := Positive(x.maxStoredBytes, MAX_STORED_BYTES);
      if 0 < stored && message > stored / 2 {
        errs := errs + 1;
      }
    }

    method StringDefault(x: Setting, fallback: string) returns (v: string)
      modifies this
      ensures v == TextOr(x, fallback) && errs == old(errs) + if x.Unreadable? then 1 else 0
    {
      v := fallback;
      match x {
        case Given(raw) => v := raw;
        case Unreadable => errs := errs + 1;
        case Absent =>
      }
    }

    /** logFormat and logLevel: one of a few words. */
    method OneOf(x: Setting, fallback: string, words: seq<string>) returns (v: string)
      requires fallback in words
      modifies this
      ensures old(errs) <= errs && (errs == old(errs) <==> !x.Unreadable? && WordOf(x, fallback) in words)
      ensures errs == old(errs) ==> v == WordOf(x, fallback)
    {
      v := fallback;
      match x {
        case Given(raw) =>
          var word := Lower(TrimSpace(raw));
          if word in words {
            v := word;
          } else {
            errs := errs + 1;
          }
        case Unreadable => errs := errs + 1;
        case Absent =>
      }
    }

    method SmtpAuth(x: Settings) returns (login: Login)
      modifies this
      ensures old(errs) <= errs && (errs == old(errs) <==> LoginFits(x))
      ensures errs == old(errs) ==> login == LoginOf(x)
    {
      if x.smtpUsername.Unreadable? {
        errs := errs + 1;
      }
      if x.smtpPassword.Unreadable? {
        errs := errs + 1;
      }
      if x.smtpAnonymous.NotAFlag? {
        errs := errs + 1;
      }
      var anonymous := x.smtpAnonymous.Flag? && x.smtpAnonymous.on;
      if anonymous && (x.smtpUsername.Given? || x.smtpPassword.Given?) {
        errs := errs + 1;
      }
      if anonymous {
        return Anonymous;
      }
      if x.smtpUsername.Given? && !x.smtpPassword.Given? {
        errs := errs + 1;
      }
      if x.smtpPassword.Given? && x.smtpPassword.value == "" {
        errs := errs + 1;
      }
      if x.smtpUsername.Given? && x.smtpUsername.value == "" {
        errs := errs + 1;
      }
      if x.smtpPassword.Given? {
        return Login(if x.smtpUsername.Given? then x.smtpUsername.value else SCANNER, x.smtpPassword.value, false);
      }
      return Login(SCANNER, x.freshPassword, true);
    }

    method TenantUrl(x: Settings, s: Setting, suffix: string) returns (v: string)
      modifies this
      ensures old(errs) <= errs
      ensures errs == old(errs) <==> !s.Unreadable? && (s.Given? ==> x.anyUrl(s.value).Some?)
      ensures errs == old(errs) ==> v == TenantUrlOf(x, s, suffix)
    {
      v := "";
      if s.Unreadable? {
        errs := errs + 1;
      }
      if s.Given? {
        var u := x.anyUrl(s.value);
        if u.None? {
          errs := errs + 1;
        } else {
          v := u.value;
        }
      } else if ValueOf(x.tenantId) != "" {
        v := LOGIN_URL + ValueOf(x.tenantId) + suffix;
      }
    }

    method BaseUrlDefault(x: Setting, fallback: string, parse: string -> Option<string>) returns (v: string)
      modifies this
      ensures old(errs) <= errs
      ensures errs == old(errs) <==> !x.Unreadable? && parse(TextOr(x, fallback)).Some?
      ensures errs == old(errs) ==> v == UrlText(parse(TextOr(x, fallback)))
    {
      var raw := StringDefault(x, fallback);
      var u := parse(raw);
      v := "";
      if u.None? {
        errs := errs + 1;
      } else {
        v := u.value;
      }
    }

    method DurationAtLeast(x: Number, fallback: int, least: int) returns (d: int)
      requires least <= fallback
      modifies this
      ensures old(errs) <= errs && (errs == old(errs) <==> !x.NotANumber? && Limit(x, fallback) >= least)
      ensures errs == old(errs) ==> d == Limit(x, fallback)
    {
      d := fallback;
      match x
      case DefaultNumber =>
      case NotANumber => errs := errs + 1;
      case Number(given) =>
        d := given;
        if given < least {
          errs := errs + 1;
        }
    }

    /** Everything that decides nothing about senders, recipients or limits. */
    method LoadService(x: Settings) returns (s: Service)
      modifies this
      ensures old(errs) <= errs && (errs == old(errs) <==> ServiceFits(x))
      ensures errs == old(errs) ==> s == ServiceOf(x)
    {
      hide TrimSpace, Lower, LoginOf, LoginFits, TenantUrlOf, WordOf;
      var httpAddr := StringDefault(x.httpAddr, ":8080");
      var smtpAddr := StringDefault(x.smtpAddr, ":2525");
      var tempDir := StringDefault(x.tempDir, x.systemTempDir);
      var logFormat := OneOf(x.logFormat, "json", ["json", "text"]);
      var logLevel := OneOf(x.logLevel, "info", LOG_LEVELS);
      var title := StringDefault(x.uiTitle, "");
      var uiTitle := if TrimSpace(title) == "" then "scan2graph" else TrimSpace(title);
      var login := SmtpAuth(x);
      var diApiVersion := StringDefault(x.diApiVersion, "2024-11-30");
      var diScope := StringDefault(x.diScope, "https://cognitiveservices.azure.com/.default");
      var tenantId := RequiredIf(x.tenantId, true);
      var clientId := RequiredIf(x.clientId, true);
      var clientSecret := RequiredIf(x.clientSecret, true);
      var authorityUrl := TenantUrl(x, x.authorityUrl, "/v2.0");
      var tokenUrl := TenantUrl(x, x.tokenUrl, "/oauth2/v2.0/token");
      var graphBaseUrl := BaseUrlDefault(x.graphBaseUrl, GRAPH_URL, x.anyUrl);
      var graphScope := StringDefault(x.graphScope, "https://graph.microsoft.com/.default");
      var jobTtl := DurationAtLeast(x.jobTtl, JOB_TTL, MINUTE);
      var maxConcurrentJobs := Positive(x.maxConcurrentJobs, MAX_CONCURRENT_JOBS);
      s := Service(httpAddr, smtpAddr, tempDir, uiTitle, logFormat, logLevel, login, tenantId, clientId, clientSecret,
                   authorityUrl, tokenUrl, graphBaseUrl, graphScope, diApiVersion, diScope, jobTtl, maxConcurrentJobs);
    }

    /** Loads exactly the acceptable settings, and what it loads is sound. */
    method Load(x: Settings) returns (r: Option<Loaded>)
      requires errs == 0 && UrlsHaveText(x)
      modifies this
      ensures r.Some? <==> Acceptable(x)
      ensures r.Some? ==>
        IsLoaded(x, r.value.config) && Sound(r.value.config) && r.value.service == ServiceOf(x)
    {
      hide NormalizeAddress, ValidDomain, Domains, BadDomains, Clean, Split, ProfilesFit, ProfilesOf, Sound, UrlsHaveText;
      hide AnyEmail, AnyWeb, AnyOcr, DomainsFit, UrlFits, SenderFits, LimitsFit, ServiceFits, ServiceOf;
      var profiles: map<string, Capabilities> := map[];
      if x.profiles.None? {
        errs := errs + 1;
      } else {
        profiles := Profiles(x.profiles.value);
        if errs == 0 {
          SameNeeds(x.profiles.value, profiles);
        }
      }
      var anyEmail, anyWeb, anyOcr := AnyEmail(profiles), AnyWeb(profiles), AnyOcr(profiles);
      var diEndpoint := BaseUrl(x.diEndpoint, anyOcr, x.diUrl);
      var allowed := AllowedDomains(x.domains, anyEmail);
      DomainsFitExactly(x.domains, anyEmail);
      var publicBaseUrl := BaseUrl(x.publicBaseUrl, anyWeb, x.publicUrl);
      var sender := GraphSender(x.sender, anyEmail);
      var default := NO_CAPS;
      if profiles == map[] {
        if sender != "" && allowed == [] {
          errs := errs + 1;
        }
        default := Capabilities(sender != "" && allowed != [], publicBaseUrl != "", diEndpoint != "");
        if !default.email && !default.web {
          errs := errs + 1;
        }
      }
      var service := LoadService(x);
      var message, stored := Limits(x);
      if 0 < errs {
        return None;
      }
      var c := Config(profiles, default, allowed, sender, publicBaseUrl, diEndpoint, message, stored);
      LoadedIsSound(x, c);
      return Some(Loaded(c, service));
    }
  }
}
