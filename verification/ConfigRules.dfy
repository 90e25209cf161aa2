/** Which senders and recipients the configuration lets in (internal/config/config.go). */
module ConfigRules {
  import opened JobTypes

  datatype Config = Config(
    profiles: map<string, Capabilities>, defaultProfile: Capabilities, allowedDomains: seq<string>,
    graphSender: string, publicBaseUrl: string, diEndpoint: string,
    maxMessageBytes: int, maxStoredBytes: int)

  predicate IsSpace(c: char) {
    c in {'\t', '\n', '\U{0B}', '\U{0C}', '\r', ' ', '\U{85}', '\U{A0}', '\U{1680}', '\U{2028}', '\U{2029}',
          '\U{202F}', '\U{205F}', '\U{3000}'}
    || '\U{2000}' <= c <= '\U{200A}'
  }

  predicate IsControl(c: char) {
    c < ' ' || '\U{7F}' <= c <= '\U{9F}'
  }

  function TrimLeft(s: string): (t: string)
    ensures |t| <= |s|
  {
    if s != [] && IsSpace(s[0]) then TrimLeft(s[1..]) else s
  }

  function TrimRight(s: string): (t: string)
    ensures |t| <= |s|
  {
    if s != [] && IsSpace(s[|s| - 1]) then TrimRight(s[..|s| - 1]) else s
  }

  function TrimSpace(s: string): string {
    TrimRight(TrimLeft(s))
  }

  /** strings.ToLower over the ASCII letters a mail domain is spelled in. */
  function Lower(s: string): (t: string)
    ensures |t| == |s|
  {
    seq(|s|, i requires 0 <= i < |s| =>
      if 'A' <= s[i] <= 'Z' then ((s[i] as int) + 32) as char else s[i])
  }

  /** Index of the first `c`, or the length. */
  function Find(s: string, c: char): (i: nat)
    ensures i <= |s|
    ensures i < |s| ==> s[i] == c
    ensures forall k :: 0 <= k < i ==> s[k] != c
  {
    if s == [] || s[0] == c then 0 else 1 + Find(s[1..], c)
  }

  function Unbracketed(s: string): string {
    var t := TrimSpace(s);
    if |t| >= 2 && t[0] == '<' && t[|t| - 1] == '>' then TrimSpace(t[1..|t| - 1]) else t
  }

  /** Exactly one "@" between a local part and a domain with a dot in it, nothing blank, at most 254 long. */
  predicate Plausible(s: string) {
    var at := Find(s, '@');
    && s != "" && |s| <= 254
    && (forall i :: 0 <= i < |s| ==> !IsSpace(s[i]) && !IsControl(s[i]))
    && 0 < at < |s| - 1
    && (forall i :: at < i < |s| ==> s[i] != '@')
    && '.' in s[at + 1..]
  }

  function NormalizeAddress(s: string): string {
    var t := Unbracketed(s);
    if Plausible(t) then Lower(t) else ""
  }

  function Profile(c: Config, envelopeSender: string): Option<Capabilities> {
    var n := NormalizeAddress(envelopeSender);
    if n == "" then None
    else if c.profiles == map[] then Some(c.defaultProfile)
    else if n in c.profiles then Some(c.profiles[n])
    else None
  }

  /** What comes after the last "@", if there is one. */
  function DomainOf(address: string): (d: Option<string>)
    decreases address
  {
    if address == "" then None
    else if address[0] == '@' then
      var later := DomainOf(address[1..]);
      if later.Some? then later else Some(address[1..])
    else DomainOf(address[1..])
  }

  predicate RecipientAllowed(c: Config, canonical: string) {
    c.allowedDomains == [] ||
    (DomainOf(canonical).Some? && Lower(DomainOf(canonical).value) in c.allowedDomains)
  }
}
