/** The session of internal/smtpin/session.go as the mutating object it is: each method is one region under its mutex, and
    the same transition as the move of `SessionDesk` that `Gateway` interleaves. */
module SessionObject {
  import opened JobTypes
  import opened SessionDesk
  import opened Gateway

  /** A desk with this session alone, and at most one call. */
  function Alone(ses: Session, calls: map<Id, Call>): Desk {
    Desk(map[0 := ses], calls, map[], map[], map[])
  }

  function CallAt(rid: Id, gen: nat, pc: DataPc): map<Id, Call> {
    map[rid := Call(0, gen, "", NO_CAPS, [], pc)]
  }

  predicate Distinct(rs: seq<string>) {
    forall i, j :: 0 <= i < j < |rs| ==> rs[i] != rs[j]
  }

  class SmtpSession {
    const cfg: Policy
    var generation: nat
    var holder: Option<Id>
    var staging: Option<Id>
    var profile: string
    var caps: Capabilities
    var recipients: seq<string>
    /** For every call that has taken its snapshot: the generation it was given, and the resets since. */
    ghost var given: map<Id, nat>
    ghost var resetsSince: map<Id, nat>

    ghost predicate Valid()
      reads this
    {
      && given.Keys == resetsSince.Keys
      && (forall r :: r in given ==> given[r] + resetsSince[r] == generation)
      && Distinct(recipients)
      && (forall to :: to in recipients ==> to != "" && cfg.allowed(to))
      && (caps != NO_CAPS ==> exists from :: cfg.profile(from) == Some(caps))
    }

    constructor (cfg: Policy)
      ensures Valid() && this.cfg == cfg && given == map[]
      ensures Now() == Session(0, None, None, "", NO_CAPS, []) && recipients == []
    {
      this.cfg := cfg;
      generation, holder, staging, profile, caps, recipients := 0, None, None, "", NO_CAPS, [];
      given, resetsSince := map[], map[];
    }

    function Now(): Session
      reads this
    {
      Session(generation, holder, staging, profile, caps, recipients)
    }

    /** The mutex, held by a Data call from its hand-over to its end, and while it takes its snapshot. */
    method Lock(rid: Id)
      requires Valid() && holder == None
      modifies this`holder
      ensures Valid() && holder == Some(rid)
    {
      holder := Some(rid);
    }

    method Unlock()
      requires Valid()
      modifies this`holder
      ensures Valid() && holder == None
    {
      holder := None;
    }

    /** Every call under way is one reset further behind; the staging to abort is handed back, once. */
    method Reset() returns (aborted: Option<Id>)
      requires Valid() && holder == None
      modifies this
      ensures Valid() && given == old(given) && holder == None
      ensures forall r :: r in given ==> resetsSince[r] == old(resetsSince)[r] + 1
      ensures aborted == old(staging) && staging == None && recipients == [] && caps == NO_CAPS
      ensures Now() == ApplyMove(Alone(old(Now()), map[]), {}, Move.Reset(0)).sessions[0]
    {
      aborted := staging;
      staging := None;
      generation := generation + 1;
      profile, caps, recipients := "", NO_CAPS, [];
      resetsSince := map r | r in resetsSince :: resetsSince[r] + 1;
    }

    /** Whatever capabilities the session has, some MAIL was granted them. */
    method Mail(from: string) returns (ok: bool)
      requires Valid() && holder == None
      modifies this`profile, this`caps
      ensures Valid() && (ok <==> cfg.profile(from).Some?)
      ensures if ok then cfg.profile(from) == Some(caps) && profile == cfg.canonical(from) else Now() == old(Now())
    {
      var granted := cfg.profile(from);
      if granted.None? {
        return false;
      }
      profile := cfg.canonical(from);
      caps := granted.value;
      return true;
    }

    /** However often and however spelled an address comes, the recipients stay distinct and allowed: an accepted one is
        among them afterwards, a refused one changes nothing. */
    method Rcpt(to: string) returns (ok: bool)
      requires Valid() && holder == None
      modifies this`recipients
      ensures Valid()
      ensures ok <==> cfg.canonical(to) != "" && cfg.allowed(cfg.canonical(to))
      ensures forall r :: r in recipients <==> r in old(recipients) || (ok && r == cfg.canonical(to))
      ensures old(recipients) <= recipients
    {
      var canon := cfg.canonical(to);
      if canon == "" || !cfg.allowed(canon) {
        return false;
      }
      if canon !in recipients {
        recipients := recipients + [canon];
      }
      return true;
    }

    /** Data's first region, once Reserve has succeeded. */
    method Snapshot(rid: Id) returns (gen: nat, from: string, granted: Capabilities, to: seq<string>)
      requires Valid() && holder == Some(rid) && rid !in given
      modifies this`staging, this`holder, this`given, this`resetsSince
      ensures Valid() && holder == None
      ensures given == old(given)[rid := gen] && resetsSince == old(resetsSince)[rid := 0]
      ensures Distinct(to) && forall r :: r in to <==> r in recipients
      ensures from == profile && granted == caps
      ensures Now() == ApplyMove(Alone(old(Now()), CallAt(rid, gen, CheckingClosed)), {}, OpenStaging(rid)).sessions[0]
    {
      gen, from, granted, to := generation, profile, caps, recipients;
      staging := Some(rid);
      holder := None;
      given, resetsSince := given[rid := gen], resetsSince[rid := 0];
    }

    /** Data's second region begins: the call may go on exactly if no Reset came since its snapshot, however many other
        calls have been in between and whatever they did to the slot - which a stale call clears all the same, even with
        a newer call's staging in it. */
    method TakeBack(rid: Id, gen: nat) returns (current: bool)
      requires Valid() && holder == None && rid in given && given[rid] == gen
      modifies this`staging, this`holder
      ensures Valid() && holder == Some(rid) && (current <==> resetsSince[rid] == 0)
      ensures var m := Move.Handover(rid, false, [], "");
        var k' := ApplyMove(Alone(old(Now()), CallAt(rid, gen, Extracting)), {}, m);
        Now() == k'.sessions[0] && (current <==> k'.calls[rid].pc.Statting?)
    {
      holder := Some(rid);
      staging := None;
      current := generation == gen;
    }
  }

  /** A transaction up to its Data call's snapshot: it carries its one recipient, if that is allowed, and nobody else. */
  method Announce(s: SmtpSession, from: string, to: string, rid: Id) returns (gen: nat, carried: seq<string>)
    requires s.Valid() && s.holder == None && s.recipients == [] && rid !in s.given
    modifies s
    ensures s.Valid() && s.holder == None
    ensures s.given == old(s.given)[rid := gen] && s.resetsSince == old(s.resetsSince)[rid := 0]
    ensures forall r :: r in carried <==> r == s.cfg.canonical(to) && r != "" && s.cfg.allowed(r)
  {
    hide ApplyMove, Alone, CallAt, Distinct, SmtpSession.Valid;
    var granted := s.Mail(from);
    var accepted := s.Rcpt(to);
    s.Lock(rid);
    var profile, caps;
    gen, profile, caps, carried := s.Snapshot(rid);
  }

  /** Two Data calls of one connection overlap, with a Reset and a new transaction between their snapshots. The first comes
      back late and clears the slot the second one's staging is in; still it is the first that is given up, and the second
      goes on, with its own transaction's recipient and nobody else's. */
  method OverlappingCalls(cfg: Policy, from: (string, string), to: (string, string), first: Id, second: Id)
    returns (firstGoesOn: bool, secondGoesOn: bool, carried: seq<string>)
    requires first != second
    ensures !firstGoesOn && secondGoesOn
    ensures forall r :: r in carried <==> r == cfg.canonical(to.1) && r != "" && cfg.allowed(r)
  {
    hide ApplyMove, Alone, CallAt, Distinct, SmtpSession.Valid;
    var s := new SmtpSession(cfg);
    var gen, before := Announce(s, from.0, to.0, first);
    var aborted := s.Reset();
    var gen';
    gen', carried := Announce(s, from.1, to.1, second);
    firstGoesOn := s.TakeBack(first, gen);
    s.Unlock();
    secondGoesOn := s.TakeBack(second, gen');
  }
}
