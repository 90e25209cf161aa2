/** The gateway under a configuration that loaded: every job can do what it is asked to, and nobody outside the
    allowlist is ever mailed. */
module GatewayConfigured {
  import opened JobTypes
  import opened SessionDesk
  import opened ConfigRules
  import opened ConfigLoad
  import opened Gateway
  import opened GatewayMail
  import opened GatewayLicense
  import opened GatewayRuns

  /** What a session asks of a configuration. */
  ghost function PolicyOf(c: Config): Policy {
    Policy(s => NormalizeAddress(s), from => Profile(c, from), to => RecipientAllowed(c, to),
           c.maxMessageBytes, c.maxStoredBytes)
  }

  /** On the allowlist, which is not empty. */
  predicate OnAllowlist(c: Config, address: string) {
    c.allowedDomains != [] && DomainOf(address).Some? && Lower(DomainOf(address).value) in c.allowedDomains
  }

  ghost predicate Deliverable(c: Config, job: Job) {
    && Backed(c, job.caps)
    && (forall i, j :: 0 <= i < j < |job.recipients| ==> job.recipients[i] != job.recipients[j])
    && (job.caps.email ==> forall i :: 0 <= i < |job.recipients| ==> OnAllowlist(c, job.recipients[i]))
  }

  lemma LicensedIsDeliverable(c: Config, job: Job)
    requires Sound(c) && JobLicensed(PolicyOf(c), job)
    ensures Deliverable(c, job)
  {
    hide NormalizeAddress, DomainOf, Lower, ValidDomain;
    assert Granted(PolicyOf(c), job.caps);
    assert Backed(c, job.caps) by {
      if job.caps != NO_CAPS {
        var from :| Profile(c, from).Some? && Profile(c, from).value == job.caps;
      }
    }
    forall i | 0 <= i < |job.recipients| && job.caps.email ensures OnAllowlist(c, job.recipients[i]) {
      assert RecipientAllowed(c, job.recipients[i]);
    }
  }

  /** Under any configuration Load accepts and in any interleaving: every job on the books asks only for what is
      configured; with email its recipients are distinct and on a non-empty allowlist; and so are those of every message
      the mailer was ever asked to send. */
  lemma NobodyElseIsMailed(x: Settings, c: Config, ss: seq<System>, acts: seq<Action>, i: nat, id: Id)
    requires UrlsHaveText(x) && Acceptable(x) && IsLoaded(x, c)
    requires IsRun(ss, acts) && i < |ss| && ss[0].cfg == PolicyOf(c)
    ensures id in ss[i].world.store.jobs ==> Deliverable(c, ss[i].world.store.jobs[id].job)
    ensures id in ss[i].mail ==>
      forall m :: m in ss[i].mail[id].scans || m in ss[i].mail[id].notices ==>
        Deliverable(c, m) && forall to :: to in m.recipients ==> OnAllowlist(c, to)
  {
    hide IsRun, UrlsHaveText, Acceptable, IsLoaded, Sound, JobLicensed, PolicyOf, OnAllowlist;
    LoadedIsSound(x, c);
    OnlyLicensedMail(ss, acts, i, id);
    MailIsSentAtMostOnce(ss, acts, i, id);
    if id in ss[i].world.store.jobs {
      LicensedIsDeliverable(c, ss[i].world.store.jobs[id].job);
    }
    if id in ss[i].mail {
      forall m | m in ss[i].mail[id].scans || m in ss[i].mail[id].notices
        ensures Deliverable(c, m) && forall to :: to in m.recipients ==> OnAllowlist(c, to)
      {
        LicensedIsDeliverable(c, m);
      }
    }
  }
}
