/**
  The CDN purge adapter is shut down by every completed shutdown that was given one, whether or not a read start
  ever attached it to the process; a rollback only detaches it.
*/
module BootstrapShutdown {
  import opened Common
  import opened Bootstrap
  import opened BootstrapControl
  import opened BootstrapResources
  import opened BootstrapTheorems

  // Shutdown has called the adapter's own shutdown.
  predicate PastCdn(shut: Shut) {
    match shut
    case ShutCdn => true
    case ShutStorage => true
    case ShutDatabase => true
    case ShutObservability => true
    case ShutDone => true
    case _ => false
  }

  predicate CountedOnce(cfg: Config, s: State) {
    s.res.cdnShutdowns == if cfg.hasCdnPurge && PastCdn(s.ctl.shut) then 1 else 0
  }

  // A step that does not belong to shutdown.
  predicate Apart(s: State, s': State) {
    s'.ctl.shut == s.ctl.shut && s'.res.cdnShutdowns == s.res.cdnShutdowns
  }

  lemma ReadTakenApart(cfg: Config, r: Resources, outcome: ReadOutcome)
    ensures ReadTaken(AcquireOrder(cfg), r, outcome).cdnShutdowns == r.cdnShutdowns
  {
    hide Acquire, ReleaseAdapters, BeginRelease, AcquireOrder;
    OrderDistinct(cfg);
    var taken := Acquire(r, TakenBy(AcquireOrder(cfg), outcome));
    AcquireEntry(r, TakenBy(AcquireOrder(cfg), outcome), Cache);
    AdaptersEntry(taken, Cache);
    BeginReleaseEntry(ReleaseAdapters(taken), Storage, Cache);
  }

  lemma CallReadApart(cfg: Config, s: State, t: nat, first: bool, outcome: ReadOutcome)
    requires t < |s.ctl.tasks|
    ensures Apart(s, CallRead(cfg, s, t, first, outcome))
  {
    hide ReadTaken, AcquireOrder;
    ReadTakenApart(cfg, s.res, outcome);
  }

  lemma AfterPluginsApart(s: State, t: nat, intent: Intent, c: Choice)
    requires t < |s.ctl.tasks|
    ensures Apart(s, AfterPlugins(s, t, intent, c))
  {
    hide Acquire;
    AcquireEntry(s.res, [Email], Cache);
  }

  lemma ResumePluginsApart(s: State, t: nat, c: Choice)
    requires ReadyTask(s.ctl, t) && s.ctl.tasks[t].pc.AwaitPlugins?
    ensures Apart(s, ResumePlugins(s, t, c))
  {
    hide AfterPlugins;
    if s.ctl.tasks[t].job.EnsureFor? {
      AfterPluginsApart(s, t, s.ctl.tasks[t].job.intent, c);
    }
  }

  lemma ResumeReadingApart(cfg: Config, s: State, t: nat, c: Choice)
    requires ReadyTask(s.ctl, t) && s.ctl.tasks[t].pc.Reading?
    ensures Apart(s, ResumeReading(cfg, s, t, c))
  {
    hide CallRead;
    CallReadApart(cfg, s, t, false, c.read);
  }

  lemma ResumeApart(cfg: Config, s: State, t: nat, c: Choice)
    requires ReadyTask(s.ctl, t)
    ensures Apart(s, DoResume(cfg, s, t, c))
  {
    hide ResumeReading, ResumePlugins;
    match s.ctl.tasks[t].pc
    case Reading(_, _) => ResumeReadingApart(cfg, s, t, c);
    case AwaitPlugins(_) => ResumePluginsApart(s, t, c);
    case _ =>
  }

  lemma StepBodyApart(cfg: Config, s: State, p: nat, c: Choice)
    requires CanStepBody(s.ctl, p)
    ensures Apart(s, DoStepBody(cfg, s, p, c))
  {
    hide Acquire;
    AcquireEntry(s.res, [Producer], Cache);
  }

  lemma ShutdownCounts(cfg: Config, s: State)
    requires CountedOnce(cfg, s) && CanStepShutdown(s.ctl)
    ensures CountedOnce(cfg, DoStepShutdown(cfg, s))
  {
    hide ReleaseAdapters, BeginRelease, EndRelease, CanStepShutdown;
    ShutCount(cfg, s.ctl.shut, s.res);
  }

  lemma ShutCount(cfg: Config, shut: Shut, r: Resources)
    ensures ShutRes(cfg, shut, r).cdnShutdowns ==
      r.cdnShutdowns + if shut.ShutSearch? && cfg.hasCdnPurge then 1 else 0
  {
    hide ReleaseAdapters;
    AdaptersEntry(r, Cache);
  }

  lemma NextCounts(cfg: Config, s: State, e: Event)
    requires CountedOnce(cfg, s) && Enabled(false, s, e)
    ensures CountedOnce(cfg, Next(cfg, s, e))
  {
    hide CallRead, DoResume, DoStepBody, DoStepShutdown, ReadyTask, CanStepBody, CanStepShutdown;
    match e
    case CallEnsure(intent, c) =>
      var k := Task(EnsureFor(intent), Reading(true, Immediate));
      CallReadApart(cfg, s.(ctl := AddTask(s.ctl, k)), |s.ctl.tasks|, true, c.read);
    case CallReload(c) => CallReadApart(cfg, s.(ctl := AddReload(s.ctl)), |s.ctl.tasks|, false, c.read);
    case CallShutdown =>
    case Resume(t, c) => ResumeApart(cfg, s, t, c);
    case StepBody(p, c) => StepBodyApart(cfg, s, p, c);
    case StepShutdown => ShutdownCounts(cfg, s);
  }

  lemma OrderedIsEnabled(s: State, e: Event)
    requires Enabled(true, s, e)
    ensures Enabled(false, s, e)
  {
  }

  /** In every run the adapter's shutdown is called once, by the step after the search adapter's, and never before. */
  lemma {:induction false} CdnShutDownOnce(cfg: Config, es: seq<Event>)
    requires Run(cfg, true, es).Some?
    ensures var s := Run(cfg, true, es).value;
      s.res.cdnShutdowns == if cfg.hasCdnPurge && PastCdn(s.ctl.shut) then 1 else 0
  {
    hide Next, Enabled, PastCdn;
    if es == [] {
      FreshCount();
    } else {
      var init, e := es[..|es| - 1], es[|es| - 1];
      CdnShutDownOnce(cfg, init);
      OrderedIsEnabled(Run(cfg, true, init).value, e);
      NextCounts(cfg, Run(cfg, true, init).value, e);
    }
  }

  lemma FreshCount()
    ensures !PastCdn(INIT.ctl.shut) && INIT.res.cdnShutdowns == 0
  {
  }

  /**
    Once closed: the adapter's shutdown was called exactly when there is an adapter, and so more often than the
    adapter was attached exactly when there is one that no read start attached.
  */
  lemma ClosedShutsCdnDown(cfg: Config, s: State)
    requires Reachable(cfg, s) && s.ctl.life == Closed
    ensures s.res.cdnShutdowns == if cfg.hasCdnPurge then 1 else 0
    ensures s.res.cdnShutdowns > Entry(s.res, CdnAttachment).acquired
      <==> cfg.hasCdnPurge && Entry(s.res, CdnAttachment).acquired == 0
  {
    var es :| Run(cfg, true, es) == Some(s);
    CdnShutDownOnce(cfg, es);
    ReachableInv(cfg, s);
  }

  // ---- a shutdown with nothing started ----

  function ShutdownOnly(n: nat): seq<Event> {
    if n == 0 then [CallShutdown] else ShutdownOnly(n - 1) + [StepShutdown]
  }

  function ShutAfter(n: nat): Shut {
    if n == 0 then ShutWaiting({}) else NextShut(ShutAfter(n - 1))
  }

  predicate Unattached(s: State, n: nat) {
    s.ctl.shut == ShutAfter(n) && Entry(s.res, CdnAttachment).acquired == 0
  }

  lemma ShutdownOnlyStep(cfg: Config, s: State, n: nat)
    requires n < 8 && Unattached(s, n)
    ensures Enabled(true, s, StepShutdown) && Unattached(Next(cfg, s, StepShutdown), n + 1)
  {
    hide ShutRes, Entry;
    StillOpen(n);
    ShutResEntry(cfg, s.ctl.shut, s.res, CdnAttachment);
  }

  lemma ShutdownCalled(cfg: Config)
    ensures Enabled(true, INIT, CallShutdown) && Unattached(Next(cfg, INIT, CallShutdown), 0)
  {
  }

  lemma {:induction false} ShutdownOnlyRuns(cfg: Config, n: nat)
    requires n <= 8
    ensures Run(cfg, true, ShutdownOnly(n)).Some?
    ensures Unattached(Run(cfg, true, ShutdownOnly(n)).value, n)
  {
    hide Next, Enabled, Unattached, ShutAfter;
    if n == 0 {
      ShutdownCalled(cfg);
      assert ShutdownOnly(0)[..0] == [];
    } else {
      ShutdownOnlyRuns(cfg, n - 1);
      assert ShutdownOnly(n)[..|ShutdownOnly(n)| - 1] == ShutdownOnly(n - 1);
      ShutdownOnlyStep(cfg, Run(cfg, true, ShutdownOnly(n - 1)).value, n - 1);
    }
  }

  lemma StillOpen(n: nat)
    requires n < 8
    ensures var shut := ShutAfter(n); !shut.NotShut? && !shut.ShutDone? && (shut.ShutWaiting? ==> shut.pending == {})
  {
    LastSteps();
  }

  lemma LastSteps()
    ensures ShutAfter(1) == ShutProducer && ShutAfter(2) == ShutTeardown && ShutAfter(3) == ShutSearch
    ensures ShutAfter(4) == ShutCdn && ShutAfter(5) == ShutStorage && ShutAfter(6) == ShutDatabase
    ensures ShutAfter(7) == ShutObservability && ShutAfter(8) == ShutDone
  {
  }

  /** Without any read, the run of shutdown alone closes and shuts down an adapter that was never attached. */
  lemma UnusedCdnIsShutDown(cfg: Config)
    requires cfg.hasCdnPurge
    ensures Run(cfg, true, ShutdownOnly(8)).Some?
    ensures var s := Run(cfg, true, ShutdownOnly(8)).value;
      s.ctl.life == Closed && Entry(s.res, CdnAttachment).acquired == 0 && s.res.cdnShutdowns == 1
  {
    hide Run;
    ShutdownOnlyRuns(cfg, 8);
    LastSteps();
    var s := Run(cfg, true, ShutdownOnly(8)).value;
    assert Reachable(cfg, s);
    ReachableInv(cfg, s);
    ClosedShutsCdnDown(cfg, s);
  }
}
