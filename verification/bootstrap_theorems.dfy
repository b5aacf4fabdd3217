/** What every interleaving of ensureFor, reloadPlugins and shutdown guarantees. */
module BootstrapTheorems {
  import opened Common
  import opened Bootstrap
  import opened BootstrapControl
  import opened BootstrapPlugins
  import opened BootstrapResources
  import opened BootstrapSafety

  ghost predicate Reachable(cfg: Config, s: State) {
    exists es :: Run(cfg, true, es) == Some(s)
  }

  lemma ReachableInv(cfg: Config, s: State)
    requires Reachable(cfg, s)
    ensures Inv(cfg, s)
  {
    var es :| Run(cfg, true, es) == Some(s);
    RunInv(cfg, es);
  }

  predicate LoadInProgress(s: State, p: nat) {
    IsPromise(s.ctl, p, LoadKind) && s.ctl.promises[p].status == Pending
  }

  /** At most one load body, initial or reload, is in progress. */
  lemma OneLoadAtATime(cfg: Config, s: State, p: nat, q: nat)
    requires Reachable(cfg, s) && LoadInProgress(s, p) && LoadInProgress(s, q)
    ensures p == q
  {
    ReachableInv(cfg, s);
    assert PromiseOk(cfg, s.ctl, p) && PromiseOk(cfg, s.ctl, q);
  }

  /** Whenever the loaded flag is set, every configured plugin and contribution is registered once, in order. */
  lemma LoadedMeansRegisteredOnce(cfg: Config, s: State)
    requires Reachable(cfg, s) && s.plug.loaded
    ensures s.plug.host == cfg.plugins && s.plug.registry == Contributions(cfg)
  {
    ReachableInv(cfg, s);
  }

  /** A load body always starts loading, and registering, from registries at their defaults. */
  lemma RegistersFromDefaults(cfg: Config, s: State, p: nat)
    requires Reachable(cfg, s) && LoadInProgress(s, p) && !s.ctl.promises[p].body.TearingDown?
    ensures !s.plug.loaded && s.plug.registry == [] && s.plug.host <= cfg.plugins
    ensures s.ctl.promises[p].body.Syncing? ==> s.plug.host == []
    ensures s.ctl.promises[p].body == LoadingPlugin(|cfg.plugins|) ==> s.plug.host == cfg.plugins
  {
    ReachableInv(cfg, s);
    assert PromiseOk(cfg, s.ctl, p);
    assert cfg.plugins[..|cfg.plugins|] == cfg.plugins;
  }

  /**
    No resource is released twice, or released without having been acquired. For the CDN purge adapter this is
    about its attachment to the process; BootstrapShutdown counts the calls of its own shutdown.
  */
  lemma ReleasedAtMostOnce(cfg: Config, s: State, x: Resource)
    requires Reachable(cfg, s)
    ensures var l := Entry(s.res, x);
            l.released <= l.acquired <= l.released + 1 && (l.acquired == l.released + 1 ==> l.owned)
  {
    ReachableInv(cfg, s);
    assert EntryOk(s.ctl, s.res, x);
  }

  /** After shutdown everything acquired was released, nothing is installed or loaded, and nothing is pending. */
  lemma ClosedIsClean(cfg: Config, s: State)
    requires Reachable(cfg, s) && s.ctl.life == Closed
    ensures forall x: Resource :: Entry(s.res, x).acquired == Entry(s.res, x).released && !Entry(s.res, x).owned
    ensures !s.res.readReady && !s.res.producerReady && !s.res.statics && s.plug == NO_PLUGINS
    ensures forall p: nat :: p < |s.ctl.promises| ==> s.ctl.promises[p].status != Pending
  {
    ReachableInv(cfg, s);
    forall x: Resource
      ensures Entry(s.res, x).acquired == Entry(s.res, x).released && !Entry(s.res, x).owned
    {
      assert EntryOk(s.ctl, s.res, x);
    }
    forall p: nat | p < |s.ctl.promises| ensures s.ctl.promises[p].status != Pending {
      assert PromiseOk(cfg, s.ctl, p);
    }
  }

  lemma ClosedResume(cfg: Config, s: State, t: nat, c: Choice)
    requires CtlInv(cfg, s.ctl) && s.ctl.life == Closed && CanResumeTask(s.ctl, t) && s.plug == NO_PLUGINS
    ensures var s' := DoResume(cfg, s, t, c);
            && s'.ctl.life == Closed && s'.res == s.res && s'.plug == s.plug
            && |s'.ctl.promises| == |s.ctl.promises|
  {
    assert TaskOk(s.ctl, t);
    assert s.ctl.tasks[t].job.PerformReload? ==> PromiseOk(cfg, s.ctl, s.ctl.tasks[t].job.reload);
  }

  /** Closed is terminal: a late continuation, rollbacks included, changes no resource and no registry. */
  lemma ClosedIsTerminal(cfg: Config, s: State, e: Event)
    requires Reachable(cfg, s) && s.ctl.life == Closed && Enabled(true, s, e)
    ensures var s' := Next(cfg, s, e);
            && s'.ctl.life == Closed && s'.res == s.res && s'.plug == s.plug
            && |s'.ctl.promises| == |s.ctl.promises|
  {
    ReachableInv(cfg, s);
    ClosedIsClean(cfg, s);
    if e.Resume? {
      ClosedResume(cfg, s, e.task, e.c);
    }
  }

  /**
    A failed read start is rolled back completely before a new one can begin, and the next call
    whose start succeeds takes every resource once.
  */
  lemma FailedReadIsRetryable(cfg: Config, s: State, intent: Intent, c: Choice, x: Resource)
    requires Reachable(cfg, s) && s.ctl.life == Active && !s.res.readReady && s.ctl.readP == None
    requires x != Email && x != Producer && c.read == ReadOk
    ensures !Entry(s.res, x).owned && Entry(s.res, x).acquired == Entry(s.res, x).released && !s.res.statics
    ensures var s' := Next(cfg, s, CallEnsure(intent, c));
            && s'.res.readReady && s'.res.statics
            && (x in AcquireOrder(cfg) ==>
                  Entry(s'.res, x).owned && Entry(s'.res, x).acquired == Entry(s.res, x).acquired + 1)
  {
    ReachableInv(cfg, s);
    assert EntryOk(s.ctl, s.res, x);
    OrderDistinct(cfg);
    AcquireEntry(s.res, AcquireOrder(cfg), x);
  }

  // The order in which a shutdown, or the rollback of a read start, takes resources down: the last one first.
  function Layer(x: Resource): nat {
    match x
    case Observability => 0
    case Database => 1
    case Storage => 2
    case Producer => 4
    case _ => 3
  }

  /**
    While a resource is being released, nothing is held any more that is taken down before it. During the rollback
    of a read start this is about what the start itself took.
  */
  lemma DependentsGoFirst(cfg: Config, s: State, x: Resource, y: Resource)
    requires Reachable(cfg, s) && Entry(s.res, y).releasing && Entry(s.res, x).owned
    ensures Layer(x) <= Layer(y) || (Waiting(s.ctl.shut) && (x == Email || x == Producer))
    ensures !Waiting(s.ctl.shut) && y != Producer ==> s.plug == NO_PLUGINS
  {
    hide EntryOk, PromisesOk, Full, Empty, ReloadsOk, TasksOk, SlotsOk, Torn, Waiting;
    ReachableInv(cfg, s);
    assert EntryOk(s.ctl, s.res, x) && EntryOk(s.ctl, s.res, y);
    if !Waiting(s.ctl.shut) {
      NoRollbackLater(cfg, s.ctl);
    }
    LayersByPhase(s.ctl, s.res, x, y);
  }

  // Past the first stage of shutdown no read start is rolled back any more.
  lemma NoRollbackLater(cfg: Config, c: Control)
    requires CtlInv(cfg, c) && !Waiting(c.shut)
    ensures ReadBody(c) == Inert
  {
    if c.readP.Some? && c.readP.value < |c.promises| {
      assert PromiseOk(cfg, c, c.readP.value);
    }
  }

  lemma LayersByPhase(c: Control, r: Resources, x: Resource, y: Resource)
    requires EntryOk(c, r, x) && EntryOk(c, r, y) && (!Waiting(c.shut) ==> ReadBody(c) == Inert)
    requires FlagsOk(c, r) && Entry(r, y).releasing && Entry(r, x).owned
    ensures Layer(x) <= Layer(y) || (Waiting(c.shut) && (x == Email || x == Producer))
    ensures !Waiting(c.shut) && y != Producer ==> Torn(c.shut)
  {
    hide Entry, ReadBody;
  }
}
