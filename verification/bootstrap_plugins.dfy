/**
  What the plugin host and the shared registries hold in every phase, and why a reload never
  runs beside another load.
*/
module BootstrapPlugins {
  import opened Common
  import opened Bootstrap
  import opened BootstrapControl

  predicate Torn(shut: Shut) {
    !shut.NotShut? && !shut.ShutWaiting? && !shut.ShutProducer? && !shut.ShutTeardown?
  }

  predicate Empty(plug: Plugins) {
    plug.host == [] && plug.registry == []
  }

  predicate Full(cfg: Config, plug: Plugins) {
    plug.host == cfg.plugins && plug.registry == Contributions(cfg)
  }

  predicate Contents(cfg: Config, c: Control, plug: Plugins) {
    && (plug.loaded ==> Full(cfg, plug))
    && (Torn(c.shut) ==> plug == NO_PLUGINS)
    && (c.loadP.None? && !plug.loaded ==> Empty(plug))
    && (c.loadP.Some? && c.loadP.value < |c.promises| ==>
          var pr := c.promises[c.loadP.value];
          match pr.status
          case Rejected => !plug.loaded
          case Fulfilled => plug.loaded || (c.life != Active && Empty(plug))
          case Pending =>
            && !plug.loaded
            && (pr.body.Syncing? ==> Empty(plug))
            && (pr.body.LoadingPlugin? && pr.body.next <= |cfg.plugins| ==>
                  plug.host == cfg.plugins[..pr.body.next] && plug.registry == []))
  }

  predicate Usable(c: Control, plug: Plugins) {
    c.life == Active ==> plug.loaded
  }

  predicate Succeeds(c: Control, p: nat) {
    p < |c.promises| && c.promises[p].status == Fulfilled
  }

  // A reload that got past its load still finds the plugins loaded.
  predicate ReloadOk(c: Control, plug: Plugins, t: nat) {
    t < |c.tasks| &&
    (c.tasks[t].job.PerformReload? ==>
       match c.tasks[t].pc
       case AwaitPlugins(w) =>
         (w.Immediate? || (w.Follow? && Succeeds(c, w.p)) ==> Usable(c, plug))
       case Draining(p) =>
         Usable(c, plug) && Succeeds(c, p) && (c.loadP == None || c.loadP == Some(p))
       case _ => true)
  }

  predicate ReloadsOk(c: Control, plug: Plugins) {
    forall t: nat :: t < |c.tasks| ==> ReloadOk(c, plug, t)
  }

  predicate PlugInv(cfg: Config, c: Control, plug: Plugins) {
    Contents(cfg, c, plug) && ReloadsOk(c, plug)
  }

  // The task's place says nothing about the plugins.
  predicate Quiet(k: Task) {
    k.job.PerformReload? ==> !k.pc.AwaitPlugins? && !k.pc.Draining?
  }

  // A control step that leaves the plugin loads alone.
  predicate LoadsKept(c: Control, c': Control) {
    && c'.loadP == c.loadP && (c'.life == c.life || c'.life != Active)
    && (Torn(c'.shut) ==> Torn(c.shut))
    && |c.promises| <= |c'.promises|
    && (forall q: nat :: q < |c.promises| && c.promises[q].kind == LoadKind ==>
          c'.promises[q].status == c.promises[q].status && c'.promises[q].body == c.promises[q].body)
    && (forall t: nat :: t < |c'.tasks| ==>
          Quiet(c'.tasks[t]) || (t < |c.tasks| && c'.tasks[t] == c.tasks[t]))
  }

  lemma LoadsKeptKeeps(cfg: Config, c: Control, c': Control, plug: Plugins)
    requires CtlInv(cfg, c) && PlugInv(cfg, c, plug) && LoadsKept(c, c')
    ensures PlugInv(cfg, c', plug)
  {
    forall t: nat | t < |c'.tasks| ensures ReloadOk(c', plug, t) {
      assert Quiet(c'.tasks[t]) || (ReloadOk(c, plug, t) && TaskOk(c, t));
    }
  }

  // At most one reload is under way.
  lemma OneReload(cfg: Config, c: Control, t: nat, u: nat)
    requires CtlInv(cfg, c) && t < |c.tasks| && u < |c.tasks|
    requires c.tasks[t].job.PerformReload? && !c.tasks[t].pc.Finished?
    requires c.tasks[u].job.PerformReload? && !c.tasks[u].pc.Finished?
    ensures t == u
  {
    assert TaskOk(c, t) && TaskOk(c, u);
    assert PromiseOk(cfg, c, c.tasks[t].job.reload) && PromiseOk(cfg, c, c.tasks[u].job.reload);
  }

  lemma CallLoadKeeps(cfg: Config, s: State, t: nat, ok: bool)
    requires CtlInv(cfg, s.ctl) && PlugInv(cfg, s.ctl, s.plug) && t < |s.ctl.tasks|
    requires s.ctl.life == Active && Free(s.ctl.tasks[t].pc) && !s.ctl.tasks[t].job.ReloadCall?
    ensures var s' := CallLoad(s, t, ok); CtlInv(cfg, s'.ctl) && PlugInv(cfg, s'.ctl, s'.plug)
  {
    var s' := CallLoad(s, t, ok);
    assert TaskOk(s.ctl, t);
    if s.plug.loaded {
      MoveKeeps(cfg, s.ctl, t, AwaitPlugins(Immediate));
    } else if s.ctl.loadP.Some? {
      MoveKeeps(cfg, s.ctl, t, AwaitPlugins(Follow(s.ctl.loadP.value)));
    } else {
      var started := ok && s.ctl.life == Active && s.res.readReady;
      BeginKeeps(cfg, s.ctl, t, LoadKind, if started then Pending else Rejected, Syncing,
                 AwaitPlugins(Start(|s.ctl.promises|)));
    }
    forall u: nat | u < |s'.ctl.tasks| ensures ReloadOk(s'.ctl, s'.plug, u) {
      CallLoadReload(cfg, s, t, ok, u);
    }
  }

  lemma CallLoadReload(cfg: Config, s: State, t: nat, ok: bool, u: nat)
    requires CtlInv(cfg, s.ctl) && PlugInv(cfg, s.ctl, s.plug) && t < |s.ctl.tasks| && u < |s.ctl.tasks|
    requires s.ctl.life == Active && Free(s.ctl.tasks[t].pc) && !s.ctl.tasks[t].job.ReloadCall?
    ensures var s' := CallLoad(s, t, ok); ReloadOk(s'.ctl, s'.plug, u)
  {
    assert TaskOk(s.ctl, t);
    assert ReloadOk(s.ctl, s.plug, u) && TaskOk(s.ctl, u);
  }

  lemma InstallReloadKeeps(cfg: Config, s: State, t: nat)
    requires CtlInv(cfg, s.ctl) && PlugInv(cfg, s.ctl, s.plug) && t < |s.ctl.tasks|
    requires s.ctl.loadP == None && s.ctl.tasks[t].job.PerformReload? && Free(s.ctl.tasks[t].pc)
    requires !Torn(s.ctl.shut)
    ensures var s' := InstallReload(s, t); CtlInv(cfg, s'.ctl) && PlugInv(cfg, s'.ctl, s'.plug)
  {
    var s' := InstallReload(s, t);
    assert TaskOk(s.ctl, t);
    assert PromiseOk(cfg, s.ctl, s.ctl.tasks[t].job.reload);
    BeginKeeps(cfg, s.ctl, t, LoadKind, Pending, TearingDown, Reloading(|s.ctl.promises|));
    forall u: nat | u < |s'.ctl.tasks| ensures ReloadOk(s'.ctl, s'.plug, u) {
      assert ReloadOk(s.ctl, s.plug, u);
      if u != t && !Quiet(s.ctl.tasks[u]) {
        OneReload(cfg, s.ctl, t, u);
      }
    }
  }

  // A reload that waited for a load in flight finds the slot empty.
  lemma DrainedSlotEmpty(cfg: Config, s: State, t: nat)
    requires CtlInv(cfg, s.ctl) && PlugInv(cfg, s.ctl, s.plug) && CanResumeTask(s.ctl, t)
    requires s.ctl.tasks[t].pc.Draining?
    ensures s.ctl.loadP == None && s.ctl.tasks[t].job.PerformReload?
  {
    assert ReloadOk(s.ctl, s.plug, t) && TaskOk(s.ctl, t);
    assert PromiseOk(cfg, s.ctl, s.ctl.tasks[t].pc.p);
  }

  lemma RollbackKeeps(cfg: Config, s: State, t: nat)
    requires CtlInv(cfg, s.ctl) && PlugInv(cfg, s.ctl, s.plug) && t < |s.ctl.tasks|
    requires s.ctl.tasks[t].pc.RollingBack?
    ensures var s' := ResumeRollback(s, t); CtlInv(cfg, s'.ctl) && PlugInv(cfg, s'.ctl, s'.plug)
  {
    var s' := ResumeRollback(s, t);
    RollbackClearsKeeps(cfg, s.ctl, t);
    assert TaskOk(s.ctl, t);
    assert PromiseOk(cfg, s.ctl, s.ctl.tasks[t].pc.p);
    forall u: nat | u < |s'.ctl.tasks| ensures ReloadOk(s'.ctl, s'.plug, u) {
      assert ReloadOk(s.ctl, s.plug, u) && TaskOk(s.ctl, u);
    }
  }

  // The starter of a load resumes: it clears the slot, or starts to roll back.
  lemma StarterKeeps(cfg: Config, s: State, t: nat, p: nat, pc: Pc)
    requires CtlInv(cfg, s.ctl) && PlugInv(cfg, s.ctl, s.plug) && t < |s.ctl.tasks|
    requires CanResume(s.ctl, Start(p)) && Succeeds(s.ctl, p)
    requires (s.ctl.tasks[t].pc == AwaitPlugins(Start(p)) && pc == AwaitPlugins(Immediate))
             || (s.ctl.tasks[t].pc == Reloading(p) && pc == Reconciling)
    ensures var c' := StarterClears(s.ctl, t, p, pc); CtlInv(cfg, c') && PlugInv(cfg, c', s.plug)
  {
    var c' := StarterClears(s.ctl, t, p, pc);
    assert TaskOk(s.ctl, t);
    StarterClearsKeeps(cfg, s.ctl, t, p, pc);
    forall u: nat | u < |c'.tasks| ensures ReloadOk(c', s.plug, u) {
      assert ReloadOk(s.ctl, s.plug, u) && TaskOk(s.ctl, u);
    }
  }

  lemma BodyKeeps(cfg: Config, s: State, p: nat, c: Choice)
    requires CtlInv(cfg, s.ctl) && PlugInv(cfg, s.ctl, s.plug) && CanStepBody(s.ctl, p)
    requires s.ctl.promises[p].kind == LoadKind
    ensures var s' := DoStepBody(cfg, s, p, c); CtlInv(cfg, s'.ctl) && PlugInv(cfg, s'.ctl, s'.plug)
  {
    var s' := DoStepBody(cfg, s, p, c);
    assert PromiseOk(cfg, s.ctl, p);
    var body := s'.ctl.promises[p].body;
    if s'.ctl.promises[p].status == Pending {
      SetBodyKeeps(cfg, s.ctl, p, body);
    } else {
      SettleKeeps(cfg, s.ctl, p, s'.ctl.promises[p].status);
    }
    BodyKeepsReloads(cfg, s, p, c);
  }

  lemma BodyKeepsReloads(cfg: Config, s: State, p: nat, c: Choice)
    requires CtlInv(cfg, s.ctl) && PlugInv(cfg, s.ctl, s.plug) && CanStepBody(s.ctl, p)
    requires s.ctl.promises[p].kind == LoadKind
    ensures var s' := DoStepBody(cfg, s, p, c);
      |s'.ctl.tasks| == |s.ctl.tasks| && forall u: nat | u < |s.ctl.tasks| :: ReloadOk(s'.ctl, s'.plug, u)
  {
    var s' := DoStepBody(cfg, s, p, c);
    assert PromiseOk(cfg, s.ctl, p);
    forall u: nat | u < |s'.ctl.tasks| ensures ReloadOk(s'.ctl, s'.plug, u) {
      assert ReloadOk(s.ctl, s.plug, u) && TaskOk(s.ctl, u);
    }
  }

  lemma ShutdownKeeps(cfg: Config, s: State)
    requires CtlInv(cfg, s.ctl) && PlugInv(cfg, s.ctl, s.plug) && CanStepShutdown(s.ctl)
    ensures var s' := DoStepShutdown(cfg, s); CtlInv(cfg, s'.ctl) && PlugInv(cfg, s'.ctl, s'.plug)
  {
    var s' := DoStepShutdown(cfg, s);
    StepShutdownKeeps(cfg, s);
    if s.ctl.loadP.Some? {
      NothingPending(cfg, s.ctl, s.ctl.loadP.value);
    }
    forall u: nat | u < |s'.ctl.tasks| ensures ReloadOk(s'.ctl, s'.plug, u) {
      assert ReloadOk(s.ctl, s.plug, u) && TaskOk(s.ctl, u);
    }
  }
}
