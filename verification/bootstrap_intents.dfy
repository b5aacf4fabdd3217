/**
  What calls take, and when they succeed: a read start takes what is configured, no call takes more than its
  intent needs, and where no external call fails every call returns.
*/
module BootstrapIntents {
  import opened Common
  import opened Bootstrap
  import opened BootstrapControl
  import opened BootstrapPlugins
  import opened BootstrapResources
  import opened BootstrapSafety
  import opened BootstrapShutdown
  import opened BootstrapTheorems
  import opened BootstrapOutcomes

  // ---- the read state holds what is configured ----

  predicate Configured(cfg: Config, x: Resource) {
    match x
    case CdnAttachment => cfg.hasCdnPurge
    case Search => cfg.hasSearch
    case AgentStudio => cfg.hasAgentStudio
    case Email => false
    case Producer => false
    case _ => true
  }

  predicate OfRead(x: Resource) { x != Email && x != Producer }

  ghost predicate ReadHeld(cfg: Config, r: Resources) {
    r.readReady ==> r.statics && forall x: Resource | OfRead(x) :: Entry(r, x).owned <==> Configured(cfg, x)
  }

  // The read state is as before, or there is none.
  ghost predicate ReadsStay(r: Resources, r': Resources) {
    r'.readReady ==>
      r.readReady && r'.statics == r.statics && forall x: Resource | OfRead(x) :: Entry(r', x) == Entry(r, x)
  }

  lemma OrderIsConfigured(cfg: Config)
    ensures forall x: Resource | OfRead(x) :: x in AcquireOrder(cfg) <==> Configured(cfg, x)
  {
    var order := AcquireOrder(cfg);
    assert order[0] == Observability && order[1] == Database && order[2] == Cache && order[|order| - 1] == Storage;
    assert cfg.hasCdnPurge ==> order[3] == CdnAttachment;
    assert cfg.hasSearch ==> order[if cfg.hasCdnPurge then 4 else 3] == Search;
    assert cfg.hasAgentStudio ==> order[|order| - 2] == AgentStudio;
  }

  // With no read start in progress and no read state, nothing of it is held.
  lemma NothingHeld(c: Control, r: Resources, x: Resource)
    requires EntryOk(c, r, x) && c.shut.NotShut? && c.readP == None && !r.readReady && OfRead(x)
    ensures !Entry(r, x).owned
  {
  }

  lemma CallReadHolds(cfg: Config, s: State, t: nat, first: bool, outcome: ReadOutcome)
    requires Inv(cfg, s) && s.ctl.life == Active && t < |s.ctl.tasks| && ReadHeld(cfg, s.res)
    ensures ReadHeld(cfg, CallRead(cfg, s, t, first, outcome).res)
  {
    hide AcquireOrder, Acquire, ReleaseAdapters, BeginRelease;
    if !s.res.readReady && s.ctl.readP.None? {
      OrderDistinct(cfg);
      OrderIsConfigured(cfg);
      assert EntryOk(s.ctl, s.res, Email);
      ReadTakenEntry(AcquireOrder(cfg), s.res, outcome, Email);
      forall x: Resource | OfRead(x) && outcome.ReadOk?
        ensures Entry(CallRead(cfg, s, t, first, outcome).res, x).owned <==> Configured(cfg, x)
      {
        assert EntryOk(s.ctl, s.res, x);
        NothingHeld(s.ctl, s.res, x);
        AcquireEntry(s.res, AcquireOrder(cfg), x);
      }
    }
  }

  lemma AfterPluginsStays(s: State, t: nat, intent: Intent, c: Choice)
    requires t < |s.ctl.tasks|
    ensures ReadsStay(s.res, AfterPlugins(s, t, intent, c).res)
  {
    hide Acquire, End;
    forall x: Resource | OfRead(x) ensures Entry(Acquire(s.res, [Email]), x) == Entry(s.res, x) {
      AcquireEntry(s.res, [Email], x);
    }
    AcquireEntry(s.res, [Email], Email);
  }

  lemma ResumePluginsStays(s: State, t: nat, c: Choice)
    requires ReadyTask(s.ctl, t) && s.ctl.tasks[t].pc.AwaitPlugins?
    ensures ReadsStay(s.res, ResumePlugins(s, t, c).res)
  {
    hide AfterPlugins, End;
    if s.ctl.tasks[t].job.EnsureFor? {
      AfterPluginsStays(s, t, s.ctl.tasks[t].job.intent, c);
    }
  }

  lemma StepBodyStays(cfg: Config, s: State, p: nat, c: Choice)
    requires Inv(cfg, s) && CanStepBody(s.ctl, p)
    ensures ReadsStay(s.res, DoStepBody(cfg, s, p, c).res)
  {
    hide Acquire, BeginRelease, EndRelease, PlugInv;
    assert PromiseOk(cfg, s.ctl, p);
    forall x: Resource | OfRead(x) ensures Entry(Acquire(s.res, [Producer]), x) == Entry(s.res, x) {
      AcquireEntry(s.res, [Producer], x);
    }
    AcquireEntry(s.res, [Producer], Email);
    if s.ctl.promises[p].kind == ReadKind {
      RollbackEntry(cfg, s, p, c, Email);
    }
  }

  lemma ResumeHolds(cfg: Config, s: State, t: nat, c: Choice)
    requires Inv(cfg, s) && s.ctl.life == Active && CanResumeTask(s.ctl, t) && ReadHeld(cfg, s.res)
    ensures ReadHeld(cfg, DoResume(cfg, s, t, c).res)
  {
    hide CallRead, ResumePlugins, End, StarterClears, Inv;
    match s.ctl.tasks[t].pc
    case Reading(_, _) => CallReadHolds(cfg, s, t, false, c.read);
    case AwaitPlugins(_) => ResumePluginsStays(s, t, c);
    case _ =>
  }

  lemma NextHolds(cfg: Config, s: State, e: Event)
    requires Inv(cfg, s) && Enabled(true, s, e) && s.ctl.life == Active && ReadHeld(cfg, s.res)
    ensures Next(cfg, s, e).ctl.life == Active ==> ReadHeld(cfg, Next(cfg, s, e).res)
  {
    hide DoResume, DoStepBody, CallRead, CanResumeTask, ReadyTask, CanStepBody, ReadHeld, ReadsStay;
    OrderedIsEnabled(s, e);
    match e
    case CallEnsure(intent, c) =>
      var k := Task(EnsureFor(intent), Reading(true, Immediate));
      AddTaskKeeps(cfg, s.ctl, intent);
      ControlInv(cfg, s, AddTask(s.ctl, k));
      CallReadHolds(cfg, s.(ctl := AddTask(s.ctl, k)), |s.ctl.tasks|, true, c.read);
    case CallReload(c) =>
      AddReloadKeeps(cfg, s.ctl);
      ControlInv(cfg, s, AddReload(s.ctl));
      CallReadHolds(cfg, s.(ctl := AddReload(s.ctl)), |s.ctl.tasks|, false, c.read);
    case Resume(t, c) => ResumeHolds(cfg, s, t, c);
    case StepBody(p, c) =>
      StepBodyStays(cfg, s, p, c);
      StaysHeld(cfg, s.res, DoStepBody(cfg, s, p, c).res);
    case _ =>
  }

  lemma StaysHeld(cfg: Config, r: Resources, r': Resources)
    requires ReadHeld(cfg, r) && ReadsStay(r, r')
    ensures ReadHeld(cfg, r')
  {
  }

  lemma {:induction false} ReadHeldAlways(cfg: Config, es: seq<Event>)
    requires Run(cfg, true, es).Some? && Run(cfg, true, es).value.ctl.life == Active
    ensures ReadHeld(cfg, Run(cfg, true, es).value.res)
  {
    hide Next, Enabled, ReadHeld;
    if es == [] {
      FreshHolds(cfg);
    } else {
      var init, e := es[..|es| - 1], es[|es| - 1];
      var s := Run(cfg, true, init).value;
      RunInv(cfg, init);
      if s.ctl.life != Active {
        StaysInactive(cfg, s, e);
      }
      ReadHeldAlways(cfg, init);
      NextHolds(cfg, s, e);
    }
  }

  lemma FreshHolds(cfg: Config)
    ensures ReadHeld(cfg, INIT.res)
  {
  }

  /** Until a shutdown is asked for, a read state holds exactly the configured resources, and the registrations. */
  lemma ReadyHoldsConfigured(cfg: Config, s: State, x: Resource)
    requires Reachable(cfg, s) && s.ctl.life == Active && s.res.readReady
    ensures s.res.statics && (x != Email && x != Producer ==> (Entry(s.res, x).owned <==> Configured(cfg, x)))
  {
    var es :| Run(cfg, true, es) == Some(s);
    ReadHeldAlways(cfg, es);
  }

  // ---- runs in which nothing fails ----

  // No external call of the step fails, and it is not a call of shutdown.
  predicate GoesWell(e: Event) {
    match e
    case CallShutdown => false
    case StepShutdown => true
    case CallEnsure(_, c) => c.read == ReadOk && c.ok
    case CallReload(c) => c.read == ReadOk && c.ok
    case Resume(_, c) => c.read == ReadOk && c.ok
    case StepBody(_, c) => c.read == ReadOk && c.ok
  }

  predicate FinePromise(s: State, p: nat)
    requires p < |s.ctl.promises|
  {
    var pr := s.ctl.promises[p];
    && pr.status != Rejected && (pr.kind == ReadKind ==> pr.status == Fulfilled)
    && (pr.kind == LoadKind || pr.kind == ProducerKind ==> s.res.readReady)
  }

  predicate FineTask(k: Task) { !k.pc.RollingBack? && k.pc != Finished(false) }

  ghost predicate Fine(s: State) {
    && s.ctl.life == Active
    && (forall p: nat :: p < |s.ctl.promises| ==> FinePromise(s, p))
    && (forall t: nat :: t < |s.ctl.tasks| ==> FineTask(s.ctl.tasks[t]))
  }

  // Whatever a step changed is fine.
  ghost predicate FineStep(s: State, s': State) {
    && s'.ctl.life == Active && (s.res.readReady ==> s'.res.readReady)
    && (forall p: nat :: p < |s'.ctl.promises| ==>
          SamePromise(s.ctl, s'.ctl, p) || FinePromise(s', p))
    && (forall t: nat :: t < |s'.ctl.tasks| ==> SameTask(s.ctl, s'.ctl, t) || FineTask(s'.ctl.tasks[t]))
  }

  lemma FineKept(s: State, s': State)
    requires Fine(s) && FineStep(s, s')
    ensures Fine(s')
  {
    forall p: nat | p < |s'.ctl.promises| ensures FinePromise(s', p) {
      assert SamePromise(s.ctl, s'.ctl, p) ==> FinePromise(s, p);
    }
    forall t: nat | t < |s'.ctl.tasks| ensures FineTask(s'.ctl.tasks[t]) {
      assert SameTask(s.ctl, s'.ctl, t) ==> FineTask(s.ctl.tasks[t]);
    }
  }

  lemma CallReadFine(cfg: Config, s: State, t: nat, first: bool)
    requires Inv(cfg, s) && s.ctl.life == Active && t < |s.ctl.tasks|
    ensures FineStep(s, CallRead(cfg, s, t, first, ReadOk))
  {
    hide AcquireOrder, ReadTaken, Inv;
    ReadTakenGains(cfg, s, ReadOk);
  }

  lemma CallLoadFine(s: State, t: nat)
    requires s.ctl.life == Active && s.res.readReady && t < |s.ctl.tasks|
    ensures FineStep(s, CallLoad(s, t, true))
  {
  }

  lemma AfterPluginsFine(s: State, t: nat, intent: Intent, c: Choice)
    requires s.ctl.life == Active && s.res.readReady && t < |s.ctl.tasks| && c.ok
    requires s.ctl.tasks[t].job == EnsureFor(intent)
    ensures FineStep(s, AfterPlugins(s, t, intent, c))
  {
    hide Acquire;
    AcquireEntry(s.res, [Email], Email);
  }

  // An await of a fine state went well.
  lemma WaitWentWell(s: State, w: Wait)
    requires Fine(s) && Ready(s.ctl, w) && (!w.Immediate? ==> w.p < |s.ctl.promises|)
    ensures Succeeded(s.ctl, w)
  {
    assert !w.Immediate? ==> FinePromise(s, w.p);
  }

  lemma ReadingFine(cfg: Config, s: State, t: nat, c: Choice)
    requires Inv(cfg, s) && Held(s) && Fine(s) && CanResumeTask(s.ctl, t) && s.ctl.tasks[t].pc.Reading?
    requires c.read == ReadOk && c.ok
    ensures FineStep(s, ResumeReading(cfg, s, t, c))
  {
    hide Inv, Held, CallRead, CallLoad, FinePromise;
    var Task(job, Reading(first, w)) := s.ctl.tasks[t];
    WaitHolds(cfg, s, t, w);
    WaitWentWell(s, w);
    if w.Start? {
      StarterFine(s, t, w.p, Reading(first, Immediate));
    } else if first {
      CallReadFine(cfg, s, t, false);
      EndFine(cfg, s, t);
    } else {
      CallLoadFine(s, t);
    }
  }

  lemma StarterFine(s: State, t: nat, p: nat, pc: Pc)
    requires Fine(s) && t < |s.ctl.tasks| && p < |s.ctl.promises| && FineTask(Task(s.ctl.tasks[t].job, pc))
    ensures FineStep(s, s.(ctl := StarterClears(s.ctl, t, p, pc)))
  {
  }

  lemma EndFine(cfg: Config, s: State, t: nat)
    requires Inv(cfg, s) && Fine(s) && t < |s.ctl.tasks|
    ensures FineStep(s, s.(ctl := End(s.ctl, t, Fulfilled)))
  {
    hide PlugInv, ResInv;
    assert TaskOk(s.ctl, t);
  }

  lemma PluginsFine(cfg: Config, s: State, t: nat, c: Choice)
    requires Inv(cfg, s) && Held(s) && Fine(s) && CanResumeTask(s.ctl, t) && s.ctl.tasks[t].pc.AwaitPlugins?
    requires c.read == ReadOk && c.ok
    ensures FineStep(s, ResumePlugins(s, t, c))
  {
    hide Inv, Held, AfterPlugins, InstallReload, FinePromise;
    var Task(job, AwaitPlugins(w)) := s.ctl.tasks[t];
    WaitHolds(cfg, s, t, w);
    WaitWentWell(s, w);
    if w.Start? {
      StarterFine(s, t, w.p, AwaitPlugins(Immediate));
    } else if job.EnsureFor? {
      AfterPluginsFine(s, t, job.intent, c);
    } else if s.ctl.loadP.None? {
      InstallFine(s, t);
    }
  }

  lemma InstallFine(s: State, t: nat)
    requires s.ctl.life == Active && t < |s.ctl.tasks| && s.res.readReady
    ensures FineStep(s, InstallReload(s, t))
  {
  }

  // A reload that waits for a load in flight came past its read.
  lemma DrainingIsReady(cfg: Config, s: State, t: nat)
    requires Inv(cfg, s) && Fine(s) && t < |s.ctl.tasks| && s.ctl.tasks[t].pc.Draining?
    ensures s.res.readReady
  {
    hide PlugInv, ResInv;
    assert TaskOk(s.ctl, t);
    assert FinePromise(s, s.ctl.tasks[t].pc.p);
  }

  lemma OtherResumesFine(cfg: Config, s: State, t: nat)
    requires Inv(cfg, s) && Held(s) && Fine(s) && CanResumeTask(s.ctl, t)
    ensures s.ctl.tasks[t].pc.Reloading? ==> FineStep(s, ResumeReloading(s, t))
    ensures s.ctl.tasks[t].pc.AwaitProducer? ==> FineStep(s, ResumeProducer(s, t))
    ensures s.ctl.tasks[t].pc.AwaitReload? ==> FineStep(s, ResumeReloadCall(s, t, s.ctl.tasks[t].job.reload))
  {
    hide PlugInv, ResInv, Held, FineTask;
    assert TaskOk(s.ctl, t);
    match s.ctl.tasks[t].pc
    case Reloading(p) =>
      WaitWentWell(s, Start(p));
      FineTasks();
      StarterFine(s, t, p, Reconciling);
    case AwaitProducer(w) =>
      WaitWentWell(s, w);
      FineTasks();
      if w.Start? {
        StarterFine(s, t, w.p, AwaitProducer(Immediate));
      } else {
        EndFine(cfg, s, t);
      }
    case AwaitReload =>
      var rp := s.ctl.tasks[t].job.reload;
      FineTasks();
      WaitWentWell(s, Start(rp));
      StarterFine(s, t, rp, Finished(true));
    case _ =>
  }

  lemma FineTasks()
    ensures forall job :: FineTask(Task(job, Reconciling)) && FineTask(Task(job, AwaitProducer(Immediate)))
    ensures forall job :: FineTask(Task(job, Finished(true)))
  {
  }

  lemma ResumeFine(cfg: Config, s: State, t: nat, c: Choice)
    requires Inv(cfg, s) && Held(s) && Fine(s) && CanResumeTask(s.ctl, t) && c.read == ReadOk && c.ok
    ensures FineStep(s, DoResume(cfg, s, t, c))
  {
    hide ResumeReading, ResumePlugins, ResumeReloading, ResumeProducer, ResumeReloadCall, InstallReload, Held, Inv,
      FineStep, End;
    assert FineTask(s.ctl.tasks[t]);
    OtherResumesFine(cfg, s, t);
    match s.ctl.tasks[t].pc
    case Reading(_, _) => ReadingFine(cfg, s, t, c);
    case AwaitPlugins(_) => PluginsFine(cfg, s, t, c);
    case Draining(_) =>
      DrainingIsReady(cfg, s, t);
      InstallFine(s, t);
    case Reconciling => EndFine(cfg, s, t);
    case _ =>
  }

  lemma StepBodyFine(cfg: Config, s: State, p: nat, c: Choice)
    requires Inv(cfg, s) && Fine(s) && CanStepBody(s.ctl, p) && c.ok
    ensures FineStep(s, DoStepBody(cfg, s, p, c))
  {
    hide PlugInv, ResInv, Acquire;
    assert PromiseOk(cfg, s.ctl, p) && FinePromise(s, p);
    AcquireEntry(s.res, [Producer], Email);
  }

  lemma NextFine(cfg: Config, s: State, e: Event)
    requires Inv(cfg, s) && Held(s) && Fine(s) && Enabled(true, s, e) && GoesWell(e)
    ensures Fine(Next(cfg, s, e))
  {
    hide DoResume, DoStepBody, CallRead, CanResumeTask, ReadyTask, CanStepBody, Held, FineStep, FineTask;
    OrderedIsEnabled(s, e);
    LifeFacts(cfg, s);
    match e
    case CallEnsure(intent, c) =>
      var k := Task(EnsureFor(intent), Reading(true, Immediate));
      var s1 := s.(ctl := AddTask(s.ctl, k));
      AddTaskKeeps(cfg, s.ctl, intent);
      ControlInv(cfg, s, s1.ctl);
      AddedFine(s);
      FineKept(s, s1);
      CallReadFine(cfg, s1, |s.ctl.tasks|, true);
      FineKept(s1, Next(cfg, s, e));
    case CallReload(c) =>
      var s1 := s.(ctl := AddReload(s.ctl));
      AddReloadKeeps(cfg, s.ctl);
      ControlInv(cfg, s, s1.ctl);
      AddedFine(s);
      FineKept(s, s1);
      CallReadFine(cfg, s1, |s.ctl.tasks|, false);
      FineKept(s1, Next(cfg, s, e));
    case Resume(t, c) =>
      ResumeFine(cfg, s, t, c);
      FineKept(s, Next(cfg, s, e));
    case StepBody(p, c) =>
      StepBodyFine(cfg, s, p, c);
      FineKept(s, Next(cfg, s, e));
    case _ =>
  }

  lemma AddedFine(s: State)
    requires s.ctl.life == Active
    ensures forall intent ::
      FineStep(s, s.(ctl := AddTask(s.ctl, Task(EnsureFor(intent), Reading(true, Immediate)))))
    ensures FineStep(s, s.(ctl := AddReload(s.ctl)))
  {
  }

  lemma {:induction false} FineAlways(cfg: Config, es: seq<Event>)
    requires Run(cfg, true, es).Some? && forall e <- es :: GoesWell(e)
    ensures Fine(Run(cfg, true, es).value)
  {
    hide Next, Enabled, GoesWell, Held;
    if es != [] {
      var init, e := es[..|es| - 1], es[|es| - 1];
      FineAlways(cfg, init);
      RunInv(cfg, init);
      HeldAlways(cfg, init);
      NextFine(cfg, Run(cfg, true, init).value, e);
    }
  }

  /**
    Where no external call fails and no shutdown is asked for, a call that has ended has returned, with all that
    its intent promises; and without a reload the plugins stay loaded.
  */
  lemma SuccessfulRunsReturn(cfg: Config, es: seq<Event>, t: nat)
    requires Run(cfg, true, es).Some? && forall e <- es :: GoesWell(e)
    requires var s := Run(cfg, true, es).value; t < |s.ctl.tasks| && s.ctl.tasks[t].pc.Finished?
    ensures var (s, k) := (Run(cfg, true, es).value, Run(cfg, true, es).value.ctl.tasks[t]);
      && k.pc == Finished(true) && (k.job.EnsureFor? ==> Achieved(s, k.job.intent))
      && (k.job.EnsureFor? && k.job.intent != IntentRead && (forall u <- s.ctl.tasks :: u.job.EnsureFor?) ==>
            s.plug.loaded)
  {
    hide Run;
    var s := Run(cfg, true, es).value;
    FineAlways(cfg, es);
    assert FineTask(s.ctl.tasks[t]);
    if s.ctl.tasks[t].job.EnsureFor? {
      assert Reachable(cfg, s);
      ReturnedMeansAchieved(cfg, s, t);
    }
  }
}
