/** The invariant holds after every run; the theorems about all interleavings follow from it. */
module BootstrapSafety {
  import opened Common
  import opened Bootstrap
  import opened BootstrapControl
  import opened BootstrapPlugins
  import opened BootstrapResources

  ghost predicate Inv(cfg: Config, s: State) {
    CtlInv(cfg, s.ctl) && PlugInv(cfg, s.ctl, s.plug) && ResInv(s.ctl, s.res)
  }

  // A control step that leaves read starts and producer starts alone.
  predicate ReadsKept(c: Control, c': Control) {
    c'.shut == c.shut && ReadBody(c') == ReadBody(c) && (ProducerPending(c') ==> ProducerPending(c))
  }

  lemma ReadsKeptKeeps(c: Control, c': Control, r: Resources)
    requires ResInv(c, r) && ReadsKept(c, c')
    ensures ResInv(c', r)
  {
    forall x: Resource ensures EntryOk(c', r, x) {
      assert EntryOk(c, r, x);
    }
  }

  // Only the control part changes, and neither loads nor starts are touched.
  lemma ControlInv(cfg: Config, s: State, c': Control)
    requires Inv(cfg, s) && CtlInv(cfg, c') && LoadsKept(s.ctl, c') && ReadsKept(s.ctl, c')
    ensures Inv(cfg, s.(ctl := c'))
  {
    LoadsKeptKeeps(cfg, s.ctl, c', s.plug);
    ReadsKeptKeeps(s.ctl, c', s.res);
  }

  lemma EndInv(cfg: Config, s: State, t: nat, status: Status)
    requires Inv(cfg, s) && t < |s.ctl.tasks| && Free(s.ctl.tasks[t].pc) && status != Pending
    ensures Inv(cfg, s.(ctl := End(s.ctl, t, status)))
  {
    assert TaskOk(s.ctl, t);
    EndKeeps(cfg, s.ctl, t, status);
    ControlInv(cfg, s, End(s.ctl, t, status));
  }

  lemma CallReadLoads(cfg: Config, s: State, t: nat, first: bool, outcome: ReadOutcome)
    requires CtlInv(cfg, s.ctl) && t < |s.ctl.tasks| && Free(s.ctl.tasks[t].pc)
    ensures LoadsKept(s.ctl, CallRead(cfg, s, t, first, outcome).ctl)
    ensures CallRead(cfg, s, t, first, outcome).plug == s.plug
  {
    hide ReadTaken, AcquireOrder;
  }

  lemma CallReadInv(cfg: Config, s: State, t: nat, first: bool, outcome: ReadOutcome)
    requires Inv(cfg, s) && s.ctl.life == Active && t < |s.ctl.tasks| && Free(s.ctl.tasks[t].pc)
    requires if first then s.ctl.tasks[t].job.EnsureFor? else !s.ctl.tasks[t].job.ReloadCall?
    ensures Inv(cfg, CallRead(cfg, s, t, first, outcome))
  {
    hide CtlInv, PlugInv, ResInv, LoadsKept, CallRead;
    var s' := CallRead(cfg, s, t, first, outcome);
    CallReadKeeps(cfg, s, t, first, outcome);
    CallReadResources(cfg, s, t, first, outcome);
    CallReadLoads(cfg, s, t, first, outcome);
    LoadsKeptKeeps(cfg, s.ctl, s'.ctl, s.plug);
  }

  // The call that began the read start resumes first.
  lemma StartedReadingInv(cfg: Config, s: State, t: nat, first: bool, p: nat)
    requires Inv(cfg, s) && CanResumeTask(s.ctl, t) && s.ctl.tasks[t].pc == Reading(first, Start(p))
    requires p < |s.ctl.promises|
    ensures var c1 := StarterClears(s.ctl, t, p, Reading(first, Immediate));
      Inv(cfg, s.(ctl := c1)) && t < |c1.tasks| && Free(c1.tasks[t].pc)
  {
    assert TaskOk(s.ctl, t) && PromiseOk(cfg, s.ctl, p);
    StarterClearsKeeps(cfg, s.ctl, t, p, Reading(first, Immediate));
    ControlInv(cfg, s, StarterClears(s.ctl, t, p, Reading(first, Immediate)));
  }

  lemma ReadingFacts(cfg: Config, s: State, t: nat)
    requires Inv(cfg, s) && CanResumeTask(s.ctl, t) && s.ctl.tasks[t].pc.Reading?
    ensures var Task(job, Reading(first, w)) := s.ctl.tasks[t];
      && Ready(s.ctl, w) && (if first then job.EnsureFor? else !job.ReloadCall?)
      && (if w.Start? then w.p < |s.ctl.promises| else Free(s.ctl.tasks[t].pc))
  {
    assert TaskOk(s.ctl, t);
  }

  lemma CallLoadInv(cfg: Config, s: State, t: nat, ok: bool)
    requires Inv(cfg, s) && t < |s.ctl.tasks|
    requires s.ctl.life == Active && Free(s.ctl.tasks[t].pc) && !s.ctl.tasks[t].job.ReloadCall?
    ensures Inv(cfg, CallLoad(s, t, ok))
  {
    CallLoadKeeps(cfg, s, t, ok);
    ReadsKeptKeeps(s.ctl, CallLoad(s, t, ok).ctl, s.res);
  }

  lemma ResumeReadingInv(cfg: Config, s: State, t: nat, c: Choice)
    requires Inv(cfg, s) && CanResumeTask(s.ctl, t) && s.ctl.tasks[t].pc.Reading?
    ensures Inv(cfg, ResumeReading(cfg, s, t, c))
  {
    hide Inv, StarterClears, CallRead, CallLoad, End;
    ReadingFacts(cfg, s, t);
    var Task(job, Reading(first, w)) := s.ctl.tasks[t];
    if w.Start? {
      var c1 := StarterClears(s.ctl, t, w.p, Reading(first, Immediate));
      StartedReadingInv(cfg, s, t, first, w.p);
      EndInv(cfg, s.(ctl := c1), t, Rejected);
    } else {
      EndInv(cfg, s, t, Rejected);
      EndInv(cfg, s, t, Fulfilled);
      if s.ctl.life == Active {
        if first {
          CallReadInv(cfg, s, t, false, c.read);
        } else {
          CallLoadInv(cfg, s, t, c.ok);
        }
      }
    }
  }

  lemma CallProducerKeeps(cfg: Config, s: State, t: nat, jobs: bool)
    requires CtlInv(cfg, s.ctl) && s.ctl.life == Active && t < |s.ctl.tasks| && Free(s.ctl.tasks[t].pc)
    requires s.ctl.tasks[t].job.EnsureFor?
    ensures CtlInv(cfg, CallProducer(s, t, jobs).ctl)
  {
    assert TaskOk(s.ctl, t);
    if s.res.producerReady || !jobs {
      MoveKeeps(cfg, s.ctl, t, AwaitProducer(Immediate));
    } else if s.ctl.producerP.Some? {
      MoveKeeps(cfg, s.ctl, t, AwaitProducer(Follow(s.ctl.producerP.value)));
    } else {
      BeginKeeps(cfg, s.ctl, t, ProducerKind, if s.res.readReady then Pending else Rejected, StartingBoss,
                 AwaitProducer(Start(|s.ctl.promises|)));
    }
  }

  lemma CallProducerLoads(cfg: Config, s: State, t: nat, jobs: bool)
    requires CtlInv(cfg, s.ctl) && t < |s.ctl.tasks| && Free(s.ctl.tasks[t].pc)
    ensures LoadsKept(s.ctl, CallProducer(s, t, jobs).ctl)
  {
  }

  lemma CallProducerReads(s: State, t: nat, jobs: bool)
    requires SlotsOk(s.ctl) && t < |s.ctl.tasks|
    ensures var s' := CallProducer(s, t, jobs);
      && s'.ctl.shut == s.ctl.shut && ReadBody(s'.ctl) == ReadBody(s.ctl)
      && s'.res == s.res.(producerReady := s'.res.producerReady)
      && (s.res.producerReady ==> s'.res.producerReady)
  {
  }

  lemma CallProducerEntry(s: State, t: nat, jobs: bool, x: Resource)
    requires SlotsOk(s.ctl) && s.ctl.shut.NotShut? && t < |s.ctl.tasks| && EntryOk(s.ctl, s.res, x)
    ensures EntryOk(CallProducer(s, t, jobs).ctl, CallProducer(s, t, jobs).res, x)
  {
    hide CallProducer, ReadBody, SlotsOk;
    CallProducerReads(s, t, jobs);
  }

  lemma CallProducerInv(cfg: Config, s: State, t: nat, jobs: bool)
    requires Inv(cfg, s) && s.ctl.life == Active && t < |s.ctl.tasks| && Free(s.ctl.tasks[t].pc)
    requires s.ctl.tasks[t].job.EnsureFor?
    ensures Inv(cfg, CallProducer(s, t, jobs))
  {
    var s' := CallProducer(s, t, jobs);
    CallProducerKeeps(cfg, s, t, jobs);
    CallProducerLoads(cfg, s, t, jobs);
    LoadsKeptKeeps(cfg, s.ctl, s'.ctl, s.plug);
    assert EntryOk(s.ctl, s.res, Producer);
    forall x: Resource ensures EntryOk(s'.ctl, s'.res, x) {
      assert EntryOk(s.ctl, s.res, x);
      CallProducerEntry(s, t, jobs, x);
    }
  }

  lemma AcquireEmailInv(cfg: Config, s: State)
    requires Inv(cfg, s) && s.ctl.shut.NotShut? && !Entry(s.res, Email).owned
    ensures Inv(cfg, s.(res := Acquire(s.res, [Email])))
  {
    var r' := Acquire(s.res, [Email]);
    forall x: Resource ensures EntryOk(s.ctl, r', x) {
      assert EntryOk(s.ctl, s.res, x);
      AcquireEntry(s.res, [Email], x);
    }
    AcquireEntry(s.res, [Email], Producer);
  }

  lemma AfterPluginsInv(cfg: Config, s: State, t: nat, intent: Intent, c: Choice)
    requires Inv(cfg, s) && t < |s.ctl.tasks| && Free(s.ctl.tasks[t].pc) && s.ctl.tasks[t].job == EnsureFor(intent)
    ensures Inv(cfg, AfterPlugins(s, t, intent, c))
  {
    EndInv(cfg, s, t, Rejected);
    EndInv(cfg, s, t, Fulfilled);
    if s.ctl.life == Active && (Entry(s.res, Email).owned || (s.res.readReady && c.ok)) {
      var s1 := if Entry(s.res, Email).owned then s else s.(res := Acquire(s.res, [Email]));
      if !Entry(s.res, Email).owned {
        AcquireEmailInv(cfg, s);
      }
      EndInv(cfg, s1, t, Fulfilled);
      CallProducerInv(cfg, s1, t, c.jobs);
    }
  }

  lemma StartedPluginsInv(cfg: Config, s: State, t: nat, c: Choice)
    requires Inv(cfg, s) && CanResumeTask(s.ctl, t) && s.ctl.tasks[t].pc.AwaitPlugins? && s.ctl.tasks[t].pc.w.Start?
    ensures Inv(cfg, ResumePlugins(s, t, c))
  {
    var p := s.ctl.tasks[t].pc.w.p;
    assert TaskOk(s.ctl, t);
    if Succeeds(s.ctl, p) {
      StarterKeeps(cfg, s, t, p, AwaitPlugins(Immediate));
      ReadsKeptKeeps(s.ctl, StarterClears(s.ctl, t, p, AwaitPlugins(Immediate)), s.res);
    } else {
      StarterRollsBackKeeps(cfg, s.ctl, t, p);
      ControlInv(cfg, s, Move(MarkStarter(s.ctl, p), t, RollingBack(p)));
    }
  }

  lemma DrainInv(cfg: Config, s: State, t: nat)
    requires Inv(cfg, s) && t < |s.ctl.tasks| && s.ctl.tasks[t].job.PerformReload? && s.ctl.life == Active
    requires s.ctl.tasks[t].pc.AwaitPlugins? && Free(s.ctl.tasks[t].pc) && s.ctl.loadP.Some? && Usable(s.ctl, s.plug)
    ensures Inv(cfg, s.(ctl := Move(s.ctl, t, Draining(s.ctl.loadP.value))))
  {
    var c' := Move(s.ctl, t, Draining(s.ctl.loadP.value));
    assert TaskOk(s.ctl, t);
    MoveKeeps(cfg, s.ctl, t, Draining(s.ctl.loadP.value));
    ReadsKeptKeeps(s.ctl, c', s.res);
    forall u: nat | u < |c'.tasks| ensures ReloadOk(c', s.plug, u) {
      assert ReloadOk(s.ctl, s.plug, u);
    }
  }

  lemma InstallInv(cfg: Config, s: State, t: nat)
    requires Inv(cfg, s) && t < |s.ctl.tasks| && s.ctl.loadP == None
    requires s.ctl.tasks[t].job.PerformReload? && Free(s.ctl.tasks[t].pc)
    ensures Inv(cfg, InstallReload(s, t))
  {
    assert TaskOk(s.ctl, t) && PromiseOk(cfg, s.ctl, s.ctl.tasks[t].job.reload);
    InstallReloadKeeps(cfg, s, t);
    ReadsKeptKeeps(s.ctl, InstallReload(s, t).ctl, s.res);
  }

  lemma ResumePluginsInv(cfg: Config, s: State, t: nat, c: Choice)
    requires Inv(cfg, s) && CanResumeTask(s.ctl, t) && s.ctl.tasks[t].pc.AwaitPlugins?
    ensures Inv(cfg, ResumePlugins(s, t, c))
  {
    assert TaskOk(s.ctl, t) && ReloadOk(s.ctl, s.plug, t);
    var Task(job, AwaitPlugins(w)) := s.ctl.tasks[t];
    if w.Start? {
      StartedPluginsInv(cfg, s, t, c);
    } else if !Succeeded(s.ctl, w) {
      EndInv(cfg, s, t, Rejected);
    } else if job.EnsureFor? {
      AfterPluginsInv(cfg, s, t, job.intent, c);
    } else if s.ctl.life != Active {
      EndInv(cfg, s, t, Rejected);
    } else if s.ctl.loadP.Some? {
      DrainInv(cfg, s, t);
    } else {
      InstallInv(cfg, s, t);
    }
  }

  lemma ResumeReloadingInv(cfg: Config, s: State, t: nat)
    requires Inv(cfg, s) && CanResumeTask(s.ctl, t) && s.ctl.tasks[t].pc.Reloading?
    ensures Inv(cfg, ResumeReloading(s, t))
  {
    var p := s.ctl.tasks[t].pc.p;
    assert TaskOk(s.ctl, t);
    if Succeeds(s.ctl, p) {
      StarterKeeps(cfg, s, t, p, Reconciling);
      ReadsKeptKeeps(s.ctl, StarterClears(s.ctl, t, p, Reconciling), s.res);
    } else {
      StarterRollsBackKeeps(cfg, s.ctl, t, p);
      ControlInv(cfg, s, Move(MarkStarter(s.ctl, p), t, RollingBack(p)));
    }
  }

  // The last resume of a call that created a reload.
  lemma FinishInv(cfg: Config, s: State, t: nat, p: nat, ok: bool)
    requires Inv(cfg, s) && CanResumeTask(s.ctl, t) && CanResume(s.ctl, Start(p))
    requires s.ctl.tasks[t] == Task(ReloadCall(p), AwaitReload)
    ensures Inv(cfg, s.(ctl := StarterClears(s.ctl, t, p, Finished(ok))))
  {
    assert TaskOk(s.ctl, t);
    StarterClearsKeeps(cfg, s.ctl, t, p, Finished(ok));
    ControlInv(cfg, s, StarterClears(s.ctl, t, p, Finished(ok)));
  }

  // The call that began the producer start resumes first.
  lemma StartedProducerInv(cfg: Config, s: State, t: nat, p: nat)
    requires Inv(cfg, s) && CanResumeTask(s.ctl, t) && s.ctl.tasks[t].pc == AwaitProducer(Start(p))
    requires p < |s.ctl.promises|
    ensures var c1 := StarterClears(s.ctl, t, p, AwaitProducer(Immediate));
      Inv(cfg, s.(ctl := c1)) && t < |c1.tasks| && Free(c1.tasks[t].pc)
  {
    assert TaskOk(s.ctl, t) && PromiseOk(cfg, s.ctl, p);
    StarterClearsKeeps(cfg, s.ctl, t, p, AwaitProducer(Immediate));
    ControlInv(cfg, s, StarterClears(s.ctl, t, p, AwaitProducer(Immediate)));
  }

  lemma ResumeProducerInv(cfg: Config, s: State, t: nat)
    requires Inv(cfg, s) && CanResumeTask(s.ctl, t) && s.ctl.tasks[t].pc.AwaitProducer?
    ensures Inv(cfg, ResumeProducer(s, t))
  {
    assert TaskOk(s.ctl, t);
    var w := s.ctl.tasks[t].pc.w;
    if w.Start? {
      StartedProducerInv(cfg, s, t, w.p);
      EndInv(cfg, s.(ctl := StarterClears(s.ctl, t, w.p, AwaitProducer(Immediate))), t, Rejected);
    } else {
      EndInv(cfg, s, t, if Succeeded(s.ctl, w) && s.ctl.life == Active then Fulfilled else Rejected);
    }
  }

  lemma ResumeInv(cfg: Config, s: State, t: nat, c: Choice)
    requires Inv(cfg, s) && CanResumeTask(s.ctl, t)
    ensures Inv(cfg, DoResume(cfg, s, t, c))
  {
    assert TaskOk(s.ctl, t);
    match s.ctl.tasks[t].pc
    case Reading(_, _) => ResumeReadingInv(cfg, s, t, c);
    case AwaitPlugins(_) => ResumePluginsInv(cfg, s, t, c);
    case RollingBack(_) =>
      RollbackKeeps(cfg, s, t);
      ReadsKeptKeeps(s.ctl, ResumeRollback(s, t).ctl, s.res);
    case Draining(_) =>
      DrainedSlotEmpty(cfg, s, t);
      InstallInv(cfg, s, t);
    case Reloading(_) => ResumeReloadingInv(cfg, s, t);
    case Reconciling => EndInv(cfg, s, t, Fulfilled);
    case AwaitProducer(_) => ResumeProducerInv(cfg, s, t);
    case AwaitReload =>
      var rp := s.ctl.tasks[t].job.reload;
      FinishInv(cfg, s, t, rp, s.ctl.promises[rp].status == Fulfilled);
  }

  lemma LoadStepInv(cfg: Config, s: State, p: nat, c: Choice)
    requires Inv(cfg, s) && CanStepBody(s.ctl, p) && s.ctl.promises[p].kind == LoadKind
    ensures Inv(cfg, DoStepBody(cfg, s, p, c))
  {
    var s' := DoStepBody(cfg, s, p, c);
    assert PromiseOk(cfg, s.ctl, p);
    BodyKeeps(cfg, s, p, c);
    LoadStepReads(cfg, s, p, c);
    ReadsKeptKeeps(s.ctl, s'.ctl, s.res);
  }

  // A step of a load body touches no read start, no producer start and no resource.
  lemma LoadStepReads(cfg: Config, s: State, p: nat, c: Choice)
    requires CtlInv(cfg, s.ctl) && CanStepBody(s.ctl, p) && s.ctl.promises[p].kind == LoadKind
    ensures var s' := DoStepBody(cfg, s, p, c); ReadsKept(s.ctl, s'.ctl) && s'.res == s.res
  {
    assert PromiseOk(cfg, s.ctl, p);
  }

  lemma OtherStepInv(cfg: Config, s: State, p: nat, c: Choice)
    requires Inv(cfg, s) && CanStepBody(s.ctl, p)
    requires s.ctl.promises[p].kind == ReadKind || s.ctl.promises[p].kind == ProducerKind
    ensures Inv(cfg, DoStepBody(cfg, s, p, c))
  {
    hide ResInv, CtlInv, PlugInv, DoStepBody, LoadsKept;
    var s' := DoStepBody(cfg, s, p, c);
    OtherStepLoads(cfg, s, p, c);
    if s.ctl.promises[p].kind == ReadKind {
      RollbackStepKeeps(cfg, s, p, c);
    } else {
      ProducerStepKeeps(cfg, s, p, c);
    }
    LoadsKeptKeeps(cfg, s.ctl, s'.ctl, s.plug);
  }

  lemma OtherStepLoads(cfg: Config, s: State, p: nat, c: Choice)
    requires CtlInv(cfg, s.ctl) && CanStepBody(s.ctl, p)
    requires s.ctl.promises[p].kind == ReadKind || s.ctl.promises[p].kind == ProducerKind
    ensures LoadsKept(s.ctl, DoStepBody(cfg, s, p, c).ctl) && DoStepBody(cfg, s, p, c).plug == s.plug
  {
    assert PromiseOk(cfg, s.ctl, p);
  }

  lemma StepBodyInv(cfg: Config, s: State, p: nat, c: Choice)
    requires Inv(cfg, s) && CanStepBody(s.ctl, p)
    ensures Inv(cfg, DoStepBody(cfg, s, p, c))
  {
    assert PromiseOk(cfg, s.ctl, p);
    match s.ctl.promises[p].kind
    case LoadKind => LoadStepInv(cfg, s, p, c);
    case ReadKind => OtherStepInv(cfg, s, p, c);
    case ProducerKind => OtherStepInv(cfg, s, p, c);
    case ReloadKind =>
  }

  lemma CallShutdownInv(cfg: Config, s: State)
    requires Inv(cfg, s) && s.ctl.shut.NotShut?
    ensures Inv(cfg, DoCallShutdown(s))
  {
    var s' := DoCallShutdown(s);
    CallShutdownKeeps(cfg, s);
    LoadsKeptKeeps(cfg, s.ctl, s'.ctl, s.plug);
    forall x: Resource ensures EntryOk(s'.ctl, s.res, x) {
      assert EntryOk(s.ctl, s.res, x);
    }
  }

  lemma NextInv(cfg: Config, s: State, e: Event)
    requires Inv(cfg, s) && Enabled(true, s, e)
    ensures Inv(cfg, Next(cfg, s, e))
  {
    match e
    case CallEnsure(intent, c) =>
      var k := Task(EnsureFor(intent), Reading(true, Immediate));
      AddTaskKeeps(cfg, s.ctl, intent);
      ControlInv(cfg, s, AddTask(s.ctl, k));
      CallReadInv(cfg, s.(ctl := AddTask(s.ctl, k)), |s.ctl.tasks|, true, c.read);
    case CallReload(c) =>
      AddReloadKeeps(cfg, s.ctl);
      ControlInv(cfg, s, AddReload(s.ctl));
      CallReadInv(cfg, s.(ctl := AddReload(s.ctl)), |s.ctl.tasks|, false, c.read);
    case CallShutdown => CallShutdownInv(cfg, s);
    case Resume(t, c) => ResumeInv(cfg, s, t, c);
    case StepBody(p, c) => StepBodyInv(cfg, s, p, c);
    case StepShutdown =>
      BootstrapPlugins.ShutdownKeeps(cfg, s);
      ShutdownStepKeeps(cfg, s);
  }

  lemma {:induction false} RunInv(cfg: Config, es: seq<Event>)
    ensures Run(cfg, true, es).Some? ==> Inv(cfg, Run(cfg, true, es).value)
  {
    if es != [] {
      RunInv(cfg, es[..|es| - 1]);
      if Run(cfg, true, es).Some? {
        NextInv(cfg, Run(cfg, true, es[..|es| - 1]).value, es[|es| - 1]);
      }
    } else {
      assert Inv(cfg, INIT);
    }
  }
}
