/** No call takes more than its intent needs, and a reload that returned has replaced the plugins. */
module BootstrapModesty {
  import opened Common
  import opened Bootstrap
  import opened BootstrapControl
  import opened BootstrapPlugins
  import opened BootstrapResources
  import opened BootstrapSafety
  import opened BootstrapShutdown
  import opened BootstrapTheorems
  import opened BootstrapOutcomes

  // ---- what was asked for ----

  predicate Wants(k: Task, intent: Intent) { k.job == EnsureFor(intent) }

  predicate AsksProducer(k: Task) { Wants(k, IntentWrite) }

  predicate AsksEmail(k: Task) { Wants(k, IntentWorker) || Wants(k, IntentWrite) }

  predicate AsksPlugins(k: Task) { !Wants(k, IntentRead) }

  predicate NoPromise(c: Control, kind: Kind) {
    forall p: nat :: p < |c.promises| ==> c.promises[p].kind != kind
  }

  predicate ProducerUntouched(s: State) {
    Entry(s.res, Producer).acquired == 0 && NoPromise(s.ctl, ProducerKind)
  }

  predicate PluginsUntouched(s: State) {
    s.plug == NO_PLUGINS && NoPromise(s.ctl, LoadKind)
  }

  // A call that never asked for a thing is not where it would get it.
  predicate PlaceFits(k: Task) {
    match k.pc
    case Reading(first, _) => !first ==> AsksPlugins(k)
    case AwaitProducer(_) => AsksProducer(k)
    case Finished(_) => true
    case AwaitReload => !k.job.EnsureFor?
    case _ => AsksPlugins(k)
  }

  ghost predicate Modest(s: State) {
    && (forall t: nat :: t < |s.ctl.tasks| ==> PlaceFits(s.ctl.tasks[t]))
    && ((forall k <- s.ctl.tasks :: !AsksProducer(k)) ==> ProducerUntouched(s))
    && ((forall k <- s.ctl.tasks :: !AsksEmail(k)) ==> Entry(s.res, Email).acquired == 0)
    && ((forall k <- s.ctl.tasks :: !AsksPlugins(k)) ==> PluginsUntouched(s))
  }

  // A step that takes nothing that its call did not ask for.
  ghost predicate Frugal(s: State, s': State, t: nat) {
    && |s.ctl.tasks| == |s'.ctl.tasks|
    && (forall u: nat :: u < |s.ctl.tasks| ==> s'.ctl.tasks[u].job == s.ctl.tasks[u].job)
    && (forall u: nat :: u < |s.ctl.tasks| && u != t ==> s'.ctl.tasks[u] == s.ctl.tasks[u])
    && (t < |s.ctl.tasks| ==> PlaceFits(s'.ctl.tasks[t]))
    && ((t < |s.ctl.tasks| ==> !AsksProducer(s.ctl.tasks[t])) && ProducerUntouched(s) ==> ProducerUntouched(s'))
    && ((t < |s.ctl.tasks| ==> !AsksEmail(s.ctl.tasks[t])) ==>
          Entry(s'.res, Email).acquired == Entry(s.res, Email).acquired)
    && ((t < |s.ctl.tasks| ==> !AsksPlugins(s.ctl.tasks[t])) && PluginsUntouched(s) ==> PluginsUntouched(s'))
  }

  lemma FrugalKeeps(s: State, s': State, t: nat)
    requires Modest(s) && Frugal(s, s', t)
    ensures Modest(s')
  {
    hide AsksProducer, AsksEmail, AsksPlugins, ProducerUntouched, PluginsUntouched;
    forall u: nat | u < |s'.ctl.tasks| ensures PlaceFits(s'.ctl.tasks[u]) {
      assert PlaceFits(s.ctl.tasks[u]);
    }
    SameAsks(s, s', t);
  }

  // What no call asks for now, none asked for before.
  lemma SameAsks(s: State, s': State, t: nat)
    requires Frugal(s, s', t)
    ensures (forall k <- s'.ctl.tasks :: !AsksProducer(k)) ==>
      (forall k <- s.ctl.tasks :: !AsksProducer(k)) && (t < |s.ctl.tasks| ==> !AsksProducer(s.ctl.tasks[t]))
    ensures (forall k <- s'.ctl.tasks :: !AsksEmail(k)) ==>
      (forall k <- s.ctl.tasks :: !AsksEmail(k)) && (t < |s.ctl.tasks| ==> !AsksEmail(s.ctl.tasks[t]))
    ensures (forall k <- s'.ctl.tasks :: !AsksPlugins(k)) ==>
      (forall k <- s.ctl.tasks :: !AsksPlugins(k)) && (t < |s.ctl.tasks| ==> !AsksPlugins(s.ctl.tasks[t]))
  {
    forall u: nat | u < |s.ctl.tasks|
      ensures s'.ctl.tasks[u] in s'.ctl.tasks
      ensures AsksProducer(s'.ctl.tasks[u]) == AsksProducer(s.ctl.tasks[u])
      ensures AsksEmail(s'.ctl.tasks[u]) == AsksEmail(s.ctl.tasks[u])
      ensures AsksPlugins(s'.ctl.tasks[u]) == AsksPlugins(s.ctl.tasks[u])
    {
    }
  }

  // ---- the steps ----

  lemma CallReadFrugal(cfg: Config, s: State, t: nat, first: bool, outcome: ReadOutcome)
    requires Inv(cfg, s) && s.ctl.life == Active && t < |s.ctl.tasks| && (!first ==> AsksPlugins(s.ctl.tasks[t]))
    ensures Frugal(s, CallRead(cfg, s, t, first, outcome), t)
  {
    hide AcquireOrder, ReadTaken, Inv;
    ReadTakenLeaves(cfg, s, outcome, Email);
    ReadTakenLeaves(cfg, s, outcome, Producer);
  }

  lemma ReadTakenLeaves(cfg: Config, s: State, outcome: ReadOutcome, x: Resource)
    requires Inv(cfg, s) && s.ctl.life == Active && (x == Email || x == Producer)
    ensures Entry(ReadTaken(AcquireOrder(cfg), s.res, outcome), x) == Entry(s.res, x)
  {
    hide AcquireOrder, ReadTaken;
    OrderDistinct(cfg);
    assert EntryOk(s.ctl, s.res, x);
    ReadTakenEntry(AcquireOrder(cfg), s.res, outcome, x);
  }

  lemma EndFrugal(s: State, t: nat, status: Status)
    requires t < |s.ctl.tasks|
    ensures Frugal(s, s.(ctl := End(s.ctl, t, status)), t)
  {
  }

  lemma StarterFrugal(s: State, t: nat, p: nat, pc: Pc)
    requires t < |s.ctl.tasks| && p < |s.ctl.promises| && PlaceFits(Task(s.ctl.tasks[t].job, pc))
    ensures Frugal(s, s.(ctl := StarterClears(s.ctl, t, p, pc)), t)
    ensures Frugal(s, s.(ctl := End(StarterClears(s.ctl, t, p, pc), t, Rejected)), t)
  {
  }

  lemma ReadingFrugal(cfg: Config, s: State, t: nat, c: Choice)
    requires Inv(cfg, s) && CanResumeTask(s.ctl, t) && s.ctl.tasks[t].pc.Reading? && PlaceFits(s.ctl.tasks[t])
    ensures Frugal(s, ResumeReading(cfg, s, t, c), t)
  {
    hide Inv, CallRead, End, StarterClears;
    ReadingFacts(cfg, s, t);
    var Task(job, Reading(first, w)) := s.ctl.tasks[t];
    EndFrugal(s, t, Rejected);
    EndFrugal(s, t, Fulfilled);
    if w.Start? {
      StarterFrugal(s, t, w.p, Reading(first, Immediate));
    } else if s.ctl.life == Active && Succeeded(s.ctl, w) && job != EnsureFor(IntentRead) {
      CallReadFrugal(cfg, s, t, false, c.read);
    }
  }

  lemma AfterPluginsFrugal(s: State, t: nat, intent: Intent, c: Choice)
    requires t < |s.ctl.tasks| && s.ctl.tasks[t].job == EnsureFor(intent) && intent != IntentRead
    ensures Frugal(s, AfterPlugins(s, t, intent, c), t)
  {
    hide Acquire, Entry;
    AcquireEntry(s.res, [Email], Producer);
    EntryOfReady(s.res);
    EntryOfReady(Acquire(s.res, [Email]));
  }

  lemma EntryOfReady(r: Resources)
    ensures forall x: Resource :: Entry(r.(producerReady := true), x) == Entry(r, x)
  {
  }

  lemma PluginsFrugal(cfg: Config, s: State, t: nat, c: Choice)
    requires Inv(cfg, s) && CanResumeTask(s.ctl, t) && s.ctl.tasks[t].pc.AwaitPlugins? && PlaceFits(s.ctl.tasks[t])
    ensures Frugal(s, ResumePlugins(s, t, c), t)
  {
    hide PlugInv, ResInv, End, AfterPlugins, StarterClears;
    assert TaskOk(s.ctl, t);
    EndFrugal(s, t, Rejected);
    if s.ctl.tasks[t].pc.w.Start? {
      StarterFrugal(s, t, s.ctl.tasks[t].pc.w.p, AwaitPlugins(Immediate));
    } else if s.ctl.tasks[t].job.EnsureFor? {
      AfterPluginsFrugal(s, t, s.ctl.tasks[t].job.intent, c);
    }
  }

  lemma ProducerFrugal(cfg: Config, s: State, t: nat)
    requires Inv(cfg, s) && CanResumeTask(s.ctl, t) && s.ctl.tasks[t].pc.AwaitProducer? && PlaceFits(s.ctl.tasks[t])
    ensures Frugal(s, ResumeProducer(s, t), t)
  {
    hide PlugInv, ResInv, End, StarterClears;
    assert TaskOk(s.ctl, t);
    EndFrugal(s, t, Rejected);
    EndFrugal(s, t, Fulfilled);
    if s.ctl.tasks[t].pc.w.Start? {
      StarterFrugal(s, t, s.ctl.tasks[t].pc.w.p, AwaitProducer(Immediate));
    }
  }

  lemma RollbackFrugal(s: State, t: nat)
    requires t < |s.ctl.tasks| && s.ctl.tasks[t].pc.RollingBack? && PlaceFits(s.ctl.tasks[t])
    ensures Frugal(s, ResumeRollback(s, t), t)
  {
  }

  lemma ReloadingFrugal(s: State, t: nat)
    requires ReadyTask(s.ctl, t) && PlaceFits(s.ctl.tasks[t])
    requires s.ctl.tasks[t].pc.Draining? || s.ctl.tasks[t].pc.Reloading?
    ensures s.ctl.tasks[t].pc.Draining? ==> Frugal(s, InstallReload(s, t), t)
    ensures s.ctl.tasks[t].pc.Reloading? ==> Frugal(s, ResumeReloading(s, t), t)
  {
  }

  lemma ReloadCallFrugal(cfg: Config, s: State, t: nat)
    requires TaskOk(s.ctl, t) && s.ctl.tasks[t].pc.AwaitReload?
    ensures Frugal(s, ResumeReloadCall(s, t, s.ctl.tasks[t].job.reload), t)
  {
  }

  lemma ResumeFrugal(cfg: Config, s: State, t: nat, c: Choice)
    requires Inv(cfg, s) && CanResumeTask(s.ctl, t) && PlaceFits(s.ctl.tasks[t])
    ensures Frugal(s, DoResume(cfg, s, t, c), t)
  {
    hide PlugInv, ResInv, ResumeReading, ResumePlugins, ResumeProducer, ResumeRollback, InstallReload, ResumeReloading,
      ResumeReloadCall, Frugal, End;
    assert TaskOk(s.ctl, t);
    match s.ctl.tasks[t].pc
    case Reading(_, _) => ReadingFrugal(cfg, s, t, c);
    case AwaitPlugins(_) => PluginsFrugal(cfg, s, t, c);
    case RollingBack(_) => RollbackFrugal(s, t);
    case Draining(_) => ReloadingFrugal(s, t);
    case Reloading(_) => ReloadingFrugal(s, t);
    case Reconciling => EndFrugal(s, t, Fulfilled);
    case AwaitProducer(_) => ProducerFrugal(cfg, s, t);
    case AwaitReload => ReloadCallFrugal(cfg, s, t);
  }

  // What a body leaves alone.
  lemma BodyLeaves(cfg: Config, s: State, p: nat, c: Choice)
    requires Inv(cfg, s) && CanStepBody(s.ctl, p)
    ensures var s' := DoStepBody(cfg, s, p, c);
      && Entry(s'.res, Email) == Entry(s.res, Email)
      && (s.ctl.promises[p].kind != ProducerKind ==> Entry(s'.res, Producer) == Entry(s.res, Producer))
      && (s.ctl.promises[p].kind != LoadKind ==> s'.plug == s.plug)
  {
    hide Acquire, BeginRelease, EndRelease, PlugInv, ResInv, Entry;
    assert PromiseOk(cfg, s.ctl, p);
    AcquireEntry(s.res, [Producer], Email);
    EntryOfReady(Acquire(s.res, [Producer]));
    if s.ctl.promises[p].kind == ReadKind {
      RollbackEntry(cfg, s, p, c, Email);
      RollbackEntry(cfg, s, p, c, Producer);
    }
  }

  lemma StepBodyFrugal(cfg: Config, s: State, p: nat, c: Choice)
    requires Inv(cfg, s) && CanStepBody(s.ctl, p)
    ensures Frugal(s, DoStepBody(cfg, s, p, c), |s.ctl.tasks|)
  {
    hide DoStepBody, Inv, Entry;
    BodyLeaves(cfg, s, p, c);
    BodySettles(cfg, s, p, c);
    BodyKeepsKind(cfg, s, p, c);
    var s' := DoStepBody(cfg, s, p, c);
    forall q: nat | q < |s.ctl.promises| ensures s'.ctl.promises[q].kind == s.ctl.promises[q].kind {
      assert q != p ==> SamePromise(s.ctl, s'.ctl, q);
    }
  }

  lemma BodyKeepsKind(cfg: Config, s: State, p: nat, c: Choice)
    requires CanStepBody(s.ctl, p)
    ensures var c' := DoStepBody(cfg, s, p, c).ctl; p < |c'.promises| && c'.promises[p].kind == s.ctl.promises[p].kind
  {
    hide Acquire, BeginRelease, EndRelease;
  }

  lemma ShutdownFrugal(cfg: Config, s: State)
    ensures Frugal(s, DoStepShutdown(cfg, s), |s.ctl.tasks|)
  {
    hide ShutRes;
    ShutResEntry(cfg, s.ctl.shut, s.res, Email);
    ShutResEntry(cfg, s.ctl.shut, s.res, Producer);
  }

  lemma AddedModest(s: State, k: Task)
    requires Modest(s) && k.pc == Reading(true, Immediate) && k.job.EnsureFor?
    ensures Modest(s.(ctl := AddTask(s.ctl, k)))
  {
    var s1 := s.(ctl := AddTask(s.ctl, k));
    assert forall u: nat :: u < |s.ctl.tasks| ==> s1.ctl.tasks[u] == s.ctl.tasks[u];
    assert forall j :: j in s.ctl.tasks ==> j in s1.ctl.tasks;
  }

  lemma ReloadAddedModest(s: State)
    requires Modest(s)
    ensures Modest(s.(ctl := AddReload(s.ctl)))
  {
    var (s1, n) := (s.(ctl := AddReload(s.ctl)), |s.ctl.tasks|);
    assert forall u: nat :: u < n ==> s1.ctl.tasks[u] == s.ctl.tasks[u];
    assert s1.ctl.tasks[n].job == PerformReload(|s.ctl.promises|) && AsksPlugins(s1.ctl.tasks[n]);
    assert s1.ctl.tasks[n] in s1.ctl.tasks;
    assert forall j :: j in s.ctl.tasks ==> j in s1.ctl.tasks;
  }

  lemma NextModest(cfg: Config, s: State, e: Event)
    requires Inv(cfg, s) && Modest(s) && Enabled(true, s, e)
    ensures Modest(Next(cfg, s, e))
  {
    hide DoResume, DoStepBody, CallRead, CanResumeTask, ReadyTask, CanStepBody, CanStepShutdown, DoStepShutdown, Frugal,
      Modest;
    OrderedIsEnabled(s, e);
    match e
    case CallEnsure(intent, c) =>
      var k := Task(EnsureFor(intent), Reading(true, Immediate));
      var (s1, t) := (s.(ctl := AddTask(s.ctl, k)), |s.ctl.tasks|);
      AddTaskKeeps(cfg, s.ctl, intent);
      ControlInv(cfg, s, s1.ctl);
      AddedModest(s, k);
      CallReadFrugal(cfg, s1, t, true, c.read);
      FrugalKeeps(s1, Next(cfg, s, e), t);
    case CallReload(c) =>
      var (s1, t) := (s.(ctl := AddReload(s.ctl)), |s.ctl.tasks|);
      AddReloadKeeps(cfg, s.ctl);
      ControlInv(cfg, s, s1.ctl);
      ReloadAddedModest(s);
      CallReadFrugal(cfg, s1, t, false, c.read);
      FrugalKeeps(s1, Next(cfg, s, e), t);
    case CallShutdown => ShutdownCalledModest(s);
    case Resume(t, c) =>
      PlaceOf(s, t);
      ResumeFrugal(cfg, s, t, c);
      FrugalKeeps(s, Next(cfg, s, e), t);
    case StepBody(p, c) =>
      StepBodyFrugal(cfg, s, p, c);
      FrugalKeeps(s, Next(cfg, s, e), |s.ctl.tasks|);
    case StepShutdown =>
      ShutdownFrugal(cfg, s);
      FrugalKeeps(s, Next(cfg, s, e), |s.ctl.tasks|);
  }

  lemma PlaceOf(s: State, t: nat)
    requires Modest(s) && CanResumeTask(s.ctl, t)
    ensures t < |s.ctl.tasks| && PlaceFits(s.ctl.tasks[t])
  {
  }

  lemma ShutdownCalledModest(s: State)
    requires Modest(s)
    ensures Modest(DoCallShutdown(s))
  {
  }

  lemma FreshModest()
    ensures Modest(INIT)
  {
  }

  lemma {:induction false} ModestAlways(cfg: Config, es: seq<Event>)
    requires Run(cfg, true, es).Some?
    ensures Modest(Run(cfg, true, es).value)
  {
    hide Next, Enabled, Modest;
    if es == [] {
      FreshModest();
    } else {
      var init, e := es[..|es| - 1], es[|es| - 1];
      ModestAlways(cfg, init);
      RunInv(cfg, init);
      NextModest(cfg, Run(cfg, true, init).value, e);
    }
  }

  /**
    In every reachable state: without a write call no producer was ever started, without a worker or write call
    no email runtime was ever configured, and with read calls alone no plugin was ever loaded.
  */
  lemma TakesOnlyWhatIsAsked(cfg: Config, s: State)
    requires Reachable(cfg, s)
    ensures (forall k <- s.ctl.tasks :: k.job != EnsureFor(IntentWrite)) ==> Entry(s.res, Producer).acquired == 0
    ensures (forall k <- s.ctl.tasks :: k.job != EnsureFor(IntentWorker) && k.job != EnsureFor(IntentWrite)) ==>
      Entry(s.res, Email).acquired == 0
    ensures (forall k <- s.ctl.tasks :: k.job == EnsureFor(IntentRead)) ==> s.plug == NO_PLUGINS
  {
    var es :| Run(cfg, true, es) == Some(s);
    ModestAlways(cfg, es);
  }

  // ---- a reload that returned ----

  // How a reload moves on: by a load of its own that starts with a teardown, and past it only when it went well.
  predicate ReloadMoves(s: State, s': State, t: nat)
    requires t < |s.ctl.tasks|
  {
    t < |s'.ctl.tasks| &&
    var (before, after) := (s.ctl.tasks[t].pc, s'.ctl.tasks[t].pc);
    before != after ==>
      && (after == Finished(true) ==> before.Reconciling?)
      && (after.Reconciling? ==>
            before.Reloading? && before.p < |s.ctl.promises| && s.ctl.promises[before.p].status == Fulfilled)
      && (after.Reloading? ==>
            after.p == |s.ctl.promises| < |s'.ctl.promises| && !s'.plug.loaded
            && s'.ctl.promises[after.p] == Promise(LoadKind, Pending, t, false, TearingDown))
  }

  /** A reload returns only after a load of its own, which replaced the plugins, went well. */
  lemma ReloadReplacesPlugins(cfg: Config, s: State, e: Event, t: nat)
    requires Reachable(cfg, s) && Enabled(true, s, e) && t < |s.ctl.tasks| && s.ctl.tasks[t].job.PerformReload?
    ensures ReloadMoves(s, Next(cfg, s, e), t)
  {
    hide Inv, Next, Enabled, Modest, ReloadMoves;
    ReachableInv(cfg, s);
    var es :| Run(cfg, true, es) == Some(s);
    ModestAlways(cfg, es);
    OrderedIsEnabled(s, e);
    if e.Resume? && e.task == t {
      ReloadResumes(cfg, s, e, t);
    } else {
      OthersStay(cfg, s, e, t);
      SameMoves(s, Next(cfg, s, e), t);
    }
  }

  lemma SameMoves(s: State, s': State, t: nat)
    requires SameTask(s.ctl, s'.ctl, t)
    ensures ReloadMoves(s, s', t)
  {
  }

  lemma ReloadReads(cfg: Config, s: State, t: nat, c: Choice)
    requires ReadyTask(s.ctl, t) && s.ctl.tasks[t].job.PerformReload? && s.ctl.tasks[t].pc.Reading?
    ensures ReloadMoves(s, ResumeReading(cfg, s, t, c), t)
  {
    hide ReadTaken, AcquireOrder;
  }

  lemma ReloadAwaits(s: State, t: nat, c: Choice)
    requires ReadyTask(s.ctl, t) && s.ctl.tasks[t].job.PerformReload? && s.ctl.tasks[t].pc.AwaitPlugins?
    ensures ReloadMoves(s, ResumePlugins(s, t, c), t)
  {
    hide AfterPlugins;
  }

  lemma ReloadLoads(s: State, t: nat)
    requires ReadyTask(s.ctl, t) && s.ctl.tasks[t].job.PerformReload?
    ensures s.ctl.tasks[t].pc.RollingBack? ==> ReloadMoves(s, ResumeRollback(s, t), t)
    ensures s.ctl.tasks[t].pc.Draining? ==> ReloadMoves(s, InstallReload(s, t), t)
    ensures s.ctl.tasks[t].pc.Reloading? ==> ReloadMoves(s, ResumeReloading(s, t), t)
    ensures s.ctl.tasks[t].pc.Reconciling? ==> ReloadMoves(s, s.(ctl := End(s.ctl, t, Fulfilled)), t)
  {
  }

  lemma ReloadResumes(cfg: Config, s: State, e: Event, t: nat)
    requires Inv(cfg, s) && Enabled(true, s, e) && e.Resume? && e.task == t && s.ctl.tasks[t].job.PerformReload?
    ensures ReloadMoves(s, Next(cfg, s, e), t)
  {
    hide ResumeReading, ResumePlugins, ResumeRollback, InstallReload, ResumeReloading, End, ReloadMoves, PlugInv,
      ResInv;
    assert TaskOk(s.ctl, t);
    ReloadLoads(s, t);
    if s.ctl.tasks[t].pc.Reading? {
      ReloadReads(cfg, s, t, e.c);
    } else if s.ctl.tasks[t].pc.AwaitPlugins? {
      ReloadAwaits(s, t, e.c);
    }
  }

  lemma OthersStay(cfg: Config, s: State, e: Event, t: nat)
    requires Inv(cfg, s) && Modest(s) && Enabled(true, s, e) && t < |s.ctl.tasks| && !(e.Resume? && e.task == t)
    ensures SameTask(s.ctl, Next(cfg, s, e).ctl, t)
  {
    hide DoResume, DoStepBody, CallRead, CanResumeTask, CanStepBody, CanStepShutdown, ShutRes, Inv;
    match e
    case CallEnsure(intent, c) =>
      var k := Task(EnsureFor(intent), Reading(true, Immediate));
      CallReadMoves(cfg, s.(ctl := AddTask(s.ctl, k)), |s.ctl.tasks|, true, c.read);
    case CallReload(c) => CallReadMoves(cfg, s.(ctl := AddReload(s.ctl)), |s.ctl.tasks|, false, c.read);
    case Resume(u, c) =>
      PlaceOf(s, u);
      ResumeFrugal(cfg, s, u, c);
    case StepBody(p, c) => BodySettles(cfg, s, p, c);
    case _ =>
  }

  lemma CallReadMoves(cfg: Config, s: State, t: nat, first: bool, outcome: ReadOutcome)
    requires t < |s.ctl.tasks|
    ensures var c' := CallRead(cfg, s, t, first, outcome).ctl;
      |c'.tasks| == |s.ctl.tasks| && forall u: nat :: u < |s.ctl.tasks| && u != t ==> c'.tasks[u] == s.ctl.tasks[u]
  {
    hide ReadTaken, AcquireOrder;
  }

  // ---- what the intent of a call decides ----

  /** Past its first read a read call returns, and changes nothing else. */
  lemma ReadReturns(cfg: Config, s: State, t: nat, c: Choice)
    requires t < |s.ctl.tasks| && s.ctl.tasks[t] == Task(EnsureFor(IntentRead), Reading(true, Immediate))
    requires s.ctl.life == Active
    ensures Enabled(true, s, Resume(t, c))
    ensures Next(cfg, s, Resume(t, c)) ==
      s.(ctl := s.ctl.(tasks := s.ctl.tasks[t := Task(EnsureFor(IntentRead), Finished(true))]))
  {
  }

  /**
    Once the plugins are there, a plugins call returns; a worker call returns with the email runtime; a write call
    has the email runtime and goes on to the producer; and a failed email runtime fails both.
  */
  lemma IntentDecides(cfg: Config, s: State, t: nat, intent: Intent, c: Choice)
    requires t < |s.ctl.tasks| && s.ctl.tasks[t] == Task(EnsureFor(intent), AwaitPlugins(Immediate))
    requires s.ctl.life == Active
    ensures Enabled(true, s, Resume(t, c))
    ensures var s' := Next(cfg, s, Resume(t, c));
      && |s'.ctl.tasks| == |s.ctl.tasks| && s'.plug == s.plug &&
      var (pc, email) := (s'.ctl.tasks[t].pc, HasEmail(s) || (s.res.readReady && c.ok));
      && (!intent.IntentWrite? ==> s'.ctl.promises == s.ctl.promises && s'.res.producerReady == s.res.producerReady)
      && (intent.IntentPlugins? ==> pc == Finished(true) && s'.res == s.res)
      && (intent.IntentWorker? ==> pc == Finished(email) && HasEmail(s') == email)
      && (intent.IntentWrite? ==> (if email then pc.AwaitProducer? else pc == Finished(false)) && HasEmail(s') == email)
  {
    hide Acquire;
    AcquireEntry(s.res, [Email], Email);
  }

  // ---- the producer behind a write call ----

  predicate JobsOn(e: Event) {
    e.Resume? ==> e.c.jobs
  }

  predicate Produces(s: State) {
    s.ctl.life == Active && s.res.producerReady ==> Entry(s.res, Producer).owned
  }

  // A producer that is held stays, and one that is new is held.
  predicate ProducerStays(r: Resources, r': Resources) {
    r'.producerReady ==> Entry(r', Producer).owned || (r.producerReady && Entry(r', Producer) == Entry(r, Producer))
  }

  lemma CallReadStays(cfg: Config, s: State, t: nat, first: bool, outcome: ReadOutcome)
    requires Inv(cfg, s) && s.ctl.life == Active && t < |s.ctl.tasks|
    ensures ProducerStays(s.res, CallRead(cfg, s, t, first, outcome).res)
  {
    hide AcquireOrder, ReadTaken, Inv;
    ReadTakenGains(cfg, s, outcome);
    ReadTakenLeaves(cfg, s, outcome, Producer);
  }

  lemma PluginsStays(s: State, t: nat, c: Choice)
    requires ReadyTask(s.ctl, t) && s.ctl.tasks[t].pc.AwaitPlugins? && c.jobs
    ensures ProducerStays(s.res, ResumePlugins(s, t, c).res)
  {
    hide Acquire, End, Begin, Move, StarterClears;
    AcquireEntry(s.res, [Email], Producer);
    EntryOfReady(s.res);
    EntryOfReady(Acquire(s.res, [Email]));
  }

  lemma ResumeStays(cfg: Config, s: State, t: nat, c: Choice)
    requires Inv(cfg, s) && s.ctl.life == Active && CanResumeTask(s.ctl, t) && c.jobs
    ensures ProducerStays(s.res, DoResume(cfg, s, t, c).res)
  {
    hide CallRead, ResumePlugins, End, StarterClears, Inv;
    match s.ctl.tasks[t].pc
    case Reading(_, _) => CallReadStays(cfg, s, t, false, c.read);
    case AwaitPlugins(_) => PluginsStays(s, t, c);
    case _ =>
  }

  lemma BodyStays(cfg: Config, s: State, p: nat, c: Choice)
    requires Inv(cfg, s) && CanStepBody(s.ctl, p)
    ensures ProducerStays(s.res, DoStepBody(cfg, s, p, c).res)
  {
    hide Acquire, BeginRelease, EndRelease, PlugInv, ResInv, Entry;
    assert PromiseOk(cfg, s.ctl, p);
    AcquireEntry(s.res, [Producer], Producer);
    EntryOfReady(Acquire(s.res, [Producer]));
    if s.ctl.promises[p].kind == ReadKind {
      RollbackEntry(cfg, s, p, c, Producer);
    }
  }

  lemma NextProduces(cfg: Config, s: State, e: Event)
    requires Inv(cfg, s) && Produces(s) && Enabled(true, s, e) && JobsOn(e)
    ensures Produces(Next(cfg, s, e))
  {
    hide DoResume, DoStepBody, CallRead, CanResumeTask, ReadyTask, CanStepBody, Inv;
    OrderedIsEnabled(s, e);
    if s.ctl.life != Active {
      StaysInactive(cfg, s, e);
    } else {
      match e
      case CallEnsure(intent, c) =>
        var k := Task(EnsureFor(intent), Reading(true, Immediate));
        AddTaskInv(cfg, s, intent);
        CallReadStays(cfg, s.(ctl := AddTask(s.ctl, k)), |s.ctl.tasks|, true, c.read);
      case CallReload(c) =>
        AddReloadInv(cfg, s);
        CallReadStays(cfg, s.(ctl := AddReload(s.ctl)), |s.ctl.tasks|, false, c.read);
      case Resume(t, c) => ResumeStays(cfg, s, t, c);
      case StepBody(p, c) => BodyStays(cfg, s, p, c);
      case _ =>
    }
  }

  lemma AddTaskInv(cfg: Config, s: State, intent: Intent)
    requires Inv(cfg, s)
    ensures Inv(cfg, s.(ctl := AddTask(s.ctl, Task(EnsureFor(intent), Reading(true, Immediate)))))
  {
    AddTaskKeeps(cfg, s.ctl, intent);
    ControlInv(cfg, s, AddTask(s.ctl, Task(EnsureFor(intent), Reading(true, Immediate))));
  }

  lemma AddReloadInv(cfg: Config, s: State)
    requires Inv(cfg, s) && s.ctl.life == Active && s.ctl.reloadP == None
    ensures Inv(cfg, s.(ctl := AddReload(s.ctl)))
  {
    AddReloadKeeps(cfg, s.ctl);
    ControlInv(cfg, s, AddReload(s.ctl));
  }

  /** Where jobs are on, a write call that returned has a running producer until a shutdown is asked for. */
  lemma {:induction false} JobsMeanProducer(cfg: Config, es: seq<Event>)
    requires Run(cfg, true, es).Some? && forall e <- es :: JobsOn(e)
    ensures var s := Run(cfg, true, es).value;
      s.ctl.life == Active && s.res.producerReady ==> Entry(s.res, Producer).owned
  {
    hide Next, Enabled, JobsOn;
    if es != [] {
      var init, e := es[..|es| - 1], es[|es| - 1];
      JobsMeanProducer(cfg, init);
      RunInv(cfg, init);
      NextProduces(cfg, Run(cfg, true, init).value, e);
    }
  }
}
