/**
  What a call that returned has achieved, for every interleaving: the read state, the loaded plugins, the email
  runtime and the job producer, by intent; and that no call takes more than its intent needs.
*/
module BootstrapOutcomes {
  import opened Common
  import opened Bootstrap
  import opened BootstrapControl
  import opened BootstrapPlugins
  import opened BootstrapResources
  import opened BootstrapSafety
  import opened BootstrapShutdown
  import opened BootstrapTheorems

  // ---- what is held ----

  // A reload that replaces the plugins, or failed.
  predicate Unloads(k: Task) {
    k.job.PerformReload? && (k.pc.Reloading? || k.pc.RollingBack? || k.pc == Finished(false))
  }

  // The plugins are loaded, unless a reload is under way or has failed.
  predicate Loaded(s: State) {
    s.plug.loaded || exists u :: 0 <= u < |s.ctl.tasks| && Unloads(s.ctl.tasks[u])
  }

  predicate HasEmail(s: State) { Entry(s.res, Email).owned }

  /** What a call of an intent has when it returns. */
  predicate Achieved(s: State, intent: Intent) {
    && s.res.readReady
    && (!intent.IntentRead? ==> Loaded(s))
    && (intent.IntentWorker? || intent.IntentWrite? ==> HasEmail(s))
    && (intent.IntentWrite? ==> s.res.producerReady)
  }

  // What a fulfilled promise stands for.
  predicate PromiseHolds(s: State, p: nat)
    requires p < |s.ctl.promises|
  {
    s.ctl.promises[p].status == Fulfilled ==>
      match s.ctl.promises[p].kind
      case ReadKind => s.res.readReady
      case LoadKind => Loaded(s)
      case ProducerKind => s.res.producerReady
      case ReloadKind => true
  }

  // What a call has at the await where it is suspended, or when it has ended.
  predicate TaskHolds(s: State, t: nat)
    requires t < |s.ctl.tasks|
  {
    var Task(job, pc) := s.ctl.tasks[t];
    match pc
    case Reading(_, w) => w.Immediate? ==> s.res.readReady
    case AwaitPlugins(w) => s.res.readReady && (w.Immediate? ==> Loaded(s))
    case AwaitProducer(w) =>
      job == EnsureFor(IntentWrite) && s.res.readReady && Loaded(s) && HasEmail(s)
      && (w.Immediate? ==> s.res.producerReady)
    case Finished(ok) => ok && job.EnsureFor? ==> Achieved(s, job.intent)
    case _ => true
  }

  ghost predicate Held(s: State) {
    s.ctl.life == Active ==>
      && (forall p: nat :: p < |s.ctl.promises| ==> PromiseHolds(s, p))
      && (forall t: nat :: t < |s.ctl.tasks| ==> TaskHolds(s, t))
  }

  // ---- a step keeps it ----

  // Nothing that was held is lost.
  predicate Gains(s: State, s': State) {
    && (s.res.readReady ==> s'.res.readReady) && (s.res.producerReady ==> s'.res.producerReady)
    && (HasEmail(s) ==> HasEmail(s')) && (Loaded(s) ==> Loaded(s'))
  }

  predicate SamePromise(c: Control, c': Control, p: nat) {
    p < |c.promises| && p < |c'.promises| && c'.promises[p].kind == c.promises[p].kind
    && c'.promises[p].status == c.promises[p].status
  }

  predicate SameTask(c: Control, c': Control, t: nat) {
    t < |c.tasks| && t < |c'.tasks| && c'.tasks[t] == c.tasks[t]
  }

  // What an event shows of itself: whatever it changed stands for what is held afterwards.
  ghost predicate Sound(s: State, s': State) {
    s'.ctl.life == Active ==>
      && s.ctl.life == Active && Gains(s, s')
      && (forall p: nat :: p < |s'.ctl.promises| ==> SamePromise(s.ctl, s'.ctl, p) || PromiseHolds(s', p))
      && (forall t: nat :: t < |s'.ctl.tasks| ==> SameTask(s.ctl, s'.ctl, t) || TaskHolds(s', t))
  }

  lemma SoundKeeps(s: State, s': State)
    requires Held(s) && Sound(s, s')
    ensures Held(s')
  {
    hide Loaded, HasEmail;
    if s'.ctl.life == Active {
      forall p: nat | p < |s'.ctl.promises| ensures PromiseHolds(s', p) {
        assert SamePromise(s.ctl, s'.ctl, p) ==> PromiseHolds(s, p);
      }
      forall t: nat | t < |s'.ctl.tasks| ensures TaskHolds(s', t) {
        assert SameTask(s.ctl, s'.ctl, t) ==> TaskHolds(s, t);
      }
    }
  }

  // The call that moves is the only one that can stop unloading the plugins.
  lemma LoadedKept(s: State, s': State, t: nat)
    requires |s.ctl.tasks| <= |s'.ctl.tasks|
    requires forall u: nat :: u < |s.ctl.tasks| && u != t ==> s'.ctl.tasks[u] == s.ctl.tasks[u]
    requires s.plug.loaded ==> Loaded(s')
    requires t < |s.ctl.tasks| && Unloads(s.ctl.tasks[t]) ==> Loaded(s')
    ensures Loaded(s) ==> Loaded(s')
  {
    if !s.plug.loaded && Loaded(s) {
      var u: nat :| u < |s.ctl.tasks| && Unloads(s.ctl.tasks[u]);
      assert u != t ==> Unloads(s'.ctl.tasks[u]);
    }
  }

  // Only call t moves, and the plugins and resources stay as they are.
  predicate OneMoves(s: State, s': State, t: nat) {
    && t < |s.ctl.tasks| == |s'.ctl.tasks|
    && s'.plug.loaded == s.plug.loaded && s'.res == s.res && s'.ctl.life == s.ctl.life
    && (forall u: nat :: u < |s.ctl.tasks| && u != t ==> s'.ctl.tasks[u] == s.ctl.tasks[u])
    && (forall p: nat :: p < |s'.ctl.promises| ==>
          SamePromise(s.ctl, s'.ctl, p) || s'.ctl.promises[p].status != Fulfilled
          || s'.ctl.promises[p].kind == ReloadKind)
  }

  lemma MoveIsSound(s: State, s': State, t: nat)
    requires s.ctl.life == Active && OneMoves(s, s', t)
    requires Unloads(s.ctl.tasks[t]) ==> Loaded(s')
    requires (Loaded(s) ==> Loaded(s')) ==> TaskHolds(s', t)
    ensures Sound(s, s')
  {
    hide Loaded, TaskHolds, Unloads;
    PluginsStay(s, s', t);
  }

  lemma PluginsStay(s: State, s': State, t: nat)
    requires OneMoves(s, s', t) && (Unloads(s.ctl.tasks[t]) ==> Loaded(s'))
    ensures Loaded(s) ==> Loaded(s')
  {
    LoadedKept(s, s', t);
  }

  // ---- the steps of a call ----

  lemma ReadTakenGains(cfg: Config, s: State, outcome: ReadOutcome)
    requires Inv(cfg, s) && s.ctl.life == Active
    ensures var r' := ReadTaken(AcquireOrder(cfg), s.res, outcome);
      && (s.res.readReady ==> r'.readReady) && r'.producerReady == s.res.producerReady
      && Entry(r', Email) == Entry(s.res, Email) && (outcome.ReadOk? ==> r'.readReady)
  {
    hide AcquireOrder, ReadTaken;
    OrderDistinct(cfg);
    assert EntryOk(s.ctl, s.res, Email);
    ReadTakenEntry(AcquireOrder(cfg), s.res, outcome, Email);
  }

  lemma CallReadSound(cfg: Config, s: State, t: nat, first: bool, outcome: ReadOutcome)
    requires Inv(cfg, s) && s.ctl.life == Active && t < |s.ctl.tasks| && !Unloads(s.ctl.tasks[t])
    ensures var s' := CallRead(cfg, s, t, first, outcome); Sound(s, s') && s'.ctl.life == Active && TaskHolds(s', t)
  {
    hide AcquireOrder, ReadTaken, Inv;
    ReadTakenGains(cfg, s, outcome);
    LoadedKept(s, CallRead(cfg, s, t, first, outcome), t);
  }

  lemma CallLoadSound(s: State, t: nat, ok: bool)
    requires s.ctl.life == Active && t < |s.ctl.tasks| && !Unloads(s.ctl.tasks[t]) && s.res.readReady
    ensures Sound(s, CallLoad(s, t, ok))
  {
    hide Loaded;
    LoadedIsLoaded(CallLoad(s, t, ok));
    MoveIsSound(s, CallLoad(s, t, ok), t);
  }

  lemma LoadedIsLoaded(s: State)
    ensures s.plug.loaded ==> Loaded(s)
  {
  }

  lemma EndSound(s: State, t: nat, status: Status)
    requires s.ctl.life == Active && t < |s.ctl.tasks| && !Unloads(s.ctl.tasks[t])
    requires status == Fulfilled && s.ctl.tasks[t].job.PerformReload? ==> TaskOk(s.ctl, t)
    requires status == Fulfilled && s.ctl.tasks[t].job.EnsureFor? ==> Achieved(s, s.ctl.tasks[t].job.intent)
    ensures Sound(s, s.(ctl := End(s.ctl, t, status)))
  {
    hide Loaded;
    var s' := s.(ctl := End(s.ctl, t, status));
    assert s'.ctl.tasks[t] == Task(s.ctl.tasks[t].job, Finished(status == Fulfilled)) && HasEmail(s') == HasEmail(s);
    PluginsStay(s, s', t);
    MoveIsSound(s, s', t);
  }

  // A starter whose promise is fulfilled goes on with it.
  lemma StarterSound(s: State, t: nat, p: nat, pc: Pc)
    requires s.ctl.life == Active && t < |s.ctl.tasks| && p < |s.ctl.promises|
    requires Unloads(s.ctl.tasks[t]) ==> s.plug.loaded
    requires var s' := s.(ctl := StarterClears(s.ctl, t, p, pc));
      (Loaded(s) ==> Loaded(s')) ==> TaskHolds(s', t)
    ensures Sound(s, s.(ctl := StarterClears(s.ctl, t, p, pc)))
  {
    hide Loaded, TaskHolds;
    var s' := s.(ctl := StarterClears(s.ctl, t, p, pc));
    LoadedIsLoaded(s');
    MoveIsSound(s, s', t);
  }

  lemma SoundTwice(a: State, b: State, c: State)
    requires Held(a) && Sound(a, b) && Sound(b, c)
    ensures Sound(a, c)
  {
    hide Loaded, HasEmail;
    SoundKeeps(a, b);
    if c.ctl.life == Active {
      forall p: nat | p < |c.ctl.promises| ensures SamePromise(a.ctl, c.ctl, p) || PromiseHolds(c, p) {
        assert SamePromise(b.ctl, c.ctl, p) ==> PromiseHolds(b, p);
      }
      forall t: nat | t < |c.ctl.tasks| ensures SameTask(a.ctl, c.ctl, t) || TaskHolds(c, t) {
        assert SameTask(b.ctl, c.ctl, t) ==> TaskHolds(b, t);
      }
    }
  }

  lemma FailedStarterSound(s: State, t: nat, p: nat, pc: Pc)
    requires s.ctl.life == Active && t < |s.ctl.tasks| && p < |s.ctl.promises| && !Unloads(s.ctl.tasks[t])
    ensures Sound(s, s.(ctl := End(StarterClears(s.ctl, t, p, pc), t, Rejected)))
  {
    hide Loaded;
    MoveIsSound(s, s.(ctl := End(StarterClears(s.ctl, t, p, pc), t, Rejected)), t);
  }

  // What the await of a call refers to.
  lemma WaitHolds(cfg: Config, s: State, t: nat, w: Wait)
    requires Inv(cfg, s) && Held(s) && s.ctl.life == Active && CanResumeTask(s.ctl, t)
    requires match s.ctl.tasks[t].pc
      case Reading(_, v) => v == w
      case AwaitPlugins(v) => v == w
      case AwaitProducer(v) => v == w
      case _ => false
    ensures Ready(s.ctl, w) && (!w.Immediate? ==> w.p < |s.ctl.promises|) && TaskHolds(s, t)
    ensures var pc := s.ctl.tasks[t].pc;
      Succeeded(s.ctl, w) ==>
        && (pc.Reading? ==> s.res.readReady) && (pc.AwaitPlugins? ==> Loaded(s))
        && (pc.AwaitProducer? ==> s.res.producerReady)
  {
    hide Loaded, PlugInv, ResInv;
    assert TaskOk(s.ctl, t) && TaskHolds(s, t);
    if !w.Immediate? {
      assert PromiseHolds(s, w.p);
    }
  }

  lemma ResumeReadingSound(cfg: Config, s: State, t: nat, c: Choice)
    requires Inv(cfg, s) && Held(s) && s.ctl.life == Active && CanResumeTask(s.ctl, t) && s.ctl.tasks[t].pc.Reading?
    ensures Sound(s, ResumeReading(cfg, s, t, c))
  {
    hide Loaded, Inv, CallRead, CallLoad, End, Sound, Held;
    var Task(job, Reading(first, w)) := s.ctl.tasks[t];
    WaitHolds(cfg, s, t, w);
    if w.Start? && Succeeded(s.ctl, w) {
      StarterSound(s, t, w.p, Reading(first, Immediate));
    } else if w.Start? {
      FailedStarterSound(s, t, w.p, Reading(first, Immediate));
    } else if !Succeeded(s.ctl, w) {
      EndSound(s, t, Rejected);
    } else if first && job == EnsureFor(IntentRead) {
      EndSound(s, t, Fulfilled);
    } else if first {
      CallReadSound(cfg, s, t, false, c.read);
    } else {
      CallLoadSound(s, t, c.ok);
    }
  }

  lemma CallProducerSound(s: State, t: nat, jobs: bool)
    requires s.ctl.life == Active && t < |s.ctl.tasks| && !Unloads(s.ctl.tasks[t])
    requires s.ctl.tasks[t].job == EnsureFor(IntentWrite) && s.res.readReady && Loaded(s) && HasEmail(s)
    ensures Sound(s, CallProducer(s, t, jobs))
  {
    hide Loaded;
    LoadedIsLoaded(CallProducer(s, t, jobs));
    LoadedKept(s, CallProducer(s, t, jobs), t);
  }

  lemma EmailSound(s: State)
    requires s.ctl.life == Active
    ensures var s' := s.(res := Acquire(s.res, [Email])); Sound(s, s') && HasEmail(s')
  {
    hide Loaded;
    var s' := s.(res := Acquire(s.res, [Email]));
    AcquireEntry(s.res, [Email], Email);
    assert Loaded(s) ==> Loaded(s') by {
      LoadedIsLoaded(s');
      LoadedKept(s, s', |s.ctl.tasks|);
    }
  }

  lemma AfterPluginsSound(s: State, t: nat, intent: Intent, c: Choice)
    requires Held(s) && s.ctl.life == Active && t < |s.ctl.tasks| && s.ctl.tasks[t].job == EnsureFor(intent)
    requires s.res.readReady && Loaded(s)
    ensures Sound(s, AfterPlugins(s, t, intent, c))
  {
    hide Loaded, Held, Sound, End, CallProducer, Acquire;
    if intent.IntentRead? || intent.IntentPlugins? {
      EndSound(s, t, Fulfilled);
    } else if !HasEmail(s) && !(s.res.readReady && c.ok) {
      EndSound(s, t, Rejected);
    } else {
      var s1 := if HasEmail(s) then s else s.(res := Acquire(s.res, [Email]));
      AfterEmailSound(s, s1, t, intent, c);
    }
  }

  lemma AfterEmailSound(s: State, s1: State, t: nat, intent: Intent, c: Choice)
    requires Held(s) && s.ctl.life == Active && t < |s.ctl.tasks| && s.ctl.tasks[t].job == EnsureFor(intent)
    requires s.res.readReady && Loaded(s) && (intent.IntentWorker? || intent.IntentWrite?)
    requires s1 == if HasEmail(s) then s else s.(res := Acquire(s.res, [Email]))
    ensures intent.IntentWorker? ==> Sound(s, s1.(ctl := End(s1.ctl, t, Fulfilled)))
    ensures intent.IntentWrite? ==> Sound(s, CallProducer(s1, t, c.jobs))
  {
    hide Loaded, End, CallProducer, Acquire;
    EmailSound(s);
    AcquireEntry(s.res, [Email], Email);
    if intent.IntentWorker? {
      EndSound(s1, t, Fulfilled);
      SoundTwice(s, s1, s1.(ctl := End(s1.ctl, t, Fulfilled)));
    } else {
      CallProducerSound(s1, t, c.jobs);
      SoundTwice(s, s1, CallProducer(s1, t, c.jobs));
    }
  }

  lemma ResumePluginsSound(cfg: Config, s: State, t: nat, c: Choice)
    requires Inv(cfg, s) && Held(s) && s.ctl.life == Active && CanResumeTask(s.ctl, t)
    requires s.ctl.tasks[t].pc.AwaitPlugins?
    ensures Sound(s, ResumePlugins(s, t, c))
  {
    hide Loaded, Inv, AfterPlugins, End, Sound, Held, InstallReload;
    var Task(job, AwaitPlugins(w)) := s.ctl.tasks[t];
    WaitHolds(cfg, s, t, w);
    if w.Start? && Succeeded(s.ctl, w) {
      StarterSound(s, t, w.p, AwaitPlugins(Immediate));
    } else if w.Start? {
      RollingSound(s, t, w.p);
    } else if !Succeeded(s.ctl, w) || (!job.EnsureFor? && s.ctl.life != Active) {
      EndSound(s, t, Rejected);
    } else if job.EnsureFor? {
      AfterPluginsSound(s, t, job.intent, c);
    } else if s.ctl.loadP.Some? {
      DrainSound(s, t);
    } else {
      PluginsReloadJob(cfg, s, t);
      InstallSound(s, t);
    }
  }

  lemma PluginsReloadJob(cfg: Config, s: State, t: nat)
    requires Inv(cfg, s) && t < |s.ctl.tasks| && s.ctl.tasks[t].pc.AwaitPlugins? && !s.ctl.tasks[t].job.EnsureFor?
    ensures s.ctl.tasks[t].job.PerformReload?
  {
    assert TaskOk(s.ctl, t);
  }

  // A failed load is rolled back by the call that began it.
  lemma RollingSound(s: State, t: nat, p: nat)
    requires s.ctl.life == Active && t < |s.ctl.tasks| && p < |s.ctl.promises|
    requires s.ctl.tasks[t].pc.AwaitPlugins? || s.ctl.tasks[t].pc.Reloading?
    ensures Sound(s, s.(ctl := Move(MarkStarter(s.ctl, p), t, RollingBack(p))))
  {
    var s' := s.(ctl := Move(MarkStarter(s.ctl, p), t, RollingBack(p)));
    assert Unloads(s.ctl.tasks[t]) ==> Unloads(s'.ctl.tasks[t]);
    MoveIsSound(s, s', t);
  }

  lemma DrainSound(s: State, t: nat)
    requires s.ctl.life == Active && t < |s.ctl.tasks| && s.ctl.tasks[t].pc.AwaitPlugins? && s.ctl.loadP.Some?
    ensures Sound(s, s.(ctl := Move(s.ctl, t, Draining(s.ctl.loadP.value))))
  {
    hide Loaded;
    MoveIsSound(s, s.(ctl := Move(s.ctl, t, Draining(s.ctl.loadP.value))), t);
  }

  lemma InstallSound(s: State, t: nat)
    requires s.ctl.life == Active && t < |s.ctl.tasks| && s.ctl.tasks[t].job.PerformReload?
    ensures Sound(s, InstallReload(s, t))
  {
    assert Unloads(InstallReload(s, t).ctl.tasks[t]);
  }

  lemma RollbackSound(cfg: Config, s: State, t: nat)
    requires Inv(cfg, s) && s.ctl.life == Active && t < |s.ctl.tasks| && s.ctl.tasks[t].pc.RollingBack?
    ensures Sound(s, ResumeRollback(s, t))
  {
    var s' := ResumeRollback(s, t);
    assert TaskOk(s.ctl, t) && PromiseOk(cfg, s.ctl, s.ctl.tasks[t].pc.p);
    assert !s.plug.loaded;
    assert s.ctl.tasks[t].job.PerformReload? ==> Unloads(s'.ctl.tasks[t]);
    LoadedKept(s, s', t);
  }

  lemma ReloadingSound(cfg: Config, s: State, t: nat)
    requires Inv(cfg, s) && s.ctl.life == Active && CanResumeTask(s.ctl, t) && s.ctl.tasks[t].pc.Reloading?
    ensures Sound(s, ResumeReloading(s, t))
  {
    hide Loaded, ReloadsOk, ResInv;
    var p := s.ctl.tasks[t].pc.p;
    assert TaskOk(s.ctl, t) && PromiseOk(cfg, s.ctl, p);
    if Succeeded(s.ctl, Start(p)) {
      StarterSound(s, t, p, Reconciling);
    } else {
      RollingSound(s, t, p);
    }
  }

  lemma ResumeProducerSound(cfg: Config, s: State, t: nat)
    requires Inv(cfg, s) && Held(s) && s.ctl.life == Active && CanResumeTask(s.ctl, t)
    requires s.ctl.tasks[t].pc.AwaitProducer?
    ensures Sound(s, ResumeProducer(s, t))
  {
    hide Loaded, Inv, End, Sound, Held;
    var w := s.ctl.tasks[t].pc.w;
    WaitHolds(cfg, s, t, w);
    if w.Start? && Succeeded(s.ctl, w) {
      StarterSound(s, t, w.p, AwaitProducer(Immediate));
    } else if w.Start? {
      FailedStarterSound(s, t, w.p, AwaitProducer(Immediate));
    } else {
      EndSound(s, t, if Succeeded(s.ctl, w) then Fulfilled else Rejected);
    }
  }

  lemma ReloadCallSound(cfg: Config, s: State, t: nat)
    requires Inv(cfg, s) && s.ctl.life == Active && CanResumeTask(s.ctl, t) && s.ctl.tasks[t].pc.AwaitReload?
    ensures Sound(s, ResumeReloadCall(s, t, s.ctl.tasks[t].job.reload))
  {
    hide Loaded, ResInv, PlugInv;
    assert TaskOk(s.ctl, t);
    MoveIsSound(s, ResumeReloadCall(s, t, s.ctl.tasks[t].job.reload), t);
  }

  lemma ResumeSound(cfg: Config, s: State, t: nat, c: Choice)
    requires Inv(cfg, s) && Held(s) && s.ctl.life == Active && CanResumeTask(s.ctl, t)
    ensures Sound(s, DoResume(cfg, s, t, c))
  {
    hide ResumeReading, ResumePlugins, ResumeRollback, ResumeReloading, ResumeProducer, ResumeReloadCall, InstallReload,
      Held, Sound, Loaded, End;
    ResumeFacts(cfg, s, t);
    match s.ctl.tasks[t].pc
    case Reading(_, _) => ResumeReadingSound(cfg, s, t, c);
    case AwaitPlugins(_) => ResumePluginsSound(cfg, s, t, c);
    case RollingBack(_) => RollbackSound(cfg, s, t);
    case Draining(_) => InstallSound(s, t);
    case Reloading(_) => ReloadingSound(cfg, s, t);
    case Reconciling => EndSound(s, t, Fulfilled);
    case AwaitProducer(_) => ResumeProducerSound(cfg, s, t);
    case AwaitReload => ReloadCallSound(cfg, s, t);
  }

  lemma ResumeFacts(cfg: Config, s: State, t: nat)
    requires Inv(cfg, s) && CanResumeTask(s.ctl, t)
    ensures TaskOk(s.ctl, t)
    ensures s.ctl.tasks[t].pc.Draining? || s.ctl.tasks[t].pc.Reconciling? ==> s.ctl.tasks[t].job.PerformReload?
  {
    assert TaskOk(s.ctl, t);
  }

  // ---- the other steps ----

  lemma StepBodySound(cfg: Config, s: State, p: nat, c: Choice)
    requires Inv(cfg, s) && s.ctl.life == Active && CanStepBody(s.ctl, p)
    ensures Sound(s, DoStepBody(cfg, s, p, c))
  {
    hide Loaded, Inv, DoStepBody;
    var s' := DoStepBody(cfg, s, p, c);
    BodySettles(cfg, s, p, c);
    BodyGains(cfg, s, p, c);
    LoadedIsLoaded(s');
    LoadedKept(s, s', |s.ctl.tasks|);
  }

  // A body acts for one promise, and settles it well only with its work done.
  lemma BodySettles(cfg: Config, s: State, p: nat, c: Choice)
    requires Inv(cfg, s) && CanStepBody(s.ctl, p)
    ensures var s' := DoStepBody(cfg, s, p, c);
      && s'.ctl.tasks == s.ctl.tasks && s'.ctl.life == s.ctl.life && p < |s.ctl.promises| == |s'.ctl.promises|
      && (forall q: nat :: q < |s.ctl.promises| && q != p ==> SamePromise(s.ctl, s'.ctl, q))
      && (s'.ctl.promises[p].status == Fulfilled ==>
            match s'.ctl.promises[p].kind
            case LoadKind => s'.plug.loaded
            case ProducerKind => s'.res.producerReady
            case _ => false)
  {
    hide ResInv, PlugInv, Acquire, BeginRelease, EndRelease;
    assert PromiseOk(cfg, s.ctl, p);
  }

  lemma BodyGains(cfg: Config, s: State, p: nat, c: Choice)
    requires Inv(cfg, s) && CanStepBody(s.ctl, p)
    ensures var s' := DoStepBody(cfg, s, p, c);
      && (s.plug.loaded ==> s'.plug.loaded) && (s.res.readReady ==> s'.res.readReady)
      && (s.res.producerReady ==> s'.res.producerReady) && Entry(s'.res, Email) == Entry(s.res, Email)
  {
    hide Acquire, BeginRelease, EndRelease;
    assert PromiseOk(cfg, s.ctl, p);
    AcquireEntry(s.res, [Producer], Email);
    if s.ctl.promises[p].kind == ReadKind {
      RollbackEntry(cfg, s, p, c, Email);
    }
  }

  lemma CallEnsureSound(cfg: Config, s: State, intent: Intent, c: Choice)
    requires Inv(cfg, s) && s.ctl.life == Active
    ensures var s' := Next(cfg, s, CallEnsure(intent, c)); Sound(s, s') && s'.ctl.life == Active
  {
    hide CallRead, Loaded;
    var k := Task(EnsureFor(intent), Reading(true, Immediate));
    var (s1, t) := (s.(ctl := AddTask(s.ctl, k)), |s.ctl.tasks|);
    AddTaskKeeps(cfg, s.ctl, intent);
    ControlInv(cfg, s, s1.ctl);
    LoadedIsLoaded(s1);
    LoadedKept(s, s1, t);
    CallReadSound(cfg, s1, t, true, c.read);
  }

  lemma CallReloadSound(cfg: Config, s: State, c: Choice)
    requires Inv(cfg, s) && s.ctl.life == Active && s.ctl.reloadP.None?
    ensures var s' := Next(cfg, s, CallReload(c)); Sound(s, s') && s'.ctl.life == Active
  {
    hide CallRead, Loaded;
    var (s1, t) := (s.(ctl := AddReload(s.ctl)), |s.ctl.tasks|);
    AddReloadKeeps(cfg, s.ctl);
    ControlInv(cfg, s, s1.ctl);
    LoadedIsLoaded(s1);
    LoadedKept(s, s1, t);
    CallReadSound(cfg, s1, t, false, c.read);
  }

  // Only a shutdown ends the active life, and nothing brings it back.
  lemma StaysInactive(cfg: Config, s: State, e: Event)
    requires Inv(cfg, s) && Enabled(true, s, e) && s.ctl.life != Active
    ensures Next(cfg, s, e).ctl.life != Active
  {
    hide DoResume, DoStepBody, CanResumeTask, ReadyTask, CanStepBody, CtlInv, PlugInv, ResInv;
    NextInv(cfg, s, e);
    OrderedIsEnabled(s, e);
    LifeFacts(cfg, s);
    LifeFacts(cfg, Next(cfg, s, e));
    match e
    case Resume(t, c) => ResumeApart(cfg, s, t, c);
    case StepBody(p, c) => StepBodyApart(cfg, s, p, c);
    case StepShutdown =>
    case _ =>
  }

  lemma LifeFacts(cfg: Config, s: State)
    requires Inv(cfg, s)
    ensures s.ctl.life == Active <==> s.ctl.shut.NotShut?
  {
  }

  lemma NextHeld(cfg: Config, s: State, e: Event)
    requires Inv(cfg, s) && Held(s) && Enabled(true, s, e)
    ensures Held(Next(cfg, s, e))
  {
    hide DoResume, DoStepBody, CallRead, Sound;
    if s.ctl.life == Active {
      match e
      case CallEnsure(intent, c) => CallEnsureSound(cfg, s, intent, c);
      case CallReload(c) => CallReloadSound(cfg, s, c);
      case Resume(t, c) => ResumeSound(cfg, s, t, c);
      case StepBody(p, c) => StepBodySound(cfg, s, p, c);
      case _ =>
    } else {
      StaysInactive(cfg, s, e);
    }
    if e != CallShutdown && e != StepShutdown && s.ctl.life == Active {
      SoundKeeps(s, Next(cfg, s, e));
    }
  }

  lemma {:induction false} HeldAlways(cfg: Config, es: seq<Event>)
    requires Run(cfg, true, es).Some?
    ensures Held(Run(cfg, true, es).value)
  {
    hide Next, Enabled;
    if es != [] {
      var init, e := es[..|es| - 1], es[|es| - 1];
      HeldAlways(cfg, init);
      RunInv(cfg, init);
      NextHeld(cfg, Run(cfg, true, init).value, e);
    }
  }

  /**
    What a call that returned has, as long as no shutdown was asked for: the read state; for other intents the
    loaded plugins, unless a reload is under way or has failed; for worker and write the email runtime; and for
    write the job producer.
  */
  lemma ReturnedMeansAchieved(cfg: Config, s: State, t: nat)
    requires Reachable(cfg, s) && s.ctl.life == Active && t < |s.ctl.tasks|
    requires s.ctl.tasks[t].pc == Finished(true) && s.ctl.tasks[t].job.EnsureFor?
    ensures Achieved(s, s.ctl.tasks[t].job.intent)
  {
    var es :| Run(cfg, true, es) == Some(s);
    HeldAlways(cfg, es);
    assert TaskHolds(s, t);
  }

  // ---- a call returns only while the process is active ----

  predicate Returned(c: Control, t: nat) {
    t < |c.tasks| && c.tasks[t].pc == Finished(true) && c.tasks[t].job.EnsureFor?
  }

  // One call moves, and does not return.
  predicate NoneReturns(c: Control, c': Control, t: nat) {
    && |c'.tasks| == |c.tasks| && !Returned(c', t)
    && (forall u: nat :: u < |c.tasks| && u != t ==> c'.tasks[u] == c.tasks[u])
  }

  lemma EndedBadly(c: Control, t: nat, status: Status)
    requires t < |c.tasks| && (status == Fulfilled ==> !c.tasks[t].job.EnsureFor?)
    ensures NoneReturns(c, End(c, t, status), t)
  {
  }

  lemma ReadingReturnsActive(cfg: Config, s: State, t: nat, c: Choice)
    requires ReadyTask(s.ctl, t) && s.ctl.life != Active && s.ctl.tasks[t].pc.Reading?
    ensures NoneReturns(s.ctl, ResumeReading(cfg, s, t, c).ctl, t)
  {
    hide CallRead, CallLoad;
  }

  lemma PluginsReturnActive(s: State, t: nat, c: Choice)
    requires ReadyTask(s.ctl, t) && s.ctl.life != Active && s.ctl.tasks[t].pc.AwaitPlugins?
    ensures NoneReturns(s.ctl, ResumePlugins(s, t, c).ctl, t)
  {
    hide CallProducer, InstallReload, Acquire;
  }

  lemma ReloadReturnsActive(s: State, t: nat)
    requires ReadyTask(s.ctl, t) && s.ctl.tasks[t].pc.RollingBack?
    ensures NoneReturns(s.ctl, ResumeRollback(s, t).ctl, t)
  {
  }

  lemma ResumesReturnActive(cfg: Config, s: State, t: nat, c: Choice, u: nat)
    requires Inv(cfg, s) && CanResumeTask(s.ctl, t) && s.ctl.life != Active && !Returned(s.ctl, u)
    ensures !Returned(DoResume(cfg, s, t, c).ctl, u)
  {
    hide PlugInv, ResInv, ResumeReading, ResumePlugins, ResumeRollback;
    assert TaskOk(s.ctl, t);
    match s.ctl.tasks[t].pc
    case Reading(_, _) => ReadingReturnsActive(cfg, s, t, c);
    case AwaitPlugins(_) => PluginsReturnActive(s, t, c);
    case RollingBack(_) => ReloadReturnsActive(s, t);
    case _ =>
  }

  /** No call returns once a shutdown was asked for. */
  lemma ReturnsOnlyWhileActive(cfg: Config, s: State, e: Event, t: nat)
    requires Reachable(cfg, s) && Enabled(true, s, e) && !Returned(s.ctl, t) && Returned(Next(cfg, s, e).ctl, t)
    ensures s.ctl.life == Active && Next(cfg, s, e).ctl.life == Active
    ensures Achieved(Next(cfg, s, e), Next(cfg, s, e).ctl.tasks[t].job.intent)
  {
    hide DoResume, DoStepBody, CallRead, CanResumeTask, ReadyTask, CanStepBody, CanStepShutdown;
    ReachableInv(cfg, s);
    OrderedIsEnabled(s, e);
    ReturnKeepsLife(cfg, s, e, t);
    NextReachable(cfg, s, e);
    ReturnedMeansAchieved(cfg, Next(cfg, s, e), t);
  }

  lemma ReturnKeepsLife(cfg: Config, s: State, e: Event, t: nat)
    requires Inv(cfg, s) && Enabled(true, s, e) && !Returned(s.ctl, t) && Returned(Next(cfg, s, e).ctl, t)
    ensures s.ctl.life == Active && Next(cfg, s, e).ctl.life == Active
  {
    hide DoResume, DoStepBody, CallRead, CanResumeTask, ReadyTask, CanStepShutdown, CtlInv, PlugInv, ResInv;
    LifeFacts(cfg, s);
    OrderedIsEnabled(s, e);
    match e
    case Resume(u, c) =>
      if s.ctl.life != Active {
        ResumesReturnActive(cfg, s, u, c, t);
      }
      ResumeApart(cfg, s, u, c);
      NextInv(cfg, s, e);
      LifeFacts(cfg, Next(cfg, s, e));
    case StepBody(p, c) => BodySettles(cfg, s, p, c);
    case CallEnsure(intent, c) => CallEnsureSound(cfg, s, intent, c);
    case CallReload(c) => CallReloadSound(cfg, s, c);
    case _ =>
  }

  lemma NextReachable(cfg: Config, s: State, e: Event)
    requires Reachable(cfg, s) && Enabled(true, s, e)
    ensures Reachable(cfg, Next(cfg, s, e))
  {
    hide Next, Enabled;
    OrderedIsEnabled(s, e);
    var es :| Run(cfg, true, es) == Some(s);
    assert (es + [e])[..|es|] == es;
    assert Run(cfg, true, es + [e]) == Some(Next(cfg, s, e));
  }
}
