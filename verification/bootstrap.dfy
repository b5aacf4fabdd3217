/**
  The process bootstrap as a transition system. One step is the code between two awaits; every
  external call may succeed or fail. Any number of `ensureFor`, `reloadPlugins` and `shutdown`
  calls interleave freely, with one ordering rule: the caller that created a promise awaits it
  first, so its continuation runs before any other waiter of that promise resumes.

  The state has three parts: the control part (lifecycle, promises, suspended calls), the plugin
  registries, and the owned resources. Steps are built from a few control moves.
*/
module Bootstrap {
  import opened Common

  datatype Config = Config(
    plugins: seq<string>,
    pluginBlocks: seq<string>, themeBlocks: seq<string>,
    pluginPatterns: seq<string>, themePatterns: seq<string>,
    hasCdnPurge: bool, hasSearch: bool, hasAgentStudio: bool)

  // Every block is registered before any pattern.
  function Contributions(cfg: Config): seq<string> {
    cfg.pluginBlocks + cfg.themeBlocks + cfg.pluginPatterns + cfg.themePatterns
  }

  // ---- control ----

  datatype Life = Active | ShuttingDown | Closed
  datatype Status = Pending | Fulfilled | Rejected
  datatype Kind = ReadKind | LoadKind | ReloadKind | ProducerKind

  // Where the asynchronous body behind a promise is suspended.
  datatype Body =
    | Inert
    | RollbackStorage | RollbackDatabase | RollbackObservability
    | TearingDown | Syncing | LoadingPlugin(next: nat)
    | StartingBoss
    | DrivenBy(task: nat)

  // `starter` is the call that created the promise and awaits it first.
  datatype Promise = Promise(kind: Kind, status: Status, starter: nat, starterDone: bool, body: Body)

  datatype Intent = IntentRead | IntentPlugins | IntentWorker | IntentWrite

  datatype Wait = Immediate | Follow(p: nat) | Start(p: nat)

  datatype Job = EnsureFor(intent: Intent) | PerformReload(reload: nat) | ReloadCall(reload: nat)

  datatype Pc =
    | Reading(first: bool, w: Wait)  // an await of ensureRead: ensureFor's own, or ensurePluginsLoaded's
    | AwaitPlugins(w: Wait)          // an await of ensurePluginsLoaded
    | RollingBack(p: nat)            // the starter of a failed load awaits teardownPlugins
    | Draining(p: nat)               // a reload awaits a load in flight
    | Reloading(p: nat)              // a reload awaits its own load
    | Reconciling
    | AwaitProducer(w: Wait)
    | AwaitReload
    | Finished(ok: bool)             // the call returned, or threw

  datatype Task = Task(job: Job, pc: Pc)

  datatype Shut =
    | NotShut | ShutWaiting(pending: set<nat>) | ShutProducer | ShutTeardown | ShutSearch
    | ShutCdn | ShutStorage | ShutDatabase | ShutObservability | ShutDone

  datatype Control = Control(
    life: Life, shut: Shut,
    readP: Option<nat>, loadP: Option<nat>, reloadP: Option<nat>, producerP: Option<nat>,
    promises: seq<Promise>, tasks: seq<Task>)

  function Slot(c: Control, kind: Kind): Option<nat> {
    match kind
    case ReadKind => c.readP
    case LoadKind => c.loadP
    case ReloadKind => c.reloadP
    case ProducerKind => c.producerP
  }

  function SetSlot(c: Control, kind: Kind, p: Option<nat>): Control {
    match kind
    case ReadKind => c.(readP := p)
    case LoadKind => c.(loadP := p)
    case ReloadKind => c.(reloadP := p)
    case ProducerKind => c.(producerP := p)
  }

  predicate Settled(c: Control, p: nat) {
    p < |c.promises| && c.promises[p].status != Pending
  }

  // The awaited promise has settled.
  predicate Ready(c: Control, w: Wait) {
    w.Immediate? || Settled(c, w.p)
  }

  // The ordering rule: a follower resumes only after the starter has, which registered first.
  predicate CanResume(c: Control, w: Wait) {
    match w
    case Immediate => true
    case Follow(p) => Settled(c, p) && c.promises[p].starterDone
    case Start(p) => Settled(c, p) && !c.promises[p].starterDone
  }

  predicate Succeeded(c: Control, w: Wait)
    requires Ready(c, w)
  {
    w.Immediate? || c.promises[w.p].status == Fulfilled
  }

  // The call goes on to its next await, or ends.
  function Move(c: Control, t: nat, pc: Pc): Control
    requires t < |c.tasks|
  {
    c.(tasks := c.tasks[t := c.tasks[t].(pc := pc)])
  }

  // The call creates a promise, stores it in its slot and awaits it.
  function Begin(c: Control, t: nat, kind: Kind, status: Status, body: Body, pc: Pc): Control
    requires t < |c.tasks|
  {
    var pr := Promise(kind, status, t, false, if status == Pending then body else Inert);
    Move(SetSlot(c, kind, Some(|c.promises|)).(promises := c.promises + [pr]), t, pc)
  }

  function MarkStarter(c: Control, p: nat): Control
    requires p < |c.promises|
  {
    c.(promises := c.promises[p := c.promises[p].(starterDone := true)])
  }

  // `finally { slot = null }` of the call that created the promise.
  function StarterClears(c: Control, t: nat, p: nat, pc: Pc): Control
    requires t < |c.tasks| && p < |c.promises|
  {
    Move(SetSlot(MarkStarter(c, p), c.promises[p].kind, None), t, pc)
  }

  function Settle(c: Control, p: nat, status: Status): Control
    requires p < |c.promises|
  {
    c.(promises := c.promises[p := c.promises[p].(status := status, body := Inert)])
  }

  function SetBody(c: Control, p: nat, body: Body): Control
    requires p < |c.promises|
  {
    c.(promises := c.promises[p := c.promises[p].(body := body)])
  }

  // The call returns or throws; performPluginReload settles the promise of its reload.
  function End(c: Control, t: nat, status: Status): Control
    requires t < |c.tasks|
  {
    var c1 := Move(c, t, Finished(status == Fulfilled));
    match c.tasks[t].job
    case PerformReload(rp) => if rp < |c.promises| then Settle(c1, rp, status) else c1
    case _ => c1
  }

  function AddTask(c: Control, k: Task): Control {
    c.(tasks := c.tasks + [k])
  }

  // performPluginReload starts, its promise is stored, and the caller awaits it.
  function AddReload(c: Control): Control {
    var t := |c.tasks|;
    c.(promises := c.promises + [Promise(ReloadKind, Pending, t + 1, false, DrivenBy(t))],
    reloadP := Some(|c.promises|),
    tasks := c.tasks +
      [Task(PerformReload(|c.promises|), Reading(false, Immediate)), Task(ReloadCall(|c.promises|), AwaitReload)])
  }

  // ---- plugins ----

  datatype Plugins = Plugins(loaded: bool, host: seq<string>, registry: seq<string>)

  const NO_PLUGINS: Plugins := Plugins(false, [], [])

  // ---- resources ----

  datatype Resource =
    | Observability | Database | Cache | CdnAttachment | Search | AgentStudio | Storage
    | Email | Producer

  // One resource: its ownership flag, whether its release was called while the flag is still set,
  // and how often it was acquired and released so far.
  datatype Ledger = Ledger(owned: bool, releasing: bool, acquired: nat, released: nat)

  // `statics` covers collections, themes, i18n and the site resolver. The ledger holds the CDN purge adapter's
  // attachment to the process; calls of the adapter's own shutdown are counted apart.
  datatype Resources = Resources(
    readReady: bool, producerReady: bool, statics: bool, ledger: map<Resource, Ledger>, cdnShutdowns: nat)

  function Entry(r: Resources, x: Resource): Ledger {
    if x in r.ledger then r.ledger[x] else Ledger(false, false, 0, 0)
  }

  function Put(r: Resources, x: Resource, l: Ledger): Resources {
    r.(ledger := r.ledger[x := l])
  }

  function Take(l: Ledger): Ledger {
    l.(owned := true, acquired := l.acquired + 1)
  }

  function Acquire(r: Resources, xs: seq<Resource>): Resources
    decreases xs
  {
    if xs == [] then r else Acquire(Put(r, xs[0], Take(Entry(r, xs[0]))), xs[1..])
  }

  // Call the release operation of a resource whose flag is set; the flag clears later.
  function BeginRelease(r: Resources, x: Resource): Resources {
    var l := Entry(r, x);
    if l.owned then Put(r, x, l.(releasing := true, released := l.released + 1)) else r
  }

  function EndRelease(r: Resources, x: Resource): Resources {
    Put(r, x, Entry(r, x).(owned := false, releasing := false))
  }

  function ReleaseNow(r: Resources, x: Resource): Resources {
    EndRelease(BeginRelease(r, x), x)
  }

  // The part of both teardown paths that runs without an await.
  function ReleaseAdapters(r: Resources): Resources {
    ReleaseNow(ReleaseNow(ReleaseNow(ReleaseNow(r.(statics := false), AgentStudio), Cache), CdnAttachment),
               Search)
  }

  // The order in which a read start takes its resources.
  function AcquireOrder(cfg: Config): seq<Resource> {
    [Observability, Database, Cache]
    + (if cfg.hasCdnPurge then [CdnAttachment] else [])
    + (if cfg.hasSearch then [Search] else [])
    + (if cfg.hasAgentStudio then [AgentStudio] else [])
    + [Storage]
  }

  // How a read start ends: before anything is installed, after `taken` acquisitions, or well.
  datatype ReadOutcome = ReadOk | ReadEarly | ReadFails(taken: nat)

  // The body of a read start runs without an await; a failure starts rollbackRead in the same step.
  function ReadTaken(order: seq<Resource>, r: Resources, outcome: ReadOutcome): Resources {
    match outcome
    case ReadEarly => r
    case ReadOk => Acquire(r, order).(readReady := true, statics := true)
    case ReadFails(n) =>
      BeginRelease(ReleaseAdapters(Acquire(r, if n < |order| then order[..n] else order)), Storage)
  }

  function ReadStatus(outcome: ReadOutcome): Status {
    match outcome
    case ReadOk => Fulfilled
    case ReadEarly => Rejected
    case ReadFails(_) => Pending
  }

  // ---- steps ----

  datatype State = State(ctl: Control, plug: Plugins, res: Resources)

  const INIT: State := State(
    Control(Active, NotShut, None, None, None, None, [], []), NO_PLUGINS,
    Resources(false, false, false, map[], 0))

  // External choices made during one step.
  datatype Choice = Choice(read: ReadOutcome, ok: bool, jobs: bool, partial: nat)

  datatype Event =
    | CallEnsure(intent: Intent, c: Choice)
    | CallReload(c: Choice)
    | CallShutdown
    | Resume(task: nat, c: Choice)
    | StepBody(promise: nat, c: Choice)
    | StepShutdown

  // `await ensureRead()` by call t.
  function CallRead(cfg: Config, s: State, t: nat, first: bool, outcome: ReadOutcome): State
    requires t < |s.ctl.tasks|
  {
    if s.res.readReady then s.(ctl := Move(s.ctl, t, Reading(first, Immediate)))
    else if s.ctl.readP.Some? then s.(ctl := Move(s.ctl, t, Reading(first, Follow(s.ctl.readP.value))))
    else
      State(Begin(s.ctl, t, ReadKind, ReadStatus(outcome), RollbackStorage, Reading(first, Start(|s.ctl.promises|))),
            s.plug, ReadTaken(AcquireOrder(cfg), s.res, outcome))
  }

  // ensurePluginsLoaded after its read.
  function CallLoad(s: State, t: nat, ok: bool): State
    requires t < |s.ctl.tasks|
  {
    if s.plug.loaded then s.(ctl := Move(s.ctl, t, AwaitPlugins(Immediate)))
    else if s.ctl.loadP.Some? then s.(ctl := Move(s.ctl, t, AwaitPlugins(Follow(s.ctl.loadP.value))))
    else
      var started := ok && s.ctl.life == Active && s.res.readReady;
      s.(ctl := Begin(s.ctl, t, LoadKind, if started then Pending else Rejected, Syncing,
                      AwaitPlugins(Start(|s.ctl.promises|))))
  }

  // performPluginReload stores the load promise before it awaits any of its body.
  function InstallReload(s: State, t: nat): State
    requires t < |s.ctl.tasks|
  {
    s.(ctl := Begin(s.ctl, t, LoadKind, Pending, TearingDown, Reloading(|s.ctl.promises|)),
    plug := s.plug.(loaded := false))
  }

  // ensureJobProducer
  function CallProducer(s: State, t: nat, jobs: bool): State
    requires t < |s.ctl.tasks|
  {
    if s.res.producerReady || !jobs then
      State(Move(s.ctl, t, AwaitProducer(Immediate)), s.plug, s.res.(producerReady := true))
    else if s.ctl.producerP.Some? then s.(ctl := Move(s.ctl, t, AwaitProducer(Follow(s.ctl.producerP.value))))
    else
      s.(ctl := Begin(s.ctl, t, ProducerKind, if s.res.readReady then Pending else Rejected, StartingBoss,
                      AwaitProducer(Start(|s.ctl.promises|))))
  }

  // What ensureFor does once the plugins are loaded.
  function AfterPlugins(s: State, t: nat, intent: Intent, c: Choice): State
    requires t < |s.ctl.tasks|
  {
    if s.ctl.life != Active then s.(ctl := End(s.ctl, t, Rejected))
    else if intent.IntentRead? || intent.IntentPlugins? then s.(ctl := End(s.ctl, t, Fulfilled))
    else if !Entry(s.res, Email).owned && !(s.res.readReady && c.ok) then s.(ctl := End(s.ctl, t, Rejected))
    else
      var s1 := if Entry(s.res, Email).owned then s else s.(res := Acquire(s.res, [Email]));
      if intent.IntentWorker? then s1.(ctl := End(s1.ctl, t, Fulfilled)) else CallProducer(s1, t, c.jobs)
  }

  function ResumeReading(cfg: Config, s: State, t: nat, c: Choice): State
    requires t < |s.ctl.tasks| && s.ctl.tasks[t].pc.Reading? && Ready(s.ctl, s.ctl.tasks[t].pc.w)
  {
    var Task(job, Reading(first, w)) := s.ctl.tasks[t];
    var ok := Succeeded(s.ctl, w);
    if w.Start? then
      var c1 := StarterClears(s.ctl, t, w.p, Reading(first, Immediate));
      s.(ctl := if ok then c1 else End(c1, t, Rejected))
    else if !ok || s.ctl.life != Active then s.(ctl := End(s.ctl, t, Rejected))
    else if first && job == EnsureFor(IntentRead) then s.(ctl := End(s.ctl, t, Fulfilled))
    else if first then CallRead(cfg, s, t, false, c.read)
    else CallLoad(s, t, c.ok)
  }

  function ResumePlugins(s: State, t: nat, c: Choice): State
    requires t < |s.ctl.tasks| && s.ctl.tasks[t].pc.AwaitPlugins? && Ready(s.ctl, s.ctl.tasks[t].pc.w)
  {
    var Task(job, AwaitPlugins(w)) := s.ctl.tasks[t];
    var ok := Succeeded(s.ctl, w);
    if w.Start? then
      s.(ctl := if ok then StarterClears(s.ctl, t, w.p, AwaitPlugins(Immediate))
      else Move(MarkStarter(s.ctl, w.p), t, RollingBack(w.p)))
    else if !ok then s.(ctl := End(s.ctl, t, Rejected))
    else
      match job
      case EnsureFor(intent) => AfterPlugins(s, t, intent, c)
      case _ =>
        if s.ctl.life != Active then s.(ctl := End(s.ctl, t, Rejected))
        else if s.ctl.loadP.Some? then s.(ctl := Move(s.ctl, t, Draining(s.ctl.loadP.value)))
        else InstallReload(s, t)
  }

  // Initial load and reload roll back alike: reset, then clear the slot whatever it holds.
  function ResumeRollback(s: State, t: nat): State
    requires t < |s.ctl.tasks|
  {
    State(End(SetSlot(s.ctl, LoadKind, None), t, Rejected), NO_PLUGINS, s.res)
  }

  function ResumeReloading(s: State, t: nat): State
    requires t < |s.ctl.tasks| && s.ctl.tasks[t].pc.Reloading? && Ready(s.ctl, Start(s.ctl.tasks[t].pc.p))
  {
    var p := s.ctl.tasks[t].pc.p;
    s.(ctl := if Succeeded(s.ctl, Start(p)) then StarterClears(s.ctl, t, p, Reconciling)
    else Move(MarkStarter(s.ctl, p), t, RollingBack(p)))
  }

  function ResumeProducer(s: State, t: nat): State
    requires t < |s.ctl.tasks| && s.ctl.tasks[t].pc.AwaitProducer? && Ready(s.ctl, s.ctl.tasks[t].pc.w)
  {
    var w := s.ctl.tasks[t].pc.w;
    var ok := Succeeded(s.ctl, w);
    if w.Start? then
      var c1 := StarterClears(s.ctl, t, w.p, AwaitProducer(Immediate));
      s.(ctl := if ok then c1 else End(c1, t, Rejected))
    else s.(ctl := End(s.ctl, t, if ok && s.ctl.life == Active then Fulfilled else Rejected))
  }

  // The reload caller clears the slot only when it still holds its own promise.
  function ResumeReloadCall(s: State, t: nat, rp: nat): State
    requires t < |s.ctl.tasks| && rp < |s.ctl.promises|
  {
    var done := Finished(s.ctl.promises[rp].status == Fulfilled);
    s.(ctl := if s.ctl.reloadP == Some(rp) then StarterClears(s.ctl, t, rp, done)
    else Move(MarkStarter(s.ctl, rp), t, done))
  }

  predicate CanResumeTask(c: Control, t: nat) {
    t < |c.tasks| &&
    match c.tasks[t].pc
    case Reading(_, w) => CanResume(c, w)
    case AwaitPlugins(w) => CanResume(c, w)
    case RollingBack(_) => true
    case Draining(p) => CanResume(c, Follow(p))
    case Reloading(p) => CanResume(c, Start(p))
    case Reconciling => true
    case AwaitProducer(w) => CanResume(c, w)
    case AwaitReload => c.tasks[t].job.ReloadCall? && CanResume(c, Start(c.tasks[t].job.reload))
    case Finished(_) => false
  }

  // What the await of a call needs without the ordering rule.
  predicate ReadyTask(c: Control, t: nat) {
    t < |c.tasks| &&
    match c.tasks[t].pc
    case Reading(_, w) => Ready(c, w)
    case AwaitPlugins(w) => Ready(c, w)
    case RollingBack(_) => true
    case Draining(p) => Ready(c, Follow(p))
    case Reloading(p) => Ready(c, Start(p))
    case Reconciling => true
    case AwaitProducer(w) => Ready(c, w)
    case AwaitReload => c.tasks[t].job.ReloadCall? && Ready(c, Start(c.tasks[t].job.reload))
    case Finished(_) => false
  }

  function DoResume(cfg: Config, s: State, t: nat, c: Choice): State
    requires ReadyTask(s.ctl, t)
  {
    match s.ctl.tasks[t].pc
    case Reading(_, _) => ResumeReading(cfg, s, t, c)
    case AwaitPlugins(_) => ResumePlugins(s, t, c)
    case RollingBack(_) => ResumeRollback(s, t)
    case Draining(_) => InstallReload(s, t)
    case Reloading(_) => ResumeReloading(s, t)
    case Reconciling => s.(ctl := End(s.ctl, t, Fulfilled))
    case AwaitProducer(_) => ResumeProducer(s, t)
    case AwaitReload => ResumeReloadCall(s, t, s.ctl.tasks[t].job.reload)
  }

  predicate CanStepBody(c: Control, p: nat) {
    p < |c.promises| && c.promises[p].status == Pending
    && !c.promises[p].body.DrivenBy? && !c.promises[p].body.Inert?
  }

  function RegisterAll(cfg: Config, s: State, p: nat, c: Choice): State
    requires p < |s.ctl.promises|
  {
    var all := Contributions(cfg);
    if c.ok then
      State(Settle(s.ctl, p, Fulfilled), Plugins(true, s.plug.host, s.plug.registry + all), s.res)
    else
      var done := if c.partial < |all| then all[..c.partial] else all;
      State(Settle(s.ctl, p, Rejected), s.plug.(registry := s.plug.registry + done), s.res)
  }

  function DoStepBody(cfg: Config, s: State, p: nat, c: Choice): State
    requires CanStepBody(s.ctl, p)
  {
    match s.ctl.promises[p].body
    case RollbackStorage =>
      s.(ctl := SetBody(s.ctl, p, RollbackDatabase), res := BeginRelease(EndRelease(s.res, Storage), Database))
    case RollbackDatabase =>
      s.(ctl := SetBody(s.ctl, p, RollbackObservability),
      res := BeginRelease(EndRelease(s.res, Database), Observability))
    case RollbackObservability =>
      s.(ctl := Settle(s.ctl, p, Rejected), res := EndRelease(s.res, Observability))
    case TearingDown =>
      if !c.ok then s.(ctl := Settle(s.ctl, p, Rejected))
      else
        State(if s.ctl.life == Active && s.res.readReady then SetBody(s.ctl, p, Syncing)
              else Settle(s.ctl, p, Rejected),
              Plugins(s.plug.loaded, [], []), s.res)
    case Syncing =>
      s.(ctl := if c.ok then SetBody(s.ctl, p, LoadingPlugin(0)) else Settle(s.ctl, p, Rejected))
    case LoadingPlugin(k) =>
      if k >= |cfg.plugins| then RegisterAll(cfg, s, p, c)
      else if c.ok then
        s.(ctl := SetBody(s.ctl, p, LoadingPlugin(k + 1)), plug := s.plug.(host := s.plug.host + [cfg.plugins[k]]))
      else s.(ctl := Settle(s.ctl, p, Rejected))
    case StartingBoss =>
      if c.ok then
        s.(ctl := Settle(s.ctl, p, Fulfilled), res := Acquire(s.res, [Producer]).(producerReady := true))
      else s.(ctl := Settle(s.ctl, p, Rejected))
  }

  function OptionSet(o: Option<nat>): set<nat> {
    if o.Some? then {o.value} else {}
  }

  function DoCallShutdown(s: State): State {
    s.(ctl := s.ctl.(life := ShuttingDown, shut := ShutWaiting(
      OptionSet(s.ctl.readP) + OptionSet(s.ctl.loadP) + OptionSet(s.ctl.producerP) + OptionSet(s.ctl.reloadP))))
  }

  predicate CanStepShutdown(c: Control) {
    match c.shut
    case NotShut => false
    case ShutDone => false
    case ShutWaiting(pending) => forall p :: p in pending ==> Settled(c, p)
    case _ => true
  }

  function NextShut(shut: Shut): Shut {
    match shut
    case NotShut => NotShut
    case ShutWaiting(_) => ShutProducer
    case ShutProducer => ShutTeardown
    case ShutTeardown => ShutSearch
    case ShutSearch => ShutCdn
    case ShutCdn => ShutStorage
    case ShutStorage => ShutDatabase
    case ShutDatabase => ShutObservability
    case ShutObservability => ShutDone
    case ShutDone => ShutDone
  }

  function ShutRes(cfg: Config, shut: Shut, r: Resources): Resources {
    match shut
    case ShutWaiting(_) => BeginRelease(r, Producer)
    case ShutProducer => EndRelease(r, Producer).(producerReady := false)
    case ShutTeardown => ReleaseAdapters(r)
    case ShutSearch => if cfg.hasCdnPurge then r.(cdnShutdowns := r.cdnShutdowns + 1) else r
    case ShutCdn => BeginRelease(ReleaseNow(r, Email), Storage)
    case ShutStorage => BeginRelease(EndRelease(r, Storage), Database)
    case ShutDatabase => BeginRelease(EndRelease(r, Database).(readReady := false), Observability)
    case ShutObservability => EndRelease(r, Observability)
    case _ => r
  }

  function DoStepShutdown(cfg: Config, s: State): State {
    State(s.ctl.(shut := NextShut(s.ctl.shut), life := if s.ctl.shut.ShutObservability? then Closed else s.ctl.life),
          if s.ctl.shut.ShutTeardown? then NO_PLUGINS else s.plug,
          ShutRes(cfg, s.ctl.shut, s.res))
  }

  // `ordered` is true for JavaScript promises; false drops the ordering rule.
  predicate Enabled(ordered: bool, s: State, e: Event) {
    match e
    case CallEnsure(_, _) => s.ctl.life == Active
    case CallReload(_) => s.ctl.life == Active && s.ctl.reloadP.None?
    case CallShutdown => s.ctl.shut.NotShut?
    case Resume(t, _) => if ordered then CanResumeTask(s.ctl, t) else ReadyTask(s.ctl, t)
    case StepBody(p, _) => CanStepBody(s.ctl, p)
    case StepShutdown => CanStepShutdown(s.ctl)
  }

  // A second reloadPlugins or shutdown call only awaits the promise of the first.
  function Next(cfg: Config, s: State, e: Event): State
    requires Enabled(false, s, e)
  {
    match e
    case CallEnsure(intent, c) =>
      CallRead(cfg, s.(ctl := AddTask(s.ctl, Task(EnsureFor(intent), Reading(true, Immediate)))),
               |s.ctl.tasks|, true, c.read)
    case CallReload(c) => CallRead(cfg, s.(ctl := AddReload(s.ctl)), |s.ctl.tasks|, false, c.read)
    case CallShutdown => DoCallShutdown(s)
    case Resume(t, c) => DoResume(cfg, s, t, c)
    case StepBody(p, c) => DoStepBody(cfg, s, p, c)
    case StepShutdown => DoStepShutdown(cfg, s)
  }

  /** The state after a run, or None when some event was not enabled. */
  function Run(cfg: Config, ordered: bool, es: seq<Event>): Option<State> {
    if es == [] then Some(INIT)
    else
      match Run(cfg, ordered, es[..|es| - 1])
      case None => None
      case Some(s) => if Enabled(ordered, s, es[|es| - 1]) then Some(Next(cfg, s, es[|es| - 1])) else None
  }
}
