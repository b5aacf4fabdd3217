/** Every acquired resource is released by exactly one call, whichever path releases it. */
module BootstrapResources {
  import opened Common
  import opened Bootstrap
  import opened BootstrapControl
  import opened BootstrapPlugins

  predicate Waiting(shut: Shut) {
    shut.NotShut? || shut.ShutWaiting?
  }

  function ReadBody(c: Control): Body {
    if c.readP.Some? && c.readP.value < |c.promises| then c.promises[c.readP.value].body else Inert
  }

  predicate HeldInRollback(body: Body, x: Resource) {
    match body
    case RollbackStorage => x == Storage || x == Database || x == Observability
    case RollbackDatabase => x == Database || x == Observability
    case RollbackObservability => x == Observability
    case _ => false
  }

  // Whether a resource may be owned in this phase.
  predicate MayOwn(c: Control, r: Resources, x: Resource) {
    match c.shut
    case ShutProducer => true
    case ShutTeardown => x != Producer
    case ShutSearch => x == Email || x == Storage || x == Database || x == Observability
    case ShutCdn => x == Email || x == Storage || x == Database || x == Observability
    case ShutStorage => x == Storage || x == Database || x == Observability
    case ShutDatabase => x == Database || x == Observability
    case ShutObservability => x == Observability
    case ShutDone => false
    case _ =>
      match x
      case Producer => r.producerReady
      case Email => true
      case _ => r.readReady || HeldInRollback(ReadBody(c), x)
  }

  // Whether the release call of a resource is in progress in this phase.
  predicate InRelease(c: Control, x: Resource) {
    match c.shut
    case ShutProducer => x == Producer
    case ShutStorage => x == Storage
    case ShutDatabase => x == Database
    case ShutObservability => x == Observability
    case _ =>
      match ReadBody(c)
      case RollbackStorage => x == Storage
      case RollbackDatabase => x == Database
      case RollbackObservability => x == Observability
      case _ => false
  }

  // Acquire calls equal release calls, plus one while the resource is held.
  predicate Balanced(l: Ledger) {
    l.acquired == l.released + if l.owned && !l.releasing then 1 else 0
  }

  predicate ProducerPending(c: Control) {
    c.producerP.Some? && c.producerP.value < |c.promises| && c.promises[c.producerP.value].status == Pending
  }

  predicate EntryOk(c: Control, r: Resources, x: Resource) {
    var l := Entry(r, x);
    Balanced(l) && (l.owned ==> MayOwn(c, r, x)) && (l.releasing <==> l.owned && InRelease(c, x))
  }

  predicate FlagsOk(c: Control, r: Resources) {
    && (r.readReady ==> ReadBody(c) == Inert)
    && (Waiting(c.shut) && !r.readReady ==> !r.statics)
    && (Torn(c.shut) ==> !r.statics)
    && (c.shut.ShutObservability? || c.shut.ShutDone? ==> !r.readReady)
    && (Torn(c.shut) ==> !r.producerReady)
    && (c.shut.ShutTeardown? ==> !r.producerReady)
  }

  // While a producer start is in flight, none is held.
  predicate ProducerFree(c: Control, r: Resources) {
    ProducerPending(c) ==> !Entry(r, Producer).owned
  }

  ghost predicate ResInv(c: Control, r: Resources) {
    FlagsOk(c, r) && ProducerFree(c, r) && forall x: Resource :: EntryOk(c, r, x)
  }

  ghost predicate Distinct(xs: seq<Resource>) {
    forall i, j :: 0 <= i < j < |xs| ==> xs[i] != xs[j]
  }

  lemma {:induction false} AcquireEntry(r: Resources, xs: seq<Resource>, x: Resource)
    requires Distinct(xs)
    ensures Entry(Acquire(r, xs), x) == if x in xs then Take(Entry(r, x)) else Entry(r, x)
    ensures Acquire(r, xs).(ledger := map[]) == r.(ledger := map[])
    decreases xs
  {
    if xs != [] {
      AcquireEntry(Put(r, xs[0], Take(Entry(r, xs[0]))), xs[1..], x);
      assert xs == [xs[0]] + xs[1..];
    }
  }

  lemma OrderDistinct(cfg: Config)
    ensures Distinct(AcquireOrder(cfg))
    ensures Email !in AcquireOrder(cfg) && Producer !in AcquireOrder(cfg)
  {
    var order := AcquireOrder(cfg);
    assert forall i :: 0 <= i < |order| ==> Position(order[i]) < 7;
    assert forall i, j :: 0 <= i < j < |order| ==> Position(order[i]) < Position(order[j]);
  }

  // Where a resource stands in the order of a read start that takes them all.
  function Position(x: Resource): nat {
    match x
    case Observability => 0
    case Database => 1
    case Cache => 2
    case CdnAttachment => 3
    case Search => 4
    case AgentStudio => 5
    case Storage => 6
    case Email => 7
    case Producer => 8
  }

  function TakenBy(order: seq<Resource>, outcome: ReadOutcome): seq<Resource> {
    match outcome
    case ReadEarly => []
    case ReadOk => order
    case ReadFails(n) => if n < |order| then order[..n] else order
  }

  // One release call if the resource was held.
  function Freed(l: Ledger): Ledger {
    Ledger(false, false, l.acquired, l.released + if l.owned then 1 else 0)
  }

  function Begun(l: Ledger): Ledger {
    if l.owned then l.(releasing := true, released := l.released + 1) else l
  }

  function Ended(l: Ledger): Ledger {
    l.(owned := false, releasing := false)
  }

  lemma BeginReleaseEntry(r: Resources, y: Resource, x: Resource)
    ensures Entry(BeginRelease(r, y), x) == if x == y then Begun(Entry(r, x)) else Entry(r, x)
    ensures BeginRelease(r, y).(ledger := map[]) == r.(ledger := map[])
  {
  }

  lemma EndReleaseEntry(r: Resources, y: Resource, x: Resource)
    ensures Entry(EndRelease(r, y), x) == if x == y then Ended(Entry(r, x)) else Entry(r, x)
    ensures EndRelease(r, y).(ledger := map[]) == r.(ledger := map[])
  {
  }

  lemma ReleaseNowEntry(r: Resources, y: Resource, x: Resource)
    ensures Entry(ReleaseNow(r, y), x) == if x == y then Freed(Entry(r, y)) else Entry(r, x)
    ensures ReleaseNow(r, y).(ledger := map[]) == r.(ledger := map[])
  {
  }

  predicate IsAdapter(x: Resource) {
    x == AgentStudio || x == Cache || x == CdnAttachment || x == Search
  }

  lemma AdaptersEntry(r: Resources, x: Resource)
    ensures Entry(ReleaseAdapters(r), x) == if IsAdapter(x) then Freed(Entry(r, x)) else Entry(r, x)
    ensures ReleaseAdapters(r).(ledger := map[]) == r.(statics := false, ledger := map[])
  {
    var r1 := ReleaseNow(r.(statics := false), AgentStudio);
    var r2 := ReleaseNow(r1, Cache);
    var r3 := ReleaseNow(r2, CdnAttachment);
    ReleaseNowEntry(r.(statics := false), AgentStudio, x);
    ReleaseNowEntry(r1, Cache, x);
    ReleaseNowEntry(r2, CdnAttachment, x);
    ReleaseNowEntry(r3, Search, x);
  }

  // The ledger after a start that took some resources and then failed.
  lemma FailedEntry(r: Resources, taken: seq<Resource>, x: Resource)
    requires Distinct(taken) && Balanced(Entry(r, x)) && !Entry(r, x).releasing
    requires x in taken ==> !Entry(r, x).owned
    ensures var r' := BeginRelease(ReleaseAdapters(Acquire(r, taken)), Storage);
            && Balanced(Entry(r', x))
            && (Entry(r', x).owned <==> !IsAdapter(x) && (x in taken || Entry(r, x).owned))
            && (Entry(r', x).releasing <==> Entry(r', x).owned && x == Storage)
            && (x != Storage && !IsAdapter(x) && x !in taken ==> Entry(r', x) == Entry(r, x))
            && r'.(ledger := map[]) == r.(statics := false, ledger := map[])
  {
    hide Acquire, ReleaseAdapters, BeginRelease;
    var r1 := Acquire(r, taken);
    AcquireEntry(r, taken, x);
    AdaptersEntry(r1, x);
    BeginReleaseEntry(ReleaseAdapters(r1), Storage, x);
  }

  // The ledger entry of one resource after a read start.
  lemma ReadTakenEntry(order: seq<Resource>, r: Resources, outcome: ReadOutcome, x: Resource)
    requires Distinct(order) && Email !in order && Producer !in order
    requires Balanced(Entry(r, x)) && !Entry(r, x).releasing
    requires x != Email && x != Producer ==> !Entry(r, x).owned
    ensures var l := Entry(ReadTaken(order, r, outcome), x);
            && Balanced(l)
            && (x == Email || x == Producer ==> l == Entry(r, x))
            && (x != Email && x != Producer && l.owned ==>
                  outcome.ReadOk? || (outcome.ReadFails? && HeldInRollback(RollbackStorage, x)))
            && (l.releasing <==> l.owned && outcome.ReadFails? && x == Storage)
    ensures var r' := ReadTaken(order, r, outcome);
            r'.producerReady == r.producerReady && r'.readReady == (r.readReady || outcome.ReadOk?)
            && r'.statics == if outcome.ReadFails? then false else r.statics || outcome.ReadOk?
  {
    hide Acquire, ReleaseAdapters, BeginRelease;
    var taken := TakenBy(order, outcome);
    if outcome.ReadFails? {
      FailedEntry(r, taken, x);
    } else {
      AcquireEntry(r, taken, x);
    }
  }

  lemma CallReadKeeps(cfg: Config, s: State, t: nat, first: bool, outcome: ReadOutcome)
    requires CtlInv(cfg, s.ctl) && ResInv(s.ctl, s.res) && s.ctl.life == Active
    requires t < |s.ctl.tasks| && Free(s.ctl.tasks[t].pc)
    requires if first then s.ctl.tasks[t].job.EnsureFor? else !s.ctl.tasks[t].job.ReloadCall?
    ensures CtlInv(cfg, CallRead(cfg, s, t, first, outcome).ctl)
  {
    assert TaskOk(s.ctl, t);
    if s.res.readReady {
      MoveKeeps(cfg, s.ctl, t, Reading(first, Immediate));
    } else if s.ctl.readP.Some? {
      MoveKeeps(cfg, s.ctl, t, Reading(first, Follow(s.ctl.readP.value)));
    } else {
      BeginKeeps(cfg, s.ctl, t, ReadKind, ReadStatus(outcome), RollbackStorage,
                 Reading(first, Start(|s.ctl.promises|)));
    }
  }

  lemma CallReadEntry(cfg: Config, s: State, t: nat, first: bool, outcome: ReadOutcome, x: Resource)
    requires s.ctl.life == Active && s.ctl.shut.NotShut? && t < |s.ctl.tasks|
    requires EntryOk(s.ctl, s.res, x) && FlagsOk(s.ctl, s.res)
    ensures var s' := CallRead(cfg, s, t, first, outcome); EntryOk(s'.ctl, s'.res, x)
  {
    hide AcquireOrder, ReadTaken;
    if !s.res.readReady && s.ctl.readP.None? {
      OrderDistinct(cfg);
      ReadTakenEntry(AcquireOrder(cfg), s.res, outcome, x);
    }
  }

  lemma CallReadFlags(cfg: Config, s: State, t: nat, first: bool, outcome: ReadOutcome)
    requires SlotsOk(s.ctl) && s.ctl.shut.NotShut? && t < |s.ctl.tasks|
    requires EntryOk(s.ctl, s.res, Producer) && FlagsOk(s.ctl, s.res) && ProducerFree(s.ctl, s.res)
    ensures var s' := CallRead(cfg, s, t, first, outcome); FlagsOk(s'.ctl, s'.res) && ProducerFree(s'.ctl, s'.res)
  {
    hide AcquireOrder, ReadTaken;
    if !s.res.readReady && s.ctl.readP.None? {
      OrderDistinct(cfg);
      ReadTakenEntry(AcquireOrder(cfg), s.res, outcome, Producer);
    }
  }

  lemma CallReadResources(cfg: Config, s: State, t: nat, first: bool, outcome: ReadOutcome)
    requires CtlInv(cfg, s.ctl) && ResInv(s.ctl, s.res) && s.ctl.life == Active && t < |s.ctl.tasks|
    ensures var s' := CallRead(cfg, s, t, first, outcome); ResInv(s'.ctl, s'.res)
  {
    var s' := CallRead(cfg, s, t, first, outcome);
    assert EntryOk(s.ctl, s.res, Producer);
    CallReadFlags(cfg, s, t, first, outcome);
    forall x: Resource ensures EntryOk(s'.ctl, s'.res, x) {
      assert EntryOk(s.ctl, s.res, x);
      CallReadEntry(cfg, s, t, first, outcome, x);
    }
  }

  function NextRollback(body: Body): Body {
    match body
    case RollbackStorage => RollbackDatabase
    case RollbackDatabase => RollbackObservability
    case _ => Inert
  }

  // The entry of one resource after a rollback step.
  function RollbackLedger(body: Body, x: Resource, l: Ledger): Ledger {
    match body
    case RollbackStorage => if x == Storage then Ended(l) else if x == Database then Begun(l) else l
    case RollbackDatabase => if x == Database then Ended(l) else if x == Observability then Begun(l) else l
    case _ => if x == Observability then Ended(l) else l
  }

  // A rollback is the body of the read start in the slot, before and after its step.
  lemma RollbackReads(cfg: Config, s: State, p: nat, c: Choice)
    requires CanStepBody(s.ctl, p) && PromiseOk(cfg, s.ctl, p) && s.ctl.promises[p].kind == ReadKind
    ensures var (c', body) := (DoStepBody(cfg, s, p, c).ctl, s.ctl.promises[p].body);
      ReadBody(s.ctl) == body && ReadBody(c') == NextRollback(body) && c'.shut == s.ctl.shut
  {
    hide EndRelease, BeginRelease;
  }

  lemma RollbackEntry(cfg: Config, s: State, p: nat, c: Choice, x: Resource)
    requires CanStepBody(s.ctl, p) && PromiseOk(cfg, s.ctl, p) && s.ctl.promises[p].kind == ReadKind
    ensures var (r', body) := (DoStepBody(cfg, s, p, c).res, s.ctl.promises[p].body);
      && Entry(r', x) == RollbackLedger(body, x, Entry(s.res, x))
      && r'.(ledger := map[]) == s.res.(ledger := map[])
  {
    hide EndRelease, BeginRelease, Settle, SetBody;
    var r := s.res;
    match s.ctl.promises[p].body
    case RollbackStorage =>
      EndReleaseEntry(r, Storage, x);
      BeginReleaseEntry(EndRelease(r, Storage), Database, x);
    case RollbackDatabase =>
      EndReleaseEntry(r, Database, x);
      BeginReleaseEntry(EndRelease(r, Database), Observability, x);
    case RollbackObservability =>
      EndReleaseEntry(r, Observability, x);
  }

  lemma RollbackStepEntry(cfg: Config, s: State, p: nat, c: Choice, x: Resource)
    requires CanStepBody(s.ctl, p) && PromiseOk(cfg, s.ctl, p) && s.ctl.promises[p].kind == ReadKind
    requires EntryOk(s.ctl, s.res, x)
    ensures var s' := DoStepBody(cfg, s, p, c);
            EntryOk(s'.ctl, s'.res, x) && (x == Producer ==> Entry(s'.res, x) == Entry(s.res, x))
  {
    hide DoStepBody, ReadBody, Entry;
    RollbackReads(cfg, s, p, c);
    RollbackEntry(cfg, s, p, c, x);
  }

  lemma RollbackStepKeeps(cfg: Config, s: State, p: nat, c: Choice)
    requires CtlInv(cfg, s.ctl) && ResInv(s.ctl, s.res) && CanStepBody(s.ctl, p)
    requires s.ctl.promises[p].kind == ReadKind
    ensures var s' := DoStepBody(cfg, s, p, c); CtlInv(cfg, s'.ctl) && ResInv(s'.ctl, s'.res)
  {
    var s' := DoStepBody(cfg, s, p, c);
    assert PromiseOk(cfg, s.ctl, p);
    if s'.ctl.promises[p].status == Pending {
      SetBodyKeeps(cfg, s.ctl, p, s'.ctl.promises[p].body);
    } else {
      SettleKeeps(cfg, s.ctl, p, Rejected);
    }
    forall x: Resource ensures EntryOk(s'.ctl, s'.res, x) {
      assert EntryOk(s.ctl, s.res, x);
      RollbackStepEntry(cfg, s, p, c, x);
    }
    RollbackStepEntry(cfg, s, p, c, Producer);
  }

  lemma ProducerStepEntry(cfg: Config, s: State, p: nat, c: Choice, x: Resource)
    requires CanStepBody(s.ctl, p) && PromiseOk(cfg, s.ctl, p) && s.ctl.promises[p].kind == ProducerKind
    requires SlotsOk(s.ctl) && LifeOk(s.ctl) && ProducerFree(s.ctl, s.res) && EntryOk(s.ctl, s.res, x)
    ensures var s' := DoStepBody(cfg, s, p, c); EntryOk(s'.ctl, s'.res, x)
  {
    hide Acquire, ReadBody, SlotsOk;
    SettledReads(s.ctl, p, if c.ok then Fulfilled else Rejected);
    AcquireEntry(s.res, [Producer], x);
  }

  lemma SettledReads(c: Control, p: nat, status: Status)
    requires SlotsOk(c) && p < |c.promises| && c.promises[p].kind != ReadKind
    ensures ReadBody(Settle(c, p, status)) == ReadBody(c)
  {
  }

  lemma ProducerStepFlags(cfg: Config, s: State, p: nat, c: Choice)
    requires CanStepBody(s.ctl, p) && PromiseOk(cfg, s.ctl, p) && s.ctl.promises[p].kind == ProducerKind
    requires SlotsOk(s.ctl) && LifeOk(s.ctl) && ProducerFree(s.ctl, s.res) && FlagsOk(s.ctl, s.res)
    ensures var s' := DoStepBody(cfg, s, p, c);
            && s'.ctl == Settle(s.ctl, p, if c.ok then Fulfilled else Rejected)
            && FlagsOk(s'.ctl, s'.res) && ProducerFree(s'.ctl, s'.res)
  {
    hide Acquire;
    AcquireEntry(s.res, [Producer], Cache);
  }

  lemma ProducerStepKeeps(cfg: Config, s: State, p: nat, c: Choice)
    requires CtlInv(cfg, s.ctl) && ResInv(s.ctl, s.res) && CanStepBody(s.ctl, p)
    requires s.ctl.promises[p].kind == ProducerKind
    ensures var s' := DoStepBody(cfg, s, p, c); CtlInv(cfg, s'.ctl) && ResInv(s'.ctl, s'.res)
  {
    hide Acquire, EntryOk, DoStepBody;
    var s' := DoStepBody(cfg, s, p, c);
    assert PromiseOk(cfg, s.ctl, p);
    SettleKeeps(cfg, s.ctl, p, if c.ok then Fulfilled else Rejected);
    ProducerStepFlags(cfg, s, p, c);
    forall x: Resource ensures EntryOk(s'.ctl, s'.res, x) {
      assert EntryOk(s.ctl, s.res, x);
      ProducerStepEntry(cfg, s, p, c, x);
    }
  }

  // The entry of one resource after a shutdown step.
  function ShutLedger(shut: Shut, x: Resource, l: Ledger): Ledger {
    match shut
    case ShutWaiting(_) => if x == Producer then Begun(l) else l
    case ShutProducer => if x == Producer then Ended(l) else l
    case ShutTeardown => if IsAdapter(x) then Freed(l) else l
    case ShutCdn => if x == Email then Freed(l) else if x == Storage then Begun(l) else l
    case ShutStorage => if x == Storage then Ended(l) else if x == Database then Begun(l) else l
    case ShutDatabase => if x == Database then Ended(l) else if x == Observability then Begun(l) else l
    case ShutObservability => if x == Observability then Ended(l) else l
    case _ => l
  }

  lemma ShutResEntry(cfg: Config, shut: Shut, r: Resources, x: Resource)
    ensures Entry(ShutRes(cfg, shut, r), x) == ShutLedger(shut, x, Entry(r, x))
  {
    match shut
    case NotShut =>
    case ShutWaiting(_) => BeginReleaseEntry(r, Producer, x);
    case ShutProducer => EndReleaseEntry(r, Producer, x);
    case ShutTeardown => AdaptersEntry(r, x);
    case ShutSearch =>
    case ShutCdn =>
      ReleaseNowEntry(r, Email, x);
      BeginReleaseEntry(ReleaseNow(r, Email), Storage, x);
    case ShutStorage =>
      EndReleaseEntry(r, Storage, x);
      BeginReleaseEntry(EndRelease(r, Storage), Database, x);
    case ShutDatabase =>
      EndReleaseEntry(r, Database, x);
      BeginReleaseEntry(EndRelease(r, Database).(readReady := false), Observability, x);
    case ShutObservability => EndReleaseEntry(r, Observability, x);
    case ShutDone =>
  }

  lemma ShutFlags(cfg: Config, shut: Shut, r: Resources)
    ensures var r' := ShutRes(cfg, shut, r);
            && r'.readReady == (r.readReady && !shut.ShutDatabase?)
            && r'.producerReady == (r.producerReady && !shut.ShutProducer?)
            && r'.statics == (r.statics && !shut.ShutTeardown?)
  {
    AdaptersEntry(r, Cache);
  }

  lemma ShutdownEntry(cfg: Config, s: State, x: Resource)
    requires EntryOk(s.ctl, s.res, x) && CanStepShutdown(s.ctl) && ReadBody(s.ctl) == Inert
    ensures var s' := DoStepShutdown(cfg, s); EntryOk(s'.ctl, s'.res, x)
  {
    hide ShutRes;
    ShutResEntry(cfg, s.ctl.shut, s.res, x);
  }

  lemma ShutdownStepKeeps(cfg: Config, s: State)
    requires CtlInv(cfg, s.ctl) && ResInv(s.ctl, s.res) && CanStepShutdown(s.ctl)
    ensures var s' := DoStepShutdown(cfg, s); ResInv(s'.ctl, s'.res)
  {
    var s' := DoStepShutdown(cfg, s);
    if s.ctl.readP.Some? {
      NothingPending(cfg, s.ctl, s.ctl.readP.value);
      assert PromiseOk(cfg, s.ctl, s.ctl.readP.value);
    }
    if s.ctl.producerP.Some? {
      NothingPending(cfg, s.ctl, s.ctl.producerP.value);
    }
    ShutFlags(cfg, s.ctl.shut, s.res);
    forall x: Resource ensures EntryOk(s'.ctl, s'.res, x) {
      assert EntryOk(s.ctl, s.res, x);
      ShutdownEntry(cfg, s, x);
    }
  }
}
