/**
  The control invariant of the bootstrap: which call owns which promise, and what a waiting
  shutdown covers. Every control move keeps it.
*/
module BootstrapControl {
  import opened Common
  import opened Bootstrap

  // Call t is suspended in the frame that created p and will clear its slot.
  predicate StartsPc(k: Task, kind: Kind, p: nat) {
    match kind
    case ReadKind => k.pc.Reading? && k.pc.w == Start(p)
    case LoadKind => k.pc == AwaitPlugins(Start(p)) || k.pc == RollingBack(p) || k.pc == Reloading(p)
    case ReloadKind => k == Task(ReloadCall(p), AwaitReload)
    case ProducerKind => k.pc == AwaitProducer(Start(p))
  }

  predicate Starts(c: Control, t: nat, kind: Kind, p: nat) {
    t < |c.tasks| && StartsPc(c.tasks[t], kind, p)
  }

  // The frame has no promise of its own to clean up.
  predicate Free(pc: Pc) {
    match pc
    case Reading(_, w) => !w.Start?
    case AwaitPlugins(w) => !w.Start?
    case AwaitProducer(w) => !w.Start?
    case Draining(_) => true
    case Reconciling => true
    case _ => false
  }

  predicate BodyFits(cfg: Config, kind: Kind, body: Body) {
    match kind
    case ReadKind => body.RollbackStorage? || body.RollbackDatabase? || body.RollbackObservability?
    case LoadKind => body.TearingDown? || body.Syncing? || (body.LoadingPlugin? && body.next <= |cfg.plugins|)
    case ReloadKind => body.DrivenBy?
    case ProducerKind => body.StartingBoss?
  }

  // While shutdown waits, everything pending is awaited, directly or through a reload.
  predicate Awaited(c: Control, q: nat) {
    q < |c.promises| &&
    match c.shut
    case NotShut => true
    case ShutWaiting(pending) =>
      q in pending ||
      (c.promises[q].kind == LoadKind && c.promises[q].starter < |c.tasks| &&
       var k := c.tasks[c.promises[q].starter];
       k.pc == Reloading(q) && k.job.PerformReload? && k.job.reload in pending)
    case _ => false
  }

  predicate PromiseOk(cfg: Config, c: Control, q: nat) {
    q < |c.promises| &&
    var pr := c.promises[q];
    && (Slot(c, pr.kind) == Some(q) <==> Starts(c, pr.starter, pr.kind, q))
    && (Slot(c, pr.kind) != Some(q) ==> pr.status != Pending && pr.starterDone)
    && (Slot(c, pr.kind) == Some(q) ==>
          if c.tasks[pr.starter].pc.RollingBack? then pr.starterDone && pr.status == Rejected
          else !pr.starterDone)
    && (if pr.status == Pending then BodyFits(cfg, pr.kind, pr.body) && Awaited(c, q) else pr.body == Inert)
    && (pr.kind == ReloadKind && pr.status == Pending ==>
          pr.body.task < |c.tasks| && c.tasks[pr.body.task].job == PerformReload(q)
          && !c.tasks[pr.body.task].pc.Finished?)
  }

  predicate IsPromise(c: Control, p: nat, kind: Kind) {
    p < |c.promises| && c.promises[p].kind == kind
  }

  predicate WaitOk(c: Control, t: nat, w: Wait, kind: Kind) {
    match w
    case Immediate => true
    case Follow(p) => IsPromise(c, p, kind)
    case Start(p) => IsPromise(c, p, kind) && c.promises[p].starter == t && Slot(c, kind) == Some(p)
  }

  predicate TaskOk(c: Control, t: nat) {
    t < |c.tasks| &&
    var Task(job, pc) := c.tasks[t];
    && (job.PerformReload? ==>
          && IsPromise(c, job.reload, ReloadKind)
          && (!pc.Finished? ==>
                c.promises[job.reload].status == Pending && c.promises[job.reload].body == DrivenBy(t)))
    && match pc
       case Reading(first, w) =>
         (if first then job.EnsureFor? else !job.ReloadCall?) && WaitOk(c, t, w, ReadKind)
       case AwaitPlugins(w) => !job.ReloadCall? && WaitOk(c, t, w, LoadKind)
       case RollingBack(p) => !job.ReloadCall? && WaitOk(c, t, Start(p), LoadKind)
       case Draining(p) => job.PerformReload? && IsPromise(c, p, LoadKind)
       case Reloading(p) => job.PerformReload? && WaitOk(c, t, Start(p), LoadKind)
       case Reconciling => job.PerformReload?
       case AwaitProducer(w) => job.EnsureFor? && WaitOk(c, t, w, ProducerKind)
       case AwaitReload => job.ReloadCall? && WaitOk(c, t, Start(job.reload), ReloadKind)
       case Finished(_) => true
  }

  predicate SlotOk(c: Control, kind: Kind) {
    Slot(c, kind).Some? ==> IsPromise(c, Slot(c, kind).value, kind)
  }

  predicate SlotsOk(c: Control) {
    SlotOk(c, ReadKind) && SlotOk(c, LoadKind) && SlotOk(c, ReloadKind) && SlotOk(c, ProducerKind)
  }

  predicate LifeOk(c: Control) {
    && (c.life == Active <==> c.shut.NotShut?)
    && (c.life == Closed <==> c.shut.ShutDone?)
    && (c.shut.ShutWaiting? ==> forall p :: p in c.shut.pending ==> p < |c.promises|)
  }

  predicate PromisesOk(cfg: Config, c: Control) {
    forall q: nat :: q < |c.promises| ==> PromiseOk(cfg, c, q)
  }

  predicate TasksOk(c: Control) {
    forall t: nat :: t < |c.tasks| ==> TaskOk(c, t)
  }

  predicate CtlInv(cfg: Config, c: Control) {
    SlotsOk(c) && LifeOk(c) && PromisesOk(cfg, c) && TasksOk(c)
  }

  lemma MoveKeeps(cfg: Config, c: Control, t: nat, pc: Pc)
    requires CtlInv(cfg, c) && t < |c.tasks| && Free(c.tasks[t].pc) && Free(pc)
    requires TaskOk(Move(c, t, pc), t)
    ensures CtlInv(cfg, Move(c, t, pc))
  {
    var c' := Move(c, t, pc);
    forall q: nat | q < |c'.promises| ensures PromiseOk(cfg, c', q) {
      assert PromiseOk(cfg, c, q);
    }
    forall u: nat | u < |c'.tasks| ensures TaskOk(c', u) {
      assert TaskOk(c, u);
    }
  }

  lemma EndPromise(cfg: Config, c: Control, t: nat, status: Status, q: nat)
    requires TaskOk(c, t) && PromiseOk(cfg, c, q) && Free(c.tasks[t].pc) && status != Pending
    ensures PromiseOk(cfg, End(c, t, status), q)
  {
  }

  lemma EndTask(c: Control, t: nat, status: Status, u: nat)
    requires TaskOk(c, t) && TaskOk(c, u) && Free(c.tasks[t].pc) && status != Pending
    ensures TaskOk(End(c, t, status), u)
  {
    hide Slot;
    var c' := End(c, t, status);
    SlotsAfterEnd(c, t, status);
    assert u != t ==> c'.tasks[u] == c.tasks[u];
  }

  lemma SlotsAfterEnd(c: Control, t: nat, status: Status)
    requires t < |c.tasks|
    ensures forall kind :: Slot(End(c, t, status), kind) == Slot(c, kind)
  {
  }

  lemma EndKeeps(cfg: Config, c: Control, t: nat, status: Status)
    requires CtlInv(cfg, c) && t < |c.tasks| && Free(c.tasks[t].pc) && status != Pending
    ensures CtlInv(cfg, End(c, t, status))
  {
    hide PromiseOk, TaskOk, Free;
    var c' := End(c, t, status);
    forall q: nat | q < |c'.promises| ensures PromiseOk(cfg, c', q) {
      EndPromise(cfg, c, t, status, q);
    }
    forall u: nat | u < |c'.tasks| ensures TaskOk(c', u) {
      EndTask(c, t, status, u);
    }
  }

  lemma BeginPromises(cfg: Config, c: Control, t: nat, kind: Kind, status: Status, body: Body, pc: Pc)
    requires CtlInv(cfg, c) && t < |c.tasks| && Free(c.tasks[t].pc)
    requires Slot(c, kind) == None && kind != ReloadKind && (status == Pending ==> BodyFits(cfg, kind, body))
    requires !pc.RollingBack? && StartsPc(Task(c.tasks[t].job, pc), kind, |c.promises|)
    requires status == Pending ==> Awaited(Begin(c, t, kind, status, body, pc), |c.promises|)
    ensures PromisesOk(cfg, Begin(c, t, kind, status, body, pc))
  {
    var c' := Begin(c, t, kind, status, body, pc);
    forall q: nat | q < |c'.promises| ensures PromiseOk(cfg, c', q) {
      assert q < |c.promises| ==> PromiseOk(cfg, c, q);
    }
  }

  lemma BeginTasks(cfg: Config, c: Control, t: nat, kind: Kind, status: Status, body: Body, pc: Pc)
    requires CtlInv(cfg, c) && t < |c.tasks| && Slot(c, kind) == None
    requires TaskOk(Begin(c, t, kind, status, body, pc), t)
    ensures TasksOk(Begin(c, t, kind, status, body, pc))
  {
    var c' := Begin(c, t, kind, status, body, pc);
    forall u: nat | u < |c'.tasks| ensures TaskOk(c', u) {
      assert TaskOk(c, u) && (u != t ==> c'.tasks[u] == c.tasks[u]);
    }
  }

  lemma BeginKeeps(cfg: Config, c: Control, t: nat, kind: Kind, status: Status, body: Body, pc: Pc)
    requires CtlInv(cfg, c) && t < |c.tasks| && Free(c.tasks[t].pc)
    requires Slot(c, kind) == None && kind != ReloadKind && (status == Pending ==> BodyFits(cfg, kind, body))
    requires !pc.RollingBack? && StartsPc(Task(c.tasks[t].job, pc), kind, |c.promises|)
    requires var c' := Begin(c, t, kind, status, body, pc);
             TaskOk(c', t) && (status == Pending ==> Awaited(c', |c.promises|))
    ensures CtlInv(cfg, Begin(c, t, kind, status, body, pc))
  {
    BeginPromises(cfg, c, t, kind, status, body, pc);
    BeginTasks(cfg, c, t, kind, status, body, pc);
  }

  // Call t leaves the frame that created p.
  predicate LeavesFrame(c: Control, t: nat, p: nat, pc: Pc) {
    && t < |c.tasks| && p < |c.promises|
    && StartsPc(c.tasks[t], c.promises[p].kind, p) && CanResume(c, Start(p))
    && (Free(pc) || (pc.Finished? && !c.tasks[t].job.PerformReload?))
  }

  // What the starter's last steps change.
  predicate StarterCleared(c: Control, c': Control, t: nat, p: nat, pc: Pc)
    requires t < |c.tasks| && p < |c.promises|
  {
    && c'.tasks == c.tasks[t := Task(c.tasks[t].job, pc)] && c'.shut == c.shut && c'.life == c.life
    && c'.promises == c.promises[p := c.promises[p].(starterDone := true)]
    && forall kind :: Slot(c', kind) == if kind == c.promises[p].kind then None else Slot(c, kind)
  }

  lemma StarterClearsView(c: Control, t: nat, p: nat, pc: Pc)
    requires t < |c.tasks| && p < |c.promises|
    ensures StarterCleared(c, StarterClears(c, t, p, pc), t, p, pc)
  {
  }

  lemma StarterClearsPromise(cfg: Config, c: Control, c': Control, t: nat, p: nat, pc: Pc, q: nat)
    requires LeavesFrame(c, t, p, pc) && StarterCleared(c, c', t, p, pc)
    requires TaskOk(c, t) && PromiseOk(cfg, c, q)
    ensures PromiseOk(cfg, c', q)
  {
    hide Slot;
    assert q != p ==> c'.promises[q] == c.promises[q];
  }

  lemma StarterClearsTask(c: Control, c': Control, t: nat, p: nat, pc: Pc, u: nat)
    requires LeavesFrame(c, t, p, pc) && StarterCleared(c, c', t, p, pc)
    requires TaskOk(c, t) && TaskOk(c, u) && u != t
    ensures TaskOk(c', u)
  {
    hide Slot;
    assert c'.tasks[u] == c.tasks[u];
  }

  lemma StarterClearsSlots(c: Control, c': Control, t: nat, p: nat, pc: Pc)
    requires t < |c.tasks| && p < |c.promises| && StarterCleared(c, c', t, p, pc)
    requires SlotsOk(c) && LifeOk(c)
    ensures SlotsOk(c') && LifeOk(c')
  {
    hide Slot;
  }

  lemma StarterClearsKeeps(cfg: Config, c: Control, t: nat, p: nat, pc: Pc)
    requires CtlInv(cfg, c) && LeavesFrame(c, t, p, pc)
    requires TaskOk(StarterClears(c, t, p, pc), t)
    ensures CtlInv(cfg, StarterClears(c, t, p, pc))
  {
    hide PromiseOk, TaskOk, SlotOk, LifeOk, StartsPc, CanResume, Free;
    var c' := StarterClears(c, t, p, pc);
    StarterClearsView(c, t, p, pc);
    StarterClearsSlots(c, c', t, p, pc);
    forall q: nat | q < |c'.promises| ensures PromiseOk(cfg, c', q) {
      StarterClearsPromise(cfg, c, c', t, p, pc, q);
    }
    forall u: nat | u < |c'.tasks| ensures TaskOk(c', u) {
      if u != t {
        StarterClearsTask(c, c', t, p, pc, u);
      }
    }
  }

  lemma StarterRollsBackKeeps(cfg: Config, c: Control, t: nat, p: nat)
    requires CtlInv(cfg, c) && t < |c.tasks| && CanResume(c, Start(p)) && c.promises[p].status == Rejected
    requires c.tasks[t].pc == AwaitPlugins(Start(p)) || c.tasks[t].pc == Reloading(p)
    ensures CtlInv(cfg, Move(MarkStarter(c, p), t, RollingBack(p)))
  {
    var c' := Move(MarkStarter(c, p), t, RollingBack(p));
    assert TaskOk(c, t);
    forall q: nat | q < |c'.promises| ensures PromiseOk(cfg, c', q) {
      assert PromiseOk(cfg, c, q);
    }
    forall u: nat | u < |c'.tasks| ensures TaskOk(c', u) {
      assert TaskOk(c, u) && (u != t ==> c'.tasks[u] == c.tasks[u]);
    }
  }

  lemma RollbackClearsKeeps(cfg: Config, c: Control, t: nat)
    requires CtlInv(cfg, c) && t < |c.tasks| && c.tasks[t].pc.RollingBack?
    ensures CtlInv(cfg, End(SetSlot(c, LoadKind, None), t, Rejected))
  {
    var c1 := Move(SetSlot(c, LoadKind, None), t, AwaitPlugins(Immediate));
    assert TaskOk(c, t);
    forall q: nat | q < |c1.promises| ensures PromiseOk(cfg, c1, q) {
      assert PromiseOk(cfg, c, q);
    }
    forall u: nat | u < |c1.tasks| ensures TaskOk(c1, u) {
      assert TaskOk(c, u);
    }
    EndKeeps(cfg, c1, t, Rejected);
    assert Move(c1, t, Finished(false)).tasks == Move(SetSlot(c, LoadKind, None), t, Finished(false)).tasks;
  }

  lemma SettleKeeps(cfg: Config, c: Control, p: nat, status: Status)
    requires CtlInv(cfg, c) && CanStepBody(c, p) && status != Pending
    ensures CtlInv(cfg, Settle(c, p, status))
  {
    var c' := Settle(c, p, status);
    assert PromiseOk(cfg, c, p);
    forall q: nat | q < |c'.promises| ensures PromiseOk(cfg, c', q) {
      assert PromiseOk(cfg, c, q);
    }
    forall u: nat | u < |c'.tasks| ensures TaskOk(c', u) {
      assert TaskOk(c, u) && c'.tasks[u] == c.tasks[u];
    }
  }

  lemma SetBodyKeeps(cfg: Config, c: Control, p: nat, body: Body)
    requires CtlInv(cfg, c) && CanStepBody(c, p) && BodyFits(cfg, c.promises[p].kind, body)
    ensures CtlInv(cfg, SetBody(c, p, body))
  {
    var c' := SetBody(c, p, body);
    assert PromiseOk(cfg, c, p);
    forall q: nat | q < |c'.promises| ensures PromiseOk(cfg, c', q) {
      assert PromiseOk(cfg, c, q);
    }
    forall u: nat | u < |c'.tasks| ensures TaskOk(c', u) {
      assert TaskOk(c, u) && c'.tasks[u] == c.tasks[u];
    }
  }

  lemma AddTaskKeeps(cfg: Config, c: Control, intent: Intent)
    requires CtlInv(cfg, c)
    ensures CtlInv(cfg, AddTask(c, Task(EnsureFor(intent), Reading(true, Immediate))))
  {
    var c' := AddTask(c, Task(EnsureFor(intent), Reading(true, Immediate)));
    forall q: nat | q < |c'.promises| ensures PromiseOk(cfg, c', q) {
      assert PromiseOk(cfg, c, q);
    }
    forall u: nat | u < |c'.tasks| ensures TaskOk(c', u) {
      assert u < |c.tasks| ==> TaskOk(c, u);
    }
  }

  lemma AddReloadKeeps(cfg: Config, c: Control)
    requires CtlInv(cfg, c) && c.life == Active && c.reloadP == None
    ensures CtlInv(cfg, AddReload(c))
  {
    var c' := AddReload(c);
    forall q: nat | q < |c'.promises| ensures PromiseOk(cfg, c', q) {
      assert q < |c.promises| ==> PromiseOk(cfg, c, q);
    }
    forall u: nat | u < |c'.tasks| ensures TaskOk(c', u) {
      assert u < |c.tasks| ==> TaskOk(c, u);
    }
  }

  lemma CallShutdownKeeps(cfg: Config, s: State)
    requires CtlInv(cfg, s.ctl) && s.ctl.shut.NotShut?
    ensures CtlInv(cfg, DoCallShutdown(s).ctl)
  {
    var c' := DoCallShutdown(s).ctl;
    forall q: nat | q < |c'.promises| ensures PromiseOk(cfg, c', q) {
      assert PromiseOk(cfg, s.ctl, q);
    }
    forall u: nat | u < |c'.tasks| ensures TaskOk(c', u) {
      assert TaskOk(s.ctl, u);
    }
  }

  /** Once shutdown has stopped waiting, no promise is pending. */
  lemma NothingPending(cfg: Config, c: Control, q: nat)
    requires CtlInv(cfg, c) && CanStepShutdown(c) && q < |c.promises|
    ensures c.promises[q].status != Pending
  {
    assert PromiseOk(cfg, c, q);
    assert c.promises[q].starter < |c.tasks| ==> TaskOk(c, c.promises[q].starter);
  }

  lemma StepShutdownKeeps(cfg: Config, s: State)
    requires CtlInv(cfg, s.ctl) && CanStepShutdown(s.ctl)
    ensures CtlInv(cfg, DoStepShutdown(cfg, s).ctl)
  {
    var c' := DoStepShutdown(cfg, s).ctl;
    forall q: nat | q < |c'.promises| ensures PromiseOk(cfg, c', q) {
      NothingPending(cfg, s.ctl, q);
      assert PromiseOk(cfg, s.ctl, q);
    }
    forall u: nat | u < |c'.tasks| ensures TaskOk(c', u) {
      assert TaskOk(s.ctl, u);
    }
  }
}
