/**
  No call hangs. As long as external calls settle, the steps that are not new calls can only run
  finitely often, and when none is enabled every call has ended and a requested shutdown is closed.
*/
module BootstrapLiveness {
  import opened Common
  import opened Bootstrap
  import opened BootstrapControl
  import opened BootstrapSafety
  import opened BootstrapTheorems

  predicate Internal(e: Event) {
    e.Resume? || e.StepBody? || e.StepShutdown?
  }

  // ---- when no step is enabled, everything is done ----

  // The event that makes progress behind promise p.
  lemma BodyOrDriver(cfg: Config, s: State, p: nat) returns (e: Event)
    requires Inv(cfg, s) && p < |s.ctl.promises| && s.ctl.promises[p].status == Pending
    ensures Internal(e) && Enabled(true, s, e)
  {
    var c := Choice(ReadOk, true, true, 0);
    assert PromiseOk(cfg, s.ctl, p);
    if s.ctl.promises[p].kind == ReloadKind {
      assert TaskOk(s.ctl, s.ctl.promises[p].body.task);
      e := TaskProgress(cfg, s, s.ctl.promises[p].body.task);
    } else {
      e := StepBody(p, c);
    }
  }

  // Someone can act on the promise that a wait refers to.
  lemma WaitProgress(cfg: Config, s: State, t: nat, w: Wait) returns (e: Event)
    requires Inv(cfg, s) && t < |s.ctl.tasks|
    requires !w.Immediate? ==> w.p < |s.ctl.promises| && s.ctl.promises[w.p].kind != ReloadKind
    requires w.Start? ==> !s.ctl.tasks[t].pc.RollingBack? && WaitOk(s.ctl, t, w, s.ctl.promises[w.p].kind)
    requires CanResume(s.ctl, w) ==> CanResumeTask(s.ctl, t)
    ensures Internal(e) && Enabled(true, s, e)
  {
    var c := Choice(ReadOk, true, true, 0);
    e := Resume(t, c);
    if !w.Immediate? {
      assert PromiseOk(cfg, s.ctl, w.p);
      if s.ctl.promises[w.p].status == Pending {
        e := StepBody(w.p, c);
      } else if !CanResume(s.ctl, w) {
        e := Resume(s.ctl.promises[w.p].starter, c);
      }
    }
  }

  lemma TaskProgress(cfg: Config, s: State, t: nat) returns (e: Event)
    requires Inv(cfg, s) && t < |s.ctl.tasks|
    requires !s.ctl.tasks[t].pc.Finished? && s.ctl.tasks[t].pc != AwaitReload
    ensures Internal(e) && Enabled(true, s, e)
  {
    assert TaskOk(s.ctl, t);
    match s.ctl.tasks[t].pc
    case Reading(_, w) => e := WaitProgress(cfg, s, t, w);
    case AwaitPlugins(w) => e := WaitProgress(cfg, s, t, w);
    case Draining(p) => e := WaitProgress(cfg, s, t, Follow(p));
    case Reloading(p) => e := WaitProgress(cfg, s, t, Start(p));
    case AwaitProducer(w) => e := WaitProgress(cfg, s, t, w);
    case RollingBack(_) => e := Resume(t, Choice(ReadOk, true, true, 0));
    case Reconciling => e := Resume(t, Choice(ReadOk, true, true, 0));
  }

  /** In every reachable state, work that is left over can go on. */
  lemma NoDeadlock(cfg: Config, s: State) returns (e: Event)
    requires Reachable(cfg, s)
    requires (exists t: nat :: t < |s.ctl.tasks| && !s.ctl.tasks[t].pc.Finished?)
             || (!s.ctl.shut.NotShut? && s.ctl.life != Closed)
    ensures Internal(e) && Enabled(true, s, e)
  {
    ReachableInv(cfg, s);
    var c := Choice(ReadOk, true, true, 0);
    if t: nat :| t < |s.ctl.tasks| && !s.ctl.tasks[t].pc.Finished? {
      assert TaskOk(s.ctl, t);
      if s.ctl.tasks[t].pc == AwaitReload {
        var rp := s.ctl.tasks[t].job.reload;
        assert PromiseOk(cfg, s.ctl, rp);
        e := Resume(t, c);
        if s.ctl.promises[rp].status == Pending {
          e := BodyOrDriver(cfg, s, rp);
        }
      } else {
        e := TaskProgress(cfg, s, t);
      }
    } else {
      e := StepShutdown;
      if !CanStepShutdown(s.ctl) {
        var p :| p in s.ctl.shut.pending && !Settled(s.ctl, p);
        e := BodyOrDriver(cfg, s, p);
      }
    }
  }

  // ---- only finitely many internal steps ----

  function PcRank(pc: Pc): nat {
    match pc
    case Reading(first, w) => (if first then 15 else 12) + (if w.Start? then 1 else 0)
    case AwaitPlugins(w) => if w.Start? then 10 else 9
    case Draining(_) => 8
    case Reloading(_) => 7
    case RollingBack(_) => 6
    case AwaitProducer(w) => if w.Start? then 5 else 4
    case Reconciling => 3
    case AwaitReload => 1
    case Finished(_) => 0
  }

  function BodyRank(n: nat, body: Body): nat {
    match body
    case TearingDown => n + 3
    case Syncing => n + 2
    case LoadingPlugin(k) => if k <= n then n - k + 1 else 1
    case StartingBoss => 1
    case RollbackStorage => 3
    case RollbackDatabase => 2
    case RollbackObservability => 1
    case DrivenBy(_) => 0
    case Inert => 0
  }

  function ShutRank(shut: Shut): nat {
    match shut
    case NotShut => 10
    case ShutWaiting(_) => 8
    case ShutProducer => 7
    case ShutTeardown => 6
    case ShutSearch => 5
    case ShutCdn => 4
    case ShutStorage => 3
    case ShutDatabase => 2
    case ShutObservability => 1
    case ShutDone => 0
  }

  function TaskSum(ts: seq<Task>): nat {
    if ts == [] then 0 else TaskSum(ts[..|ts| - 1]) + PcRank(ts[|ts| - 1].pc)
  }

  function PromiseSum(n: nat, ps: seq<Promise>): nat {
    if ps == [] then 0 else PromiseSum(n, ps[..|ps| - 1]) + BodyRank(n, ps[|ps| - 1].body)
  }

  /** Steps left at most, when no new call arrives. */
  function Measure(cfg: Config, s: State): nat {
    TaskSum(s.ctl.tasks) * (|cfg.plugins| + 4) + PromiseSum(|cfg.plugins|, s.ctl.promises) + ShutRank(s.ctl.shut)
  }

  lemma {:induction false} TaskSumUpdate(ts: seq<Task>, i: nat, k: Task)
    requires i < |ts|
    ensures TaskSum(ts[i := k]) + PcRank(ts[i].pc) == TaskSum(ts) + PcRank(k.pc)
  {
    var last := |ts| - 1;
    if i < last {
      TaskSumUpdate(ts[..last], i, k);
      assert ts[i := k][..last] == ts[..last][i := k];
    } else {
      assert ts[i := k][..last] == ts[..last];
    }
  }

  lemma {:induction false} PromiseSumUpdate(n: nat, ps: seq<Promise>, i: nat, pr: Promise)
    requires i < |ps|
    ensures PromiseSum(n, ps[i := pr]) + BodyRank(n, ps[i].body) == PromiseSum(n, ps) + BodyRank(n, pr.body)
  {
    var last := |ps| - 1;
    if i < last {
      PromiseSumUpdate(n, ps[..last], i, pr);
      assert ps[i := pr][..last] == ps[..last][i := pr];
    } else {
      assert ps[i := pr][..last] == ps[..last];
    }
  }

  // Call t advances; a promise was appended, or promise p changed, or none did.
  predicate Advances(n: nat, c: Control, c': Control, t: nat, p: nat) {
    && t < |c.tasks| && |c'.tasks| == |c.tasks| && c'.shut == c.shut
    && c'.tasks == c.tasks[t := c'.tasks[t]] && PcRank(c'.tasks[t].pc) < PcRank(c.tasks[t].pc)
    && (if |c'.promises| == |c.promises| + 1 then
          c'.promises[..|c.promises|] == c.promises && BodyRank(n, c'.promises[|c.promises|].body) <= n + 3
        else
          c'.promises == c.promises
          || (p < |c.promises| && |c'.promises| == |c.promises| && c'.promises == c.promises[p := c'.promises[p]]
              && BodyRank(n, c'.promises[p].body) <= BodyRank(n, c.promises[p].body)))
  }

  lemma Scale(a: nat, b: nat, k: nat)
    requires b < a
    ensures b * k + k <= a * k
  {
    assert (b + 1) * k <= a * k;
  }

  lemma PromiseSumAdvances(n: nat, c: Control, c': Control, t: nat, p: nat)
    requires Advances(n, c, c', t, p)
    ensures PromiseSum(n, c'.promises) <= PromiseSum(n, c.promises) + n + 3
  {
    if |c'.promises| == |c.promises| && c'.promises != c.promises {
      PromiseSumUpdate(n, c.promises, p, c'.promises[p]);
    }
  }

  lemma AdvanceDecreases(cfg: Config, s: State, s': State, t: nat, p: nat)
    requires Advances(|cfg.plugins|, s.ctl, s'.ctl, t, p)
    ensures Measure(cfg, s') < Measure(cfg, s)
  {
    var n := |cfg.plugins|;
    TaskSumUpdate(s.ctl.tasks, t, s'.ctl.tasks[t]);
    PromiseSumAdvances(n, s.ctl, s'.ctl, t, p);
    Scale(TaskSum(s.ctl.tasks), TaskSum(s'.ctl.tasks), n + 4);
  }

  lemma EndAdvances(n: nat, c: Control, t: nat, status: Status)
    requires t < |c.tasks| && !c.tasks[t].pc.Finished? && status != Pending
    ensures Advances(n, c, End(c, t, status), t,
                     if c.tasks[t].job.PerformReload? then c.tasks[t].job.reload else 0)
  {
  }

  // The call ends, possibly with its slot already cleared.
  lemma EndDecreases(cfg: Config, s: State, c: Control, s': State, t: nat, status: Status)
    requires t < |s.ctl.tasks| && !s.ctl.tasks[t].pc.Finished? && status != Pending
    requires c.tasks == s.ctl.tasks && c.promises == s.ctl.promises && c.shut == s.ctl.shut
    requires s'.ctl == End(c, t, status)
    ensures Measure(cfg, s') < Measure(cfg, s)
  {
    EndAdvances(|cfg.plugins|, c, t, status);
    AdvanceDecreases(cfg, s, s', t, if c.tasks[t].job.PerformReload? then c.tasks[t].job.reload else 0);
  }

  lemma ReadingAdvances(cfg: Config, s: State, t: nat, c: Choice)
    requires Inv(cfg, s) && CanResumeTask(s.ctl, t) && s.ctl.tasks[t].pc.Reading?
    ensures Measure(cfg, ResumeReading(cfg, s, t, c)) < Measure(cfg, s)
  {
    assert TaskOk(s.ctl, t);
    var s' := ResumeReading(cfg, s, t, c);
    var Task(job, Reading(first, w)) := s.ctl.tasks[t];
    if w.Start? {
      var c1 := StarterClears(s.ctl, t, w.p, Reading(first, Immediate));
      AdvanceDecreases(cfg, s, s.(ctl := c1), t, w.p);
      EndDecreases(cfg, s.(ctl := c1), c1, s.(ctl := End(c1, t, Rejected)), t, Rejected);
    } else if !Succeeded(s.ctl, w) || s.ctl.life != Active {
      EndDecreases(cfg, s, s.ctl, s', t, Rejected);
    } else if first && job == EnsureFor(IntentRead) {
      EndDecreases(cfg, s, s.ctl, s', t, Fulfilled);
    } else {
      AdvanceDecreases(cfg, s, s', t, 0);
    }
  }

  lemma AfterPluginsAdvance(cfg: Config, s: State, t: nat, intent: Intent, c: Choice)
    requires t < |s.ctl.tasks| && s.ctl.tasks[t].pc.AwaitPlugins? && s.ctl.tasks[t].job == EnsureFor(intent)
    ensures Measure(cfg, AfterPlugins(s, t, intent, c)) < Measure(cfg, s)
  {
    AdvanceDecreases(cfg, s, AfterPlugins(s, t, intent, c), t, 0);
  }

  lemma PluginsAdvance(cfg: Config, s: State, t: nat, c: Choice)
    requires Inv(cfg, s) && CanResumeTask(s.ctl, t) && s.ctl.tasks[t].pc.AwaitPlugins?
    ensures Measure(cfg, ResumePlugins(s, t, c)) < Measure(cfg, s)
  {
    assert TaskOk(s.ctl, t);
    var s' := ResumePlugins(s, t, c);
    var Task(job, AwaitPlugins(w)) := s.ctl.tasks[t];
    if w.Start? {
      AdvanceDecreases(cfg, s, s', t, w.p);
    } else if Succeeded(s.ctl, w) && job.EnsureFor? {
      AfterPluginsAdvance(cfg, s, t, job.intent, c);
    } else if Succeeded(s.ctl, w) && s.ctl.life == Active {
      AdvanceDecreases(cfg, s, s', t, 0);
    } else {
      EndDecreases(cfg, s, s.ctl, s', t, Rejected);
    }
  }

  lemma RollbackDecreases(cfg: Config, s: State, t: nat)
    requires t < |s.ctl.tasks| && s.ctl.tasks[t].pc.RollingBack?
    ensures Measure(cfg, ResumeRollback(s, t)) < Measure(cfg, s)
  {
    EndDecreases(cfg, s, SetSlot(s.ctl, LoadKind, None), ResumeRollback(s, t), t, Rejected);
  }

  lemma ReloadingDecreases(cfg: Config, s: State, t: nat)
    requires Inv(cfg, s) && CanResumeTask(s.ctl, t)
    requires s.ctl.tasks[t].pc.Draining? || s.ctl.tasks[t].pc.Reloading?
    ensures s.ctl.tasks[t].pc.Draining? ==> Measure(cfg, InstallReload(s, t)) < Measure(cfg, s)
    ensures s.ctl.tasks[t].pc.Reloading? ==> Measure(cfg, ResumeReloading(s, t)) < Measure(cfg, s)
  {
    hide Measure;
    assert TaskOk(s.ctl, t);
    if s.ctl.tasks[t].pc.Draining? {
      AdvanceDecreases(cfg, s, InstallReload(s, t), t, 0);
    } else {
      AdvanceDecreases(cfg, s, ResumeReloading(s, t), t, s.ctl.tasks[t].pc.p);
    }
  }

  lemma ProducerDecreases(cfg: Config, s: State, t: nat)
    requires Inv(cfg, s) && CanResumeTask(s.ctl, t) && s.ctl.tasks[t].pc.AwaitProducer?
    ensures Measure(cfg, ResumeProducer(s, t)) < Measure(cfg, s)
  {
    hide Measure;
    var w := s.ctl.tasks[t].pc.w;
    assert TaskOk(s.ctl, t);
    if w.Start? {
      var c1 := StarterClears(s.ctl, t, w.p, AwaitProducer(Immediate));
      AdvanceDecreases(cfg, s, s.(ctl := c1), t, w.p);
      EndDecreases(cfg, s.(ctl := c1), c1, s.(ctl := End(c1, t, Rejected)), t, Rejected);
    } else {
      AdvanceDecreases(cfg, s, ResumeProducer(s, t), t, 0);
    }
  }

  lemma ReloadCallDecreases(cfg: Config, s: State, t: nat)
    requires Inv(cfg, s) && CanResumeTask(s.ctl, t) && s.ctl.tasks[t].pc.AwaitReload?
    ensures Measure(cfg, ResumeReloadCall(s, t, s.ctl.tasks[t].job.reload)) < Measure(cfg, s)
  {
    hide Measure;
    var rp := s.ctl.tasks[t].job.reload;
    assert TaskOk(s.ctl, t);
    AdvanceDecreases(cfg, s, ResumeReloadCall(s, t, rp), t, rp);
  }

  lemma ResumeDecreases(cfg: Config, s: State, t: nat, c: Choice)
    requires Inv(cfg, s) && CanResumeTask(s.ctl, t)
    ensures Measure(cfg, DoResume(cfg, s, t, c)) < Measure(cfg, s)
  {
    hide Measure, Inv, ResumeReading, ResumePlugins, ResumeRollback, InstallReload, ResumeReloading, ResumeProducer,
      ResumeReloadCall;
    match s.ctl.tasks[t].pc
    case Reading(_, _) => ReadingAdvances(cfg, s, t, c);
    case AwaitPlugins(_) => PluginsAdvance(cfg, s, t, c);
    case RollingBack(_) => RollbackDecreases(cfg, s, t);
    case Draining(_) => ReloadingDecreases(cfg, s, t);
    case Reloading(_) => ReloadingDecreases(cfg, s, t);
    case Reconciling => EndDecreases(cfg, s, s.ctl, DoResume(cfg, s, t, c), t, Fulfilled);
    case AwaitProducer(_) => ProducerDecreases(cfg, s, t);
    case AwaitReload => ReloadCallDecreases(cfg, s, t);
  }

  lemma BodyDecreases(cfg: Config, s: State, p: nat, c: Choice)
    requires CanStepBody(s.ctl, p) && PromiseOk(cfg, s.ctl, p)
    ensures Measure(cfg, DoStepBody(cfg, s, p, c)) < Measure(cfg, s)
  {
    PromiseSumUpdate(|cfg.plugins|, s.ctl.promises, p, DoStepBody(cfg, s, p, c).ctl.promises[p]);
  }

  lemma ShutdownDecreases(cfg: Config, s: State)
    requires CanStepShutdown(s.ctl)
    ensures Measure(cfg, DoStepShutdown(cfg, s)) < Measure(cfg, s)
  {
    hide ShutRes;
  }

  /** Every step that is not a new call uses up one unit of the measure at least. */
  lemma InternalStepsDecrease(cfg: Config, s: State, e: Event)
    requires Reachable(cfg, s) && Internal(e) && Enabled(true, s, e)
    ensures Measure(cfg, Next(cfg, s, e)) < Measure(cfg, s)
  {
    hide Measure, DoResume, DoStepBody, DoStepShutdown, CanResumeTask, ReadyTask, CanStepShutdown;
    ReachableInv(cfg, s);
    match e
    case Resume(t, c) => ResumeDecreases(cfg, s, t, c);
    case StepBody(p, c) =>
      assert PromiseOk(cfg, s.ctl, p);
      BodyDecreases(cfg, s, p, c);
    case StepShutdown => ShutdownDecreases(cfg, s);
    case _ =>
  }

  /** After the last new call, a run has at most Measure steps: no call waits forever. */
  lemma {:induction false} RunsAreBounded(cfg: Config, es: seq<Event>, more: seq<Event>)
    requires Run(cfg, true, es + more).Some? && forall e :: e in more ==> Internal(e)
    ensures Run(cfg, true, es).Some?
    ensures Measure(cfg, Run(cfg, true, es + more).value) + |more| <= Measure(cfg, Run(cfg, true, es).value)
  {
    if more == [] {
      assert es + more == es;
    } else {
      var init, e := more[..|more| - 1], more[|more| - 1];
      assert (es + more)[..|es + more| - 1] == es + init && (es + more)[|es + more| - 1] == e;
      RunsAreBounded(cfg, es, init);
      InternalStepsDecrease(cfg, Run(cfg, true, es + init).value, e);
    }
  }
}
