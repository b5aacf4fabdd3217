/**
  The ordering rule is needed. Without it a follower may resume before the call that clears the
  slot, and two load bodies run side by side.
*/
module BootstrapOrder {
  import opened Common
  import opened Bootstrap
  import opened BootstrapControl
  import opened BootstrapTheorems

  const BARE: Config := Config([], [], [], [], [], false, false, false)
  const GO: Choice := Choice(ReadOk, true, false, 0)

  // One more event on a known run.
  lemma Extend(es: seq<Event>, s: State, e: Event)
    requires Run(BARE, false, es) == Some(s) && Enabled(false, s, e)
    ensures Run(BARE, false, es + [e]) == Some(Next(BARE, s, e))
  {
    assert (es + [e])[..|es|] == es;
  }

  // An ensureFor starts a load.
  lemma LoadStarted() returns (es: seq<Event>, s: State)
    ensures Run(BARE, false, es) == Some(s)
    ensures s.ctl == Control(Active, NotShut, None, Some(1), None, None,
                             [Promise(ReadKind, Fulfilled, 0, true, Inert),
                              Promise(LoadKind, Pending, 0, false, Syncing)],
                             [Task(EnsureFor(IntentPlugins), AwaitPlugins(Start(1)))])
    ensures s.plug == NO_PLUGINS && s.res.readReady
  {
    hide Acquire, AcquireOrder;
    var e0 := CallEnsure(IntentPlugins, GO);
    var r := Resume(0, GO);
    Extend([], INIT, e0);
    var s1 := Next(BARE, INIT, e0);
    assert s1.ctl.promises == [Promise(ReadKind, Fulfilled, 0, false, Inert)];
    assert s1.ctl.tasks == [Task(EnsureFor(IntentPlugins), Reading(true, Start(0)))];
    Extend([] + [e0], s1, r);
    var s2 := Next(BARE, s1, r);
    assert s2.ctl.tasks == [Task(EnsureFor(IntentPlugins), Reading(true, Immediate))];
    Extend([] + [e0] + [r], s2, r);
    var s3 := Next(BARE, s2, r);
    assert s3.ctl.tasks == [Task(EnsureFor(IntentPlugins), Reading(false, Immediate))];
    Extend([] + [e0] + [r] + [r], s3, r);
    es, s := [] + [e0] + [r] + [r] + [r], Next(BARE, s3, r);
  }

  // A reload follows that load, which then succeeds.
  lemma LoadFollowed() returns (es: seq<Event>, s: State)
    ensures Run(BARE, false, es) == Some(s)
    ensures s.ctl == Control(Active, NotShut, None, Some(1), Some(2), None,
                             [Promise(ReadKind, Fulfilled, 0, true, Inert),
                              Promise(LoadKind, Fulfilled, 0, false, Inert),
                              Promise(ReloadKind, Pending, 2, false, DrivenBy(1))],
                             [Task(EnsureFor(IntentPlugins), AwaitPlugins(Start(1))),
                              Task(PerformReload(2), AwaitPlugins(Follow(1))), Task(ReloadCall(2), AwaitReload)])
    ensures s.plug.loaded && s.res.readReady
  {
    var es0, s0 := LoadStarted();
    var a, r, b := CallReload(GO), Resume(1, GO), StepBody(1, GO);
    Extend(es0, s0, a);
    var s1 := Next(BARE, s0, a);
    assert |s1.ctl.tasks| == 3 && s1.ctl.tasks[1] == Task(PerformReload(2), Reading(false, Immediate));
    Extend(es0 + [a], s1, r);
    var s2 := Next(BARE, s1, r);
    assert s2.ctl.tasks[1] == Task(PerformReload(2), AwaitPlugins(Follow(1)));
    assert s2.ctl.promises[1] == Promise(LoadKind, Pending, 0, false, Syncing);
    Extend(es0 + [a] + [r], s2, b);
    var s3 := Next(BARE, s2, b);
    assert s3.ctl.promises[1] == Promise(LoadKind, Pending, 0, false, LoadingPlugin(0));
    Extend(es0 + [a] + [r] + [b], s3, b);
    es, s := es0 + [a] + [r] + [b] + [b], Next(BARE, s3, b);
  }

  // Out of order, the reload resumes twice before the starter clears the slot of its own load.
  lemma SlotOverwritten() returns (es: seq<Event>, s: State)
    ensures Run(BARE, false, es) == Some(s)
    ensures s.ctl.life == Active && s.ctl.loadP == None && !s.plug.loaded && s.res.readReady
    ensures |s.ctl.promises| == 4 && s.ctl.promises[3] == Promise(LoadKind, Pending, 1, false, TearingDown)
    ensures |s.ctl.tasks| == 3
  {
    var es0, s0 := LoadFollowed();
    var r := Resume(1, GO);
    Extend(es0, s0, r);
    var s1 := Next(BARE, s0, r);
    assert s1.ctl.tasks[1] == Task(PerformReload(2), Draining(1)) && s1.ctl.promises == s0.ctl.promises;
    Extend(es0 + [r], s1, r);
    var s2 := Next(BARE, s1, r);
    assert s2.ctl.tasks[0] == Task(EnsureFor(IntentPlugins), AwaitPlugins(Start(1)));
    Extend(es0 + [r] + [r], s2, Resume(0, GO));
    es, s := es0 + [r] + [r] + [Resume(0, GO)], Next(BARE, s2, Resume(0, GO));
  }

  /** Dropping the ordering rule breaks mutual exclusion: this run has two loads in progress. */
  lemma UnorderedResumptionBreaksExclusion() returns (es: seq<Event>, s: State)
    ensures Run(BARE, false, es) == Some(s)
    ensures LoadInProgress(s, 3) && LoadInProgress(s, 4)
  {
    var es0, s0 := SlotOverwritten();
    var a, r := CallEnsure(IntentPlugins, GO), Resume(3, GO);
    Extend(es0, s0, a);
    var s1 := Next(BARE, s0, a);
    assert s1.ctl.tasks[3] == Task(EnsureFor(IntentPlugins), Reading(true, Immediate));
    Extend(es0 + [a], s1, r);
    var s2 := Next(BARE, s1, r);
    assert s2.ctl.tasks[3] == Task(EnsureFor(IntentPlugins), Reading(false, Immediate));
    Extend(es0 + [a] + [r], s2, r);
    es, s := es0 + [a] + [r] + [r], Next(BARE, s2, r);
  }
}
