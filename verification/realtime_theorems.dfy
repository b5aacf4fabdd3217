/** Whole runs of the realtime client: what is delivered, refreshes do not overlap, disposal is final. */
module RealtimeTheorems {
  import opened Common
  import opened Realtime

  // The state after a run; None when an event was not possible.
  function Run(supported: bool, es: seq<Event>): Option<State> {
    if es == [] then Some(FRESH)
    else
      match Run(supported, es[..|es| - 1])
      case None => None
      case Some(s) => if Enabled(s, es[|es| - 1]) then Some(Step(supported, s, es[|es| - 1])) else None
  }

  lemma RunAppend(supported: bool, es: seq<Event>, e: Event)
    requires Run(supported, es).Some?
    ensures Run(supported, es + [e]) ==
      if Enabled(Run(supported, es).value, e) then Some(Step(supported, Run(supported, es).value, e)) else None
  {
    hide Step, Enabled;
    assert (es + [e])[..|es|] == es;
  }

  lemma {:induction false} PrefixRuns(supported: bool, es: seq<Event>, n: nat)
    requires n <= |es| && Run(supported, es).Some?
    ensures Run(supported, es[..n]).Some?
  {
    hide Step, Enabled;
    if n == |es| {
      assert es[..n] == es;
    } else {
      PrefixRuns(supported, es[..|es| - 1], n);
      assert es[..|es| - 1][..n] == es[..n];
    }
  }

  predicate Starts(e: Event, how: Start) {
    (e.DebounceFires? && e.start == how) || (e.Settles? && e.start == how)
  }

  // No refresh callback of the run throws before it returns a promise.
  predicate NoThrow(es: seq<Event>) {
    forall i :: 0 <= i < |es| ==> !Starts(es[i], Throw)
  }

  // ---- what an event may change ----

  // The fields the refreshes depend on are as before.
  predicate SameRefreshes(s: State, s': State) {
    && s'.disposed == s.disposed && s'.debouncing == s.debouncing
    && s'.pending == s.pending && s'.queued == s.queued
    && s'.refreshing == s.refreshing && s'.running == s.running
    && s'.dispatched == s.dispatched && s'.covered == s.covered && s'.begun == s.begun && s'.told == s.told
  }

  // One more notice is pending, and the refreshes are otherwise as before.
  predicate TakesNotice(s: State, s': State) {
    && !s.disposed && s'.pending.Some? && s'.debouncing && s'.dispatched == s.dispatched + 1
    && SameRefreshes(s, s'.(debouncing := s.debouncing, pending := s.pending, dispatched := s.dispatched))
  }

  predicate Disposes(s: State, s': State) {
    s'.disposed && !s'.debouncing && SameRefreshes(s, s'.(disposed := s.disposed, debouncing := s.debouncing))
  }

  predicate Affects(s: State, e: Event, s': State) {
    match e
    case DebounceFires(start) => s' == OnDebounce(s, start)
    case Settles(start) => s' == OnSettle(s, start)
    case Unmount => Disposes(s, s')
    case _ => SameRefreshes(s, s') || TakesNotice(s, s')
  }

  lemma ConnectingIsApart(supported: bool, s: State, fails: bool)
    ensures SameRefreshes(s, Connect(supported, s, fails))
    ensures SameRefreshes(s, RestartWithPolling(supported, s))
    ensures SameRefreshes(s, ScheduleReconnect(supported, StartPolling(s).(source := None)))
    ensures SameRefreshes(s, StartPolling(s)) && SameRefreshes(s, StopPolling(s))
  {
  }

  lemma DispatchTakes(s: State, n: Notice)
    ensures SameRefreshes(s, Dispatch(s, n)) || TakesNotice(s, Dispatch(s, n))
  {
  }

  lemma EventAffects(supported: bool, s: State, e: Event)
    ensures Affects(s, e, Step(supported, s, e))
  {
    hide Connect, RestartWithPolling, ScheduleReconnect, Dispatch, StartPolling, StopPolling, OnDebounce, OnSettle;
    match e
    case Mount(fails) => ConnectingIsApart(supported, s, fails);
    case Opened(_) =>
      ConnectingIsApart(supported, s, true);
      DispatchTakes(StopPolling(s), Connected);
    case Received(_, notice) =>
      ConnectingIsApart(supported, s, true);
      DispatchTakes(s, if notice.Some? then Message(notice.value) else Poll);
    case Failed(_, _) => ConnectingIsApart(supported, s, true);
    case PollTick => DispatchTakes(s, Poll);
    case ReconnectFires(fails) => ConnectingIsApart(supported, s.(reconnecting := false), fails);
    case _ =>
  }

  // ---- the connection ----

  // What holds once the hook is mounted: a source, or polling and, where possible, a reconnect.
  predicate Linked(supported: bool, s: State) {
    && (s.source.Some? ==> s.source.value < s.sources)
    && (s.reconnecting ==> s.source.None? && supported)
    && (s.disposed ==> !s.polling && !s.reconnecting && !s.debouncing)
    && (!s.disposed && s.source.None? ==> s.polling && (supported ==> s.reconnecting))
  }

  predicate SameConnection(s: State, s': State) {
    && s'.disposed == s.disposed && s'.source == s.source && s'.sources == s.sources
    && s'.polling == s.polling && s'.reconnecting == s.reconnecting && (s.disposed ==> s'.debouncing == s.debouncing)
  }

  lemma LinkingEvents(supported: bool, s: State, fails: bool)
    requires !s.disposed && (s.source.Some? ==> s.source.value < s.sources)
    ensures !s.reconnecting && s.source.None? ==> Linked(supported, Connect(supported, s, fails))
    ensures !s.reconnecting ==>
      && Linked(supported, RestartWithPolling(supported, s))
      && Linked(supported, ScheduleReconnect(supported, StartPolling(s).(source := None)))
    ensures s.source.Some? && Linked(supported, s) ==>
      && Linked(supported, StartPolling(s)) && Linked(supported, StopPolling(s))
  {
  }

  lemma DispatchIsApart(s: State, n: Notice)
    ensures SameConnection(s, Dispatch(s, n))
  {
  }

  lemma SettleIsApart(s: State, start: Start)
    ensures SameConnection(s, OnSettle(s, start))
  {
  }

  lemma DebounceIsApart(s: State, start: Start)
    requires !s.disposed
    ensures SameConnection(s, OnDebounce(s, start))
  {
  }

  lemma LinkedKept(supported: bool, s: State, e: Event)
    requires Linked(supported, s) && Enabled(s, e)
    ensures Linked(supported, Step(supported, s, e))
  {
    hide Connect, RestartWithPolling, ScheduleReconnect, Dispatch, StartPolling, StopPolling, OnDebounce, OnSettle;
    match e
    case Opened(_) =>
      if !s.disposed {
        LinkingEvents(supported, s, true);
      }
      DispatchIsApart(StopPolling(s), Connected);
    case Received(_, notice) =>
      if !s.disposed {
        LinkingEvents(supported, s, true);
      }
      DispatchIsApart(s, if notice.Some? then Message(notice.value) else Poll);
    case Failed(_, _) =>
      if !s.disposed {
        LinkingEvents(supported, s, true);
      }
    case PollTick => DispatchIsApart(s, Poll);
    case ReconnectFires(fails) => LinkingEvents(supported, s.(reconnecting := false), fails);
    case DebounceFires(start) => DebounceIsApart(s, start);
    case Settles(start) => SettleIsApart(s, start);
    case _ =>
  }

  lemma MountLinks(supported: bool, e: Event)
    requires Enabled(FRESH, e)
    ensures Linked(supported, Step(supported, FRESH, e))
  {
    LinkingEvents(supported, FRESH, e.fails);
  }

  lemma {:induction false} LinkedAlways(supported: bool, es: seq<Event>)
    requires es != [] && Run(supported, es).Some?
    ensures Linked(supported, Run(supported, es).value)
  {
    hide Step, Enabled, Linked;
    var init, e := es[..|es| - 1], es[|es| - 1];
    if init == [] {
      MountLinks(supported, e);
    } else {
      LinkedAlways(supported, init);
      LinkedKept(supported, Run(supported, init).value, e);
    }
  }

  /**
   * While mounted without an event source, polling is armed, and so is a reconnect where event sources are
   * supported: the client is never left without a way to learn of changes.
   */
  lemma NeverWithoutUpdates(supported: bool, es: seq<Event>)
    requires es != [] && Run(supported, es).Some?
    ensures var s := Run(supported, es).value;
      !s.disposed && s.source.None? ==> s.polling && (supported ==> s.reconnecting)
  {
    hide Run;
    LinkedAlways(supported, es);
  }

  // ---- refreshes ----

  // Every notice not yet followed by a refresh is pending with its timer armed, or queued.
  predicate Accounted(s: State) {
    && s.covered <= s.dispatched
    && (s.running ==> s.refreshing)
    && (!s.disposed && s.queued.Some? ==> s.refreshing)
    && (!s.disposed && s.pending.Some? ==> s.debouncing)
    && (s.debouncing ==> s.pending.Some?)
    && (!s.disposed && s.covered < s.dispatched ==> s.pending.Some? || s.queued.Some?)
  }

  lemma AccountedKept(s: State, e: Event, s': State)
    requires Accounted(s) && Enabled(s, e) && Affects(s, e, s')
    ensures Accounted(s')
  {
    match e
    case DebounceFires(_) =>
    case Settles(_) =>
    case _ =>
  }

  lemma {:induction false} AccountedAlways(supported: bool, es: seq<Event>)
    requires Run(supported, es).Some?
    ensures Accounted(Run(supported, es).value)
  {
    hide Step, Enabled, Accounted, Affects;
    if es == [] {
      FreshIsAccounted();
    } else {
      var s, e := Run(supported, es[..|es| - 1]).value, es[|es| - 1];
      AccountedAlways(supported, es[..|es| - 1]);
      EventAffects(supported, s, e);
      AccountedKept(s, e, Step(supported, s, e));
    }
  }

  lemma FreshIsAccounted()
    ensures Accounted(FRESH)
  {
  }

  predicate CountsOneStep(s: State, s': State) {
    && s.dispatched <= s'.dispatched <= s.dispatched + 1
    && s.begun <= s'.begun <= s.begun + 1
    && s'.covered == (if s'.begun > s.begun then s.dispatched else s.covered)
    && (s'.dispatched > s.dispatched ==> !s.disposed && s'.pending.Some? && s'.debouncing)
  }

  lemma RefreshCounts(s: State, start: Start)
    ensures CountsOneStep(s, OnDebounce(s, start)) && CountsOneStep(s, OnSettle(s, start))
  {
  }

  /**
   * The counters say what they are meant to: one notice or one refresh at a time, and a refresh covers every
   * notice before it.
   */
  lemma CountersAreExact(supported: bool, s: State, e: Event)
    requires Enabled(s, e)
    ensures CountsOneStep(s, Step(supported, s, e))
  {
    hide Step, Enabled, OnDebounce, OnSettle;
    EventAffects(supported, s, e);
    match e
    case DebounceFires(start) => RefreshCounts(s, start);
    case Settles(start) => RefreshCounts(s, start);
    case _ =>
  }

  /** A refresh begins only when none is running, and never after disposal, even when callbacks throw. */
  lemma RefreshesDoNotOverlap(supported: bool, es: seq<Event>, e: Event)
    requires Run(supported, es).Some? && Enabled(Run(supported, es).value, e)
    requires Step(supported, Run(supported, es).value, e).begun > Run(supported, es).value.begun
    ensures var s := Run(supported, es).value;
      !s.disposed && !(s.running && !e.Settles?)
  {
    hide Step;
    EventAffects(supported, Run(supported, es).value, e);
    AccountedAlways(supported, es);
    if es != [] {
      LinkedAlways(supported, es);
    }
  }

  // ---- delivery ----

  // Every notice taken is followed by a refresh, or will be: its timer is armed, or a refresh runs before it.
  predicate Delivers(s: State) {
    !s.disposed && s.covered < s.dispatched ==>
      (s.pending.Some? && s.debouncing) || (s.queued.Some? && s.refreshing && s.running)
  }

  // No refresh can begin any more.
  predicate Stuck(s: State) { s.refreshing && !s.running }

  // The refresh that event i begins throws before it returns a promise.
  predicate ThrewAt(supported: bool, es: seq<Event>, i: nat)
    requires i < |es|
  {
    var before, after := Run(supported, es[..i]), Run(supported, es[..i + 1]);
    before.Some? && after.Some? && Starts(es[i], Throw) && after.value.begun > before.value.begun
  }

  lemma StuckStep(s: State, e: Event, s': State)
    requires Accounted(s) && Enabled(s, e) && Affects(s, e, s')
    ensures Stuck(s') <==> Stuck(s) || (Starts(e, Throw) && s'.begun > s.begun)
    ensures Stuck(s) ==> s'.begun == s.begun
  {
    match e
    case DebounceFires(_) =>
    case Settles(_) =>
    case _ =>
  }

  /** A callback that throws instead of returning a promise stops every later refresh for good. */
  lemma ThrowIsFinal(supported: bool, es: seq<Event>, e: Event)
    requires Run(supported, es).Some? && Enabled(Run(supported, es).value, e)
    ensures var s := Run(supported, es).value;
      && (Stuck(Step(supported, s, e)) <==>
            Stuck(s) || (Starts(e, Throw) && Step(supported, s, e).begun > s.begun))
      && (Stuck(s) ==> Step(supported, s, e).begun == s.begun)
  {
    hide Step, Enabled, Affects, Run;
    var s := Run(supported, es).value;
    AccountedAlways(supported, es);
    EventAffects(supported, s, e);
    StuckStep(s, e, Step(supported, s, e));
  }

  /** The client is stuck exactly when some refresh of the run threw as it began. */
  lemma {:induction false} StuckExactly(supported: bool, es: seq<Event>)
    requires Run(supported, es).Some?
    ensures Stuck(Run(supported, es).value) <==> exists i :: 0 <= i < |es| && ThrewAt(supported, es, i)
  {
    hide Step, Enabled, Starts;
    if es != [] {
      var n := |es| - 1;
      var init := es[..n];
      StuckExactly(supported, init);
      ThrowIsFinal(supported, init, es[n]);
      assert es[..n + 1] == es;
      assert ThrewAt(supported, es, n) <==>
        Starts(es[n], Throw) && Run(supported, es).value.begun > Run(supported, init).value.begun;
      forall i | 0 <= i < n
        ensures ThrewAt(supported, es, i) <==> ThrewAt(supported, init, i)
      {
        assert init[..i] == es[..i] && init[..i + 1] == es[..i + 1];
      }
    }
  }

  lemma {:induction false} NotStuckAgain(supported: bool, es: seq<Event>, more: seq<Event>)
    requires Run(supported, es).Some? && !Stuck(Run(supported, es).value)
    requires Run(supported, es + more).Some? && NoThrow(more)
    ensures !Stuck(Run(supported, es + more).value)
  {
    hide Step, Enabled;
    if more == [] {
      assert es + more == es;
    } else {
      var n := |more| - 1;
      assert (es + more)[..|es + more| - 1] == es + more[..n];
      NotStuckAgain(supported, es, more[..n]);
      ThrowIsFinal(supported, es + more[..n], more[n]);
    }
  }

  /** No invalidation is lost unless a callback threw: each notice taken is covered, pending or queued. */
  lemma NothingIsLost(supported: bool, es: seq<Event>)
    requires Run(supported, es).Some? && !Stuck(Run(supported, es).value)
    ensures Delivers(Run(supported, es).value)
  {
    hide Run;
    AccountedAlways(supported, es);
  }

  // Two events after which a notice is taken and no refresh will ever follow it.
  lemma StuckLosesNotices(supported: bool, es: seq<Event>) returns (e: Event)
    requires es != [] && Run(supported, es).Some? && !Run(supported, es).value.disposed
    requires Stuck(Run(supported, es).value)
    ensures var lossy := es + [e, DebounceFires(Promise)];
      && NoThrow([e, DebounceFires(Promise)]) && Run(supported, lossy).Some?
      && !Delivers(Run(supported, lossy).value)
  {
    hide Run;
    var s := Run(supported, es).value;
    LinkedAlways(supported, es);
    AccountedAlways(supported, es);
    e := if s.source.Some? then Received(s.source.value, Some(0)) else PollTick;
    RunAppend(supported, es, e);
    RunAppend(supported, es + [e], DebounceFires(Promise));
    assert es + [e] + [DebounceFires(Promise)] == es + [e, DebounceFires(Promise)];
  }

  /**
   * When notices are delivered: however a mounted client goes on with callbacks that return promises, none is
   * ever lost, if and only if no earlier callback threw as its refresh began.
   */
  lemma DeliveryExactly(supported: bool, es: seq<Event>)
    requires es != [] && Run(supported, es).Some? && !Run(supported, es).value.disposed
    ensures (forall more :: NoThrow(more) && Run(supported, es + more).Some? ==>
               Delivers(Run(supported, es + more).value))
      <==> !(exists i :: 0 <= i < |es| && ThrewAt(supported, es, i))
  {
    hide Run, Delivers, Stuck, ThrewAt, NoThrow;
    StuckExactly(supported, es);
    if Stuck(Run(supported, es).value) {
      var e := StuckLosesNotices(supported, es);
    } else {
      forall more | NoThrow(more) && Run(supported, es + more).Some?
        ensures Delivers(Run(supported, es + more).value)
      {
        NotStuckAgain(supported, es, more);
        NothingIsLost(supported, es + more);
      }
    }
  }

  // Five events: a throw, then a notice that no refresh will follow.
  function ThrowingRun(): seq<Event> {
    [Mount(false), Opened(0), DebounceFires(Throw), Received(0, Some(7)), DebounceFires(Promise)]
  }

  /** A run in which a notice is lost. */
  lemma ThrowLosesNotices()
    ensures Run(true, ThrowingRun()).Some?
    ensures var s := Run(true, ThrowingRun()).value;
      !s.disposed && s.covered < s.dispatched && !s.debouncing && !s.running && Stuck(s)
  {
    var e1 := [Mount(false)];
    var e2 := e1 + [Opened(0)];
    var e3 := e2 + [DebounceFires(Throw)];
    var e4 := e3 + [Received(0, Some(7))];
    RunAppend(true, [], Mount(false));
    assert [] + [Mount(false)] == e1;
    RunAppend(true, e1, Opened(0));
    RunAppend(true, e2, DebounceFires(Throw));
    RunAppend(true, e3, Received(0, Some(7)));
    RunAppend(true, e4, DebounceFires(Promise));
    assert e4 + [DebounceFires(Promise)] == ThrowingRun();
  }

  // ---- settling ----

  predicate Internal(e: Event) { e.DebounceFires? || e.Settles? }

  function Work(s: State): nat {
    (if s.debouncing then 3 else 0) + (if s.queued.Some? then 2 else 0) + (if s.running then 1 else 0)
  }

  lemma InternalStepSettles(supported: bool, s: State, e: Event)
    requires Enabled(s, e) && Internal(e)
    ensures Work(Step(supported, s, e)) < Work(s)
    ensures Step(supported, s, e).dispatched == s.dispatched
    ensures Step(supported, s, e).disposed == s.disposed
  {
  }

  /** From any state of any run, timers and settling promises make at most six steps on their own. */
  lemma {:induction false} SettlingIsBounded(supported: bool, es: seq<Event>, more: seq<Event>)
    requires Run(supported, es + more).Some? && (forall e <- more :: Internal(e))
    ensures Run(supported, es).Some?
    ensures var s, end := Run(supported, es).value, Run(supported, es + more).value;
      && Work(end) + |more| <= Work(s) <= 6
      && end.dispatched == s.dispatched && end.disposed == s.disposed
  {
    hide Step, Enabled, Internal;
    if more == [] {
      assert es + more == es;
    } else {
      var n := |more| - 1;
      assert (es + more)[..|es + more| - 1] == es + more[..n];
      SettlingIsBounded(supported, es, more[..n]);
      InternalStepSettles(supported, Run(supported, es + more[..n]).value, more[n]);
    }
  }

  /**
   * Once notices stop coming, the client falls quiet after at most six steps, and when it is quiet every
   * notice has been followed by a refresh, unless a callback threw.
   */
  lemma QuietMeansCovered(supported: bool, es: seq<Event>, more: seq<Event>)
    requires Run(supported, es + more).Some? && (forall e <- more :: Internal(e))
    requires var end := Run(supported, es + more).value;
      !end.disposed && (forall e | Internal(e) :: !Enabled(end, e)) && !Stuck(end)
    ensures |more| <= 6 && Run(supported, es).Some?
    ensures var end := Run(supported, es + more).value;
      && end.covered == end.dispatched == Run(supported, es).value.dispatched
      && end.pending.None? && end.queued.None?
  {
    hide Run, Step;
    var end := Run(supported, es + more).value;
    SettlingIsBounded(supported, es, more);
    AccountedAlways(supported, es + more);
    assert Internal(DebounceFires(Promise)) && Internal(Settles(Promise));
  }

  // ---- disposal ----

  /** After disposal nothing is armed and no event takes a notice or begins a refresh. */
  lemma DisposalIsFinal(supported: bool, es: seq<Event>, e: Event)
    requires Run(supported, es).Some? && Run(supported, es).value.disposed
    requires Enabled(Run(supported, es).value, e)
    ensures var s := Run(supported, es).value;
      !s.polling && !s.reconnecting && !s.debouncing
      && Step(supported, s, e).disposed && Step(supported, s, e).begun == s.begun
      && Step(supported, s, e).dispatched == s.dispatched && Step(supported, s, e).source == s.source
  {
    LinkedAlways(supported, es);
  }
}
