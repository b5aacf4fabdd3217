/** What the realtime client holds is decided by its history: polling, the reconnect timer, the source, the notices. */
module RealtimeHistory {
  import opened Common
  import opened Realtime
  import opened RealtimeTheorems

  // ---- the latest event of a kind ----

  type Test = (State, Event) -> bool

  // The state before event i.
  function At(supported: bool, es: seq<Event>, i: nat): State
    requires i <= |es|
  {
    match Run(supported, es[..i])
    case Some(s) => s
    case None => FRESH
  }

  // Event i sets the thing up, and none after it takes it down.
  ghost predicate StandsSince(supported: bool, es: seq<Event>, up: Test, down: Test, i: nat) {
    && i < |es| && up(At(supported, es, i), es[i])
    && forall j :: i < j < |es| ==> !down(At(supported, es, j), es[j])
  }

  ghost predicate Stands(supported: bool, es: seq<Event>, up: Test, down: Test) {
    exists i: nat :: StandsSince(supported, es, up, down, i)
  }

  lemma SameBefore(supported: bool, es: seq<Event>, i: nat)
    requires i < |es|
    ensures var init := es[..|es| - 1];
      At(supported, es, i) == At(supported, if i < |init| then init else es, i) && (i < |init| ==> init[i] == es[i])
  {
    hide Run;
    var init := es[..|es| - 1];
    assert i < |init| ==> init[..i] == es[..i];
  }

  lemma SinceStep(supported: bool, es: seq<Event>, up: Test, down: Test, i: nat)
    requires i + 1 < |es|
    ensures var (init, n) := (es[..|es| - 1], |es| - 1);
      StandsSince(supported, es, up, down, i) <==>
        StandsSince(supported, init, up, down, i) && !down(At(supported, es, n), es[n])
  {
    hide At;
    var (init, n) := (es[..|es| - 1], |es| - 1);
    forall j: nat | j < n ensures At(supported, init, j) == At(supported, es, j) && init[j] == es[j] {
      SameBefore(supported, es, j);
    }
  }

  lemma StandsStep(supported: bool, es: seq<Event>, up: Test, down: Test)
    requires es != [] && Run(supported, es).Some?
    ensures var (init, e) := (es[..|es| - 1], es[|es| - 1]);
      Run(supported, init).Some? &&
      var s := Run(supported, init).value;
      Stands(supported, es, up, down) <==> up(s, e) || (Stands(supported, init, up, down) && !down(s, e))
  {
    hide Step, Enabled, StandsSince;
    var n := |es| - 1;
    assert At(supported, es, n) == Run(supported, es[..n]).value;
    LastStands(supported, es, up, down);
    forall i: nat | i < n
      ensures StandsSince(supported, es, up, down, i) <==>
        StandsSince(supported, es[..n], up, down, i) && !down(At(supported, es, n), es[n])
    {
      SinceStep(supported, es, up, down, i);
    }
    forall i: nat | i >= n
      ensures !StandsSince(supported, es[..n], up, down, i) && (i > n ==> !StandsSince(supported, es, up, down, i))
    {
      TooLate(supported, es, up, down, i);
    }
  }

  lemma LastStands(supported: bool, es: seq<Event>, up: Test, down: Test)
    requires es != []
    ensures StandsSince(supported, es, up, down, |es| - 1) <==> up(At(supported, es, |es| - 1), es[|es| - 1])
  {
  }

  lemma TooLate(supported: bool, es: seq<Event>, up: Test, down: Test, i: nat)
    requires i >= |es| - 1 && es != []
    ensures !StandsSince(supported, es[..|es| - 1], up, down, i)
    ensures i >= |es| ==> !StandsSince(supported, es, up, down, i)
  {
  }

  // The source is the current one, and the client is mounted.
  predicate FromCurrent(s: State, k: nat) { !s.disposed && s.source.Some? && s.source.value == k }

  // ---- polling ----

  // Without event sources a connect arms polling; so does a failed one, an error, and a message that does not parse.
  predicate ArmsPolling(supported: bool, s: State, e: Event) {
    match e
    case Mount(fails) => !s.disposed && (!supported || fails)
    case ReconnectFires(fails) => !s.disposed && (!supported || fails)
    case Failed(k, _) => FromCurrent(s, k)
    case Received(k, notice) => FromCurrent(s, k) && notice.None?
    case _ => false
  }

  predicate StopsPollingAt(s: State, e: Event) {
    match e
    case Opened(k) => FromCurrent(s, k)
    case Unmount => true
    case _ => false
  }

  function ArmsPoll(supported: bool): Test { (s: State, e: Event) => ArmsPolling(supported, s, e) }

  function StopsPoll(): Test { (s: State, e: Event) => StopsPollingAt(s, e) }

  // What connects the client is untouched by notices and refreshes.
  predicate SameLinks(s: State, s': State) {
    s'.source == s.source && s'.sources == s.sources && s'.polling == s.polling && s'.reconnecting == s.reconnecting
  }

  lemma RefreshingIsApart(supported: bool, s: State, e: Event)
    requires e.PollTick? || e.DebounceFires? || e.Settles?
    ensures SameLinks(s, Step(supported, s, e))
  {
  }

  lemma PollStep(supported: bool, s: State, e: Event)
    ensures Step(supported, s, e).polling <==> ArmsPolling(supported, s, e) || (s.polling && !StopsPollingAt(s, e))
  {
    hide OnDebounce, OnSettle;
    if e.PollTick? || e.DebounceFires? || e.Settles? {
      RefreshingIsApart(supported, s, e);
    }
  }

  /**
   * Polling is armed exactly when some failure, or a connect without event sources, armed it and the current source
   * has not opened since: a stream that comes back ends the polling.
   */
  lemma {:induction false} PollingExactly(supported: bool, es: seq<Event>)
    requires Run(supported, es).Some?
    ensures Run(supported, es).value.polling <==> Stands(supported, es, ArmsPoll(supported), StopsPoll())
  {
    hide Step, Enabled, ArmsPolling, StopsPollingAt, Stands;
    if es == [] {
      NothingStands(supported, ArmsPoll(supported), StopsPoll());
    } else {
      PollingExactly(supported, es[..|es| - 1]);
      StandsStep(supported, es, ArmsPoll(supported), StopsPoll());
      PollStep(supported, Run(supported, es[..|es| - 1]).value, es[|es| - 1]);
    }
  }

  lemma NothingStands(supported: bool, up: Test, down: Test)
    ensures !Stands(supported, [], up, down)
  {
  }

  /** After the current source opens there is no polling until one of its failures, or a failed reconnect. */
  lemma OpenEndsPolling(supported: bool, es: seq<Event>, i: nat)
    requires Run(supported, es).Some? && i < |es| && es[i].Opened? && FromCurrent(At(supported, es, i), es[i].source)
    requires forall j :: i < j < |es| ==> !ArmsPolling(supported, At(supported, es, j), es[j])
    ensures !Run(supported, es).value.polling
  {
    hide Run, At;
    PollingExactly(supported, es);
  }

  // ---- the reconnect timer ----

  predicate ArmsReconnecting(supported: bool, s: State, e: Event) {
    supported && !s.disposed &&
    match e
    case Mount(fails) => fails
    case ReconnectFires(fails) => fails
    case Failed(k, closed) => FromCurrent(s, k) && closed
    case Received(k, notice) => FromCurrent(s, k) && notice.None?
    case _ => false
  }

  function ArmsReconnect(supported: bool): Test { (s: State, e: Event) => ArmsReconnecting(supported, s, e) }

  function EndsReconnect(): Test { (s: State, e: Event) => e.ReconnectFires? || e.Unmount? }

  lemma ReconnectStep(supported: bool, s: State, e: Event)
    ensures Step(supported, s, e).reconnecting <==>
      ArmsReconnecting(supported, s, e) || (s.reconnecting && !e.ReconnectFires? && !e.Unmount?)
  {
    hide OnDebounce, OnSettle;
    if e.PollTick? || e.DebounceFires? || e.Settles? {
      RefreshingIsApart(supported, s, e);
    }
  }

  /** A reconnect is due exactly when a source was lost, or could not be made, and no reconnect has fired since. */
  lemma {:induction false} ReconnectExactly(supported: bool, es: seq<Event>)
    requires Run(supported, es).Some?
    ensures Run(supported, es).value.reconnecting
      <==> Stands(supported, es, ArmsReconnect(supported), EndsReconnect())
  {
    hide Step, Enabled, ArmsReconnecting, Stands;
    if es == [] {
      NothingStands(supported, ArmsReconnect(supported), EndsReconnect());
    } else {
      ReconnectExactly(supported, es[..|es| - 1]);
      StandsStep(supported, es, ArmsReconnect(supported), EndsReconnect());
      ReconnectStep(supported, Run(supported, es[..|es| - 1]).value, es[|es| - 1]);
    }
  }

  // ---- the source ----

  predicate MakesSource(supported: bool, s: State, e: Event) {
    supported && !s.disposed && ((e.Mount? && !e.fails) || (e.ReconnectFires? && !e.fails))
  }

  predicate LosesSource(s: State, e: Event) {
    match e
    case Failed(k, closed) => FromCurrent(s, k) && closed
    case Received(k, notice) => FromCurrent(s, k) && notice.None?
    case _ => false
  }

  function Makes(supported: bool): Test { (s: State, e: Event) => MakesSource(supported, s, e) }

  function Loses(): Test { (s: State, e: Event) => LosesSource(s, e) }

  lemma SourceStep(supported: bool, s: State, e: Event)
    requires Linked(supported, s) && Enabled(s, e)
    ensures var s' := Step(supported, s, e);
      && (s'.source.Some? <==> MakesSource(supported, s, e) || (s.source.Some? && !LosesSource(s, e)))
      && s'.sources == s.sources + (if MakesSource(supported, s, e) then 1 else 0)
      && (s'.source.Some? ==> s'.source.value == if MakesSource(supported, s, e) then s.sources else s.source.value)
  {
    hide OnDebounce, OnSettle;
    if e.PollTick? || e.DebounceFires? || e.Settles? {
      RefreshingIsApart(supported, s, e);
    }
  }

  lemma FirstSource(supported: bool, e: Event)
    requires Enabled(FRESH, e)
    ensures var s' := Step(supported, FRESH, e);
      && (s'.source.Some? <==> MakesSource(supported, FRESH, e))
      && s'.sources == (if MakesSource(supported, FRESH, e) then 1 else 0)
      && (s'.source.Some? ==> s'.source.value == 0)
  {
  }

  /** There is a source exactly when one was made and not lost since, and it is the last one made. */
  lemma {:induction false} SourceExactly(supported: bool, es: seq<Event>)
    requires Run(supported, es).Some?
    ensures Run(supported, es).value.source.Some? <==> Stands(supported, es, Makes(supported), Loses())
    ensures var s := Run(supported, es).value; s.source.Some? ==> s.source.value + 1 == s.sources
  {
    hide Step, Enabled, MakesSource, LosesSource, Stands, Linked;
    if es == [] {
      NothingStands(supported, Makes(supported), Loses());
    } else {
      var (init, e) := (es[..|es| - 1], es[|es| - 1]);
      SourceExactly(supported, init);
      StandsStep(supported, es, Makes(supported), Loses());
      if init == [] {
        FirstSource(supported, e);
        NothingStands(supported, Makes(supported), Loses());
      } else {
        LinkedAlways(supported, init);
        SourceStep(supported, Run(supported, init).value, e);
      }
    }
  }

  // ---- the notices ----

  // The notice an event takes.
  function Taken(s: State, e: Event): Option<Notice> {
    match e
    case Opened(k) => if FromCurrent(s, k) then Some(Connected) else None
    case Received(k, notice) =>
      if FromCurrent(s, k) && notice.Some? then Some(Message(notice.value)) else None
    case PollTick => if s.disposed then None else Some(Poll)
    case _ => None
  }

  function Takes(n: Notice): Test { (s: State, e: Event) => Taken(s, e) == Some(n) }

  function Replaces(): Test { (s: State, e: Event) => Taken(s, e).Some? || e.DebounceFires? }

  lemma PendingStep(supported: bool, s: State, e: Event, n: Notice)
    requires Enabled(s, e)
    ensures Step(supported, s, e).pending == Some(n) <==>
      Taken(s, e) == Some(n) || (s.pending == Some(n) && Taken(s, e).None? && !e.DebounceFires?)
  {
    hide OnSettle;
    if e.Settles? {
      SettleLeavesPending(s, e.start);
    }
  }

  lemma SettleLeavesPending(s: State, start: Start)
    ensures OnSettle(s, start).pending == s.pending
  {
  }

  /** The pending notice is the latest one taken, and only until its timer fires. */
  lemma {:induction false} PendingExactly(supported: bool, es: seq<Event>, n: Notice)
    requires Run(supported, es).Some?
    ensures Run(supported, es).value.pending == Some(n) <==> Stands(supported, es, Takes(n), Replaces())
  {
    hide Step, Enabled, Taken, Stands;
    if es == [] {
      NothingStands(supported, Takes(n), Replaces());
    } else {
      PendingExactly(supported, es[..|es| - 1], n);
      StandsStep(supported, es, Takes(n), Replaces());
      PendingStep(supported, Run(supported, es[..|es| - 1]).value, es[|es| - 1], n);
    }
  }

  // A notice whose timer fires while a refresh runs is queued; a later one replaces it, a refresh consumes it.
  function Queues(n: Notice): Test { (s: State, e: Event) => e.DebounceFires? && s.refreshing && s.pending == Some(n) }

  predicate Begins(s: State, e: Event) {
    (e.DebounceFires? && s.pending.Some? && !s.refreshing) || (e.Settles? && s.queued.Some? && !s.disposed)
  }

  function Consumes(): Test { (s: State, e: Event) => (e.DebounceFires? && s.pending.Some?) || Begins(s, e) }

  lemma QueuedStep(supported: bool, s: State, e: Event, n: Notice)
    requires Enabled(s, e)
    ensures Step(supported, s, e).queued == Some(n) <==>
      (e.DebounceFires? && s.refreshing && s.pending == Some(n))
      || (s.queued == Some(n) && !((e.DebounceFires? && s.pending.Some?) || Begins(s, e)))
  {
    hide Step, OnDebounce, OnSettle;
    EventAffects(supported, s, e);
    match e
    case DebounceFires(start) => DebounceBegins(s, start);
    case Settles(start) => SettleBegins(s, start);
    case _ =>
  }

  lemma DebounceBegins(s: State, start: Start)
    ensures var (s', begins) := (OnDebounce(s, start), s.pending.Some? && !s.refreshing);
      && s'.begun == s.begun + (if begins then 1 else 0)
      && s'.told == (if begins then s.pending else s.told)
      && s'.queued == (if begins then None else if s.pending.Some? then s.pending else s.queued)
      && (begins ==> s'.covered == s.dispatched)
  {
  }

  lemma SettleBegins(s: State, start: Start)
    ensures var (s', begins) := (OnSettle(s, start), s.queued.Some? && !s.disposed);
      && s'.begun == s.begun + (if begins then 1 else 0)
      && s'.told == (if begins then s.queued else s.told)
      && s'.queued == (if begins then None else s.queued)
      && (begins ==> s'.covered == s.dispatched)
  {
  }

  /** The queued notice is the latest one whose timer fired behind a running refresh, until the next refresh begins. */
  lemma {:induction false} QueuedExactly(supported: bool, es: seq<Event>, n: Notice)
    requires Run(supported, es).Some?
    ensures Run(supported, es).value.queued == Some(n) <==> Stands(supported, es, Queues(n), Consumes())
  {
    hide Step, Enabled, Begins, Stands;
    if es == [] {
      NothingStands(supported, Queues(n), Consumes());
    } else {
      QueuedExactly(supported, es[..|es| - 1], n);
      StandsStep(supported, es, Queues(n), Consumes());
      QueuedStep(supported, Run(supported, es[..|es| - 1]).value, es[|es| - 1], n);
    }
  }

  /** A refresh begins exactly at a timer with no refresh running, or behind a settled one, and is told that notice. */
  lemma RefreshIsTold(supported: bool, s: State, e: Event)
    requires Enabled(s, e)
    ensures var s' := Step(supported, s, e);
      && s'.begun == s.begun + (if Begins(s, e) then 1 else 0)
      && s'.told == (if !Begins(s, e) then s.told else if e.DebounceFires? then s.pending else s.queued)
      && (Begins(s, e) ==> s'.covered == s.dispatched && s'.queued.None?)
  {
    hide Step, OnDebounce, OnSettle;
    EventAffects(supported, s, e);
    match e
    case DebounceFires(start) => DebounceBegins(s, start);
    case Settles(start) => SettleBegins(s, start);
    case _ =>
  }
}
