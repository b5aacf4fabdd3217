/** The realtime client: one event source, polling as a fallback, and debounced refreshes. */
module Realtime {
  import opened Common

  // What a refresh is told: a stream event, or the reason it is needed.
  datatype Notice = Message(id: nat) | Connected | Poll

  // How a refresh callback starts: it returns a promise (which may reject later), or it throws at once.
  datatype Start = Promise | Throw

  datatype State = State(
    disposed: bool,
    source: Option<nat>,        // the current event source
    sources: nat,               // event sources created so far
    polling: bool,              // the polling interval is armed
    reconnecting: bool,         // the reconnect timer is armed
    debouncing: bool,           // the debounce timer is armed
    pending: Option<Notice>,
    queued: Option<Notice>,
    refreshing: bool,
    running: bool,              // a refresh promise is unsettled
    dispatched: nat,            // notices taken so far
    covered: nat,               // how many of them a later refresh has begun after
    begun: nat,                 // refreshes begun so far
    told: Option<Notice>)       // what the last of them was told

  datatype Event =
    | Mount(fails: bool)                       // the first connect; the constructor may throw
    | Opened(source: nat)
    | Received(source: nat, notice: Option<nat>)   // None: the payload does not parse
    | Failed(source: nat, closed: bool)
    | PollTick
    | ReconnectFires(fails: bool)
    | DebounceFires(start: Start)
    | Settles(start: Start)                    // the running refresh resolves or rejects; the next one may start
    | Unmount

  const FRESH := State(false, None, 0, false, false, false, None, None, false, false, 0, 0, 0, None)

  // ---- the closures ----

  function Dispatch(s: State, n: Notice): State {
    if s.disposed then s else s.(pending := Some(n), debouncing := true, dispatched := s.dispatched + 1)
  }

  function StartPolling(s: State): State {
    if s.disposed then s else s.(polling := true)
  }

  function StopPolling(s: State): State { s.(polling := false) }

  function ScheduleReconnect(supported: bool, s: State): State {
    if s.disposed || !supported then s else s.(reconnecting := true)
  }

  function RestartWithPolling(supported: bool, s: State): State {
    ScheduleReconnect(supported, StartPolling(s.(source := None)))
  }

  function Connect(supported: bool, s: State, fails: bool): State {
    if s.disposed then s
    else if !supported then StartPolling(s)
    else if fails then ScheduleReconnect(supported, StartPolling(s.(source := None)))
    else s.(source := Some(s.sources), sources := s.sources + 1)
  }

  // The head of the refresh loop with a current notice: every notice taken so far is covered.
  function Refresh(s: State, current: Notice, start: Start): State {
    s.(queued := None, running := start == Promise, begun := s.begun + 1, covered := s.dispatched,
    told := Some(current))
  }

  function OnDebounce(s: State, start: Start): State {
    var quiet := s.(debouncing := false, pending := None);
    match s.pending
    case None => quiet
    case Some(n) =>
      if s.refreshing then quiet.(queued := Some(n)) else Refresh(quiet.(refreshing := true), n, start)
  }

  function OnSettle(s: State, start: Start): State {
    var done := s.(running := false);
    if s.queued.Some? && !s.disposed then Refresh(done, s.queued.value, start) else done.(refreshing := false)
  }

  predicate Current(s: State, source: nat) { s.source == Some(source) && !s.disposed }

  // ---- events ----

  predicate Enabled(s: State, e: Event) {
    match e
    case Mount(_) => s == FRESH
    case Opened(k) => k < s.sources
    case Received(k, _) => k < s.sources
    case Failed(k, _) => k < s.sources
    case PollTick => s.polling
    case ReconnectFires(_) => s.reconnecting
    case DebounceFires(_) => s.debouncing
    case Settles(_) => s.running
    case Unmount => s != FRESH && !s.disposed
  }

  function Step(supported: bool, s: State, e: Event): State {
    match e
    case Mount(fails) => Connect(supported, s, fails)
    case Opened(k) => if Current(s, k) then Dispatch(StopPolling(s), Connected) else s
    case Received(k, notice) =>
      if !Current(s, k) then s
      else if notice.Some? then Dispatch(s, Message(notice.value))
      else RestartWithPolling(supported, s)
    case Failed(k, closed) =>
      if !Current(s, k) then s
      else if closed then ScheduleReconnect(supported, StartPolling(s).(source := None))
      else StartPolling(s)
    case PollTick => Dispatch(s, Poll)
    case ReconnectFires(fails) => Connect(supported, s.(reconnecting := false), fails)
    case DebounceFires(start) => OnDebounce(s, start)
    case Settles(start) => OnSettle(s, start)
    case Unmount => s.(disposed := true, polling := false, reconnecting := false, debouncing := false)
  }

  // ---- the hook as the source writes it ----

  class Client {
    const supported: bool
    var disposed: bool
    var source: Option<nat>
    var sources: nat
    var pollTimer: bool
    var reconnectTimer: bool
    var debounceTimer: bool
    var pending: Option<Notice>
    var queued: Option<Notice>
    var refreshing: bool
    var running: bool
    ghost var dispatched: nat
    ghost var covered: nat
    ghost var begun: nat
    ghost var told: Option<Notice>

    ghost function View(): State
      reads this
    {
      State(disposed, source, sources, pollTimer, reconnectTimer, debounceTimer, pending, queued, refreshing,
            running, dispatched, covered, begun, told)
    }

    constructor (supported: bool)
      ensures View() == FRESH && this.supported == supported
    {
      this.supported := supported;
      disposed, source, sources := false, None, 0;
      pollTimer, reconnectTimer, debounceTimer := false, false, false;
      pending, queued, refreshing, running := None, None, false, false;
      dispatched, covered, begun, told := 0, 0, 0, None;
    }

    method DispatchNotice(n: Notice)
      modifies this
      ensures View() == Dispatch(old(View()), n)
    {
      if disposed {
        return;
      }
      pending := Some(n);
      dispatched := dispatched + 1;
      if debounceTimer {
        return;
      }
      debounceTimer := true;
    }

    method ArmPolling()
      modifies this
      ensures View() == StartPolling(old(View()))
    {
      if disposed || pollTimer {
        return;
      }
      pollTimer := true;
    }

    method Reconnect()
      modifies this
      ensures View() == ScheduleReconnect(supported, old(View()))
    {
      if disposed || reconnectTimer || !supported {
        return;
      }
      reconnectTimer := true;
    }

    method ConnectNow(fails: bool)
      modifies this
      ensures View() == Connect(supported, old(View()), fails)
    {
      if disposed {
        return;
      }
      if !supported {
        ArmPolling();
        return;
      }
      source := None;
      if fails {
        ArmPolling();
        Reconnect();
        return;
      }
      source := Some(sources);
      sources := sources + 1;
    }

    method OnOpen(k: nat)
      modifies this
      ensures View() == Step(supported, old(View()), Opened(k))
    {
      if source != Some(k) || disposed {
        return;
      }
      pollTimer := false;
      DispatchNotice(Connected);
    }

    method OnMessage(k: nat, notice: Option<nat>)
      modifies this
      ensures View() == Step(supported, old(View()), Received(k, notice))
    {
      if source != Some(k) || disposed {
        return;
      }
      if notice.Some? {
        DispatchNotice(Message(notice.value));
      } else {
        source := None;
        ArmPolling();
        Reconnect();
      }
    }

    method OnError(k: nat, closed: bool)
      modifies this
      ensures View() == Step(supported, old(View()), Failed(k, closed))
    {
      if source != Some(k) || disposed {
        return;
      }
      ArmPolling();
      if closed {
        source := None;
        Reconnect();
      }
    }

    method OnReconnectTimer(fails: bool)
      modifies this
      ensures View() == Step(supported, old(View()), ReconnectFires(fails))
    {
      reconnectTimer := false;
      ConnectNow(fails);
    }

    method BeginRefresh(current: Notice, start: Start)
      modifies this
      ensures View() == Refresh(old(View()), current, start)
    {
      queued := None;
      begun, covered, told := begun + 1, dispatched, Some(current);
      running := start == Promise;
    }

    method OnDebounceTimer(start: Start)
      modifies this
      ensures View() == Step(supported, old(View()), DebounceFires(start))
    {
      debounceTimer := false;
      var next := pending;
      pending := None;
      if next.None? {
        return;
      }
      if refreshing {
        queued := next;
        return;
      }
      refreshing := true;
      BeginRefresh(next.value, start);
    }

    method OnRefreshSettled(start: Start)
      modifies this
      ensures View() == Step(supported, old(View()), Settles(start))
    {
      running := false;
      if queued.Some? && !disposed {
        BeginRefresh(queued.value, start);
      } else {
        refreshing := false;
      }
    }

    method Cleanup()
      modifies this
      ensures View() == Step(supported, old(View()), Unmount)
    {
      disposed := true;
      pollTimer, reconnectTimer, debounceTimer := false, false, false;
    }
  }
}
