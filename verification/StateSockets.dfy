/** The reconnecting state socket of the mobile client: its timers, its sockets and the handlers that change them. */
module StateSockets {
  import opened Common

  const MAX_RECONNECT_DELAY_MS := 30000
  const DEFAULT_INITIAL_RECONNECT_DELAY_MS := 1000
  const DEFAULT_CONNECTION_ERROR_GRACE_MS := 10000

  // ---- the runtime: sockets, timers and what the callbacks were told ----

  datatype ReadyState = Connecting | Open | Closing | Closed

  /** A WebSocket ever created; its handlers run only while attached. */
  datatype Socket = Socket(ready: ReadyState, attached: bool)

  datatype Callback = Reconnect | ReportError

  datatype Timer = Timer(due: nat, callback: Callback)

  /** `timers` holds those not yet fired or cleared by handle, `errors` the times setErr was called, `changes` what
      onConnectionChange got. */
  datatype World = World(now: nat, sockets: seq<Socket>, timers: map<nat, Timer>, issued: nat, errors: seq<nat>,
      changes: seq<bool>) {
    /** setTimeout; the handle is the number of timers issued before. */
    function SetTimeout(callback: Callback, delay: nat): World {
      this.(timers := timers[issued := Timer(now + delay, callback)], issued := issued + 1)
    }

    function ClearTimeout(h: nat): World { this.(timers := timers - {h}) }

    function NewSocket(): World { this.(sockets := sockets + [Socket(Connecting, true)]) }

    function Ready(i: nat, ready: ReadyState): World
      requires i < |sockets|
    {
      this.(sockets := sockets[i := sockets[i].(ready := ready)])
    }

    /** ws.close(). */
    function CloseSocket(i: nat): World
      requires i < |sockets|
    {
      if sockets[i].ready == Closed then this else Ready(i, Closing)
    }

    function Detach(i: nat): World
      requires i < |sockets|
    {
      this.(sockets := sockets[i := sockets[i].(attached := false)])
    }
  }

  // ---- what each handler does to the fields and the runtime ----

  datatype State = State(
    initial: nat, grace: nat, ws: Option<nat>, attempt: nat, reconnect: Option<nat>, errorTimer: Option<nat>,
        closed: bool, world: World)
  {
    predicate Valid() { ws.Some? ==> ws.value < |world.sockets| }

    predicate IsConnected()
      requires Valid()
    {
      ws.Some? && world.sockets[ws.value].ready == Open
    }
  }

  function Power(k: nat): nat { if k == 0 then 1 else 2 * Power(k - 1) }

  /** The wait before a reconnect, after `attempt` attempts that failed. */
  function Delay(initial: nat, attempt: nat): nat {
    var d := initial * Power(attempt);
    if d < MAX_RECONNECT_DELAY_MS then d else MAX_RECONNECT_DELAY_MS
  }

  function Connected(s: State): (r: State)
    requires s.Valid()
    ensures r.Valid()
  {
    var w := if s.ws.Some? then s.world.Detach(s.ws.value).CloseSocket(s.ws.value) else s.world;
    s.(world := w.NewSocket(), ws := Some(|w.sockets|))
  }

  function Scheduled(s: State): State {
    if s.reconnect.Some? then s else
    s.(attempt := s.attempt + 1, reconnect := Some(s.world.issued),
       world := s.world.SetTimeout(Reconnect, Delay(s.initial, s.attempt)))
  }

  function ErrorTimerStarted(s: State): State {
    if s.errorTimer.Some? then s else
    s.(errorTimer := Some(s.world.issued), world := s.world.SetTimeout(ReportError, s.grace))
  }

  function ErrorTimerCleared(s: State): State {
    if s.errorTimer.None? then s else s.(errorTimer := None, world := s.world.ClearTimeout(s.errorTimer.value))
  }

  function ReconnectTimerCleared(s: State): State {
    if s.reconnect.None? then s else s.(reconnect := None, world := s.world.ClearTimeout(s.reconnect.value))
  }

  function Told(s: State, up: bool): State { s.(world := s.world.(changes := s.world.changes + [up])) }

  function AfterOnOpen(s: State): State { Told(ErrorTimerCleared(s.(attempt := 0)), true) }

  function AfterOnClose(s: State): State { if s.closed then s else Scheduled(ErrorTimerStarted(Told(s, false))) }

  function ReconnectedNow(s: State): State
    requires s.Valid()
  {
    if s.closed || s.IsConnected() then s else Connected(ReconnectTimerCleared(s).(attempt := 0))
  }

  function AfterClose(s: State): State
    requires s.Valid()
  {
    var cleared := ErrorTimerCleared(ReconnectTimerCleared(s.(closed := true)));
    if s.ws.Some? then cleared.(world := cleared.world.CloseSocket(s.ws.value)) else cleared
  }

  /** The state the constructor leaves. */
  function Start(initial: nat, grace: nat): State {
    Connected(State(initial, grace, None, 0, None, None, false, World(0, [], map[], 0, [], [])))
  }

  // ---- events ----

  datatype Event =
    | SocketOpens(socket: nat)
    | SocketBreaks(socket: nat)
    | SocketCloses(socket: nat)
    | TimerFires(timer: nat)
    | Passes(ms: nat)
    | AppStateChange(active: bool)
    | NetInfoChange(connected: bool)
    | CloseCalled

  /** The events the runtime can deliver: sockets only move forward, and timers fire no earlier than they are due. */
  predicate Possible(s: State, e: Event) {
    match e
    case SocketOpens(i) => i < |s.world.sockets| && s.world.sockets[i].ready == Connecting
    case SocketBreaks(i) => i < |s.world.sockets| && s.world.sockets[i].ready == Open
    case SocketCloses(i) => i < |s.world.sockets| && s.world.sockets[i].ready != Closed
    case TimerFires(h) => h in s.world.timers && s.world.timers[h].due <= s.world.now
    case _ => true
  }

  function Fired(s: State, callback: Callback): (r: State)
    requires s.Valid()
    ensures r.Valid()
  {
    match callback
    case Reconnect => if s.closed then s.(reconnect := None) else Connected(s.(reconnect := None))
    case ReportError => s.(errorTimer := None, world := s.world.(errors := s.world.errors + [s.world.now]))
  }

  function Step(s: State, e: Event): (r: State)
    requires s.Valid() && Possible(s, e)
    ensures r.Valid()
  {
    match e
    case SocketOpens(i) =>
      var t := s.(world := s.world.Ready(i, Open));
      if t.world.sockets[i].attached then AfterOnOpen(t) else t
    case SocketBreaks(i) => s.(world := s.world.Ready(i, Closing))
    case SocketCloses(i) =>
      var t := s.(world := s.world.Ready(i, Closed));
      if t.world.sockets[i].attached then AfterOnClose(t) else t
    case TimerFires(h) => Fired(s.(world := s.world.ClearTimeout(h)), s.world.timers[h].callback)
    case Passes(ms) => s.(world := s.world.(now := s.world.now + ms))
    case AppStateChange(active) => if active then ReconnectedNow(s) else s
    case NetInfoChange(connected) => if connected then ReconnectedNow(s) else s
    case CloseCalled => AfterClose(s)
  }

  // ---- the invariant ----

  predicate OnlyLastAttached(s: State) {
    && s.ws == Some(|s.world.sockets| - 1)
    && |s.world.sockets| > 0
    && forall i :: 0 <= i < |s.world.sockets| ==> (s.world.sockets[i].attached <==> i == |s.world.sockets| - 1)
  }

  predicate OnlyLastLive(s: State) {
    forall i :: 0 <= i < |s.world.sockets| - 1 ==> s.world.sockets[i].ready in {Closing, ReadyState.Closed}
  }

  /** Every timer in the runtime is one of the two fields, and each field's timer has its own callback. */
  predicate TimersHeld(s: State) {
    && (forall h :: h in s.world.timers ==> h < s.world.issued && (s.reconnect == Some(h) || s.errorTimer == Some(h)))
    && (s.reconnect.Some? ==>
        s.reconnect.value in s.world.timers
        && s.world.timers[s.reconnect.value].callback == Reconnect)
    && (s.errorTimer.Some? ==>
        s.errorTimer.value in s.world.timers
        && s.world.timers[s.errorTimer.value].callback == ReportError)
  }

  predicate Reconnecting(s: State)
    requires |s.world.sockets| > 0
  {
    var last := s.world.sockets[|s.world.sockets| - 1];
    if s.closed then s.reconnect.None? && s.errorTimer.None? && last.ready in {Closing, ReadyState.Closed}
    else (last.ready == ReadyState.Closed <==> s.reconnect.Some?)
  }

  predicate Invariant(s: State) { OnlyLastAttached(s) && OnlyLastLive(s) && TimersHeld(s) && Reconnecting(s) }

  /** A new socket can take over whenever no reconnect is pending. */
  lemma {:induction false} ConnectKeeps(s: State)
    requires s.Valid() && OnlyLastAttached(s) && OnlyLastLive(s) && TimersHeld(s) && s.reconnect.None? && !s.closed
    ensures Invariant(Connected(s))
  {
  }

  lemma {:induction false} TimersKeep(s: State)
    requires TimersHeld(s)
    ensures TimersHeld(Scheduled(s)) && TimersHeld(ErrorTimerStarted(s))
    ensures TimersHeld(ReconnectTimerCleared(s)) && TimersHeld(ErrorTimerCleared(s))
  {
  }

  /** A socket that moves on without its handlers running. */
  lemma {:induction false} MoveKeeps(s: State, i: nat, ready: ReadyState)
    requires Invariant(s) && i < |s.world.sockets| && ready != Connecting
    requires i < |s.world.sockets| - 1 || s.closed ==> ready in {Closing, ReadyState.Closed}
    requires i == |s.world.sockets| - 1 && !s.closed ==> (ready == ReadyState.Closed <==> s.reconnect.Some?)
    ensures Invariant(s.(world := s.world.Ready(i, ready)))
  {
  }

  lemma {:induction false} OpenKeeps(s: State, i: nat)
    requires Invariant(s) && Possible(s, SocketOpens(i))
    ensures s.Valid() && Invariant(Step(s, SocketOpens(i)))
  {
    var t := s.(world := s.world.Ready(i, Open));
    MoveKeeps(s, i, Open);
    TimersKeep(t.(attempt := 0));
  }

  lemma {:induction false} CloseKeeps(s: State, i: nat)
    requires Invariant(s) && Possible(s, SocketCloses(i))
    ensures s.Valid() && Invariant(Step(s, SocketCloses(i)))
  {
    var t := s.(world := s.world.Ready(i, ReadyState.Closed));
    if i < |s.world.sockets| - 1 || s.closed {
      MoveKeeps(s, i, ReadyState.Closed);
    } else {
      TimersKeep(Told(t, false));
      TimersKeep(ErrorTimerStarted(Told(t, false)));
    }
  }

  lemma {:induction false} FireKeeps(s: State, h: nat)
    requires Invariant(s) && Possible(s, TimerFires(h))
    ensures s.Valid() && Invariant(Step(s, TimerFires(h)))
  {
    var t := s.(world := s.world.ClearTimeout(h));
    if s.reconnect == Some(h) { ConnectKeeps(t.(reconnect := None)); }
  }

  lemma {:induction false} NudgeKeeps(s: State)
    requires s.Valid() && Invariant(s)
    ensures Invariant(ReconnectedNow(s))
  {
    if !s.closed && !s.IsConnected() {
      TimersKeep(s);
      ConnectKeeps(ReconnectTimerCleared(s).(attempt := 0));
    }
  }

  lemma {:induction false} CallerCloseKeeps(s: State)
    requires s.Valid() && Invariant(s)
    ensures Invariant(AfterClose(s))
  {
    var t := s.(closed := true);
    TimersKeep(t);
    TimersKeep(ReconnectTimerCleared(t));
    var cleared := ErrorTimerCleared(ReconnectTimerCleared(t));
    assert cleared.reconnect.None? && cleared.errorTimer.None? && cleared.world.sockets == s.world.sockets;
  }

  lemma {:induction false} StepKeeps(s: State, e: Event)
    requires s.Valid() && Possible(s, e) && Invariant(s)
    ensures Invariant(Step(s, e))
  {
    match e
    case SocketOpens(i) => OpenKeeps(s, i);
    case SocketBreaks(i) => MoveKeeps(s, i, Closing);
    case SocketCloses(i) => CloseKeeps(s, i);
    case TimerFires(h) => FireKeeps(s, h);
    case Passes(ms) =>
    case AppStateChange(active) => NudgeKeeps(s);
    case NetInfoChange(connected) => NudgeKeeps(s);
    case CloseCalled => CallerCloseKeeps(s);
  }

  // ---- the class ----

  class StateSocket {
    const initialReconnectDelayMs: nat
    const connectionErrorGraceMs: nat
    var ws: Option<nat>
    var reconnectAttempt: nat
    var reconnectTimer: Option<nat>
    var connectionErrorTimer: Option<nat>
    var closedByCaller: bool
    var world: World

    ghost function View(): State
      reads this
    {
      State(initialReconnectDelayMs, connectionErrorGraceMs, ws, reconnectAttempt, reconnectTimer, connectionErrorTimer,
            closedByCaller, world)
    }

    /** Only the latest socket has handlers, every timer in the runtime is one of the two fields, and until close()
        exactly one of a socket not yet closed and a reconnect is pending. */
    ghost predicate Valid()
      reads this
    {
      View().Valid() && Invariant(View())
    }

    constructor (initial: Option<nat>, grace: Option<nat>)
      ensures Valid() && !closedByCaller && world.sockets == [Socket(Connecting, true)] && world.timers == map[]
      ensures View() == Start(if initial.Some? then initial.value else 1000, if grace.Some? then grace.value else 10000)
    {
      initialReconnectDelayMs := if initial.Some? then initial.value else DEFAULT_INITIAL_RECONNECT_DELAY_MS;
      connectionErrorGraceMs := if grace.Some? then grace.value else DEFAULT_CONNECTION_ERROR_GRACE_MS;
      ws, reconnectAttempt, reconnectTimer, connectionErrorTimer, closedByCaller := None, 0, None, None, false;
      world := World(0, [], map[], 0, [], []);
      new;
      Connect();
    }

    method Connect()
      requires View().Valid()
      modifies this
      ensures View() == Connected(old(View()))
    {
      if ws.Some? {
        world := world.Detach(ws.value);
        world := world.CloseSocket(ws.value);
      }
      ws, world := Some(|world.sockets|), world.NewSocket();
    }

    method OnOpen()
      modifies this
      ensures View() == AfterOnOpen(old(View()))
    {
      reconnectAttempt := 0;
      ClearConnectionErrorTimer();
      world := world.(changes := world.changes + [true]);
    }

    method OnClose()
      modifies this
      ensures View() == AfterOnClose(old(View()))
    {
      if closedByCaller { return; }
      world := world.(changes := world.changes + [false]);
      StartConnectionErrorTimer();
      ScheduleReconnect();
    }

    method ScheduleReconnect()
      modifies this
      ensures View() == Scheduled(old(View()))
    {
      if reconnectTimer.Some? { return; }
      var delay := Delay(initialReconnectDelayMs, reconnectAttempt);
      reconnectAttempt := reconnectAttempt + 1;
      reconnectTimer, world := Some(world.issued), world.SetTimeout(Reconnect, delay);
    }

    method StartConnectionErrorTimer()
      modifies this
      ensures View() == ErrorTimerStarted(old(View()))
    {
      if connectionErrorTimer.Some? { return; }
      connectionErrorTimer, world := Some(world.issued), world.SetTimeout(ReportError, connectionErrorGraceMs);
    }

    method ClearConnectionErrorTimer()
      modifies this
      ensures View() == ErrorTimerCleared(old(View()))
    {
      if connectionErrorTimer.Some? {
        world := world.ClearTimeout(connectionErrorTimer.value);
        connectionErrorTimer := None;
      }
    }

    method ReconnectNow()
      requires Valid()
      modifies this
      ensures Valid() && (old(closedByCaller || View().IsConnected()) ==> View() == old(View()))
      ensures !old(closedByCaller || View().IsConnected()) ==>
              && reconnectTimer.None? && |world.sockets| == old(|world.sockets|) + 1
              && world.sockets[old(|world.sockets|)] == Socket(Connecting, true)
      ensures View() == ReconnectedNow(old(View()))
    {
      NudgeKeeps(View());
      if closedByCaller || (ws.Some? && world.sockets[ws.value].ready == Open) { return; }
      if reconnectTimer.Some? {
        world := world.ClearTimeout(reconnectTimer.value);
        reconnectTimer := None;
      }
      reconnectAttempt := 0;
      Connect();
    }

    method Close()
      requires Valid()
      modifies this
      ensures Valid() && closedByCaller && world.timers == map[] && |world.sockets| == old(|world.sockets|)
      ensures forall i :: 0 <= i < |world.sockets| ==> world.sockets[i].ready in {Closing, ReadyState.Closed}
      ensures View() == AfterClose(old(View()))
    {
      CallerCloseKeeps(View());
      closedByCaller := true;
      if reconnectTimer.Some? {
        world := world.ClearTimeout(reconnectTimer.value);
        reconnectTimer := None;
      }
      ClearConnectionErrorTimer();
      if ws.Some? { world := world.CloseSocket(ws.value); }
    }

    /** The runtime delivers an event. */
    method Deliver(e: Event)
      requires Valid() && Possible(View(), e)
      modifies this
      ensures Valid() && View() == Step(old(View()), e)
    {
      ghost var before := View();
      StepKeeps(before, e);
      match e {
        case SocketOpens(i) =>
          world := world.Ready(i, Open);
          if world.sockets[i].attached { OnOpen(); }
        case SocketBreaks(i) => world := world.Ready(i, Closing);
        case SocketCloses(i) =>
          world := world.Ready(i, Closed);
          if world.sockets[i].attached { OnClose(); }
        case TimerFires(h) =>
          var callback := world.timers[h].callback;
          world := world.ClearTimeout(h);
          match callback {
            case Reconnect =>
              reconnectTimer := None;
              if !closedByCaller { Connect(); }
            case ReportError =>
              connectionErrorTimer := None;
              world := world.(errors := world.errors + [world.now]);
          }
        case Passes(ms) => world := world.(now := world.now + ms);
        case AppStateChange(active) => if active { ReconnectNow(); }
        case NetInfoChange(connected) => if connected { ReconnectNow(); }
        case CloseCalled => Close();
      }
    }
  }
}
