/** The client's connection manager: a socket, three timers and a mode, driven by callbacks that may come late. */
module ClientConnection {
  import opened AuctionTypes

  datatype Mode = Disconnected | Reconnecting | Connected | Polling
  datatype Kind = ReconnectKind | PollKind | PingKind
  datatype Timer = Timer(kind: Kind, delay: int)

  /** A browser socket. `attached` while its close handler is set; its open handler is never removed. */
  datatype Sock = Sock(everOpen: bool, closing: bool, closed: bool, attached: bool)

  datatype Options = Options(backoff: seq<nat>, pollingAfter: int, pollingInterval: nat, pingInterval: nat)

  /** What a connection attempt meets: a failing socket constructor, and two clock readings if it fails. */
  datatype Env = Env(throws: bool, t0: int, t1: int)

  const DEFAULTS := Options([1000, 2000, 5000, 10000], 15000, 2000, 25000)

  /** What a page may set instead of the defaults. */
  datatype Custom = Custom(backoff: Option<seq<nat>>, pollingAfter: Option<int>, pollingInterval: Option<nat>,
                           pingInterval: Option<nat>)

  function Or<T>(o: Option<T>, d: T): T {
    match o case Some(v) => v case None => d
  }

  function WithDefaults(c: Custom): Options {
    Options(Or(c.backoff, DEFAULTS.backoff), Or(c.pollingAfter, DEFAULTS.pollingAfter),
            Or(c.pollingInterval, DEFAULTS.pollingInterval), Or(c.pingInterval, DEFAULTS.pingInterval))
  }

  /** The delay before reconnecting; indexing an empty list yields no delay. */
  function Delay(backoff: seq<nat>, attempt: nat): int {
    if |backoff| == 0 then 0
    else if attempt < |backoff| then backoff[attempt]
    else backoff[|backoff| - 1]
  }

  /** The manager's fields together with the browser's pending timers and sockets. `starting` counts the initial
      status refreshes still under way; `begun` says that a connection has been attempted since the last start. */
  datatype Conn = Conn(options: Options, socket: Option<nat>, reconnectTimer: Option<nat>, pollingTimer: Option<nat>,
                       pingTimer: Option<nat>, attempt: nat, disconnectedAt: int, stopped: bool, blocked: bool,
                       mode: Mode,
                       listening: bool, starting: nat, begun: bool, timers: map<nat, Timer>, sockets: map<nat, Sock>,
                       nextId: nat)
  {
    function ClearReconnect(): Conn {
      if reconnectTimer.Some? then this.(timers := timers - {reconnectTimer.value}, reconnectTimer := None) else this
    }

    function StopPolling(): Conn {
      if pollingTimer.Some? then this.(timers := timers - {pollingTimer.value}, pollingTimer := None) else this
    }

    function StopPing(): Conn {
      if pingTimer.Some? then this.(timers := timers - {pingTimer.value}, pingTimer := None) else this
    }

    function CloseSocket(): Conn {
      if socket.None? then this
      else this.(sockets := Detach(sockets, socket.value), socket := None)
    }

    function StartPing(): Conn {
      var c := StopPing();
      c.(pingTimer := Some(nextId), timers := c.timers[nextId := Timer(PingKind, options.pingInterval)],
        nextId := nextId + 1)
    }

    function StartPolling(): Conn {
      if stopped then this
      else if pollingTimer.Some? then this.(mode := Polling)
      else this.(mode := Polling, pollingTimer := Some(nextId),
                 timers := timers[nextId := Timer(PollKind, options.pollingInterval)], nextId := nextId + 1)
    }

    function ScheduleReconnect(): Conn {
      if stopped || blocked then this
      else this.(attempt := attempt + 1, reconnectTimer := Some(nextId),
                 timers := timers[nextId := Timer(ReconnectKind, Delay(options.backoff, attempt))],
                 nextId := nextId + 1)
    }

    function HandleDisconnected(t0: int, t1: int): Conn {
      var c := StopPing();
      if stopped then c
      else
        var d := if disconnectedAt == 0 then c.(disconnectedAt := t0) else c;
        var e := if t1 - d.disconnectedAt >= options.pollingAfter || blocked then d.StartPolling()
                 else d.(mode := Reconnecting);
        e.ScheduleReconnect()
    }

    function Attach(): Conn {
      this.(socket := Some(nextId), sockets := sockets[nextId := Sock(false, false, false, true)], nextId := nextId + 1)
    }

    /** Drops whatever an earlier attempt left. */
    function Reset(): Conn {
      var c := this.(begun := true).ClearReconnect().StopPing().CloseSocket();
      if pollingTimer.None? then c.(mode := Reconnecting) else c
    }

    function Connect(env: Env): Conn {
      if stopped then this
      else if blocked then this.(begun := true).StartPolling()
      else
        if env.throws then Reset().HandleDisconnected(env.t0, env.t1) else Reset().Attach()
    }

    function HandleOpen(): Conn {
      this.(attempt := 0, disconnectedAt := 0).StopPolling().(mode := Connected).StartPing()
    }

    function Start(): Conn {
      if !stopped then this else this.(stopped := false, listening := true, starting := starting + 1)
    }

    function Stop(): Conn {
      this.(stopped := true, listening := false, begun := false)
        .ClearReconnect().StopPolling().StopPing().CloseSocket().(mode := Disconnected)
    }

    function Reconnect(env: Env): Conn {
      this.(blocked := false, attempt := 0, disconnectedAt := 0).ClearReconnect().Connect(env)
    }

    function RequestClose(): Conn {
      if socket.Some? && socket.value in sockets then
        this.(sockets := sockets[socket.value := sockets[socket.value].(closing := true)])
      else this
    }

    function Reject(): Conn {
      this.(blocked := true).ClearReconnect().RequestClose().StartPolling()
    }

    function Allow(env: Env): Conn {
      this.(blocked := false).StopPolling().Reconnect(env)
    }

    /** A socket that has been attached and whose close callback is still to come. */
    predicate Live() {
      socket.Some? && socket.value in sockets && sockets[socket.value].attached && !sockets[socket.value].closed
    }

    predicate Pending() {
      reconnectTimer.Some? && reconnectTimer.value in timers
    }
  }

  function Detach(sockets: map<nat, Sock>, s: nat): map<nat, Sock> {
    if s in sockets then sockets[s := sockets[s].(attached := false, closing := true)] else sockets
  }

  function Boot(options: Options): Conn {
    Conn(options, None, None, None, None, 0, 0, true, false, Disconnected, false, 0, false, map[], map[], 0)
  }

  /** The timers and sockets of the browser window. */
  class Browser {
    var timers: map<nat, Timer>
    var sockets: map<nat, Sock>
    var nextId: nat

    constructor ()
      ensures timers == map[] && sockets == map[] && nextId == 0
    {
      timers, sockets, nextId := map[], map[], 0;
    }

    method SetTimer(kind: Kind, delay: int) returns (id: nat)
      modifies this`timers, this`nextId
      ensures id == old(nextId) && nextId == old(nextId) + 1 && timers == old(timers)[id := Timer(kind, delay)]
    {
      id := nextId;
      timers := timers[id := Timer(kind, delay)];
      nextId := nextId + 1;
    }

    method ClearTimer(id: nat)
      modifies this`timers
      ensures timers == old(timers) - {id}
    {
      timers := timers - {id};
    }

    /** A new socket, with its handlers set. */
    method Open() returns (id: nat)
      modifies this`sockets, this`nextId
      ensures id == old(nextId) && nextId == old(nextId) + 1
      ensures sockets == old(sockets)[id := Sock(false, false, false, true)]
    {
      id := nextId;
      sockets := sockets[id := Sock(false, false, false, true)];
      nextId := nextId + 1;
    }

    /** Removes the close and error handlers and closes. */
    method CloseSilently(id: nat)
      modifies this`sockets
      ensures sockets == Detach(old(sockets), id)
    {
      if id in sockets {
        sockets := sockets[id := sockets[id].(attached := false)];
        sockets := sockets[id := sockets[id].(closing := true)];
      }
    }

    method Close(id: nat)
      modifies this`sockets
      ensures sockets == if id in old(sockets) then old(sockets)[id := old(sockets)[id].(closing := true)]
                         else old(sockets)
    {
      if id in sockets {
        sockets := sockets[id := sockets[id].(closing := true)];
      }
    }
  }

  class ConnectionManager {
    const browser: Browser
    const options: Options
    var socket: Option<nat>
    var reconnectTimer: Option<nat>
    var pollingTimer: Option<nat>
    var pingTimer: Option<nat>
    var reconnectAttempt: nat
    var disconnectedAt: int
    var stopped: bool
    var reconnectBlocked: bool
    var state: Mode
    var listening: bool
    ghost var starting: nat
    ghost var begun: bool

    ghost function View(): Conn
      reads this, browser
    {
      Conn(options, socket, reconnectTimer, pollingTimer, pingTimer, reconnectAttempt, disconnectedAt, stopped,
           reconnectBlocked,
           state, listening, starting, begun, browser.timers, browser.sockets, browser.nextId)
    }

    constructor (custom: Custom, browser: Browser)
      requires browser.timers == map[] && browser.sockets == map[] && browser.nextId == 0
      ensures View() == Boot(WithDefaults(custom)) && this.browser == browser
    {
      this.options, this.browser := WithDefaults(custom), browser;
      socket, reconnectTimer, pollingTimer, pingTimer := None, None, None, None;
      reconnectAttempt, disconnectedAt, stopped, reconnectBlocked, state := 0, 0, true, false, Disconnected;
      listening, starting, begun := false, 0, false;
    }

    method ClearReconnectTimer()
      modifies this`reconnectTimer, browser`timers
      ensures View() == old(View()).ClearReconnect()
    {
      if reconnectTimer.Some? {
        browser.ClearTimer(reconnectTimer.value);
        reconnectTimer := None;
      }
    }

    method StopPolling()
      modifies this`pollingTimer, browser`timers
      ensures View() == old(View()).StopPolling()
    {
      if pollingTimer.Some? {
        browser.ClearTimer(pollingTimer.value);
        pollingTimer := None;
      }
    }

    method StopPing()
      modifies this`pingTimer, browser`timers
      ensures View() == old(View()).StopPing()
    {
      if pingTimer.Some? {
        browser.ClearTimer(pingTimer.value);
        pingTimer := None;
      }
    }

    method CloseSocket()
      modifies this`socket, browser`sockets
      ensures View() == old(View()).CloseSocket()
    {
      if socket.None? {
        return;
      }
      browser.CloseSilently(socket.value);
      socket := None;
    }

    method Transition(mode: Mode)
      modifies this`state
      ensures View() == old(View()).(mode := mode)
    {
      if state == mode {
        return;
      }
      state := mode;
    }

    method StartPing()
      modifies this`pingTimer, browser`timers, browser`nextId
      ensures View() == old(View()).StartPing()
    {
      StopPing();
      var id := browser.SetTimer(PingKind, options.pingInterval);
      pingTimer := Some(id);
    }

    method StartPolling()
      modifies this`state, this`pollingTimer, browser`timers, browser`nextId
      ensures View() == old(View()).StartPolling()
    {
      if stopped {
        return;
      }
      Transition(Polling);
      if pollingTimer.Some? {
        return;
      }
      var id := browser.SetTimer(PollKind, options.pollingInterval);
      pollingTimer := Some(id);
    }

    method ScheduleReconnect()
      modifies this`reconnectTimer, this`reconnectAttempt, browser`timers, browser`nextId
      ensures View() == old(View()).ScheduleReconnect()
    {
      if stopped || reconnectBlocked {
        return;
      }
      var delay := Delay(options.backoff, reconnectAttempt);
      reconnectAttempt := reconnectAttempt + 1;
      var id := browser.SetTimer(ReconnectKind, delay);
      reconnectTimer := Some(id);
    }

    method HandleDisconnected(t0: int, t1: int)
      modifies this, browser
      ensures View() == old(View()).HandleDisconnected(t0, t1)
    {
      StopPing();
      if stopped {
        return;
      }
      if disconnectedAt == 0 {
        disconnectedAt := t0;
      }
      if t1 - disconnectedAt >= options.pollingAfter || reconnectBlocked {
        StartPolling();
      } else {
        Transition(Reconnecting);
      }
      ScheduleReconnect();
    }

    method Connect(env: Env)
      modifies this, browser
      ensures View() == old(View()).Connect(env)
    {
      hide Conn.ClearReconnect, Conn.StopPing, Conn.CloseSocket, Conn.HandleDisconnected, Conn.StartPolling;
      if stopped {
        return;
      }
      begun := true;
      if reconnectBlocked {
        StartPolling();
        return;
      }
      ClearReconnectTimer();
      StopPing();
      CloseSocket();
      if pollingTimer.None? {
        Transition(Reconnecting);
      }
      if env.throws {
        HandleDisconnected(env.t0, env.t1);
        return;
      }
      var id := browser.Open();
      socket := Some(id);
    }

    method HandleOpen()
      modifies this, browser
      ensures View() == old(View()).HandleOpen()
    {
      hide Conn.StopPolling, Conn.StartPing;
      reconnectAttempt := 0;
      disconnectedAt := 0;
      StopPolling();
      Transition(Connected);
      StartPing();
    }

    /** The status refresh that `start` begins calls `Connect` when it settles. */
    method Start()
      modifies this
      ensures View() == old(View()).Start()
    {
      if !stopped {
        return;
      }
      stopped := false;
      listening := true;
      starting := starting + 1;
    }

    method Stop()
      modifies this, browser
      ensures View() == old(View()).Stop()
    {
      hide Conn.ClearReconnect, Conn.StopPolling, Conn.StopPing, Conn.CloseSocket;
      stopped := true;
      listening := false;
      begun := false;
      ClearReconnectTimer();
      StopPolling();
      StopPing();
      CloseSocket();
      Transition(Disconnected);
    }

    method Reconnect(env: Env)
      modifies this, browser
      ensures View() == old(View()).Reconnect(env)
    {
      hide Conn.ClearReconnect, Conn.Connect;
      reconnectBlocked := false;
      reconnectAttempt := 0;
      disconnectedAt := 0;
      ClearReconnectTimer();
      Connect(env);
    }

    method CloseSocketForTest()
      modifies browser`sockets
      ensures View() == old(View()).RequestClose()
    {
      if socket.Some? {
        browser.Close(socket.value);
      }
    }

    method RejectReconnectsForTest()
      modifies this, browser
      ensures View() == old(View()).Reject()
    {
      hide Conn.ClearReconnect, Conn.StartPolling, Conn.RequestClose;
      reconnectBlocked := true;
      ClearReconnectTimer();
      CloseSocketForTest();
      StartPolling();
    }

    method AllowReconnectsForTest(env: Env)
      modifies this, browser
      ensures View() == old(View()).Allow(env)
    {
      reconnectBlocked := false;
      StopPolling();
      Reconnect(env);
    }
  }

  /** Calls of the page and callbacks of the browser. */
  datatype Step =
    | CallStart | CallStop | CallReconnect(env: Env) | CallClose | CallReject | CallAllow(env: Env) | CallPolling
    | Refreshed(env: Env) | Opened(id: nat) | Closed(id: nat, t0: int, t1: int) | Fired(id: nat, env: Env)
  {
    predicate Callback() {
      Refreshed? || Opened? || Closed? || Fired?
    }
  }

  /** A callback that the browser has no cause to make changes nothing. */
  function Next(c: Conn, step: Step): Conn {
    match step
    case CallStart => c.Start()
    case CallStop => c.Stop()
    case CallReconnect(env) => c.Reconnect(env)
    case CallClose => c.RequestClose()
    case CallReject => c.Reject()
    case CallAllow(env) => c.Allow(env)
    case CallPolling => c.StartPolling()
    case Refreshed(env) => if c.starting > 0 then c.(starting := c.starting - 1).Connect(env) else c
    case Opened(id) =>
      if MayOpen(c, id) then c.(sockets := c.sockets[id := c.sockets[id].(everOpen := true)]).HandleOpen() else c
    case Closed(id, t0, t1) =>
      if id !in c.sockets || c.sockets[id].closed then c
      else
        var d := c.(sockets := c.sockets[id := c.sockets[id].(closed := true)]);
        if c.sockets[id].attached then d.HandleDisconnected(t0, t1) else d
    case Fired(id, env) =>
      if id in c.timers && c.timers[id].kind.ReconnectKind? then c.(timers := c.timers - {id}).Connect(env) else c
  }

  /** An open callback already under way is not revoked by `close`. */
  predicate MayOpen(c: Conn, id: nat) {
    id in c.sockets && !c.sockets[id].everOpen && !c.sockets[id].closed
  }

  function Exec(c: Conn, run: seq<Step>): Conn
    decreases |run|
  {
    if run == [] then c else Exec(Next(c, run[0]), run[1..])
  }

  function Holder(c: Conn, kind: Kind): Option<nat> {
    match kind
    case ReconnectKind => c.reconnectTimer
    case PollKind => c.pollingTimer
    case PingKind => c.pingTimer
  }

  /** No timer is lost: each pending one is held by the field of its kind, so it can be cleared. */
  predicate TimersHeld(c: Conn) {
    && (forall id | id in c.timers :: id < c.nextId && Holder(c, c.timers[id].kind) == Some(id))
    && (c.Pending() ==> c.timers[c.reconnectTimer.value].kind.ReconnectKind?)
    && (c.reconnectTimer.Some? ==> c.reconnectTimer.value < c.nextId)
    && (c.pollingTimer.Some? ==> c.pollingTimer.value in c.timers && c.timers[c.pollingTimer.value].kind.PollKind?)
    && (c.pingTimer.Some? ==> c.pingTimer.value in c.timers && c.timers[c.pingTimer.value].kind.PingKind?)
  }

  /** No connection is lost: only the current socket has its close handler, and every other was told to close. */
  predicate SocketsHeld(c: Conn) {
    && (forall id | id in c.sockets :: id < c.nextId)
    && (forall id | id in c.sockets :: c.socket != Some(id) ==> !c.sockets[id].attached && c.sockets[id].closing)
    && (c.socket.Some? ==> c.socket.value in c.sockets && c.sockets[c.socket.value].attached)
  }

  predicate Tidy(c: Conn) {
    TimersHeld(c) && SocketsHeld(c)
  }

  predicate ModeOk(c: Conn) {
    && (c.mode.Connected? ==> c.pingTimer.Some? && c.pollingTimer.None?)
    && (c.mode.Polling? ==> c.pollingTimer.Some?)
    && (c.pingTimer.Some? ==> c.mode.Connected? || c.mode.Polling?)
  }

  /** Something will always drive the manager on: a callback of a live socket, or a pending timer, never both. */
  predicate Driven(c: Conn) {
    && !(c.Live() && c.Pending())
    && (c.begun && !c.stopped && !c.blocked ==> c.Live() || c.Pending())
    && (!c.stopped && !c.begun ==> c.starting > 0)
    && (c.stopped || c.blocked ==> !c.Pending())
    && (c.stopped ==> c.socket.None? && c.pollingTimer.None? && !c.begun)
    && (c.socket.Some? || c.Pending() ==> c.begun)
    && c.listening == !c.stopped
  }

  predicate Inv(c: Conn) {
    Tidy(c) && ModeOk(c) && Driven(c)
  }

  /** Tidiness looks at the timers and sockets alone. */
  lemma Retold(c: Conn, d: Conn)
    requires Tidy(c)
    requires d.timers == c.timers && d.sockets == c.sockets && d.nextId == c.nextId && d.socket == c.socket
    requires d.reconnectTimer == c.reconnectTimer && d.pollingTimer == c.pollingTimer && d.pingTimer == c.pingTimer
    ensures Tidy(d) && (d.Pending() <==> c.Pending())
  {
  }

  lemma ClearReconnectTidy(c: Conn)
    requires Tidy(c)
    ensures var d := c.ClearReconnect(); Tidy(d) && !d.Pending() && d == c.(timers := d.timers, reconnectTimer := None)
  {
  }

  lemma StopPollingTidy(c: Conn)
    requires Tidy(c)
    ensures var d := c.StopPolling();
            Tidy(d) && (d.Pending() <==> c.Pending()) && d == c.(timers := d.timers, pollingTimer := None)
  {
  }

  lemma StopPingTidy(c: Conn)
    requires Tidy(c)
    ensures var d := c.StopPing();
            Tidy(d) && (d.Pending() <==> c.Pending()) && d == c.(timers := d.timers, pingTimer := None)
  {
  }

  lemma CloseSocketTidy(c: Conn)
    requires Tidy(c)
    ensures var d := c.CloseSocket();
            Tidy(d) && (d.Pending() <==> c.Pending()) && d == c.(sockets := d.sockets, socket := None)
  {
  }

  /** Setting a timer whose kind has none pending. */
  lemma SetTimerTidy(c: Conn, t: Timer, d: Conn)
    requires Tidy(c) && forall id | id in c.timers :: c.timers[id].kind != t.kind
    requires d.timers == c.timers[c.nextId := t] && d.nextId == c.nextId + 1 && Holder(d, t.kind) == Some(c.nextId)
    requires forall k | k != t.kind :: Holder(d, k) == Holder(c, k)
    requires d.sockets == c.sockets && d.socket == c.socket
    ensures Tidy(d)
  {
    assert Holder(d, ReconnectKind) == d.reconnectTimer && Holder(d, PollKind) == d.pollingTimer
      && Holder(d, PingKind) == d.pingTimer;
  }

  lemma StartPingTidy(c: Conn)
    requires Tidy(c)
    ensures Tidy(c.StartPing()) && (c.StartPing().Pending() <==> c.Pending())
  {
    StopPingTidy(c);
    SetTimerTidy(c.StopPing(), Timer(PingKind, c.options.pingInterval), c.StartPing());
  }

  lemma StartPollingTidy(c: Conn)
    requires Tidy(c)
    ensures Tidy(c.StartPolling()) && (c.StartPolling().Pending() <==> c.Pending())
  {
    if c.stopped || c.pollingTimer.Some? {
      Retold(c, c.StartPolling());
    } else {
      SetTimerTidy(c, Timer(PollKind, c.options.pollingInterval), c.StartPolling());
    }
  }

  lemma ScheduleTidy(c: Conn)
    requires Tidy(c) && !c.Pending()
    ensures Tidy(c.ScheduleReconnect()) && (c.ScheduleReconnect().Pending() <==> !c.stopped && !c.blocked)
  {
    if !c.stopped && !c.blocked {
      SetTimerTidy(c, Timer(ReconnectKind, Delay(c.options.backoff, c.attempt)), c.ScheduleReconnect());
    }
  }

  lemma AttachTidy(c: Conn)
    requires Tidy(c) && c.socket.None?
    ensures Tidy(c.Attach()) && c.Attach().Live() && (c.Attach().Pending() <==> c.Pending())
  {
  }

  /** A manager without a live socket and without a pending timer falls back to a timer. */
  lemma DisconnectedKeeps(c: Conn, t0: int, t1: int)
    requires Tidy(c) && !c.Pending() && !c.Live() && !c.stopped && c.listening && c.begun
    requires c.mode.Polling? ==> c.pollingTimer.Some?
    ensures Inv(c.HandleDisconnected(t0, t1)) && (c.HandleDisconnected(t0, t1).Pending() <==> !c.blocked)
    ensures c.HandleDisconnected(t0, t1).begun
  {
    hide Tidy;
    StopPingTidy(c);
    var p := c.StopPing();
    var d := if c.disconnectedAt == 0 then p.(disconnectedAt := t0) else p;
    assert Tidy(d) && !d.Pending() by {
      Retold(p, d);
    }
    StartPollingTidy(d);
    var e := if t1 - d.disconnectedAt >= c.options.pollingAfter || c.blocked then d.StartPolling()
             else d.(mode := Reconnecting);
    Retold(d, d.(mode := Reconnecting));
    ScheduleTidy(e);
  }

  lemma ResetTidy(c: Conn)
    requires Tidy(c)
    ensures var d := c.Reset();
            && Tidy(d) && !d.Pending() && d.socket.None? && d.pingTimer.None? && d.begun
            && d.pollingTimer == c.pollingTimer
            && d.mode == (if c.pollingTimer.None? then Reconnecting else c.mode)
            && d.stopped == c.stopped && d.listening == c.listening && d.blocked == c.blocked && d.options == c.options
            && d.attempt == c.attempt && d.disconnectedAt == c.disconnectedAt && d.nextId == c.nextId
  {
    hide Tidy, Conn.Pending, Conn.ClearReconnect, Conn.StopPing, Conn.CloseSocket;
    var b := c.(begun := true);
    Retold(c, b);
    ClearReconnectTidy(b);
    StopPingTidy(b.ClearReconnect());
    CloseSocketTidy(b.ClearReconnect().StopPing());
    Retold(b.ClearReconnect().StopPing().CloseSocket(), c.Reset());
  }

  /** A connection attempt leaves exactly one driver behind: a live socket, or a timer if the constructor fails. */
  lemma ConnectKeeps(c: Conn, env: Env)
    requires Tidy(c) && !c.stopped && !c.blocked && c.listening
    requires c.pollingTimer.Some? ==> !c.mode.Connected?
    ensures Inv(c.Connect(env)) && c.Connect(env).begun
    ensures if env.throws then c.Connect(env).Pending() else c.Connect(env).Live()
    ensures !env.throws ==> c.Connect(env).socket == Some(c.nextId) && !c.Connect(env).sockets[c.nextId].everOpen
  {
    hide Tidy, Delay, Conn.Reset;
    ResetTidy(c);
    if env.throws {
      DisconnectedKeeps(c.Reset(), env.t0, env.t1);
    } else {
      AttachTidy(c.Reset());
    }
  }

  lemma BlockedConnectKeeps(c: Conn, env: Env)
    requires Tidy(c) && ModeOk(c) && !c.stopped && c.blocked && c.listening && !c.Pending()
    ensures Inv(c.Connect(env)) && c.Connect(env).mode.Polling?
  {
    hide Tidy, Delay;
    Retold(c, c.(begun := true));
    StartPollingTidy(c.(begun := true));
  }

  lemma OpenKeeps(c: Conn)
    requires Inv(c)
    ensures Inv(c.HandleOpen()) && c.HandleOpen().mode.Connected?
  {
    hide Tidy, Delay;
    var r := c.(attempt := 0, disconnectedAt := 0);
    Retold(c, r);
    StopPollingTidy(r);
    var p := r.StopPolling();
    Retold(p, p.(mode := Connected));
    StartPingTidy(p.(mode := Connected));
  }

  lemma StopKeeps(c: Conn)
    requires Inv(c)
    ensures Inv(c.Stop()) && c.Stop().stopped && c.Stop().timers == map[]
  {
    hide Tidy, Conn.ClearReconnect, Conn.StopPing, Conn.StopPolling, Conn.CloseSocket;
    var s := c.(stopped := true, listening := false, begun := false);
    Retold(c, s);
    ClearReconnectTidy(s);
    StopPollingTidy(s.ClearReconnect());
    StopPingTidy(s.ClearReconnect().StopPolling());
    var p := s.ClearReconnect().StopPolling().StopPing();
    NoTimers(p);
    CloseSocketTidy(p);
    Retold(p.CloseSocket(), c.Stop());
  }

  lemma NoTimers(c: Conn)
    requires Tidy(c) && c.reconnectTimer.None? && c.pollingTimer.None? && c.pingTimer.None?
    ensures c.timers == map[]
  {
    assert forall id | id in c.timers :: Holder(c, c.timers[id].kind) == Some(id);
  }

  lemma ReconnectKeeps(c: Conn, env: Env)
    requires Tidy(c) && (c.stopped ==> Inv(c)) && c.listening == !c.stopped
    requires (c.pollingTimer.Some? ==> !c.mode.Connected?)
    ensures Inv(c.Reconnect(env)) && (!c.stopped ==> c.Reconnect(env).begun)
  {
    hide Tidy, Delay;
    var r := c.(blocked := false, attempt := 0, disconnectedAt := 0);
    Retold(c, r);
    ClearReconnectTidy(r);
    if !c.stopped {
      ConnectKeeps(r.ClearReconnect(), env);
    }
  }

  lemma RejectKeeps(c: Conn)
    requires Inv(c)
    ensures Inv(c.Reject())
  {
    hide Tidy, Delay;
    var b := c.(blocked := true);
    Retold(c, b);
    ClearReconnectTidy(b);
    var r := b.ClearReconnect().RequestClose();
    assert Tidy(r) && !r.Pending() by {
      TouchedSocket(b.ClearReconnect(), r);
    }
    StartPollingTidy(r);
  }

  /** Marking a socket as opened, closing or closed. */
  lemma TouchedSocket(c: Conn, d: Conn)
    requires Tidy(c) && d == c.(sockets := d.sockets) && d.sockets.Keys == c.sockets.Keys
    requires forall id | id in c.sockets :: d.sockets[id].attached == c.sockets[id].attached
    requires forall id | id in c.sockets :: c.sockets[id].closing ==> d.sockets[id].closing
    ensures Tidy(d) && (d.Pending() <==> c.Pending())
  {
  }

  lemma CloseCallKeeps(c: Conn)
    requires Inv(c)
    ensures Inv(c.RequestClose())
  {
    hide Tidy;
    TouchedSocket(c, c.RequestClose());
  }

  lemma ClosedKeeps(c: Conn, id: nat, t0: int, t1: int)
    requires Inv(c)
    ensures Inv(Next(c, Closed(id, t0, t1)))
  {
    hide Tidy, Delay, Conn.HandleDisconnected;
    if id in c.sockets && !c.sockets[id].closed {
      var d := c.(sockets := c.sockets[id := c.sockets[id].(closed := true)]);
      TouchedSocket(c, d);
      if c.sockets[id].attached {
        Attached(c, id);
        DisconnectedKeeps(d, t0, t1);
      }
    }
  }

  lemma Attached(c: Conn, id: nat)
    requires Inv(c) && id in c.sockets && c.sockets[id].attached
    ensures c.socket == Some(id) && !c.stopped && (!c.sockets[id].closed ==> c.Live() && !c.Pending())
  {
  }

  lemma OpenedKeeps(c: Conn, id: nat)
    requires Inv(c)
    ensures Inv(Next(c, Opened(id)))
  {
    hide Tidy, Delay, Conn.HandleOpen;
    if MayOpen(c, id) {
      var d := c.(sockets := c.sockets[id := c.sockets[id].(everOpen := true)]);
      TouchedSocket(c, d);
      OpenKeeps(d);
    }
  }

  lemma FiredKeeps(c: Conn, id: nat, env: Env)
    requires Inv(c)
    ensures Inv(Next(c, Fired(id, env)))
  {
    if id in c.timers && c.timers[id].kind.ReconnectKind? {
      var d := c.(timers := c.timers - {id});
      assert Tidy(d);
      ConnectKeeps(d, env);
    }
  }

  lemma StartKeeps(c: Conn)
    requires Inv(c)
    ensures Inv(c.Start())
  {
    hide Tidy;
    Retold(c, c.Start());
  }

  lemma PollingKeeps(c: Conn)
    requires Inv(c)
    ensures Inv(c.StartPolling())
  {
    hide Tidy;
    StartPollingTidy(c);
  }

  lemma ReconnectCallKeeps(c: Conn, env: Env)
    requires Inv(c)
    ensures Inv(c.Reconnect(env))
  {
    hide Tidy, Conn.Reconnect;
    ReconnectKeeps(c, env);
  }

  lemma AllowKeeps(c: Conn, env: Env)
    requires Inv(c)
    ensures Inv(c.Allow(env)) && (!c.stopped ==> c.Allow(env).begun)
  {
    hide Tidy, Conn.Reconnect;
    var b := c.(blocked := false);
    Retold(c, b);
    StopPollingTidy(b);
    ReconnectKeeps(b.StopPolling(), env);
  }

  lemma RefreshedKeeps(c: Conn, env: Env)
    requires Inv(c)
    ensures Inv(Next(c, Refreshed(env)))
  {
    hide Tidy;
    if c.starting > 0 {
      var d := c.(starting := c.starting - 1);
      Retold(c, d);
      if c.stopped {
        assert d.Connect(env) == d;
      } else if c.blocked {
        BlockedConnectKeeps(d, env);
      } else {
        ConnectKeeps(d, env);
      }
    }
  }

  lemma NextKeeps(c: Conn, step: Step)
    requires Inv(c)
    ensures Inv(Next(c, step))
  {
    hide Inv;
    match step
    case CallStart => StartKeeps(c);
    case CallStop => StopKeeps(c);
    case CallReconnect(env) => ReconnectCallKeeps(c, env);
    case CallClose => CloseCallKeeps(c);
    case CallReject => RejectKeeps(c);
    case CallAllow(env) => AllowKeeps(c, env);
    case CallPolling => PollingKeeps(c);
    case Refreshed(env) => RefreshedKeeps(c, env);
    case Opened(id) => OpenedKeeps(c, id);
    case Closed(id, t0, t1) => ClosedKeeps(c, id, t0, t1);
    case Fired(id, env) => FiredKeeps(c, id, env);
  }

  lemma {:induction false} ExecKeeps(c: Conn, run: seq<Step>)
    requires Inv(c)
    ensures Inv(Exec(c, run))
    decreases |run|
  {
    hide Inv, Next;
    if run != [] {
      NextKeeps(c, run[0]);
      ExecKeeps(Next(c, run[0]), run[1..]);
    }
  }

  /** Whatever the page calls and whenever callbacks arrive, a started manager that has attempted a connection and is
      not blocked has a live socket or a pending reconnect, and not both; its mode tells which timers run; no timer is
      doubled; and every connection but the current one has been told to close. */
  lemma NeverStuck(options: Options, run: seq<Step>)
    ensures var c := Exec(Boot(options), run);
            && (!c.stopped && !c.blocked && c.begun ==> c.Live() != c.Pending())
            && (!c.stopped && !c.begun ==> c.starting > 0)
            && (c.mode.Connected? ==> exists id :: id in c.timers && c.timers[id].kind.PingKind?)
            && (c.mode.Connected? ==> NoneOf(c, PollKind))
            && (c.mode.Polling? ==> exists id :: id in c.timers && c.timers[id].kind.PollKind?)
            && (forall i, j | i in c.timers && j in c.timers && c.timers[i].kind == c.timers[j].kind :: i == j)
            && (forall id | id in c.sockets && c.socket != Some(id) :: c.sockets[id].closing && !c.sockets[id].attached)
  {
    assert Inv(Boot(options));
    ExecKeeps(Boot(options), run);
    var c := Exec(Boot(options), run);
    assert c.mode.Connected? ==> c.timers[c.pingTimer.value].kind.PingKind?;
    assert c.mode.Polling? ==> c.timers[c.pollingTimer.value].kind.PollKind?;
  }

  predicate NoneOf(c: Conn, kind: Kind) {
    forall id | id in c.timers :: c.timers[id].kind != kind
  }

  predicate Callbacks(run: seq<Step>) {
    forall i | 0 <= i < |run| :: run[i].Callback()
  }

  const SUCCESS := Env(false, 0, 0)

  lemma Unrolled(c: Conn, x: Step, y: Step, z: Step)
    ensures Exec(c, [x]) == Next(c, x)
    ensures Exec(c, [x, y]) == Next(Next(c, x), y)
    ensures Exec(c, [x, y, z]) == Next(Next(Next(c, x), y), z)
  {
    hide Next;
    assert [x, y, z][1..] == [y, z] && [x, y][1..] == [y] && [y, z][1..] == [z];
    assert forall d, s :: Exec(d, [s]) == Exec(Next(d, s), []);
    assert Exec(c, [x, y]) == Exec(Next(c, x), [y]);
    assert Exec(c, [x, y, z]) == Exec(Next(c, x), [y, z]) == Exec(Next(Next(c, x), y), [z]);
  }

  lemma Opens(c: Conn)
    requires Inv(c) && c.Live() && !c.sockets[c.socket.value].everOpen
    ensures var d := Next(c, Opened(c.socket.value)); d.mode.Connected? && d.Live()
  {
  }

  lemma Fires(c: Conn)
    requires Inv(c) && !c.stopped && !c.blocked && c.Pending()
    ensures var d := Next(c, Fired(c.reconnectTimer.value, SUCCESS));
            Inv(d) && d.Live() && d.socket == Some(c.nextId) && !d.sockets[c.nextId].everOpen
  {
    hide Tidy, Delay;
    var d := c.(timers := c.timers - {c.reconnectTimer.value});
    FiredTidy(c);
    ConnectKeeps(d, SUCCESS);
  }

  lemma FiredTidy(c: Conn)
    requires Tidy(c) && c.Pending()
    ensures Tidy(c.(timers := c.timers - {c.reconnectTimer.value}))
    ensures c.timers[c.reconnectTimer.value].kind.ReconnectKind?
  {
  }

  /** From every such state the callbacks alone can bring the connection back. */
  lemma CanConnect(c: Conn) returns (run: seq<Step>)
    requires Inv(c) && !c.stopped && !c.blocked
    ensures Callbacks(run) && |run| <= 3 && Exec(c, run).mode.Connected? && Exec(c, run).Live()
  {
    hide Tidy, Delay, Next;
    if !c.begun {
      Refreshes(c);
      Opens(Next(c, Refreshed(SUCCESS)));
      run := [Refreshed(SUCCESS), Opened(c.nextId)];
      Unrolled(c, run[0], run[1], run[0]);
    } else if c.Pending() {
      Fires(c);
      Opens(Next(c, Fired(c.reconnectTimer.value, SUCCESS)));
      run := [Fired(c.reconnectTimer.value, SUCCESS), Opened(c.nextId)];
      Unrolled(c, run[0], run[1], run[0]);
    } else if !c.sockets[c.socket.value].everOpen {
      Opens(c);
      run := [Opened(c.socket.value)];
      Unrolled(c, run[0], run[0], run[0]);
    } else {
      var d := Next(c, Closed(c.socket.value, 0, 0));
      FallsBack(c);
      Fires(d);
      Opens(Next(d, Fired(d.reconnectTimer.value, SUCCESS)));
      run := [Closed(c.socket.value, 0, 0), Fired(d.reconnectTimer.value, SUCCESS), Opened(d.nextId)];
      Unrolled(c, run[0], run[1], run[2]);
    }
  }

  lemma Refreshes(c: Conn)
    requires Inv(c) && !c.stopped && !c.blocked && c.starting > 0
    ensures var d := Next(c, Refreshed(SUCCESS));
            Inv(d) && d.Live() && d.socket == Some(c.nextId) && !d.sockets[c.nextId].everOpen
  {
    hide Tidy, Delay;
    var d := c.(starting := c.starting - 1);
    Retold(c, d);
    ConnectKeeps(d, SUCCESS);
  }

  lemma FallsBack(c: Conn)
    requires Inv(c) && !c.stopped && !c.blocked && c.Live()
    ensures var d := Next(c, Closed(c.socket.value, 0, 0)); Inv(d) && !d.stopped && !d.blocked && d.Pending()
  {
    hide Tidy, Delay;
    ClosedKeeps(c, c.socket.value, 0, 0);
    assert c.sockets[c.socket.value].attached;
    var d := c.(sockets := c.sockets[c.socket.value := c.sockets[c.socket.value].(closed := true)]);
    TouchedSocket(c, d);
    DisconnectedKeeps(d, 0, 0);
  }

  /** A stop is final exactly when no socket made so far is still opening: the open handler outlives `close`, does not
      ask whether the manager was stopped, and starts a ping timer that nothing then clears. */
  lemma StopIsFinal(c: Conn)
    requires Inv(c)
    ensures (forall late | Callbacks(late) :: Quiet(Exec(c.Stop(), late))) <==> (forall id :: !MayOpen(c, id))
  {
    hide Inv, Next, Conn.Stop;
    StopSockets(c);
    if id :| MayOpen(c, id) {
      assert Callbacks([Opened(id)]);
      Unrolled(c.Stop(), Opened(id), Opened(id), Opened(id));
      LateOpen(c.Stop(), id);
    } else {
      forall late | Callbacks(late)
        ensures Quiet(Exec(c.Stop(), late))
      {
        StaysQuiet(c.Stop(), late);
      }
    }
  }

  /** A stop right after the first connection attempt finds a socket still opening. */
  lemma StillOpening(options: Options)
    ensures MayOpen(Exec(Boot(options), [CallStart, Refreshed(SUCCESS)]), 0)
  {
    Unrolled(Boot(options), CallStart, Refreshed(SUCCESS), CallStart);
  }

  lemma StopSockets(c: Conn)
    requires Inv(c)
    ensures Unheld(c.Stop()) && forall id :: MayOpen(c.Stop(), id) == MayOpen(c, id)
  {
    hide Conn.ClearReconnect, Conn.StopPolling, Conn.StopPing;
    StopKeeps(c);
    assert c.Stop().sockets == c.CloseSocket().sockets by {
      var s := c.(stopped := true, listening := false, begun := false);
      ClearReconnectTidy(s);
      StopPollingTidy(s.ClearReconnect());
      StopPingTidy(s.ClearReconnect().StopPolling());
    }
  }

  lemma LateOpen(c: Conn, id: nat)
    requires MayOpen(c, id)
    ensures Next(c, Opened(id)).mode.Connected?
  {
  }

  predicate Quiet(c: Conn) {
    c.timers == map[] && c.socket.None? && !c.listening && c.mode.Disconnected?
  }

  predicate Unheld(c: Conn) {
    c.stopped && Quiet(c) && c.pingTimer.None? && c.pollingTimer.None?
    && forall id | id in c.sockets :: !c.sockets[id].attached
  }

  lemma {:induction false} StaysQuiet(c: Conn, late: seq<Step>)
    requires Unheld(c) && Callbacks(late) && forall id :: !MayOpen(c, id)
    ensures Quiet(Exec(c, late))
    decreases |late|
  {
    hide Next;
    if late != [] {
      assert late[0].Callback();
      QuietNext(c, late[0]);
      StaysQuiet(Next(c, late[0]), late[1..]);
    }
  }

  lemma QuietNext(c: Conn, step: Step)
    requires Unheld(c) && step.Callback() && forall id :: !MayOpen(c, id)
    ensures Unheld(Next(c, step)) && forall id :: !MayOpen(Next(c, step), id)
  {
    match step
    case Refreshed(env) =>
      forall id ensures !MayOpen(Next(c, step), id) { assert !MayOpen(c, id); }
    case Opened(id) =>
    case Closed(id, t0, t1) =>
      forall i ensures !MayOpen(Next(c, step), i) { assert !MayOpen(c, i); }
    case Fired(id, env) =>
  }

  /** Whatever comes after a stop, late open callbacks included, no reconnect and no polling is pending
     and no socket held. */
  lemma NoReconnectAfterStop(options: Options, run: seq<Step>)
    ensures var c := Exec(Boot(options), run);
            c.stopped ==> NoneOf(c, ReconnectKind) && NoneOf(c, PollKind) && c.socket.None? &&
                          forall id | id in c.sockets :: !c.sockets[id].attached && c.sockets[id].closing
  {
    ExecKeeps(Boot(options), run);
  }

  /** How an attempt to reconnect fails: the socket constructor throws, or the socket closes before it opens. */
  datatype Failure = Throws(t0: int, t1: int) | Closes(t0: int, t1: int)

  function Failed(c: Conn, f: Failure): Conn
    requires c.Pending()
  {
    match f
    case Throws(t0, t1) => Next(c, Fired(c.reconnectTimer.value, Env(true, t0, t1)))
    case Closes(t0, t1) =>
      var d := Next(c, Fired(c.reconnectTimer.value, SUCCESS));
      if d.socket.Some? then Next(d, Closed(d.socket.value, t0, t1)) else d
  }

  /** A run of failing attempts after a connection was lost at clock time `c.disconnectedAt`. */
  function Outage(c: Conn, fails: seq<Failure>): Conn
    requires |fails| > 0 ==> c.Pending()
    decreases |fails|
  {
    if fails == [] then c
    else
      var d := Failed(c, fails[0]);
      if d.Pending() then Outage(d, fails[1..]) else d
  }

  /** The loss is dated by the first clock reading after it. */
  function Dated(at: int, fails: seq<Failure>): int
    decreases |fails|
  {
    if fails == [] then at else Dated(if at == 0 then fails[0].t0 else at, fails[1..])
  }

  /** What failed attempts leave after a loss dated `lost`: the next attempt scheduled with the next delay, and polling
      exactly when the last failure came `pollingAfter` after the loss. */
  predicate BackedOff(c: Conn, d: Conn, attempts: nat, lost: int, t1: int) {
    && d.disconnectedAt == lost && d.attempt == c.attempt + attempts && d.options == c.options
    && d.Pending() && attempts > 0
    && d.timers[d.reconnectTimer.value] == Timer(ReconnectKind, Delay(c.options.backoff, d.attempt - 1))
    && (d.mode.Polling? <==> t1 - lost >= c.options.pollingAfter)
  }

  lemma FailedBacksOff(c: Conn, f: Failure)
    requires Inv(c) && c.Pending()
    ensures Inv(Failed(c, f))
    ensures BackedOff(c, Failed(c, f), 1, if c.disconnectedAt == 0 then f.t0 else c.disconnectedAt, f.t1)
  {
    hide Tidy, Delay;
    FiredTidy(c);
    var e := c.(timers := c.timers - {c.reconnectTimer.value});
    match f
    case Throws(t0, t1) =>
      ConnectKeeps(e, Env(true, t0, t1));
      OneFailure(e, Env(true, t0, t1));
    case Closes(t0, t1) =>
      ConnectKeeps(e, SUCCESS);
      OneSocket(e);
      CloseBacksOff(e.Connect(SUCCESS), t0, t1);
  }

  lemma OneSocket(c: Conn)
    requires Tidy(c) && !c.stopped && !c.blocked
    ensures var d := c.Connect(SUCCESS);
            && d.disconnectedAt == c.disconnectedAt && d.attempt == c.attempt && d.options == c.options
            && d.stopped == c.stopped && d.blocked == c.blocked
  {
    hide Tidy, Conn.Reset;
    ResetTidy(c);
  }

  lemma CloseBacksOff(c: Conn, t0: int, t1: int)
    requires Inv(c) && c.Live() && !c.stopped && !c.blocked
    ensures var d := Next(c, Closed(c.socket.value, t0, t1));
            Inv(d) && BackedOff(c, d, 1, if c.disconnectedAt == 0 then t0 else c.disconnectedAt, t1)
  {
    hide Tidy, Delay, Conn.HandleDisconnected;
    ClosedKeeps(c, c.socket.value, t0, t1);
    Reschedules(c.(sockets := c.sockets[c.socket.value := c.sockets[c.socket.value].(closed := true)]), t0, t1);
  }

  /** During an outage, however the attempts fail, every failure schedules the next attempt with the next delay of the
      list, and the page polls exactly when the last failure came `pollingAfter` after the loss. */
  lemma {:induction false} OutageBacksOff(c: Conn, fails: seq<Failure>)
    requires Inv(c) && c.Pending() && fails != []
    ensures Inv(Outage(c, fails))
    ensures BackedOff(c, Outage(c, fails), |fails|, Dated(c.disconnectedAt, fails), fails[|fails| - 1].t1)
    decreases |fails|
  {
    hide Inv, Delay, Failed;
    FailedBacksOff(c, fails[0]);
    var d := Failed(c, fails[0]);
    if |fails| == 1 {
      assert Outage(c, fails) == Outage(d, []);
    } else {
      OutageBacksOff(d, fails[1..]);
    }
  }

  lemma OneFailure(c: Conn, f: Env)
    requires Tidy(c) && !c.stopped && !c.blocked && f.throws
    ensures BackedOff(c, c.Connect(f), 1, if c.disconnectedAt == 0 then f.t0 else c.disconnectedAt, f.t1)
  {
    hide Tidy, Delay, Conn.Reset;
    ResetTidy(c);
    Reschedules(c.Reset(), f.t0, f.t1);
  }

  lemma Reschedules(c: Conn, t0: int, t1: int)
    requires !c.stopped && !c.blocked
    ensures BackedOff(c, c.HandleDisconnected(t0, t1), 1, if c.disconnectedAt == 0 then t0 else c.disconnectedAt, t1)
  {
    hide Delay, Conn.StopPing, Conn.StartPolling, Conn.ScheduleReconnect;
    var p := c.StopPing();
    PingFrame(c);
    var d := if c.disconnectedAt == 0 then p.(disconnectedAt := t0) else p;
    PollFrame(d);
    Schedules(d.StartPolling());
    Schedules(d.(mode := Reconnecting));
  }

  lemma PingFrame(c: Conn)
    ensures c.StopPing() == c.(timers := c.StopPing().timers, pingTimer := None)
  {
  }

  lemma PollFrame(c: Conn)
    requires !c.stopped
    ensures var d := c.StartPolling();
            d == c.(mode := Polling, pollingTimer := d.pollingTimer, timers := d.timers, nextId := d.nextId)
  {
  }

  lemma Schedules(c: Conn)
    requires !c.stopped && !c.blocked
    ensures var d := c.ScheduleReconnect();
            && d.disconnectedAt == c.disconnectedAt && d.attempt == c.attempt + 1 && d.options == c.options
            && d.mode == c.mode
            && d.Pending()
            && d.timers[d.reconnectTimer.value] == Timer(ReconnectKind, Delay(c.options.backoff, c.attempt))
  {
  }

  // ---- which timer runs how long ----

  predicate ProperTimer(o: Options, t: Timer) {
    match t.kind
    case PollKind => t.delay == o.pollingInterval
    case PingKind => t.delay == o.pingInterval
    case ReconnectKind => if |o.backoff| == 0 then t.delay == 0 else t.delay in o.backoff
  }

  predicate Timed(c: Conn) {
    forall id | id in c.timers :: ProperTimer(c.options, c.timers[id])
  }

  lemma DelayFromList(backoff: seq<nat>, attempt: nat)
    ensures if |backoff| == 0 then Delay(backoff, attempt) == 0 else Delay(backoff, attempt) in backoff
  {
  }

  /** From c to d no timer was set but properly. */
  predicate Sets(c: Conn, d: Conn) {
    d.options == c.options && (Timed(c) ==> Timed(d))
  }

  lemma FewerTimers(c: Conn, d: Conn)
    requires d.options == c.options && forall id | id in d.timers :: id in c.timers && d.timers[id] == c.timers[id]
    ensures Sets(c, d)
  {
  }

  lemma OneTimer(c: Conn, d: Conn, id: nat, t: Timer)
    requires d.options == c.options && d.timers == c.timers[id := t] && ProperTimer(c.options, t)
    ensures Sets(c, d)
  {
  }

  lemma StartPollingSets(c: Conn)
    ensures Sets(c, c.StartPolling())
  {
    hide Sets;
    if c.stopped || c.pollingTimer.Some? {
      FewerTimers(c, c.StartPolling());
    } else {
      OneTimer(c, c.StartPolling(), c.nextId, Timer(PollKind, c.options.pollingInterval));
    }
  }

  lemma ScheduleSets(c: Conn)
    ensures Sets(c, c.ScheduleReconnect())
  {
    hide Sets, Delay;
    if c.stopped || c.blocked {
      FewerTimers(c, c.ScheduleReconnect());
    } else {
      DelayFromList(c.options.backoff, c.attempt);
      OneTimer(c, c.ScheduleReconnect(), c.nextId, Timer(ReconnectKind, Delay(c.options.backoff, c.attempt)));
    }
  }

  lemma StartPingSets(c: Conn)
    ensures Sets(c, c.StartPing())
  {
    hide Timed;
    FewerTimers(c, c.StopPing());
    OneTimer(c.StopPing(), c.StartPing(), c.nextId, Timer(PingKind, c.options.pingInterval));
  }

  lemma DisconnectedSets(c: Conn, t0: int, t1: int)
    ensures Sets(c, c.HandleDisconnected(t0, t1))
  {
    hide Timed, Conn.StartPolling, Conn.ScheduleReconnect;
    FewerTimers(c, c.StopPing());
    var p := c.StopPing();
    var d := if c.disconnectedAt == 0 then p.(disconnectedAt := t0) else p;
    FewerTimers(p, d);
    StartPollingSets(d);
    FewerTimers(d, d.(mode := Reconnecting));
    ScheduleSets(d.StartPolling());
    ScheduleSets(d.(mode := Reconnecting));
  }

  lemma ResetSets(c: Conn)
    ensures Sets(c, c.Reset())
  {
    hide Timed, Conn.ClearReconnect, Conn.StopPing, Conn.CloseSocket;
    var b := c.(begun := true);
    ClearsTimers(b);
    ClearsTimers(b.ClearReconnect());
    ClearsTimers(b.ClearReconnect().StopPing());
    FewerTimers(c, b);
    FewerTimers(b.ClearReconnect().StopPing().CloseSocket(), c.Reset());
  }

  lemma ClearsTimers(c: Conn)
    ensures Sets(c, c.ClearReconnect()) && Sets(c, c.StopPing()) && Sets(c, c.StopPolling()) && Sets(c, c.CloseSocket())
  {
    hide Sets;
    FewerTimers(c, c.ClearReconnect());
    FewerTimers(c, c.StopPing());
    FewerTimers(c, c.StopPolling());
    FewerTimers(c, c.CloseSocket());
  }

  lemma ConnectSets(c: Conn, env: Env)
    ensures Sets(c, c.Connect(env))
  {
    hide Timed, Conn.HandleDisconnected, Conn.StartPolling, Conn.Reset;
    FewerTimers(c, c.(begun := true));
    StartPollingSets(c.(begun := true));
    ResetSets(c);
    DisconnectedSets(c.Reset(), env.t0, env.t1);
    FewerTimers(c.Reset(), c.Reset().Attach());
  }

  lemma ReconnectSets(c: Conn, env: Env)
    ensures Sets(c, c.Reconnect(env))
  {
    hide Timed, Conn.Connect, Conn.ClearReconnect;
    var r := c.(blocked := false, attempt := 0, disconnectedAt := 0);
    FewerTimers(c, r);
    ClearsTimers(r);
    ConnectSets(r.ClearReconnect(), env);
  }

  lemma AllowSets(c: Conn, env: Env)
    ensures Sets(c, c.Allow(env))
  {
    hide Timed, Conn.Reconnect, Conn.StopPolling;
    FewerTimers(c, c.(blocked := false));
    ClearsTimers(c.(blocked := false));
    ReconnectSets(c.(blocked := false).StopPolling(), env);
  }

  lemma RejectSets(c: Conn)
    ensures Sets(c, c.Reject())
  {
    hide Timed, Conn.StartPolling, Conn.ClearReconnect;
    var b := c.(blocked := true);
    FewerTimers(c, b);
    ClearsTimers(b);
    FewerTimers(b.ClearReconnect(), b.ClearReconnect().RequestClose());
    StartPollingSets(b.ClearReconnect().RequestClose());
  }

  lemma StopSets(c: Conn)
    ensures Sets(c, c.Stop())
  {
    hide Timed, Conn.ClearReconnect, Conn.StopPing, Conn.StopPolling, Conn.CloseSocket;
    var b := c.(stopped := true, listening := false, begun := false);
    FewerTimers(c, b);
    ClearsTimers(b);
    ClearsTimers(b.ClearReconnect());
    ClearsTimers(b.ClearReconnect().StopPolling());
    ClearsTimers(b.ClearReconnect().StopPolling().StopPing());
    FewerTimers(b.ClearReconnect().StopPolling().StopPing().CloseSocket(), c.Stop());
  }

  lemma OpenSets(c: Conn)
    ensures Sets(c, c.HandleOpen())
  {
    hide Timed, Conn.StopPolling, Conn.StartPing;
    var r := c.(attempt := 0, disconnectedAt := 0);
    FewerTimers(c, r);
    ClearsTimers(r);
    FewerTimers(r.StopPolling(), r.StopPolling().(mode := Connected));
    StartPingSets(r.StopPolling().(mode := Connected));
  }

  lemma NextSets(c: Conn, step: Step)
    ensures Sets(c, Next(c, step))
  {
    hide Timed, Conn.Connect, Conn.HandleDisconnected, Conn.HandleOpen, Conn.Reconnect, Conn.Allow, Conn.Reject,
         Conn.Stop, Conn.StartPolling;
    match step
    case CallStart => FewerTimers(c, c.Start());
    case CallStop => StopSets(c);
    case CallReconnect(env) => ReconnectSets(c, env);
    case CallClose => FewerTimers(c, c.RequestClose());
    case CallReject => RejectSets(c);
    case CallAllow(env) => AllowSets(c, env);
    case CallPolling => StartPollingSets(c);
    case Refreshed(env) =>
      if c.starting > 0 {
        FewerTimers(c, c.(starting := c.starting - 1));
        ConnectSets(c.(starting := c.starting - 1), env);
      }
    case Opened(id) =>
      if MayOpen(c, id) {
        var d := c.(sockets := c.sockets[id := c.sockets[id].(everOpen := true)]);
        FewerTimers(c, d);
        OpenSets(d);
      }
    case Closed(id, t0, t1) =>
      if id in c.sockets {
        var d := c.(sockets := c.sockets[id := c.sockets[id].(closed := true)]);
        FewerTimers(c, d);
        DisconnectedSets(d, t0, t1);
      }
    case Fired(id, env) =>
      FewerTimers(c, c.(timers := c.timers - {id}));
      ConnectSets(c.(timers := c.timers - {id}), env);
  }

  lemma {:induction false} ExecSets(c: Conn, run: seq<Step>)
    ensures Sets(c, Exec(c, run))
    decreases |run|
  {
    hide Timed, Next;
    if run != [] {
      NextSets(c, run[0]);
      ExecSets(Next(c, run[0]), run[1..]);
    }
  }

  /** Over every run each pending timer runs for what its kind is set to: the polling interval, the ping interval, or
      one of the listed delays. With the defaults these are 2 seconds, 25 seconds, and 1, 2, 5 or 10 seconds. */
  lemma TimersRunAsSet(options: Options, run: seq<Step>)
    ensures var c := Exec(Boot(options), run); forall id | id in c.timers :: ProperTimer(options, c.timers[id])
    ensures var o := WithDefaults(Custom(None, None, None, None));
            && o.pollingInterval == 2000 && o.pingInterval == 25000 && o.pollingAfter == 15000
            && Delay(o.backoff, 0) == 1000 && Delay(o.backoff, 1) == 2000 && Delay(o.backoff, 2) == 5000
            && (forall k | k >= 3 :: Delay(o.backoff, k) == 10000)
  {
    hide Next;
    ExecSets(Boot(options), run);
  }

  // ---- what the calls do ----

  /** A connection that opens forgets the outage: if it is lost again, the list of delays starts afresh, and the loss is
      dated by the next clock reading. */
  lemma OpenForgets(c: Conn, id: nat, t0: int, t1: int)
    requires Inv(c) && MayOpen(c, id)
    ensures var d := Next(c, Opened(id));
            && d.attempt == 0 && d.disconnectedAt == 0 && d.mode.Connected?
            && (d.Live() && !d.blocked && !d.stopped ==>
                 var e := Next(d, Closed(d.socket.value, t0, t1));
                 && e.Pending() && e.attempt == 1 && e.disconnectedAt == t0
                 && e.timers[e.reconnectTimer.value] == Timer(ReconnectKind, Delay(c.options.backoff, 0)))
  {
    hide Tidy, Delay;
    var d := Next(c, Opened(id));
    OpenedKeeps(c, id);
    NextSets(c, Opened(id));
    if d.Live() && !d.blocked && !d.stopped {
      CloseBacksOff(d, t0, t1);
    }
  }

  lemma ReconnectConnects(c: Conn, env: Env)
    requires Tidy(c) && !c.stopped && c.listening && !env.throws && (c.pollingTimer.Some? ==> !c.mode.Connected?)
    ensures var d := c.Reconnect(env);
            && Inv(d) && d.Live() && !d.blocked && d.attempt == 0 && d.disconnectedAt == 0 && d.socket == Some(c.nextId)
            && d.pollingTimer == c.pollingTimer && (c.pollingTimer.None? ==> d.mode == Reconnecting)
  {
    hide Tidy, Delay, Conn.Reset;
    var r := c.(blocked := false, attempt := 0, disconnectedAt := 0);
    Retold(c, r);
    ClearReconnectTidy(r);
    ResetTidy(r.ClearReconnect());
    ConnectKeeps(r.ClearReconnect(), env);
  }

  /** What `allowReconnectsForTest` leaves behind: a new socket, no block and no polling. */
  lemma AllowConnects(c: Conn, env: Env)
    requires Inv(c) && !c.stopped && !env.throws
    ensures var d := c.Allow(env);
            Inv(d) && d.Live() && !d.Pending() && !d.blocked && d.pollingTimer == None && d.mode == Reconnecting
  {
    hide Tidy, Delay, Conn.Reconnect;
    var b := c.(blocked := false);
    Retold(c, b);
    StopPollingTidy(b);
    ReconnectConnects(b.StopPolling(), env);
  }

  /** What `rejectReconnectsForTest` leaves behind: polling, no reconnect, and the socket told to close. */
  lemma RejectPolls(c: Conn)
    requires Inv(c) && !c.stopped
    ensures var d := c.Reject();
            && d.mode == Polling && d.blocked && !d.Pending() && d.socket == c.socket
            && (d.socket.Some? && d.socket.value in d.sockets ==> d.sockets[d.socket.value].closing)
  {
    hide Tidy, Delay, Conn.ClearReconnect;
    RejectKeeps(c);
    Retold(c, c.(blocked := true));
    ClearReconnectTidy(c.(blocked := true));
  }

  /** Starting twice is starting once, and a stopped manager does not poll. */
  lemma StartsOnce(c: Conn)
    ensures c.Start().Start() == c.Start() && !c.Start().stopped
    ensures c.stopped ==> c.Start().starting == c.starting + 1 && c.StartPolling() == c
    ensures c.Stop().stopped && c.Stop().socket == None && c.Stop().mode == Disconnected
  {
    hide Conn.ClearReconnect, Conn.StopPolling, Conn.StopPing;
    ClearFrames(c.(stopped := true, listening := false, begun := false));
  }

  lemma ClearFrames(c: Conn)
    ensures var d := c.ClearReconnect().StopPolling().StopPing(); d.stopped == c.stopped && d.socket == c.socket
  {
  }

  /** A page that polls goes on polling while a new attempt is made; any other shows that it is reconnecting. */
  lemma RetryShows(c: Conn, env: Env)
    requires Inv(c) && c.Pending() && !env.throws
    ensures var d := Next(c, Fired(c.reconnectTimer.value, env));
            && Inv(d) && d.Live() && d.pollingTimer == c.pollingTimer
            && d.mode == (if c.pollingTimer.Some? then c.mode else Reconnecting)
  {
    hide Tidy, Delay, Conn.Reset;
    FiredTidy(c);
    var e := c.(timers := c.timers - {c.reconnectTimer.value});
    ResetTidy(e);
    ConnectKeeps(e, env);
  }

  /** Losing the connection while reconnecting is blocked leaves the page polling, and nothing scheduled. */
  lemma BlockedLossPolls(c: Conn, t0: int, t1: int)
    requires Inv(c) && c.Live() && !c.stopped && c.blocked
    ensures var d := Next(c, Closed(c.socket.value, t0, t1)); Inv(d) && d.mode == Polling && !d.Pending()
  {
    hide Tidy, Delay, Conn.StopPing;
    ClosedKeeps(c, c.socket.value, t0, t1);
    PingFrame(c.(sockets := c.sockets[c.socket.value := c.sockets[c.socket.value].(closed := true)]));
  }
}
