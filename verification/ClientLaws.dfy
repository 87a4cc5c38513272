/** What a transport keeps over every run of sockets, timers, device events and calls: it is
    never stuck and never doubled, and every accepted message goes out once, in order. */
module ClientLaws {
  import opened Collections
  import opened Values
  import opened Protocol
  import opened Client

  // ------------------------------------------------------------------ modes

  /** Not used yet: nothing created, nothing pending. */
  ghost predicate Idle(s: State) {
    && !s.started && !s.stopped && !s.open && !s.awaiting
    && s.sockets == [] && s.timers == map[] && !s.keepalive && !s.watching
  }

  ghost predicate LastIs(s: State, phase: Phase) {
    s.sockets != [] && s.sockets[|s.sockets| - 1].phase == phase
  }

  ghost predicate LastCurrent(s: State) {
    s.sockets != [] && s.sockets[|s.sockets| - 1].generation == s.generation
  }

  /** Connecting: the one timer pending is the connect timeout of the current socket. */
  ghost predicate Dialing(s: State) {
    && s.started && !s.stopped && !s.open && !s.awaiting && s.watching
    && LastIs(s, Connecting) && LastCurrent(s)
    && s.connectTimeout.Some?
    && s.timers == map[s.connectTimeout.value := Timer(Stuck(s.generation), CONNECT_TIMEOUT_MS)]
  }

  /** Connected: the one timer pending is the watchdog, and nothing waits to be sent. */
  ghost predicate Talking(s: State) {
    && s.started && !s.stopped && s.open && !s.awaiting && s.watching && s.keepalive
    && LastIs(s, Up) && LastCurrent(s)
    && s.watchdog.Some? && s.pending == []
    && (s.timers == map[s.watchdog.value := Timer(Watch, LIVENESS_MS)]
        || s.timers == map[s.watchdog.value := Timer(Watch, PROBE_MS)])
  }

  /** Between two sockets: the one timer pending is the backed-off retry. */
  ghost predicate Waiting(s: State) {
    && s.started && !s.stopped && !s.open && s.awaiting && s.watching
    && LastIs(s, Over) && s.attempt >= 1
    && s.backoff.Some?
    && s.timers == map[s.backoff.value := Timer(Retry, Backoff(s.attempt - 1))]
  }

  /** Ended for good: every socket is over and no timer is pending. */
  ghost predicate Finished(s: State) {
    && s.stopped && !s.open && s.timers == map[] && !s.keepalive && !s.watching
    && (s.sockets == [] || LastIs(s, Over))
  }

  ghost predicate SomeMode(s: State) {
    Idle(s) || Dialing(s) || Talking(s) || Waiting(s) || Finished(s)
  }

  /** At most the last socket is alive, and generations grow from socket to socket. */
  ghost predicate OneSocket(s: State) {
    && (forall i :: 0 <= i < |s.sockets| - 1 ==> s.sockets[i].phase == Over)
    && (forall i, j :: 0 <= i < j < |s.sockets| ==> s.sockets[i].generation < s.sockets[j].generation)
    && (forall i :: 0 <= i < |s.sockets| ==> s.sockets[i].generation <= s.generation)
  }

  // ---------------------------------------------------------------- history

  /** The app messages handed to sockets, over all of them in order. */
  function Delivered(sockets: seq<Socket>): seq<ClientMessage> {
    if sockets == [] then []
    else Delivered(sockets[..|sockets| - 1]) + Keep(sockets[|sockets| - 1].sent, IsApp)
  }

  ghost predicate Fifo(s: State) {
    && Delivered(s.sockets) + s.pending == s.accepted
    && (forall m :: m in s.pending ==> IsApp(m))
  }

  /** The latest credentials in what the server has said. */
  function LatestCode(init: Init, heard: seq<ServerMessage>): Option<RoomCode> {
    if heard == [] then InitialCode(init)
    else
      match heard[|heard| - 1]
      case Joined(code, _, _) => Some(code)
      case Opened(code, _) => Some(code)
      case FrameMessage(frame) => Some(frame.code)
      case _ => LatestCode(init, heard[..|heard| - 1])
  }

  function LatestToken(init: Init, heard: seq<ServerMessage>): Option<Token> {
    if heard == [] then InitialToken(init)
    else if heard[|heard| - 1].Joined? then Some(heard[|heard| - 1].reconnectToken)
    else LatestToken(init, heard[..|heard| - 1])
  }

  function LatestHostToken(init: Init, heard: seq<ServerMessage>): Option<Token> {
    if heard == [] then InitialHostToken(init)
    else if heard[|heard| - 1].Opened? then Some(heard[|heard| - 1].hostToken)
    else LatestHostToken(init, heard[..|heard| - 1])
  }

  ghost predicate Knows(s: State) {
    && s.code == LatestCode(s.init, s.heard)
    && s.reconnectToken == LatestToken(s.init, s.heard)
    && s.hostToken == LatestHostToken(s.init, s.heard)
  }

  /** The handshake owed to a server that has said this much. */
  function Greeting(init: Init, heard: seq<ServerMessage>): ClientMessage {
    match init
    case HostInit(nickname, _) =>
      if LatestCode(init, heard).Some? && LatestHostToken(init, heard).Some?
      then ResumeHost(LatestCode(init, heard).value, LatestHostToken(init, heard).value)
      else Open(nickname)
    case PlayerInit(code, nickname, _) => Join(code, nickname, LatestToken(init, heard))
  }

  /** Nothing is handed to a connecting socket; on any other, the handshake goes first,
      with the latest credentials there were, and goes once. */
  ghost predicate Greets(init: Init, heard: seq<ServerMessage>, socket: Socket) {
    && (socket.phase == Connecting ==> socket.sent == [])
    && (socket.phase == Up ==> socket.sent != [])
    && (socket.sent != [] ==>
          && socket.known <= |heard|
          && socket.sent[0] == Greeting(init, heard[..socket.known])
          && forall j :: 0 < j < |socket.sent| ==> !IsHandshake(socket.sent[j]))
  }

  ghost predicate AllGreet(s: State) {
    forall i :: 0 <= i < |s.sockets| ==> Greets(s.init, s.heard, s.sockets[i])
  }

  /** `onTerminal` ran at most once, and only for a transport that has stopped. */
  ghost predicate EndsOnce(s: State) {
    |s.ended| <= 1 && (s.ended != [] ==> s.stopped && s.ended[0] in TERMINAL)
  }

  ghost predicate Inv(s: State) {
    SomeMode(s) && OneSocket(s) && Fifo(s) && Knows(s) && AllGreet(s) && EndsOnce(s)
  }

  lemma CreatedInv(init: Init)
    ensures Inv(Created(init)) && Idle(Created(init))
  {
  }

  // ---------------------------------------------------- history, step by step

  /** The same sockets as before, some perhaps over, and perhaps new ones with nothing sent. */
  ghost predicate SentSame(a: seq<Socket>, b: seq<Socket>) {
    && |a| <= |b|
    && (forall i :: 0 <= i < |a| ==>
          b[i].sent == a[i].sent && b[i].known == a[i].known && (b[i].phase == a[i].phase || b[i].phase == Over))
    && (forall i :: |a| <= i < |b| ==> b[i].sent == [] && b[i].phase != Up)
  }

  lemma {:induction false} SentSameDelivers(a: seq<Socket>, b: seq<Socket>)
    requires SentSame(a, b)
    ensures Delivered(b) == Delivered(a)
    decreases |b|
  {
    hide Keep;
    if b != [] {
      var k := |b| - 1;
      var front := b[..k];
      if |a| == |b| {
        assert SentSame(a[..k], front);
        SentSameDelivers(a[..k], front);
      } else {
        assert SentSame(a, front);
        SentSameDelivers(a, front);
        NothingSent(b[k]);
      }
    }
  }

  lemma NothingSent(socket: Socket)
    requires socket.sent == []
    ensures Keep(socket.sent, IsApp) == []
  {
  }

  ghost predicate SameHistory(s: State, t: State) {
    && t.init == s.init && t.pending == s.pending && t.accepted == s.accepted && t.heard == s.heard
    && t.code == s.code && t.reconnectToken == s.reconnectToken && t.hostToken == s.hostToken
  }

  ghost predicate History(s: State) {
    Fifo(s) && Knows(s) && AllGreet(s)
  }

  lemma HistoryKept(s: State, t: State)
    requires History(s) && SameHistory(s, t) && SentSame(s.sockets, t.sockets)
    ensures History(t)
  {
    hide LatestCode, LatestToken, LatestHostToken, Greeting, Delivered;
    SentSameDelivers(s.sockets, t.sockets);
  }

  // ------------------------------------------------------------- transitions

  lemma ConnectLaws(s: State)
    requires OneSocket(s) && History(s) && s.timers == map[] && s.started && !s.stopped && !s.awaiting && s.watching
    requires s.sockets == [] || LastIs(s, Over)
    ensures var t := Connect(s);
      Dialing(t) && OneSocket(t) && History(t) && t.ended == s.ended && |t.sockets| == |s.sockets| + 1
  {
    hide Fifo, Knows, Greets;
    var t := Connect(s);
    assert forall i :: 0 <= i < |s.sockets| ==> t.sockets[i] == s.sockets[i];
    HistoryKept(s, t);
  }

  lemma StartLaws(s: State)
    requires Inv(s)
    ensures var t := EnsureStarted(s); Inv(t) && SameHistory(s, t)
    ensures !s.started && !s.stopped ==> Dialing(EnsureStarted(s))
    ensures s.started || s.stopped ==> EnsureStarted(s) == s
  {
    hide Fifo, Knows, AllGreet;
    if !s.started && !s.stopped {
      var t := s.(started := true, watching := true);
      HistoryKept(s, t);
      ConnectLaws(t);
    }
  }

  lemma ArmIs(s: State, ms: nat)
    ensures ArmWatchdog(s, ms) == s.(
      watchdog := Some(s.nextTimer), nextTimer := s.nextTimer + 1,
      timers := Without(s.timers, s.watchdog)[s.nextTimer := Timer(Watch, ms)])
  {
    hide Without;
  }

  lemma DropIs(s: State)
    requires !s.stopped && !s.awaiting
    ensures HandleDrop(s) == s.(
      open := false, awaiting := true, status := Reconnecting, attempt := s.attempt + 1,
      backoff := Some(s.nextTimer), nextTimer := s.nextTimer + 1,
      timers := Without(Without(s.timers, s.watchdog), s.connectTimeout)[s.nextTimer := Timer(Retry, Backoff(s.attempt))])
  {
    hide Without, Backoff;
  }

  /** The state with the link up, before anything is sent. */
  function Raised(s: State): State {
    s.(connectTimeout := None, watchdog := Some(s.nextTimer), nextTimer := s.nextTimer + 1,
       timers := Without(Without(s.timers, s.connectTimeout), s.watchdog)[s.nextTimer := Timer(Watch, LIVENESS_MS)],
       open := true, attempt := 0, awaiting := false, status := Live)
  }

  lemma OpenIs(s: State)
    ensures HandleOpen(s)
      == (if s.stopped then Raised(s) else TransmitAll(Raised(s), [Handshake(s)] + s.pending)).(pending := [], keepalive := true)
  {
    hide Without, ArmWatchdog, Handshake, HandedAll;
    var calm := Cancel(s, s.connectTimeout).(connectTimeout := None);
    ArmIs(calm, LIVENESS_MS);
    HandshakeSame(s, Raised(s));
  }

  lemma StopIs(s: State)
    ensures Stop(s) == s.(
      sockets := Closed(s.sockets), stopped := true, open := false, keepalive := false, watching := false,
      backoff := None, watchdog := None, connectTimeout := None,
      timers := Without(Without(Without(s.timers, s.backoff), s.watchdog), s.connectTimeout))
  {
    hide Without;
    var a := Cancel(s, s.backoff);
    var b := Cancel(a, s.watchdog);
  }

  lemma DropMoves(s: State)
    requires !s.stopped && !s.awaiting && Cancel(Cancel(s, s.watchdog), s.connectTimeout).timers == map[]
    ensures var t := HandleDrop(s);
      && t == s.(open := false, awaiting := true, status := Reconnecting, attempt := s.attempt + 1,
                 backoff := t.backoff, timers := t.timers, nextTimer := t.nextTimer)
      && t.backoff.Some? && t.timers == map[t.backoff.value := Timer(Retry, Backoff(s.attempt))]
  {
    hide Backoff;
  }

  lemma ForceIs(s: State)
    ensures ForceReconnect(s)
      == HandleDrop(s.(generation := s.generation + 1)).(sockets := Closed(s.sockets))
    ensures HandleDrop(s.(generation := s.generation + 1)).sockets == s.sockets
  {
    hide Without, Closed, Backoff, HandleDrop;
    var u := s.(generation := s.generation + 1);
    if s.stopped || s.awaiting {
      DropsNothing(u);
    } else {
      DropIs(u);
    }
  }

  /** A drop seen on the current socket, which is over. */
  lemma DropLaws(s: State)
    requires OneSocket(s) && History(s) && s.started && !s.stopped && !s.awaiting && s.watching && LastIs(s, Over)
    requires Cancel(Cancel(s, s.watchdog), s.connectTimeout).timers == map[]
    ensures var t := HandleDrop(s);
      Waiting(t) && OneSocket(t) && History(t) && t.ended == s.ended && t.sockets == s.sockets
  {
    hide Fifo, Knows, AllGreet, Backoff, HandleDrop, Cancel;
    DropMoves(s);
    HistoryKept(s, HandleDrop(s));
  }

  lemma CloseLaws(s: State)
    requires OneSocket(s)
    ensures var t := Close(s);
      && t == s.(sockets := t.sockets) && OneSocket(t) && SentSame(s.sockets, t.sockets) && |t.sockets| == |s.sockets|
      && (t.sockets == [] || LastIs(t, Over))
  {
  }

  lemma ForceLaws(s: State)
    requires OneSocket(s) && History(s) && s.started && !s.stopped && !s.awaiting && s.watching && s.sockets != []
    requires Cancel(Cancel(s, s.watchdog), s.connectTimeout).timers == map[]
    ensures var t := ForceReconnect(s);
      Waiting(t) && OneSocket(t) && History(t) && t.ended == s.ended && |t.sockets| == |s.sockets|
  {
    hide History, SentSame, Backoff, HandleDrop, Close;
    var u := s.(generation := s.generation + 1);
    DropMoves(u);
    CloseLaws(HandleDrop(u));
    HistoryKept(s, ForceReconnect(s));
  }

  lemma NoTimersLeft(timers: map<TimerId, Timer>, handle: Option<TimerId>)
    ensures timers == map[] ==> Without(timers, handle) == map[]
  {
  }

  /** Whatever the mode, the pending timer is one the transport holds a handle to. */
  lemma EveryTimerIsHeld(s: State)
    requires SomeMode(s)
    ensures Without(Without(Without(s.timers, s.backoff), s.watchdog), s.connectTimeout) == map[]
  {
    hide LastIs, LastCurrent, Backoff, Without;
    var b := Without(s.timers, s.backoff);
    var w := Without(b, s.watchdog);
    HeldIs(s.timers, s.backoff);
    HeldIs(b, s.watchdog);
    HeldIs(w, s.connectTimeout);
  }

  lemma HeldIs(timers: map<TimerId, Timer>, handle: Option<TimerId>)
    ensures Without(timers, handle).Keys == timers.Keys - if handle.Some? then {handle.value} else {}
    ensures timers.Keys <= (if handle.Some? then {handle.value} else {}) ==> Without(timers, handle) == map[]
  {
  }

  lemma StopMoves(s: State)
    requires SomeMode(s)
    ensures var t := Stop(s);
      && t == s.(sockets := Closed(s.sockets), stopped := true, open := false, keepalive := false, watching := false,
                 backoff := None, watchdog := None, connectTimeout := None, timers := map[])
  {
    hide SomeMode, Stop, Without, Close;
    EveryTimerIsHeld(s);
    StopIs(s);
    assert Without(Without(Without(s.timers, s.backoff), s.watchdog), s.connectTimeout) == map[];
  }

  lemma StopLaws(s: State)
    requires SomeMode(s) && OneSocket(s) && History(s)
    ensures var t := Stop(s);
      && Finished(t) && OneSocket(t) && History(t) && t.ended == s.ended
      && SentSame(s.sockets, t.sockets) && |t.sockets| == |s.sockets| && SameHistory(s, t)
  {
    hide History, SentSame, Backoff, Closed, Stop, SomeMode;
    StopMoves(s);
    CloseLaws(s);
    HistoryKept(s, Stop(s));
  }

  lemma ArmLaws(s: State, ms: nat)
    requires Inv(s) && Talking(s) && (ms == LIVENESS_MS || ms == PROBE_MS)
    ensures var t := ArmWatchdog(s, ms); Inv(t) && Talking(t) && t.sockets == s.sockets && SameHistory(s, t)
  {
    hide Fifo, Knows, AllGreet;
    HistoryKept(s, ArmWatchdog(s, ms));
  }

  // --------------------------------------------------------------- sending

  lemma TransmitLaws(s: State, m: ClientMessage)
    requires Inv(s) && Talking(s) && !IsHandshake(m)
    ensures var t := Transmit(s, m);
      && t == s.(sockets := t.sockets) && |t.sockets| == |s.sockets|
      && Talking(t) && OneSocket(t) && AllGreet(t)
      && Delivered(t.sockets) == Delivered(s.sockets) + if IsApp(m) then [m] else []
  {
    hide Knows, Greeting, Delivered;
    var k := |s.sockets| - 1;
    DeliversMore(s.sockets, m);
    var sent := s.sockets[k].sent;
    assert forall j :: 0 < j < |sent| ==> (sent + [m])[j] == sent[j];
  }

  lemma DeliversMore(sockets: seq<Socket>, m: ClientMessage)
    requires sockets != []
    ensures var k := |sockets| - 1;
      Delivered(sockets[k := sockets[k].(sent := sockets[k].sent + [m])])
        == Delivered(sockets) + if IsApp(m) then [m] else []
  {
    hide Keep, IsApp;
    var k := |sockets| - 1;
    assert sockets[k := sockets[k].(sent := sockets[k].sent + [m])][..k] == sockets[..k];
    KeepAppend(sockets[k].sent, m, IsApp);
  }

  /** `send`: an accepted message goes to the open socket or to the end of the queue. */
  lemma SendLaws(s: State, action: Action)
    requires Inv(s)
    ensures Inv(Send(s, action))
    ensures s.stopped ==> Send(s, action) == s
    ensures Send(s, action).ended == s.ended
  {
    hide Knows, AllGreet, Delivered;
    if s.code.Some? && !s.stopped {
      var m := ToWire(action, s.code.value);
      var t := s.(accepted := s.accepted + [m]);
      if s.open {
        TransmitLaws(s, m);
        TransmitAccepts(s, m);
      } else {
        StartLaws(s);
        QueueAccepts(s, m);
      }
    }
  }

  lemma TransmitAccepts(s: State, m: ClientMessage)
    requires Inv(s) && Talking(s) && IsApp(m)
    ensures Inv(Transmit(s.(accepted := s.accepted + [m]), m))
  {
    hide LatestCode, LatestToken, LatestHostToken, Greeting, Delivered;
    TransmitLaws(s, m);
    var t := Transmit(s.(accepted := s.accepted + [m]), m);
    assert t == Transmit(s, m).(accepted := s.accepted + [m]);
  }

  lemma QueueAccepts(s: State, m: ClientMessage)
    requires Inv(s) && !s.open && !s.stopped && IsApp(m)
    ensures var ready := EnsureStarted(s.(accepted := s.accepted + [m])); Inv(ready.(pending := ready.pending + [m]))
  {
    hide LatestCode, LatestToken, LatestHostToken, Greeting, Delivered, Connect;
    StartLaws(s);
    var ready := EnsureStarted(s.(accepted := s.accepted + [m]));
    ConnectCommutes(s, s.accepted + [m]);
    assert ready == EnsureStarted(s).(accepted := s.accepted + [m]);
  }

  lemma ConnectMoves(s: State)
    ensures Connect(s) == s.(
      open := false, generation := s.generation + 1,
      sockets := s.sockets + [Socket(s.generation + 1, Connecting, [], 0)],
      connectTimeout := Some(s.nextTimer), nextTimer := s.nextTimer + 1,
      timers := Without(s.timers, s.connectTimeout)[s.nextTimer := Timer(Stuck(s.generation + 1), CONNECT_TIMEOUT_MS)])
  {
    hide Without;
  }

  lemma ConnectCommutes(s: State, accepted: seq<ClientMessage>)
    ensures Connect(s.(started := true, watching := true, accepted := accepted))
      == Connect(s.(started := true, watching := true)).(accepted := accepted)
  {
    hide Connect, Without;
    ConnectMoves(s.(started := true, watching := true, accepted := accepted));
    ConnectMoves(s.(started := true, watching := true));
  }

  // --------------------------------------------------------------- opening

  /** Sending a whole queue is sending its messages one by one. */
  lemma {:induction false} HandedAllIs(sockets: seq<Socket>, ms: seq<ClientMessage>)
    requires sockets != []
    ensures var k := |sockets| - 1;
      HandedAll(sockets, ms) == sockets[k := sockets[k].(sent := sockets[k].sent + ms)]
  {
    var k := |sockets| - 1;
    if ms == [] {
      assert sockets[k].sent + ms == sockets[k].sent;
    } else {
      HandedAllIs(sockets, ms[..|ms| - 1]);
      assert sockets[k].sent + ms == sockets[k].sent + ms[..|ms| - 1] + [ms[|ms| - 1]];
    }
  }

  /** A queue of app messages is all delivered, and a handshake is none. */
  lemma {:induction false} KeepAll(ms: seq<ClientMessage>)
    requires forall m :: m in ms ==> IsApp(m)
    ensures Keep(ms, IsApp) == ms
  {
    if ms != [] {
      assert ms == ms[..|ms| - 1] + [ms[|ms| - 1]];
      KeepAll(ms[..|ms| - 1]);
      KeepAppend(ms[..|ms| - 1], ms[|ms| - 1], IsApp);
    }
  }

  /** What a socket that opens is handed: the handshake with the latest credentials, then
      everything that was waiting. */
  lemma OpenMoves(s: State)
    requires !s.stopped && s.sockets != [] && Cancel(s, s.connectTimeout).timers == map[]
    ensures var t := HandleOpen(s);
      var k := |s.sockets| - 1;
      && t == s.(connectTimeout := None, watchdog := t.watchdog, timers := t.timers, nextTimer := t.nextTimer,
                 open := true, attempt := 0, awaiting := false, status := Live, pending := [], keepalive := true,
                 sockets := s.sockets[k := s.sockets[k].(sent := s.sockets[k].sent + [Handshake(s)] + s.pending)])
      && t.watchdog.Some? && t.timers == map[t.watchdog.value := Timer(Watch, LIVENESS_MS)]
  {
    hide HandedAll, HandleOpen, Without, Handshake;
    OpenIs(s);
    var up := Raised(s);
    NoTimersLeft(Without(s.timers, s.connectTimeout), s.watchdog);
    HandedAllIs(up.sockets, [Handshake(s)] + up.pending);
    var k := |s.sockets| - 1;
    assert s.sockets[k].sent + ([Handshake(s)] + s.pending) == s.sockets[k].sent + [Handshake(s)] + s.pending;
  }

  lemma HandshakeSame(s: State, t: State)
    requires t.init == s.init && t.code == s.code && t.reconnectToken == s.reconnectToken && t.hostToken == s.hostToken
    ensures Handshake(t) == Handshake(s)
  {
  }

  lemma ArmMoves(s: State)
    requires s.timers == map[]
    ensures var t := ArmWatchdog(s, LIVENESS_MS);
      && t == s.(watchdog := t.watchdog, timers := t.timers, nextTimer := t.nextTimer)
      && t.watchdog.Some? && t.timers == map[t.watchdog.value := Timer(Watch, LIVENESS_MS)]
  {
    hide ArmWatchdog, Without;
    ArmIs(s, LIVENESS_MS);
    NoTimersLeft(s.timers, s.watchdog);
  }

  lemma HandshakeIsGreeting(s: State)
    requires Knows(s)
    ensures Handshake(s) == Greeting(s.init, s.heard)
  {
    hide LatestCode, LatestToken, LatestHostToken;
  }

  lemma HelloIsNotApp(hello: ClientMessage, ms: seq<ClientMessage>)
    requires IsHandshake(hello) && forall m :: m in ms ==> IsApp(m)
    ensures Keep([hello] + ms, IsApp) == ms
  {
    KeepAll(ms);
    KeepConcat([hello], ms, IsApp);
    assert [hello][..0] == [];
  }

  lemma DeliversQueue(sockets: seq<Socket>, greeted: Socket, hello: ClientMessage, ms: seq<ClientMessage>)
    requires sockets != [] && sockets[|sockets| - 1].sent == [] && greeted.sent == [hello] + ms
    requires IsHandshake(hello) && forall m :: m in ms ==> IsApp(m)
    ensures Delivered(sockets[|sockets| - 1 := greeted]) == Delivered(sockets) + ms
  {
    hide Keep, IsHandshake, IsApp;
    var k := |sockets| - 1;
    assert sockets[k := greeted][..k] == sockets[..k];
    HelloIsNotApp(hello, ms);
    NothingSent(sockets[k]);
  }

  lemma GreetingIsHandshake(init: Init, heard: seq<ServerMessage>)
    ensures IsHandshake(Greeting(init, heard))
  {
    hide LatestCode, LatestToken, LatestHostToken;
  }

  lemma OpenedLaws(s: State)
    requires Inv(s) && Dialing(s)
    ensures var k := |s.sockets| - 1;
      var t := HandleOpen(Moved(s, k, Up));
      && Inv(t) && Talking(t) && t.ended == s.ended
      && t.sockets == s.sockets[k := Socket(s.generation, Up, [Greeting(s.init, s.heard)] + s.pending, |s.heard|)]
  {
    hide Knows, Greeting, Delivered, HandleOpen, Handshake;
    var k := |s.sockets| - 1;
    var u := Moved(s, k, Up);
    var hello := Greeting(s.init, s.heard);
    SameKnowledge(s, u);
    HandshakeIsGreeting(u);
    OpenMoves(u);
    var t := HandleOpen(u);
    assert u.sockets[k].sent + [hello] + u.pending == [hello] + s.pending;
    assert t.sockets == s.sockets[k := Socket(s.generation, Up, [hello] + s.pending, |s.heard|)];
    GreetingIsHandshake(s.init, s.heard);
    DeliversQueue(s.sockets, t.sockets[k], hello, s.pending);
    SameKnowledge(s, t);
    assert s.heard[..|s.heard|] == s.heard;
    forall j | 0 < j < |t.sockets[k].sent| ensures !IsHandshake(t.sockets[k].sent[j]) {
      assert t.sockets[k].sent[j] == s.pending[j - 1];
      assert IsApp(s.pending[j - 1]);
    }
    assert Greets(t.init, t.heard, t.sockets[k]);
  }

  lemma SameKnowledge(s: State, t: State)
    requires Knows(s) && t.init == s.init && t.heard == s.heard
    requires t.code == s.code && t.reconnectToken == s.reconnectToken && t.hostToken == s.hostToken
    ensures Knows(t)
  {
    hide LatestCode, LatestToken, LatestHostToken;
  }

  // ------------------------------------------------------------- receiving

  lemma HeardLaws(s: State, m: ServerMessage)
    requires Inv(s) && Talking(s)
    ensures var t := Receive(s, m);
      && Inv(t) && (Talking(t) || Finished(t)) && |t.sockets| == |s.sockets|
      && t.accepted == s.accepted && t.pending == s.pending
  {
    hide Delivered, LatestCode, LatestToken, LatestHostToken, Greets, Stop, Receive;
    var t := Took(s, m);
    TookKnows(s, m);
    HeardHistory(s, t);
    ReceiveIs(s, m);
    StopLaws(t);
  }

  /** The state with one more message taken in and the credentials it brought. */
  function Took(s: State, m: ServerMessage): State {
    var t := s.(heard := s.heard + [m]);
    match m
    case Joined(code, _, token) => t.(code := Some(code), reconnectToken := Some(token))
    case Opened(code, token) => t.(code := Some(code), hostToken := Some(token))
    case FrameMessage(frame) => t.(code := Some(frame.code))
    case _ => t
  }

  predicate IsTerminal(m: ServerMessage) {
    m.Error? && m.message.Some? && m.message.value in TERMINAL
  }

  lemma ReceiveIs(s: State, m: ServerMessage)
    ensures Receive(s, m) ==
      if IsTerminal(m) then Stop(Took(s, m)).(ended := s.ended + [m.message.value]) else Took(s, m)
    ensures Took(s, m).ended == s.ended
  {
    hide Stop;
  }

  lemma TookKnows(s: State, m: ServerMessage)
    requires Knows(s)
    ensures Knows(Took(s, m))
  {
    LatestAfter(s.init, s.heard, m);
    hide LatestCode, LatestToken, LatestHostToken;
  }

  lemma LatestAfter(init: Init, heard: seq<ServerMessage>, m: ServerMessage)
    ensures LatestCode(init, heard + [m]) == match m
      case Joined(code, _, _) => Some(code)
      case Opened(code, _) => Some(code)
      case FrameMessage(frame) => Some(frame.code)
      case _ => LatestCode(init, heard)
    ensures LatestToken(init, heard + [m]) == if m.Joined? then Some(m.reconnectToken) else LatestToken(init, heard)
    ensures LatestHostToken(init, heard + [m]) == if m.Opened? then Some(m.hostToken) else LatestHostToken(init, heard)
  {
    assert (heard + [m])[..|heard|] == heard;
  }

  /** Hearing more changes no greeting already sent. */
  lemma HeardHistory(s: State, t: State)
    requires Fifo(s) && AllGreet(s) && Knows(t)
    requires t == s.(heard := t.heard, code := t.code, reconnectToken := t.reconnectToken, hostToken := t.hostToken)
    requires |s.heard| <= |t.heard| && t.heard[..|s.heard|] == s.heard
    ensures History(t)
  {
    hide Delivered, Greeting, Knows;
    forall i | 0 <= i < |t.sockets| ensures Greets(t.init, t.heard, t.sockets[i]) {
      var n := t.sockets[i].known;
      assert Greets(s.init, s.heard, s.sockets[i]);
      if t.sockets[i].sent != [] {
        assert t.heard[..n] == s.heard[..n];
      }
    }
  }

  lemma MessageLaws(s: State, data: Option<ServerMessage>)
    requires Inv(s) && Talking(s)
    ensures var t := HandleMessage(s, data);
      && Inv(t) && (Talking(t) || Finished(t)) && |t.sockets| == |s.sockets|
      && t.accepted == s.accepted && t.pending == s.pending
  {
    hide Inv, Talking, Finished, ArmWatchdog, Receive;
    NotStopped(s);
    ArmLaws(s, LIVENESS_MS);
    if data.Some? {
      HeardLaws(ArmWatchdog(s, LIVENESS_MS), data.value);
    }
  }

  lemma NotStopped(s: State)
    requires Talking(s)
    ensures !s.stopped && s.open
  {
  }

  // ---------------------------------------------------------------- events

  /** Only the last socket is ever alive; whatever happens to another is none of the
      transport's business. */
  lemma StaleEvents(s: State, i: nat, phase: Phase)
    requires Inv(s) && i < |s.sockets| && !Current(s, i) && phase != Connecting
    requires phase == Up ==> s.sockets[i].phase == Connecting
    ensures Moved(s, i, phase) == s.(sockets := Moved(s, i, phase).sockets)
    ensures Inv(Moved(s, i, phase))
  {
    hide Fifo, Knows, Greets, Backoff;
    var t := Moved(s, i, phase);
    HistoryKept(s, t);
  }

  lemma EndLaws(s: State, i: nat)
    requires Inv(s) && i < |s.sockets| && Current(s, i)
    ensures var t := HandleDrop(Moved(s, i, Over));
      Inv(t) && |t.sockets| == |s.sockets| && (Waiting(t) || Finished(t)) && t.accepted == s.accepted && t.pending == s.pending
  {
    hide Fifo, Knows, Greets, Backoff, HandleDrop, Cancel;
    var u := Moved(s, i, Over);
    OnlyLastIsCurrent(s, i);
    HistoryKept(s, u);
    if s.stopped || s.awaiting {
      DropsNothing(u);
    } else {
      DropClears(s);
      CancelsAlike(s, u);
      DropLaws(u);
      DropMoves(u);
    }
  }

  lemma OnlyLastIsCurrent(s: State, i: nat)
    requires OneSocket(s) && i < |s.sockets| && Current(s, i)
    ensures i == |s.sockets| - 1
  {
    var last := |s.sockets| - 1;
    assert s.sockets[last].generation <= s.generation;
  }

  lemma DropsNothing(s: State)
    requires s.stopped || s.awaiting
    ensures HandleDrop(s) == s
  {
  }

  /** While connecting or connected, a drop has no timer left to cancel afterwards. */
  lemma DropClears(s: State)
    requires Dialing(s) || Talking(s)
    ensures Cancel(Cancel(s, s.watchdog), s.connectTimeout).timers == map[]
  {
    hide LastIs, LastCurrent, Without;
    HeldIs(s.timers, s.watchdog);
    HeldIs(Without(s.timers, s.watchdog), s.connectTimeout);
  }

  lemma CancelsAlike(s: State, t: State)
    requires t == s.(sockets := t.sockets)
    ensures Cancel(Cancel(t, t.watchdog), t.connectTimeout).timers == Cancel(Cancel(s, s.watchdog), s.connectTimeout).timers
  {
    hide Without;
  }

  /** The timer that is pending fires: a retry dials a fresh socket; a stuck connect or,
      unless the page is hidden, a silent socket is given up for a retry. */
  lemma TimerLaws(s: State, t: TimerId, hidden: bool)
    requires Inv(s) && t in s.timers
    ensures var u := OnTimer(s, t, hidden);
      && Inv(u) && u.ended == s.ended && u.accepted == s.accepted && u.pending == s.pending
      && (Waiting(s) ==> Dialing(u) && |u.sockets| == |s.sockets| + 1)
      && (Dialing(s) ==> Waiting(u) && |u.sockets| == |s.sockets|)
      && (Talking(s) ==> (if hidden then Talking(u) else Waiting(u)) && |u.sockets| == |s.sockets|)
    ensures Waiting(s) || Dialing(s) || Talking(s)
  {
    hide Fifo, Knows, AllGreet, Backoff, Connect, ForceReconnect, ArmWatchdog;
    var fired := s.(timers := s.timers - {t});
    assert fired.timers == map[];
    FiredHistory(s, fired);
    match s.timers[t].alarm
    case Retry =>
      var ready := fired.(backoff := None, awaiting := false);
      HistoryKept(fired, ready);
      ConnectLaws(ready);
      ConnectMoves(ready);
    case Watch =>
      if hidden {
        RearmLaws(s, fired);
      } else {
        NothingToCancel(fired);
        ForceLaws(fired);
        ForceMoves(fired);
      }
    case Stuck(_) =>
      NothingToCancel(fired);
      ForceLaws(fired);
      ForceMoves(fired);
  }

  lemma FiredHistory(s: State, t: State)
    requires History(s) && t == s.(timers := t.timers)
    ensures History(t) && (OneSocket(s) ==> OneSocket(t))
  {
    HistoryKept(s, t);
    hide History;
  }

  lemma NothingToCancel(s: State)
    requires s.timers == map[]
    ensures Cancel(Cancel(s, s.watchdog), s.connectTimeout).timers == map[]
  {
    hide Without;
    NoTimersLeft(s.timers, s.watchdog);
    NoTimersLeft(Without(s.timers, s.watchdog), s.connectTimeout);
  }

  lemma RearmLaws(s: State, fired: State)
    requires Inv(s) && Talking(s) && fired == s.(timers := map[])
    ensures var u := ArmWatchdog(fired, LIVENESS_MS);
      && Inv(u) && Talking(u) && u == s.(watchdog := u.watchdog, timers := u.timers, nextTimer := u.nextTimer)
  {
    hide Fifo, Knows, AllGreet, ArmWatchdog;
    ArmMoves(fired);
    HistoryKept(s, ArmWatchdog(fired, LIVENESS_MS));
  }

  lemma ForceMoves(s: State)
    requires !s.stopped && !s.awaiting && Cancel(Cancel(s, s.watchdog), s.connectTimeout).timers == map[]
    ensures ForceReconnect(s).accepted == s.accepted && ForceReconnect(s).pending == s.pending
  {
    hide HandleDrop, Close;
    var u := s.(generation := s.generation + 1);
    DropMoves(u);
    CloseKeeps(HandleDrop(u));
  }

  lemma CloseKeeps(s: State)
    ensures Close(s) == s.(sockets := Closed(s.sockets))
  {
  }

  lemma ReconnectLaws(s: State)
    requires Inv(s)
    ensures var t := ReconnectNow(s);
      && Inv(t) && t.ended == s.ended && t.accepted == s.accepted && t.pending == s.pending
      && (Waiting(s) ==> Dialing(t) && |t.sockets| == |s.sockets| + 1)
      && (!Waiting(s) ==> t == s)
  {
    hide Fifo, Knows, AllGreet, Backoff, Connect, Without;
    if !s.stopped && s.awaiting {
        var ready := Cancel(s, s.backoff).(backoff := None, awaiting := false);
      RetryHeld(s);
      HistoryKept(s, ready);
      ConnectLaws(ready);
      ConnectMoves(ready);
    }
  }

  lemma RetryHeld(s: State)
    requires Waiting(s)
    ensures Without(s.timers, s.backoff) == map[]
  {
    hide Backoff;
  }

  lemma PingLaws(s: State)
    requires Inv(s) && Talking(s)
    ensures var t := Transmit(s, Ping);
      Inv(t) && Talking(t) && t == s.(sockets := t.sockets) && |t.sockets| == |s.sockets|
  {
    hide LatestCode, LatestToken, LatestHostToken, Delivered, Greets;
    TransmitLaws(s, Ping);
  }

  lemma VisibleLaws(s: State)
    requires Inv(s)
    ensures var t := OnVisible(s); Inv(t) && t.ended == s.ended && t.accepted == s.accepted && t.pending == s.pending
  {
    hide Fifo, Knows, AllGreet, Backoff, ArmWatchdog, Transmit, ReconnectNow;
    if s.open {
      PingLaws(s);
      ArmLaws(Transmit(s, Ping), PROBE_MS);
      ArmKeepsEnded(Transmit(s, Ping), PROBE_MS);
    } else {
      ReconnectLaws(s);
    }
  }

  lemma ArmKeepsEnded(s: State, ms: nat)
    ensures ArmWatchdog(s, ms).ended == s.ended
  {
  }

  lemma {:induction false} StepKeepsInv(s: State, e: Event)
    requires Inv(s) && Client.Enabled(s, e)
    ensures Inv(Client.Step(s, e))
  {
    hide Inv, EnsureStarted, Client.Send, Stop, HandleOpen, HandleMessage, HandleDrop, OnTimer, OnKeepalive, OnVisible,
         ReconnectNow, Moved, Current;
    match e
    case Uses => StartLaws(s);
    case Sends(action) => SendLaws(s, action);
    case Disposes => StopKeepsInv(s);
    case Opens(i) => OpensKeepsInv(s, i);
    case Delivers(i, data) => DeliversKeepsInv(s, i, data);
    case Ends(i) =>
      if Current(s, i) {
        EndLaws(s, i);
      } else {
        StaleEvents(s, i, Over);
      }
    case Fires(t, hidden) => TimerLaws(s, t, hidden);
    case Ticks => TickKeepsInv(s);
    case Shows => VisibleLaws(s);
    case GoesOnline => ReconnectLaws(s);
  }

  lemma StopKeepsInv(s: State)
    requires Inv(s)
    ensures Inv(Stop(s))
  {
    hide Stop, Fifo, Knows, AllGreet;
    StopLaws(s);
  }

  lemma OpensKeepsInv(s: State, i: nat)
    requires Inv(s) && i < |s.sockets| && s.sockets[i].phase == Connecting
    ensures Dialing(s) && Current(s, i) && i == |s.sockets| - 1
    ensures Inv(HandleOpen(Moved(s, i, Up)))
  {
    hide Fifo, Knows, Greets, Backoff, HandleOpen, Moved;
    assert i == |s.sockets| - 1;
    OpenedLaws(s);
  }

  lemma DeliversKeepsInv(s: State, i: nat, data: Option<ServerMessage>)
    requires Inv(s) && i < |s.sockets| && s.sockets[i].phase == Up
    ensures Talking(s) && Current(s, i)
    ensures Inv(HandleMessage(s, data))
  {
    hide Fifo, Knows, AllGreet, Backoff, HandleMessage;
    assert i == |s.sockets| - 1;
    MessageLaws(s, data);
  }

  lemma TickKeepsInv(s: State)
    requires Inv(s)
    ensures Inv(OnKeepalive(s))
  {
    hide Fifo, Knows, AllGreet, Backoff, Transmit;
    if s.open {
      PingLaws(s);
    }
  }

  /** Whatever the browser, the server, the clock and the screens do, in whatever order. */
  lemma {:induction false} RunKeepsInv(s: State, events: seq<Event>)
    requires Inv(s)
    ensures Inv(Client.Run(s, events))
  {
    hide Inv, Client.Step, Client.Enabled;
    if events != [] {
      RunKeepsInv(s, events[..|events| - 1]);
      var before := Client.Run(s, events[..|events| - 1]);
      if Client.Enabled(before, events[|events| - 1]) {
        StepKeepsInv(before, events[|events| - 1]);
      }
    }
  }
}
