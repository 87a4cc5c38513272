/** apps/web/src/transport/socket.ts: the transport of one screen as the object the app
    holds. Every method is proved to be the transition of the same name in the module
    Client, where the laws of a transport are proved. The sockets the factory made and the
    timers of both clocks are fields; the browser's part in an event (a socket opens,
    fails, closes) is the first line of the method that receives it. */
module SocketTransports {
  import opened Values
  import opened Protocol
  import opened Client
  import ClientLaws

  lemma HandedOneMore(sockets: seq<Socket>, ms: seq<ClientMessage>, m: ClientMessage)
    ensures Client.HandedAll(sockets, ms + [m]) == Client.Handed(Client.HandedAll(sockets, ms), m)
  {
    assert (ms + [m])[..|ms|] == ms;
    hide Client.Handed;
  }

  class SocketTransport {
    const init: Init
    var sockets: seq<Socket>
    var generation: nat
    var started: bool
    var stopped: bool
    var open: bool
    var awaitingReconnect: bool
    var attempt: nat
    var status: Status
    var pending: seq<ClientMessage>
    var code: Option<RoomCode>
    var reconnectToken: Option<Token>
    var hostToken: Option<Token>
    var keepalive: bool
    var watching: bool
    var cancelBackoff: Option<TimerId>
    var cancelWatchdog: Option<TimerId>
    var cancelConnectTimeout: Option<TimerId>

    var timers: map<TimerId, Timer>
    var nextTimer: TimerId
    var accepted: seq<ClientMessage>
    var heard: seq<ServerMessage>
    var ended: seq<string>

    ghost function Value(): State
      reads this
    {
      State(init, sockets, generation, started, stopped, open, awaitingReconnect, attempt, status, pending, code,
            reconnectToken, hostToken, keepalive, watching, cancelBackoff, cancelWatchdog, cancelConnectTimeout,
            timers, nextTimer, accepted, heard, ended)
    }

    constructor (init: Init)
      ensures Value() == Client.Created(init) && ClientLaws.Inv(Value())
    {
      hide ClientLaws.Inv;
      ClientLaws.CreatedInv(init);
      this.init := init;
      sockets, generation, started, stopped, open, awaitingReconnect := [], 0, false, false, false, false;
      attempt, status, pending := 0, StatusConnecting, [];
      code, reconnectToken, hostToken := InitialCode(init), InitialToken(init), InitialHostToken(init);
      keepalive, watching := false, false;
      cancelBackoff, cancelWatchdog, cancelConnectTimeout := None, None, None;
      timers, nextTimer, accepted, heard, ended := map[], 0, [], [], [];
    }

    // ------------------------------------------------------ sockets, clocks

    method SocketSend(m: ClientMessage)
      modifies this
      ensures Value() == old(Value()).(sockets := Client.Handed(old(sockets), m))
    {
      if sockets != [] {
        var k := |sockets| - 1;
        sockets := sockets[k := sockets[k].(sent := sockets[k].sent + [m])];
      }
    }

    method SocketClose()
      modifies this
      ensures Value() == old(Value()).(sockets := Client.Closed(old(sockets)))
    {
      if sockets != [] {
        var k := |sockets| - 1;
        sockets := sockets[k := sockets[k].(phase := Over)];
      }
    }

    method Schedule(alarm: Alarm, ms: nat) returns (t: TimerId)
      modifies this
      ensures Value() == old(Value()).(timers := old(timers)[t := Timer(alarm, ms)], nextTimer := old(nextTimer) + 1)
      ensures t == old(nextTimer)
    {
      t := nextTimer;
      timers := timers[t := Timer(alarm, ms)];
      nextTimer := nextTimer + 1;
    }

    method Cancel(handle: Option<TimerId>)
      modifies this
      ensures Value() == old(Value()).(timers := Client.Without(old(timers), handle))
    {
      if handle.Some? {
        timers := timers - {handle.value};
      }
    }

    method ArmWatchdog(ms: nat)
      modifies this
      ensures Value() == Client.ArmWatchdog(old(Value()), ms)
    {
      hide Client.ArmWatchdog, Client.Without;
      ClientLaws.ArmIs(Value(), ms);
      Cancel(cancelWatchdog);
      var t := Schedule(Watch, ms);
      cancelWatchdog := Some(t);
    }

    // ---------------------------------------------------------- connecting

    method Dial()
      modifies this
      ensures Value() == old(Value()).(
        open := false, generation := old(generation) + 1,
        sockets := old(sockets) + [Socket(old(generation) + 1, Connecting, [], 0)])
    {
      open := false;
      generation := generation + 1;
      sockets := sockets + [Socket(generation, Connecting, [], 0)];
    }

    method ArmConnectTimeout()
      modifies this
      ensures Value() == old(Value()).(
        connectTimeout := Some(old(nextTimer)), nextTimer := old(nextTimer) + 1,
        timers := Client.Without(old(timers), old(cancelConnectTimeout))
                  [old(nextTimer) := Timer(Stuck(old(generation)), CONNECT_TIMEOUT_MS)])
    {
      hide Client.Without;
      Cancel(cancelConnectTimeout);
      var t := Schedule(Stuck(generation), CONNECT_TIMEOUT_MS);
      cancelConnectTimeout := Some(t);
    }

    /** Open a fresh socket and time its connect. */
    method Connect()
      modifies this
      ensures Value() == Client.Connect(old(Value()))
    {
      hide Client.Connect, Client.Without;
      ClientLaws.ConnectMoves(Value());
      Dial();
      ArmConnectTimeout();
    }

    method EnsureStarted()
      modifies this
      ensures Value() == Client.EnsureStarted(old(Value()))
    {
      hide Client.Connect;
      if !started && !stopped {
        started := true;
        watching := true;
        Connect();
      }
    }

    method HandleDrop()
      modifies this
      ensures Value() == Client.HandleDrop(old(Value()))
    {
      hide Backoff, Client.HandleDrop, Client.Without;
      if stopped || awaitingReconnect {
        ClientLaws.DropsNothing(Value());
        return;
      }
      ClientLaws.DropIs(Value());
      var delay := Backoff(attempt);
      Lose();
      Await(delay);
    }

    method Lose()
      modifies this
      ensures Value() == old(Value()).(open := false, awaiting := true, status := Reconnecting, attempt := old(attempt) + 1)
    {
      Count(false, attempt + 1);
      Turn(Reconnecting, true);
    }

    method Count(up: bool, attempts: nat)
      modifies this
      ensures Value() == old(Value()).(open := up, attempt := attempts)
    {
      open, attempt := up, attempts;
    }

    method Turn(now: Status, waiting: bool)
      modifies this
      ensures Value() == old(Value()).(status := now, awaiting := waiting)
    {
      status, awaitingReconnect := now, waiting;
    }

    /** This socket is done: its timers must not fire later, the retry will. */
    method Await(delay: nat)
      modifies this
      ensures Value() == old(Value()).(
        backoff := Some(old(nextTimer)), nextTimer := old(nextTimer) + 1,
        timers := Client.Without(Client.Without(old(timers), old(cancelWatchdog)), old(cancelConnectTimeout))
                  [old(nextTimer) := Timer(Retry, delay)])
    {
      hide Client.Without;
      Cancel(cancelWatchdog);
      Cancel(cancelConnectTimeout);
      var t := Schedule(Retry, delay);
      cancelBackoff := Some(t);
    }

    method ForceReconnect()
      modifies this
      ensures Value() == Client.ForceReconnect(old(Value()))
    {
      hide Client.ForceReconnect, Client.HandleDrop, Client.Closed;
      ClientLaws.ForceIs(Value());
      generation := generation + 1;
      HandleDrop();
      SocketClose();
    }

    method ReconnectNow()
      modifies this
      ensures Value() == Client.ReconnectNow(old(Value()))
    {
      hide Client.Connect;
      if stopped || !awaitingReconnect {
        return;
      }
      Cancel(cancelBackoff);
      cancelBackoff := None;
      awaitingReconnect := false;
      Connect();
    }

    // -------------------------------------------------------------- sending

    method Dispatch(m: ClientMessage)
      modifies this
      ensures Value() == Client.Dispatch(old(Value()), m)
    {
      hide Client.EnsureStarted, Client.Handed;
      if stopped {
        return;
      }
      if !open {
        EnsureStarted();
        pending := pending + [m];
        return;
      }
      SocketSend(m);
    }

    method Send(action: Action)
      requires ClientLaws.Inv(Value())
      modifies this
      ensures Value() == Client.Send(old(Value()), action) && ClientLaws.Inv(Value())
    {
      hide Client.Dispatch, ClientLaws.Inv;
      ClientLaws.StepKeepsInv(Value(), Sends(action));
      if code.None? {
        return;
      }
      var m := ToWire(action, code.value);
      if !stopped {
        accepted := accepted + [m];
      } else {
        DispatchesNothing(m);
      }
      Dispatch(m);
    }

    lemma DispatchesNothing(m: ClientMessage)
      requires stopped
      ensures Client.Dispatch(Value(), m) == Value()
    {
    }

    function Handshake(): ClientMessage
      reads this
      ensures Handshake() == Client.Handshake(Value())
    {
      match init
      case HostInit(nickname, _) =>
        if code.Some? && hostToken.Some? then ResumeHost(code.value, hostToken.value) else Open(nickname)
      case PlayerInit(home, nickname, _) => Join(home, nickname, reconnectToken)
    }

    // ------------------------------------------------------- socket events

    method HandleOpen()
      modifies this
      ensures Value() == Client.HandleOpen(old(Value()))
    {
      hide Client.HandleOpen, Client.ArmWatchdog, Client.Handed, Client.HandedAll, Client.Handshake, Client.EnsureStarted,
           Client.Without;
      ClientLaws.OpenIs(Value());
      ghost var up := ClientLaws.Raised(Value());
      var hello := Handshake();
      Raise();
      HelloAlone(hello);
      Dispatch(hello);
      Flush(up.sockets, hello);
      keepalive := true;
    }

    method Raise()
      modifies this
      ensures Value() == ClientLaws.Raised(old(Value()))
    {
      hide Client.ArmWatchdog, Client.Without;
      DropConnectTimeout();
      ClientLaws.ArmIs(Value(), LIVENESS_MS);
      ArmWatchdog(LIVENESS_MS);
      GoLive();
    }

    method DropConnectTimeout()
      modifies this
      ensures Value() == old(Value()).(connectTimeout := None, timers := Client.Without(old(timers), old(cancelConnectTimeout)))
    {
      hide Client.Without;
      Cancel(cancelConnectTimeout);
      cancelConnectTimeout := None;
    }

    method GoLive()
      modifies this
      ensures Value() == old(Value()).(open := true, attempt := 0, awaiting := false, status := Live)
    {
      Count(true, 0);
      Turn(Live, false);
    }

    lemma HelloAlone(hello: ClientMessage)
      ensures Client.HandedAll(sockets, [hello]) == Client.Handed(sockets, hello)
    {
      HandedOneMore(sockets, [], hello);
      assert [] + [hello] == [hello];
      hide Client.Handed;
    }

    /** Everything queued is dispatched, oldest first. */
    method Flush(ghost before: seq<Socket>, ghost hello: ClientMessage)
      requires open
      requires sockets == if stopped then before else Client.HandedAll(before, [hello])
      modifies this
      ensures Value() == old(Value()).(
        pending := [], sockets := if stopped then before else Client.HandedAll(before, [hello] + old(pending)))
    {
      hide Client.Handed, Client.HandedAll, Client.EnsureStarted;
      var queue := pending;
      pending := [];
      assert [hello] + queue[..0] == [hello];
      for i := 0 to |queue|
        invariant open && stopped == old(stopped)
        invariant Value() == old(Value()).(
          pending := [], sockets := if stopped then before else Client.HandedAll(before, [hello] + queue[..i]))
      {
        HandedOneMore(before, [hello] + queue[..i], queue[i]);
        assert [hello] + queue[..i + 1] == [hello] + queue[..i] + [queue[i]];
        Dispatch(queue[i]);
      }
      assert queue[..|queue|] == queue;
    }

    /** End this transport for good. */
    method Stop()
      modifies this
      ensures Value() == Client.Stop(old(Value()))
    {
      hide Client.Stop, Client.Closed, Client.Without;
      ClientLaws.StopIs(Value());
      DropTimers();
      HangUp();
      SocketClose();
    }

    method HangUp()
      modifies this
      ensures Value() == old(Value()).(
        stopped := true, open := false, keepalive := false, watching := false)
    {
      stopped, open := true, false;
      Unwatch();
    }

    method Unwatch()
      modifies this
      ensures Value() == old(Value()).(keepalive := false, watching := false)
    {
      keepalive, watching := false, false;
    }

    method DropTimers()
      modifies this
      ensures Value() == old(Value()).(
        backoff := None, watchdog := None, connectTimeout := None,
        timers := Client.Without(Client.Without(Client.Without(old(timers), old(cancelBackoff)), old(cancelWatchdog)),
                                 old(cancelConnectTimeout)))
    {
      hide Client.Without;
      Cancel(cancelBackoff);
      Cancel(cancelWatchdog);
      Cancel(cancelConnectTimeout);
      cancelBackoff := None;
      cancelWatchdog := None;
      cancelConnectTimeout := None;
    }

    method Hear(m: ServerMessage)
      modifies this
      ensures Value() == old(Value()).(heard := old(heard) + [m])
    {
      heard := heard + [m];
    }

    /** What the message teaches: the room, and the credentials to come back with. */
    method TakeIn(m: ServerMessage)
      modifies this
      ensures Value() == ClientLaws.Took(old(Value()), m)
    {
      Hear(m);
      match m {
        case Joined(room, _, token) => KeepSeat(room, token);
        case Opened(room, token) => KeepBoard(room, token);
        case FrameMessage(frame) => code := Some(frame.code);
        case _ =>
      }
    }

    method Receive(m: ServerMessage)
      modifies this
      ensures Value() == Client.Receive(old(Value()), m)
    {
      hide Client.Stop, Client.Receive, ClientLaws.Took;
      ClientLaws.ReceiveIs(Value(), m);
      TakeIn(m);
      if m.Error? && m.message.Some? && m.message.value in TERMINAL {
        EndWith(m.message.value);
      }
    }

    method KeepSeat(room: RoomCode, token: Token)
      modifies this
      ensures Value() == old(Value()).(code := Some(room), reconnectToken := Some(token))
    {
      code := Some(room);
      reconnectToken := Some(token);
    }

    method KeepBoard(room: RoomCode, token: Token)
      modifies this
      ensures Value() == old(Value()).(code := Some(room), hostToken := Some(token))
    {
      code := Some(room);
      hostToken := Some(token);
    }

    method EndWith(message: string)
      modifies this
      ensures Value() == Client.Stop(old(Value())).(ended := old(ended) + [message])
    {
      hide Client.Stop, Client.Closed, Client.Without;
      ClientLaws.StopIs(Value());
      Stop();
      ended := ended + [message];
    }

    method HandleMessage(data: Option<ServerMessage>)
      modifies this
      ensures Value() == Client.HandleMessage(old(Value()), data)
    {
      hide Client.ArmWatchdog, Client.Receive;
      if stopped {
        return;
      }
      ArmWatchdog(LIVENESS_MS);
      if data.None? {
        return;
      }
      Receive(data.value);
    }

    // --------------------------------------------------------------- events

    /** A listener is added: the first one opens the link. */
    method Subscribe()
      requires ClientLaws.Inv(Value())
      modifies this
      ensures Value() == Client.Step(old(Value()), Uses) && ClientLaws.Inv(Value())
    {
      hide ClientLaws.Inv;
      ClientLaws.StepKeepsInv(Value(), Uses);
      EnsureStarted();
    }

    method Dispose()
      requires ClientLaws.Inv(Value())
      modifies this
      ensures Value() == Client.Step(old(Value()), Disposes) && ClientLaws.Inv(Value())
    {
      hide ClientLaws.Inv;
      ClientLaws.StepKeepsInv(Value(), Disposes);
      Stop();
    }

    /** The browser moves a socket on; one that opens knows what has been heard so far. */
    method MoveOn(i: nat, phase: Phase)
      requires i < |sockets|
      modifies this
      ensures Value() == Client.Moved(old(Value()), i, phase)
    {
      sockets := sockets[i := sockets[i].(phase := phase, known := if phase == Up then |heard| else sockets[i].known)];
    }

    method OnSocketOpen(i: nat)
      requires ClientLaws.Inv(Value()) && Client.Enabled(Value(), Opens(i))
      modifies this
      ensures Value() == Client.Step(old(Value()), Opens(i)) && ClientLaws.Inv(Value())
    {
      hide Client.HandleOpen, Client.Moved, ClientLaws.Inv;
      ClientLaws.StepKeepsInv(Value(), Opens(i));
      var current := sockets[i].generation == generation;
      MoveOn(i, Up);
      if current {
        HandleOpen();
      }
    }

    method OnSocketMessage(i: nat, data: Option<ServerMessage>)
      requires ClientLaws.Inv(Value()) && Client.Enabled(Value(), Delivers(i, data))
      modifies this
      ensures Value() == Client.Step(old(Value()), Delivers(i, data)) && ClientLaws.Inv(Value())
    {
      hide Client.HandleMessage, ClientLaws.Inv;
      ClientLaws.StepKeepsInv(Value(), Delivers(i, data));
      if sockets[i].generation == generation {
        HandleMessage(data);
      }
    }

    method OnSocketEnd(i: nat)
      requires ClientLaws.Inv(Value()) && Client.Enabled(Value(), Ends(i))
      modifies this
      ensures Value() == Client.Step(old(Value()), Ends(i)) && ClientLaws.Inv(Value())
    {
      hide Client.HandleDrop, Client.Moved, ClientLaws.Inv;
      ClientLaws.StepKeepsInv(Value(), Ends(i));
      var current := sockets[i].generation == generation;
      MoveOn(i, Over);
      if current {
        HandleDrop();
      }
    }

    /** A pending timer runs its callback. */
    method OnTimer(t: TimerId, hidden: bool)
      requires ClientLaws.Inv(Value()) && Client.Enabled(Value(), Fires(t, hidden))
      modifies this
      ensures Value() == Client.Step(old(Value()), Fires(t, hidden)) && ClientLaws.Inv(Value())
    {
      hide Client.Connect, Client.ArmWatchdog, Client.ForceReconnect, ClientLaws.Inv;
      ClientLaws.StepKeepsInv(Value(), Fires(t, hidden));
      match timers[t].alarm {
        case Retry => OnRetry(t);
        case Watch => OnSilence(t, hidden);
        case Stuck(dialed) => OnStuck(t, dialed);
      }
    }

    method OnRetry(t: TimerId)
      requires t in timers && timers[t].alarm.Retry?
      modifies this
      ensures Value() == Client.OnTimer(old(Value()), t, true) == Client.OnTimer(old(Value()), t, false)
    {
      hide Client.Connect;
      WaitIsOver(t);
      Connect();
    }

    method WaitIsOver(t: TimerId)
      modifies this
      ensures Value() == old(Value()).(timers := old(timers) - {t}, backoff := None, awaiting := false)
    {
      timers := timers - {t};
      cancelBackoff := None;
      awaitingReconnect := false;
    }

    method OnSilence(t: TimerId, hidden: bool)
      requires t in timers && timers[t].alarm.Watch?
      modifies this
      ensures Value() == Client.OnTimer(old(Value()), t, hidden)
    {
      hide Client.ArmWatchdog, Client.ForceReconnect;
      timers := timers - {t};
      if hidden {
        ArmWatchdog(LIVENESS_MS);
      } else if open {
        ForceReconnect();
      }
    }

    method OnStuck(t: TimerId, dialed: nat)
      requires t in timers && timers[t].alarm == Stuck(dialed)
      modifies this
      ensures Value() == Client.OnTimer(old(Value()), t, true) == Client.OnTimer(old(Value()), t, false)
    {
      hide Client.ForceReconnect;
      timers := timers - {t};
      if dialed == generation && !open {
        ForceReconnect();
      }
    }

    method OnKeepalive()
      requires ClientLaws.Inv(Value()) && Client.Enabled(Value(), Ticks)
      modifies this
      ensures Value() == Client.Step(old(Value()), Ticks) && ClientLaws.Inv(Value())
    {
      hide ClientLaws.Inv;
      ClientLaws.StepKeepsInv(Value(), Ticks);
      if open {
        SocketSend(Ping);
      }
    }

    method OnVisible()
      requires ClientLaws.Inv(Value()) && Client.Enabled(Value(), Shows)
      modifies this
      ensures Value() == Client.Step(old(Value()), Shows) && ClientLaws.Inv(Value())
    {
      hide Client.Handed, Client.ArmWatchdog, Client.ReconnectNow, ClientLaws.Inv;
      ClientLaws.StepKeepsInv(Value(), Shows);
      if open {
        SocketSend(Ping);
        ArmWatchdog(PROBE_MS);
      } else {
        ReconnectNow();
      }
    }

    method OnOnline()
      requires ClientLaws.Inv(Value()) && Client.Enabled(Value(), GoesOnline)
      modifies this
      ensures Value() == Client.Step(old(Value()), GoesOnline) && ClientLaws.Inv(Value())
    {
      hide ClientLaws.Inv;
      ClientLaws.StepKeepsInv(Value(), GoesOnline);
      ReconnectNow();
    }
  }
}
