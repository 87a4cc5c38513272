/** What the laws of the transport mean for the screen that owns it. The statements are
    about states that keep the invariant, which by ClientLaws.RunKeepsInv is every state a
    new transport can reach. */
module ClientTheorems {
  import opened Collections
  import opened Values
  import opened Protocol
  import opened Client
  import opened ClientLaws

  /** A transport in use is connecting, connected or waiting to retry: one of the three,
      never two, with exactly one timer pending that will move it on, and with at most one
      socket alive, the last. */
  lemma NeverStuckNeverDoubled(s: State)
    requires Inv(s) && s.started && !s.stopped
    ensures Dialing(s) || Talking(s) || Waiting(s)
    ensures !(Dialing(s) && Talking(s)) && !(Dialing(s) && Waiting(s)) && !(Talking(s) && Waiting(s))
    ensures |s.timers| == 1
    ensures forall i :: 0 <= i < |s.sockets| && s.sockets[i].phase != Over ==> i == |s.sockets| - 1 && !Waiting(s)
  {
    hide Fifo, Knows, AllGreet, EndsOnce, Backoff;
    assert |s.timers| == |s.timers.Keys|;
    var t := if Dialing(s) then s.connectTimeout.value else if Talking(s) then s.watchdog.value else s.backoff.value;
    assert s.timers.Keys == {t};
  }

  /** Left to its timers, a visible transport gets to a fresh socket: from the wait in one
      firing, from a stuck or silent socket in two. */
  lemma TimersLeadToAFreshSocket(s: State, t: TimerId)
    requires Inv(s) && s.started && !s.stopped && t in s.timers
    ensures var u := OnTimer(s, t, false);
      if Waiting(s) then Dialing(u) && |u.sockets| == |s.sockets| + 1
      else Waiting(u) && forall t' :: t' in u.timers ==>
        Dialing(OnTimer(u, t', false)) && |OnTimer(u, t', false).sockets| == |s.sockets| + 1
  {
    hide Inv, OnTimer, Dialing, Talking, Waiting;
    TimerLaws(s, t, false);
    var u := OnTimer(s, t, false);
    if !Waiting(s) {
      forall t' | t' in u.timers
        ensures Dialing(OnTimer(u, t', false)) && |OnTimer(u, t', false).sockets| == |s.sockets| + 1
      {
        TimerLaws(u, t', false);
      }
    }
  }

  /** The wait before a retry doubles from half a second to eight and stays there. */
  lemma {:induction false} BackoffBounds(attempt: nat)
    ensures BASE_BACKOFF_MS <= Backoff(attempt) <= MAX_BACKOFF_MS
    ensures Backoff(attempt) == MAX_BACKOFF_MS <==> attempt >= 4
    ensures attempt < 4 ==> Backoff(attempt + 1) == 2 * Backoff(attempt)
    ensures attempt >= 4 ==> Pow2(attempt) >= 16
  {
    if attempt >= 4 {
      if attempt > 4 {
        BackoffBounds(attempt - 1);
      } else {
        assert Pow2(4) == 2 * Pow2(3) && Pow2(3) == 2 * Pow2(2) && Pow2(2) == 2 * Pow2(1) && Pow2(1) == 2 * Pow2(0);
      }
    } else {
      assert Pow2(3) == 2 * Pow2(2) && Pow2(2) == 2 * Pow2(1) && Pow2(1) == 2 * Pow2(0);
      assert Pow2(attempt + 1) == 2 * Pow2(attempt);
    }
  }

  /** The same sockets with the same messages handed to them. */
  ghost predicate NothingMore(a: seq<Socket>, b: seq<Socket>) {
    |b| == |a| && forall i :: 0 <= i < |a| ==> b[i].sent == a[i].sent
  }

  lemma StoppedStep(s: State, e: Event)
    requires Inv(s) && s.stopped && Client.Enabled(s, e)
    ensures var t := Client.Step(s, e);
      t.stopped && NothingMore(s.sockets, t.sockets) && t.ended == s.ended && t.accepted == s.accepted
  {
    hide Fifo, Knows, AllGreet, Connect, Transmit, TransmitAll, ArmWatchdog, Receive, Cancel, HandleDrop, Stop;
    match e
    case Disposes => StopLaws(s);
      StopMoves(s);
    case Opens(i) => OpensKeepsInv(s, i);
      assert false;
    case Delivers(i, data) => DeliversKeepsInv(s, i, data);
      assert false;
    case Ends(i) => DropsNothing(Moved(s, i, Over));
    case _ =>
  }

  /** After a terminal error or `dispose` no socket is ever created, nothing is handed to
      one, no action is accepted, and `onTerminal` does not run again. */
  lemma {:induction false} TheEndIsFinal(s: State, events: seq<Event>)
    requires Inv(s) && s.stopped
    ensures var t := Client.Run(s, events);
      t.stopped && NothingMore(s.sockets, t.sockets) && t.ended == s.ended && t.accepted == s.accepted
  {
    hide Inv, Client.Step, Client.Enabled;
    if events != [] {
      var front := events[..|events| - 1];
      TheEndIsFinal(s, front);
      RunKeepsInv(s, front);
      if Client.Enabled(Client.Run(s, front), events[|events| - 1]) {
        StoppedStep(Client.Run(s, front), events[|events| - 1]);
      }
    }
  }

  /** Whatever happened, `onTerminal` has run at most once. */
  lemma TerminalAtMostOnce(init: Init, events: seq<Event>)
    ensures |Client.Run(Created(init), events).ended| <= 1
    ensures Client.Run(Created(init), events).ended != [] ==> Client.Run(Created(init), events).stopped
  {
    CreatedInv(init);
    RunKeepsInv(Created(init), events);
    hide Client.Run, Created;
  }

  /** Over any number of reconnects the app messages handed to the sockets, one after the
      other, followed by what is still queued, are exactly the accepted messages, in order. */
  lemma ExactlyOnceInOrder(init: Init, events: seq<Event>)
    ensures var s := Client.Run(Created(init), events);
      && Delivered(s.sockets) + s.pending == s.accepted
      && (s.open ==> Delivered(s.sockets) == s.accepted)
  {
    CreatedInv(init);
    RunKeepsInv(Created(init), events);
    hide Client.Run, Created, Delivered;
    var s := Client.Run(Created(init), events);
    assert s.open ==> Delivered(s.sockets) + [] == Delivered(s.sockets);
  }

  /** On each socket the handshake goes first and once, with the credentials the server had
      issued last when that socket opened; nothing is handed to a socket still connecting. */
  lemma HandshakeFirst(init: Init, events: seq<Event>, i: nat)
    requires i < |Client.Run(Created(init), events).sockets|
    ensures var s := Client.Run(Created(init), events);
      var socket := s.sockets[i];
      && (socket.phase == Connecting ==> socket.sent == [])
      && (socket.sent != [] ==>
            && socket.known <= |s.heard|
            && socket.sent[0] == Greeting(init, s.heard[..socket.known])
            && forall j :: 0 < j < |socket.sent| ==> !IsHandshake(socket.sent[j]))
  {
    CreatedInv(init);
    RunKeepsInv(Created(init), events);
    InitStays(Created(init), events);
    hide Client.Run, Created, Greeting;
    assert Greets(Client.Run(Created(init), events).init, Client.Run(Created(init), events).heard,
                  Client.Run(Created(init), events).sockets[i]);
  }

  lemma InitStep(s: State, e: Event)
    requires Client.Enabled(s, e)
    ensures Client.Step(s, e).init == s.init
  {
    hide EnsureStarted, Client.Send, Stop, HandleOpen, HandleMessage, HandleDrop, OnTimer, OnKeepalive, OnVisible, ReconnectNow,
         Current, Moved;
  }

  lemma {:induction false} InitStays(s: State, events: seq<Event>)
    requires Inv(s)
    ensures Client.Run(s, events).init == s.init
  {
    hide Inv, Client.Step, Client.Enabled;
    if events != [] {
      var front := events[..|events| - 1];
      InitStays(s, front);
      RunKeepsInv(s, front);
      if Client.Enabled(Client.Run(s, front), events[|events| - 1]) {
        InitStep(Client.Run(s, front), events[|events| - 1]);
      }
    }
  }

  /** Events of a socket the transport has replaced or abandoned change nothing but that
      socket's own phase. */
  lemma StaleEventsChangeNothing(s: State, e: Event, i: nat)
    requires Inv(s) && Client.Enabled(s, e) && i < |s.sockets| && !Current(s, i)
    requires e == Opens(i) || (e.Delivers? && e.socket == i) || e == Ends(i)
    ensures var t := Client.Step(s, e);
      t == s.(sockets := s.sockets[i := s.sockets[i].(phase := t.sockets[i].phase)])
  {
    hide Inv, HandleOpen, HandleMessage, HandleDrop;
    if e.Opens? {
      OpensKeepsInv(s, i);
    }
  }

  /** The sockets with one more message handed to the last. */
  function OneMoreSent(s: State, m: ClientMessage): seq<Socket>
    requires s.sockets != []
  {
    var k := |s.sockets| - 1;
    s.sockets[k := s.sockets[k].(sent := s.sockets[k].sent + [m])]
  }

  /** While connected, every tick pings the server, a page that comes into view pings it and
      gives it four seconds, and a silent watchdog on a hidden page only waits on. */
  lemma TheLinkIsProbed(s: State, t: TimerId)
    requires ClientLaws.Inv(s) && Talking(s) && t in s.timers
    ensures Client.Step(s, Ticks) == s.(sockets := OneMoreSent(s, Ping))
    ensures var shown := Client.Step(s, Shows);
      && shown.sockets == OneMoreSent(s, Ping) && Talking(shown)
      && shown.watchdog.value in shown.timers && shown.timers[shown.watchdog.value] == Timer(Watch, 4_000)
    ensures var waited := Client.Step(s, Fires(t, true));
      && waited.sockets == s.sockets && Talking(waited)
      && waited.watchdog.value in waited.timers && waited.timers[waited.watchdog.value] == Timer(Watch, 40_000)
  {
    hide ClientLaws.Inv;
  }

  /** While waiting for its retry, a page that comes into view or online dials at once. */
  lemma BackInViewDialsAtOnce(s: State)
    requires ClientLaws.Inv(s) && Waiting(s)
    ensures var t := Client.Step(s, Shows);
      && t == Client.Step(s, GoesOnline) && Dialing(t)
      && |t.sockets| == |s.sockets| + 1 && t.sockets[..|s.sockets|] == s.sockets
  {
    hide ClientLaws.Fifo, ClientLaws.Knows, ClientLaws.AllGreet, ClientLaws.OneSocket, ClientLaws.EndsOnce;
  }
}
