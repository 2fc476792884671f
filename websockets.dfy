/** The self-healing streaming connection: the handler remembers its session
    and when the last message arrived, a periodic checker forces a close of
    a silent session, and the client reconnects on every close signal.
    Times are integer nanoseconds of the local clock; the ten-second check
    interval is scheduling, and one call of `Check` is one check. */
module WebSockets {
  import opened Common

  datatype CloseStatus = CloseStatus(code: int)

  /** The two statuses the checker uses (WebSocket close codes 1011 and 1007). */
  const ServerError := CloseStatus(1011)
  const BadData := CloseStatus(1007)

  const NanosPerSecond := 1000000000

  /** `Duration.between(last, now).getSeconds()`: whole seconds, rounded
      towards negative infinity. */
  function ElapsedSeconds(last: int, now: int): int
  {
    (now - last) / NanosPerSecond
  }

  /** Silent for more than `staleSeconds` whole seconds. */
  predicate Stale(last: int, now: int, staleSeconds: nat)
  {
    ElapsedSeconds(last, now) > staleSeconds
  }

  /** Whole seconds: staleness starts exactly `staleSeconds + 1` seconds
      after the last message, so a session silent for 60.9 seconds is not
      stale at the threshold 60. */
  lemma StaleExactly(last: int, now: int, staleSeconds: nat)
    ensures Stale(last, now, staleSeconds) <==> now - last >= (staleSeconds + 1) * NanosPerSecond
  {
    var d := now - last;
    var q := d / NanosPerSecond;
    assert d == q * NanosPerSecond + d % NanosPerSecond;
    if q > staleSeconds {
      assert q * NanosPerSecond >= (staleSeconds + 1) * NanosPerSecond;
    } else {
      assert q * NanosPerSecond <= staleSeconds * NanosPerSecond;
    }
  }

  /** What one check does. */
  datatype CheckAction =
    | NoSession          // nothing yet to check
    | SignalServerError  // the session is no longer open: emit on the closed stream
    | CloseBadData       // silent too long: close the session
    | Healthy            // nothing to do
    | CheckerFails       // the last-message time is still unset: the check throws

  function CheckDecision(hasSession: bool, open: bool, last: Option<int>, now: int, staleSeconds: nat): (a: CheckAction)
    ensures !hasSession <==> a == NoSession
    ensures a == SignalServerError <==> hasSession && !open
    ensures a == CheckerFails <==> hasSession && open && last.None?
    ensures a == CloseBadData <==> hasSession && open && last.Some? && Stale(last.value, now, staleSeconds)
    ensures a == Healthy <==> hasSession && open && last.Some? && !Stale(last.value, now, staleSeconds)
  {
    if !hasSession then NoSession
    else if !open then SignalServerError
    else if last.None? then CheckerFails
    else if Stale(last.value, now, staleSeconds) then CloseBadData
    else Healthy
  }

  /** A message at `now` keeps the session healthy for `staleSeconds` whole
      seconds and more. */
  lemma FreshAfterMessage(now: int, later: int, staleSeconds: nat)
    requires now <= later < now + (staleSeconds + 1) * NanosPerSecond
    ensures CheckDecision(true, true, Some(now), later, staleSeconds) == Healthy
  {
    StaleExactly(now, later, staleSeconds);
  }

  /** The open session, as the framework hands it over. `closeRequests`
      records the statuses it was asked to close with. */
  class Session {
    var open: bool
    var closeRequests: seq<CloseStatus>

    constructor (open: bool)
      ensures this.open == open && closeRequests == []
    {
      this.open := open;
      closeRequests := [];
    }

    method Close(status: CloseStatus)
      modifies this`closeRequests
      ensures closeRequests == old(closeRequests) + [status]
    {
      closeRequests := closeRequests + [status];
    }
  }

  class DefaultWebSocketHandler {
    /** The threshold of the checker, 60 in the application. */
    const staleSeconds: nat
    var session: Session?
    var lastMessageReceived: Option<int>
    /** The closed stream has a subscriber (its sink is set). */
    var sinkReady: bool
    /** Every status emitted on the closed stream. */
    var closed: seq<CloseStatus>
    /** The checker subscription has not died of an exception. */
    var checkerAlive: bool

    constructor (staleSeconds: nat)
      ensures this.staleSeconds == staleSeconds
      ensures session == null && lastMessageReceived == None && !sinkReady && closed == [] && checkerAlive
    {
      this.staleSeconds := staleSeconds;
      session := null;
      lastMessageReceived := None;
      sinkReady := false;
      closed := [];
      checkerAlive := true;
    }

    /** `closed()` being subscribed: from then on the stream can emit. */
    method SubscribeClosed()
      modifies this`sinkReady
      ensures sinkReady
    {
      sinkReady := true;
    }

    /** `handle`: the session becomes the checked one. */
    method Handle(s: Session)
      modifies this`session
      ensures session == s
    {
      session := s;
    }

    /** A message is received at `now`. */
    method Receive(now: int)
      modifies this`lastMessageReceived
      ensures lastMessageReceived == Some(now)
    {
      lastMessageReceived := Some(now);
    }

    /** The session's close status is forwarded to the closed stream; with
        no subscriber yet the sink is unset and the forwarding throws. */
    method SessionClosed(cs: CloseStatus) returns (forwarded: bool)
      modifies this`closed
      ensures forwarded == sinkReady
      ensures closed == old(closed) + (if sinkReady then [cs] else [])
    {
      forwarded := sinkReady;
      if sinkReady {
        closed := closed + [cs];
      }
    }

    /** One tick of the checker started by `init`. */
    method Check(now: int) returns (action: CheckAction)
      modifies this`closed, this`checkerAlive, session
      ensures session == old(session)
      ensures action == CheckDecision(session != null, session != null && session.open,
                                      lastMessageReceived, now, staleSeconds)
      ensures session != null ==> session.open == old(session.open)
      // a dead checker does nothing at all
      ensures !old(checkerAlive) ==>
        && closed == old(closed) && !checkerAlive
        && (session != null ==> session.closeRequests == old(session.closeRequests))
      ensures old(checkerAlive) ==>
        && closed == old(closed) + (if action == SignalServerError && sinkReady then [ServerError] else [])
        && (checkerAlive <==> !(action == CheckerFails || (action == SignalServerError && !sinkReady)))
        && (session != null ==>
              session.closeRequests == old(session.closeRequests) + (if action == CloseBadData then [BadData] else []))
    {
      action := CheckDecision(session != null, session != null && session.open, lastMessageReceived, now, staleSeconds);
      if !checkerAlive {
        return;
      }
      match action {
        case NoSession =>
        case SignalServerError =>
          if sinkReady {
            closed := closed + [ServerError];
          } else {
            checkerAlive := false;
          }
        case CloseBadData =>
          session.Close(BadData);
        case Healthy =>
        case CheckerFails =>
          checkerAlive := false;
      }
    }
  }

  /** The client: connects once at start, and again for every close signal. */
  class DefaultWebSocketClient {
    const handler: DefaultWebSocketHandler
    /** The number of `connect` calls. */
    var connects: nat
    /** The number of close signals acted upon. */
    var handled: nat

    /** One connection per signal acted upon, plus the first. */
    ghost predicate Valid()
      reads this, handler
    {
      connects == 1 + handled && handled <= |handler.closed|
    }

    constructor (handler: DefaultWebSocketHandler)
      ensures this.handler == handler && connects == 0 && handled == 0
    {
      this.handler := handler;
      connects := 0;
      handled := 0;
    }

    /** `init`: subscribe to the closed stream, then connect. */
    method Init()
      modifies this`connects, this`handled, handler`sinkReady
      ensures handler.sinkReady && connects == 1 && handled == 0
      ensures Valid()
    {
      handler.SubscribeClosed();
      handled := 0;
      connects := 1;
    }

    /** The signals emitted since the last reaction each cause one connect. */
    method React()
      requires Valid()
      modifies this`connects, this`handled
      ensures Valid()
      ensures handled == |handler.closed|
      ensures connects == 1 + |handler.closed|
    {
      while handled < |handler.closed|
        invariant Valid()
        decreases |handler.closed| - handled
      {
        connects := connects + 1;
        handled := handled + 1;
      }
    }
  }
}
