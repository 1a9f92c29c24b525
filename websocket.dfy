/**
 * The client's WebSocket service: a three-state connection machine
 * (disconnected, connecting, connected), a table of handlers waiting for
 * the response to a request id, the handshake's clock-skew check, the
 * dispatch of inbound frames, and the reconnect policy.
 *
 * The outside world (login, reachability, the socket's own view of its
 * connection, the current time, the server time, encoding outcomes) comes
 * in as parameters. What the service does to the outside world is appended
 * to a ghost effect log instead of being performed. All times are integer
 * nanoseconds since the epoch.
 */
module WebSocket {
  import opened Wrappers

  const NanosPerSecond := 1_000_000_000
  /** Largest accepted distance between server time and the signing date of the upgrade request. */
  const ClockSkewTolerance := 300 * NanosPerSecond
  /** A signing date older than this at handshake time means the handshake itself was slow. */
  const StaleSigningWindow := 60 * NanosPerSecond
  /** An immediate reconnect needs the last connection attempt to be at least this old. */
  const ReconnectDebounce := 1 * NanosPerSecond
  const RefreshOneTimePreKeyInterval := 3600 * 2 * NanosPerSecond
  const ListPendingRetryDelay := 2 * NanosPerSecond
  const UnauthorizedCode := 401
  /** The action of a frame that reports an error. */
  const ErrorAction := "error"

  datatype Status = Disconnected | Connecting | Connected

  datatype CloseCode = Exit | Failure

  datatype ApiError = TimedOut | Server(code: int)

  /** What a waiting handler is invoked with. */
  datatype HandlerResult = Succeeded(responseId: string) | Failed(error: ApiError)

  /** The two kinds of waiting handler: a request blocked on its response, and the pending-messages request. */
  datatype Handler = ResponseWaiter | ListPendingMessagesHandler

  datatype Job = RefreshAssetsJob | RefreshOneTimePreKeysJob | RefreshOffsetJob

  /** Everything the service does to the world outside it, in order. */
  datatype Effect =
    | PostDidConnect
    | PostDidDisconnect
    | PostClockSkewDetected
    | SetClockSkewed
    | OpenSocket
    | CloseSocket(code: CloseCode)
    | SendFrame(id: string)
    | HeartbeatStart
    | HeartbeatStop
    | HeartbeatPong
    | ResumeJobs
    | SuspendJobs
    | CancelAllJobs
    | RestoreJobs                 // restore jobs, announce pending uploads, process pending sends
    | AddJob(job: Job)
    | SetPrekeyRefreshDate(date: int)
    | ResetPrekeyRefreshRecords
    | ProcessReceivedMessages
    | ReceiveMessage(id: string)
    | SendAck(messageId: string)
    | Deliver(id: string, result: HandlerResult)
    | ScheduleListPendingRetry(at: int)
    | ToggleHost
    | Logout

  /**
   * A decoded inbound frame: its id, action, error code if it reports an
   * error, whether it carries data, whether that data is a message to
   * receive, and otherwise the message id to acknowledge, if it has one.
   */
  datatype BlazeMessage = BlazeMessage(
    id: string, action: string, error: Option<int>, hasData: bool,
    isReceiveMessageAction: bool, ackMessageId: Option<string>)

  /** The state of the world a guard may look at. */
  datatype Environment = Environment(
    isLoggedIn: bool, isReachable: bool, hostUrlValid: bool,
    inAppExtension: bool, canProcessMessagesInAppExtension: bool)

  /** How a handshake is judged. */
  datatype Verdict = Accept | ReconnectStale | ClockSkew

  /** What a blocking request gets back before any response arrives. */
  datatype RequestOutcome = NotLoggedIn | SendFailed(error: ApiError) | AwaitingResponse

  // ---------------------------------------------------------------------
  // Decisions

  function Abs(x: int): nat {
    if x < 0 then -x else x
  }

  /** The server time, when present and positive, is too far from the signing date. */
  predicate Skewed(serverTime: Option<int>, signingDate: int) {
    serverTime.Some? && serverTime.value > 0 && Abs(serverTime.value - signingDate) > ClockSkewTolerance
  }

  /**
   * A skewed handshake is retried when the signing date was already stale
   * (the skew may come from a slow handshake); otherwise the clock is wrong.
   */
  function HandshakeVerdict(serverTime: Option<int>, signingDate: int, now: int): (v: Verdict)
    ensures v == Accept <==> !Skewed(serverTime, signingDate)
    ensures v == ReconnectStale <==> Skewed(serverTime, signingDate) && now - signingDate > StaleSigningWindow
  {
    if !Skewed(serverTime, signingDate) then Accept
    else if now - signingDate > StaleSigningWindow then ReconnectStale
    else ClockSkew
  }

  /**
   * The skew test on integer nanoseconds is the test on seconds: the server
   * reports nanoseconds, and a distance above 300 seconds is a skew.
   */
  lemma SkewInSeconds(serverTime: int, signingDate: int)
    ensures Abs(serverTime - signingDate) > ClockSkewTolerance
        <==> (var d := Seconds(serverTime - signingDate); d > 300.0 || d < -300.0)
  {
    var d := Seconds(serverTime - signingDate);
    assert (serverTime - signingDate) as real == d * NanosPerSecond as real;
  }

  /** A duration in nanoseconds as seconds. */
  function Seconds(ns: int): real {
    ns as real / NanosPerSecond as real
  }

  /** More than `k` seconds, in seconds, is more than `k` seconds' worth of nanoseconds. */
  lemma SecondsAbove(ns: int, k: int)
    ensures Seconds(ns) > k as real <==> ns > k * NanosPerSecond
  {
    assert ns as real == Seconds(ns) * NanosPerSecond as real;
  }

  /**
   * The verdict computed the way the handshake does, on seconds: a missing or
   * non-positive server time is accepted; otherwise a server time within 300
   * seconds of the signing date is accepted, and a larger distance is retried
   * when the signing date is more than 60 seconds old and is a clock skew
   * otherwise.
   */
  lemma HandshakeInSeconds(serverTime: Option<int>, signingDate: int, now: int)
    ensures HandshakeVerdict(serverTime, signingDate, now) ==
      if serverTime.None? || serverTime.value <= 0 then Accept
      else if -300.0 <= Seconds(serverTime.value - signingDate) <= 300.0 then Accept
      else if Seconds(now - signingDate) > 60.0 then ReconnectStale
      else ClockSkew
  {
    if serverTime.Some? {
      SkewInSeconds(serverTime.value, signingDate);
    }
    SecondsAbove(now - signingDate, 60);
  }

  /** Handshakes within the tolerance, or without a usable server time, are accepted. */
  lemma HandshakeScenarios(signingDate: int, now: int)
    ensures HandshakeVerdict(None, signingDate, now) == Accept
    ensures HandshakeVerdict(Some(0), signingDate, now) == Accept
    ensures signingDate + ClockSkewTolerance > 0 ==>
      HandshakeVerdict(Some(signingDate + ClockSkewTolerance), signingDate, now) == Accept
    ensures signingDate > ClockSkewTolerance + 1 && now == signingDate + 10 * NanosPerSecond ==>
      HandshakeVerdict(Some(signingDate - ClockSkewTolerance - 1), signingDate, now) == ClockSkew
    ensures signingDate > 0 && now == signingDate + 400 * NanosPerSecond ==>
      HandshakeVerdict(Some(now), signingDate, now) == ReconnectStale
  {
  }

  /**
   * After a teardown the service connects at once only when the network is
   * reachable, the user is logged in, and either the network was unreachable
   * at the last connection or that connection is at least a second old.
   */
  function ShouldConnectImmediately(env: Environment, networkWasReachableOnConnection: bool,
                                    lastConnectionDate: int, now: int): (r: bool)
    ensures r ==> env.isReachable && env.isLoggedIn
    ensures env.isReachable && env.isLoggedIn && !networkWasReachableOnConnection ==> r
    ensures networkWasReachableOnConnection && now - lastConnectionDate < ReconnectDebounce ==> !r
  {
    env.isReachable && env.isLoggedIn
    && (!networkWasReachableOnConnection || now - lastConnectionDate >= ReconnectDebounce)
  }

  /** The debounce: two teardowns within a second of a connection on a reachable network do not reconnect at once. */
  lemma DebounceDefersReconnect(env: Environment, lastConnectionDate: int, now: int)
    requires lastConnectionDate <= now < lastConnectionDate + ReconnectDebounce
    ensures !ShouldConnectImmediately(env, true, lastConnectionDate, now)
    ensures env.isReachable && env.isLoggedIn ==>
      ShouldConnectImmediately(env, true, lastConnectionDate, lastConnectionDate + ReconnectDebounce)
  {
  }

  /** Logging out happens on an error frame with action "error" and code 401, unless the clock is known to be skewed. */
  predicate NeedsLogout(m: BlazeMessage, isClockSkewed: bool) {
    m.error.Some? && m.action == ErrorAction && m.error.value == UnauthorizedCode && !isClockSkewed
  }

  /** The guards of a connection attempt. */
  predicate ConnectProceeds(env: Environment, status: Status) {
    env.isLoggedIn && env.isReachable && status == Disconnected && env.hostUrlValid
    && !(env.inAppExtension && !env.canProcessMessagesInAppExtension)
  }

  /** The asset and one-time-prekey refresh jobs are due when the last refresh is known and over two hours old. */
  predicate RefreshDue(prekeyRefreshDate: Option<int>, now: int) {
    prekeyRefreshDate.Some? && now - prekeyRefreshDate.value > RefreshOneTimePreKeyInterval
  }

  /** The effects of an accepted handshake after the pending-messages request, in order. */
  function AcceptTail(prekeyRefreshDate: Option<int>, now: int): (t: seq<Effect>)
    ensures AddJob(RefreshOffsetJob) in t && SetPrekeyRefreshDate(now) in t
    ensures AddJob(RefreshAssetsJob) in t <==> RefreshDue(prekeyRefreshDate, now)
    ensures AddJob(RefreshOneTimePreKeysJob) in t <==> RefreshDue(prekeyRefreshDate, now)
  {
    [ResumeJobs, HeartbeatStart]
    + (if RefreshDue(prekeyRefreshDate, now) then [AddJob(RefreshAssetsJob), AddJob(RefreshOneTimePreKeysJob)] else [])
    + [SetPrekeyRefreshDate(now), AddJob(RefreshOffsetJob)]
  }

  /** What a connection attempt does to the outside world. */
  function ConnectEffects(env: Environment, status: Status): (t: seq<Effect>)
    ensures OpenSocket in t <==> ConnectProceeds(env, status)
    ensures PostDidDisconnect in t <==> env.isLoggedIn && !env.isReachable
  {
    if ConnectProceeds(env, status) then [OpenSocket]
    else if env.isLoggedIn && !env.isReachable then [PostDidDisconnect]
    else []
  }

  /** A disconnect stops the heartbeat, closes the socket with the exit code and cancels every job. */
  const DisconnectEffects: seq<Effect> := [HeartbeatStop, CloseSocket(Exit), CancelAllJobs]

  /**
   * The end of a reconnect's teardown: jobs are suspended, an existing heartbeat stops,
   * the socket is closed with the failure code only when the remote side is
   * to be told, and the disconnection is announced.
   */
  function ShutdownEffects(sendDisconnectToRemote: bool, hasSocket: bool): (t: seq<Effect>)
    ensures SuspendJobs in t && PostDidDisconnect in t && CancelAllJobs !in t
    ensures CloseSocket(Failure) in t <==> sendDisconnectToRemote && hasSocket
    ensures CloseSocket(Exit) !in t
  {
    [SuspendJobs]
    + (if hasSocket then [HeartbeatStop] else [])
    + (if sendDisconnectToRemote && hasSocket then [CloseSocket(Failure)] else [])
    + [PostDidDisconnect]
  }

  /** What invoking a handler does beyond being invoked. */
  function HandlerEffects(h: Handler, result: HandlerResult, needsJobRestoration: bool, now: int): (t: seq<Effect>)
    ensures RestoreJobs in t <==> h == ListPendingMessagesHandler && result.Succeeded? && needsJobRestoration
    ensures ScheduleListPendingRetry(now + ListPendingRetryDelay) in t <==> h == ListPendingMessagesHandler && result.Failed?
    ensures CancelAllJobs !in t && Logout !in t
  {
    match h
    case ResponseWaiter => []
    case ListPendingMessagesHandler =>
      if result.Succeeded? then (if needsJobRestoration then [RestoreJobs] else [])
      else [ScheduleListPendingRetry(now + ListPendingRetryDelay)]
  }

  /** The ids of the handler invocations among some effects, in order. */
  function Delivered(effects: seq<Effect>): seq<string> {
    if effects == [] then []
    else if effects[0].Deliver? then [effects[0].id] + Delivered(effects[1..])
    else Delivered(effects[1..])
  }

  lemma {:induction false} DeliveredAppend(a: seq<Effect>, b: seq<Effect>)
    ensures Delivered(a + b) == Delivered(a) + Delivered(b)
  {
    if a == [] {
      assert a + b == b;
    } else {
      assert (a + b)[1..] == a[1..] + b;
      DeliveredAppend(a[1..], b);
    }
  }

  predicate NoDeliveries(t: seq<Effect>) {
    forall e :: e in t ==> !e.Deliver?
  }

  lemma {:induction false} NothingDelivered(t: seq<Effect>)
    requires NoDeliveries(t)
    ensures Delivered(t) == []
  {
    if t != [] {
      assert t[0] in t;
      assert forall e :: e in t[1..] ==> e in t;
      NothingDelivered(t[1..]);
    }
  }

  /** A handler's own effects never invoke another handler. */
  lemma HandlerEffectsDeliverNothing(h: Handler, result: HandlerResult, needsJobRestoration: bool, now: int)
    ensures NoDeliveries(HandlerEffects(h, result, needsJobRestoration, now))
    ensures Delivered(HandlerEffects(h, result, needsJobRestoration, now)) == []
  {
    NothingDelivered(HandlerEffects(h, result, needsJobRestoration, now));
  }

  /** The handler registered under an id, if any. */
  function Lookup(handlers: map<string, Handler>, id: string): (r: Option<Handler>)
    ensures r.Some? <==> id in handlers
    ensures r.Some? ==> r.value == handlers[id]
  {
    if id in handlers then Some(handlers[id]) else None
  }

  /** An inbound frame completes its handler with failure when it carries an error code, with itself otherwise. */
  function ResultOf(m: BlazeMessage): (r: HandlerResult)
    ensures r.Failed? <==> m.error.Some?
    ensures r.Failed? ==> r.error == Server(m.error.value)
    ensures r.Succeeded? ==> r.responseId == m.id
  {
    match m.error
    case Some(code) => Failed(Server(code))
    case None => Succeeded(m.id)
  }

  /**
   * What a frame does after its handler: an error frame may log out; a data
   * frame is either a message to receive or, when it names one, a message to
   * acknowledge as read.
   */
  function FrameEffects(m: BlazeMessage, isClockSkewed: bool): (t: seq<Effect>)
    ensures Logout in t <==> NeedsLogout(m, isClockSkewed)
  {
    if m.error.Some? then (if NeedsLogout(m, isClockSkewed) then [Logout] else [])
    else if !m.hasData then []
    else if m.isReceiveMessageAction then [ReceiveMessage(m.id)]
    else match m.ackMessageId
      case Some(messageId) => [SendAck(messageId)]
      case None => []
  }

  /** Invoking a handler registered under `id`: the invocation, then what the handler does. */
  function InvocationEffects(id: string, h: Handler, result: HandlerResult, needsJobRestoration: bool, now: int): seq<Effect> {
    [Deliver(id, result)] + HandlerEffects(h, result, needsJobRestoration, now)
  }

  /** An invocation invokes its handler once, with its result, and nothing else. */
  lemma InvocationDeliversOnce(id: string, h: Handler, result: HandlerResult, needsJobRestoration: bool, now: int)
    ensures Delivered(InvocationEffects(id, h, result, needsJobRestoration, now)) == [id]
    ensures forall e :: e in InvocationEffects(id, h, result, needsJobRestoration, now) && e.Deliver? ==>
      e == Deliver(id, result)
  {
    var effects := HandlerEffects(h, result, needsJobRestoration, now);
    HandlerEffectsDeliverNothing(h, result, needsJobRestoration, now);
    DeliveredAppend([Deliver(id, result)], effects);
    assert Delivered([Deliver(id, result)]) == [id];
  }

  /** Everything a decoded inbound frame does, given the handler waiting for its id. */
  function DispatchEffects(handler: Option<Handler>, m: BlazeMessage, needsJobRestoration: bool,
                           isClockSkewed: bool, now: int): seq<Effect>
  {
    (match handler
     case Some(h) => InvocationEffects(m.id, h, ResultOf(m), needsJobRestoration, now)
     case None => [])
    + FrameEffects(m, isClockSkewed)
  }

  /**
   * A frame invokes the handler waiting for its id exactly once, with a
   * failure exactly when the frame reports an error, and no other handler.
   */
  lemma DispatchDeliversOnce(handler: Option<Handler>, m: BlazeMessage, needsJobRestoration: bool,
                             isClockSkewed: bool, now: int)
    ensures Delivered(DispatchEffects(handler, m, needsJobRestoration, isClockSkewed, now))
      == (if handler.Some? then [m.id] else [])
    ensures forall e :: e in DispatchEffects(handler, m, needsJobRestoration, isClockSkewed, now) && e.Deliver? ==>
      e == Deliver(m.id, ResultOf(m))
  {
    var tail := FrameEffects(m, isClockSkewed);
    assert NoDeliveries(tail);
    NothingDelivered(tail);
    if handler.Some? {
      InvocationDeliversOnce(m.id, handler.value, ResultOf(m), needsJobRestoration, now);
      DeliveredAppend(InvocationEffects(m.id, handler.value, ResultOf(m), needsJobRestoration, now), tail);
    } else {
      assert DispatchEffects(handler, m, needsJobRestoration, isClockSkewed, now) == tail;
    }
  }

  /** A frame logs out exactly when it is a 401 error with action "error" and the clock is not known to be skewed. */
  lemma DispatchLogoutIff(handler: Option<Handler>, m: BlazeMessage, needsJobRestoration: bool,
                          isClockSkewed: bool, now: int)
    ensures Logout in DispatchEffects(handler, m, needsJobRestoration, isClockSkewed, now)
      <==> NeedsLogout(m, isClockSkewed)
  {
    var prefix: seq<Effect> := match handler
      case Some(h) => InvocationEffects(m.id, h, ResultOf(m), needsJobRestoration, now)
      case None => [];
    assert Logout !in prefix;
    assert DispatchEffects(handler, m, needsJobRestoration, isClockSkewed, now) == prefix + FrameEffects(m, isClockSkewed);
  }

  /** `order` lists every id of `handlers` exactly once. */
  predicate IsOrderOf(order: seq<string>, handlers: map<string, Handler>) {
    && (forall i :: 0 <= i < |order| ==> order[i] in handlers)
    && (forall id :: id in handlers ==> id in order)
    && (forall i, j :: 0 <= i < j < |order| ==> order[i] != order[j])
  }

  /**
   * Part way through taking the handlers one by one: `pending` still holds the
   * unchanged rest, and `order` lists the taken ones, each once.
   */
  predicate OrderSoFar(order: seq<string>, pending: map<string, Handler>, handlers: map<string, Handler>) {
    && (forall id :: id in pending ==> id in handlers && pending[id] == handlers[id])
    && (forall i :: 0 <= i < |order| ==> order[i] in handlers && order[i] !in pending)
    && (forall id :: id in handlers ==> id in pending || id in order)
    && (forall i, j :: 0 <= i < j < |order| ==> order[i] != order[j])
  }

  /** Taking one more pending handler keeps the bookkeeping. */
  lemma OrderStep(order: seq<string>, pending: map<string, Handler>, handlers: map<string, Handler>, id: string)
    requires OrderSoFar(order, pending, handlers) && id in pending
    ensures OrderSoFar(order + [id], pending - {id}, handlers)
  {
  }

  /** Once nothing is pending, the taken handlers are an order of all of them. */
  lemma OrderDone(order: seq<string>, handlers: map<string, Handler>)
    requires OrderSoFar(order, map[], handlers)
    ensures IsOrderOf(order, handlers)
  {
  }

  /** The timeout failures of the handlers taken in `order`, one after the other. */
  function TimeoutEffects(order: seq<string>, handlers: map<string, Handler>, now: int): seq<Effect>
    requires forall i :: 0 <= i < |order| ==> order[i] in handlers
  {
    if order == [] then []
    else
      var id := order[|order| - 1];
      TimeoutEffects(order[..|order| - 1], handlers, now)
      + InvocationEffects(id, handlers[id], Failed(TimedOut), false, now)
  }

  lemma TimeoutEffectsSnoc(order: seq<string>, id: string, handlers: map<string, Handler>, now: int)
    requires forall i :: 0 <= i < |order| ==> order[i] in handlers
    requires id in handlers
    ensures forall i :: 0 <= i < |order + [id]| ==> (order + [id])[i] in handlers
    ensures TimeoutEffects(order + [id], handlers, now)
      == TimeoutEffects(order, handlers, now) + InvocationEffects(id, handlers[id], Failed(TimedOut), false, now)
  {
    assert (order + [id])[..|order|] == order;
  }

  /** A failed handler does the same whether or not a restoration is due. */
  lemma FailureIgnoresRestoration(id: string, h: Handler, error: ApiError, needsJobRestoration: bool, now: int)
    ensures InvocationEffects(id, h, Failed(error), needsJobRestoration, now) == InvocationEffects(id, h, Failed(error), false, now)
  {
  }

  lemma AppendAssociates(a: seq<Effect>, b: seq<Effect>, c: seq<Effect>)
    ensures a + (b + c) == (a + b) + c
  {
  }

  /**
   * Timing out handlers invokes exactly those handlers, in that order, each
   * with a timeout failure; the only other effect is the pending-messages retry.
   */
  lemma {:induction false} TimeoutEffectsDeliver(order: seq<string>, handlers: map<string, Handler>, now: int)
    requires forall i :: 0 <= i < |order| ==> order[i] in handlers
    ensures Delivered(TimeoutEffects(order, handlers, now)) == order
    ensures forall e :: e in TimeoutEffects(order, handlers, now) ==>
      (e.Deliver? && e.result == Failed(TimedOut)) || e == ScheduleListPendingRetry(now + ListPendingRetryDelay)
  {
    if order != [] {
      var init := order[..|order| - 1];
      var id := order[|order| - 1];
      var inv := InvocationEffects(id, handlers[id], Failed(TimedOut), false, now);
      TimeoutEffectsDeliver(init, handlers, now);
      InvocationDeliversOnce(id, handlers[id], Failed(TimedOut), false, now);
      assert forall e :: e in inv ==> e == Deliver(id, Failed(TimedOut)) || e == ScheduleListPendingRetry(now + ListPendingRetryDelay);
      DeliveredAppend(TimeoutEffects(init, handlers, now), inv);
      assert order == init + [id];
    }
  }

  /** What a reconnect's teardown does, given the order the handlers were taken in. */
  function TearDownEffects(order: seq<string>, handlers: map<string, Handler>, now: int,
                           sendDisconnectToRemote: bool, hasSocket: bool): seq<Effect>
    requires forall i :: 0 <= i < |order| ==> order[i] in handlers
  {
    [ResetPrekeyRefreshRecords] + TimeoutEffects(order, handlers, now) + ShutdownEffects(sendDisconnectToRemote, hasSocket)
  }

  /** Everything a reconnect does: the teardown, then the connection attempt when it connects at once. */
  function ReconnectEffects(order: seq<string>, handlers: map<string, Handler>, now: int,
                            sendDisconnectToRemote: bool, hasSocket: bool, connectNow: bool, env: Environment): seq<Effect>
    requires forall i :: 0 <= i < |order| ==> order[i] in handlers
  {
    TearDownEffects(order, handlers, now, sendDisconnectToRemote, hasSocket)
    + (if connectNow then ConnectEffects(env, Disconnected) else [])
  }

  /** A teardown invokes exactly the handlers of its order, in that order. */
  lemma TearDownDeliversOrder(order: seq<string>, handlers: map<string, Handler>, now: int,
                              sendDisconnectToRemote: bool, hasSocket: bool)
    requires forall i :: 0 <= i < |order| ==> order[i] in handlers
    ensures Delivered(TearDownEffects(order, handlers, now, sendDisconnectToRemote, hasSocket)) == order
  {
    var t := TimeoutEffects(order, handlers, now);
    var d := ShutdownEffects(sendDisconnectToRemote, hasSocket);
    TimeoutEffectsDeliver(order, handlers, now);
    assert NoDeliveries(d);
    NothingDelivered(d);
    DeliveredAppend([ResetPrekeyRefreshRecords] + t, d);
    DeliveredAppend([ResetPrekeyRefreshRecords], t);
    assert Delivered([ResetPrekeyRefreshRecords]) == [];
  }

  /**
   * Every handler a teardown invokes gets a timeout failure, and the socket
   * is closed with the failure code only when told to and a socket exists.
   */
  lemma TearDownFailsHandlers(order: seq<string>, handlers: map<string, Handler>, now: int,
                              sendDisconnectToRemote: bool, hasSocket: bool)
    requires forall i :: 0 <= i < |order| ==> order[i] in handlers
    ensures var r := TearDownEffects(order, handlers, now, sendDisconnectToRemote, hasSocket);
      forall e :: e in r && e.Deliver? ==> e.result == Failed(TimedOut)
    ensures CloseSocket(Failure) in TearDownEffects(order, handlers, now, sendDisconnectToRemote, hasSocket)
      <==> sendDisconnectToRemote && hasSocket
  {
    var t := TimeoutEffects(order, handlers, now);
    var d := ShutdownEffects(sendDisconnectToRemote, hasSocket);
    TimeoutEffectsDeliver(order, handlers, now);
    assert TearDownEffects(order, handlers, now, sendDisconnectToRemote, hasSocket) == [ResetPrekeyRefreshRecords] + t + d;
    assert CloseSocket(Failure) !in t;
  }

  /**
   * A reconnect invokes exactly the handlers of its order, each with a
   * timeout failure, and closes the socket with the failure code only when
   * told to and a socket exists.
   */
  lemma ReconnectDeliversOrder(order: seq<string>, handlers: map<string, Handler>, now: int,
                               sendDisconnectToRemote: bool, hasSocket: bool, connectNow: bool, env: Environment)
    requires forall i :: 0 <= i < |order| ==> order[i] in handlers
    ensures Delivered(ReconnectEffects(order, handlers, now, sendDisconnectToRemote, hasSocket, connectNow, env)) == order
    ensures var r := ReconnectEffects(order, handlers, now, sendDisconnectToRemote, hasSocket, connectNow, env);
      forall e :: e in r && e.Deliver? ==> e.result == Failed(TimedOut)
    ensures CloseSocket(Failure) in ReconnectEffects(order, handlers, now, sendDisconnectToRemote, hasSocket, connectNow, env)
      <==> sendDisconnectToRemote && hasSocket
  {
    var c := if connectNow then ConnectEffects(env, Disconnected) else [];
    TearDownDeliversOrder(order, handlers, now, sendDisconnectToRemote, hasSocket);
    TearDownFailsHandlers(order, handlers, now, sendDisconnectToRemote, hasSocket);
    assert forall e :: e in c ==> e == OpenSocket || e == PostDidDisconnect;
    NothingDelivered(c);
    DeliveredAppend(TearDownEffects(order, handlers, now, sendDisconnectToRemote, hasSocket), c);
  }

  lemma AppendFour(a: seq<Effect>, b: seq<Effect>, c: seq<Effect>, d: seq<Effect>)
    ensures a + b + c + d == a + (b + c + d)
  {
  }

  // ---------------------------------------------------------------------
  // The service

  class WebSocketService {
    var status: Status
    /** Whether a socket (and its heartbeat) has been created; it is never released. */
    var hasSocket: bool
    var networkWasReachableOnConnection: bool
    var messageHandlers: map<string, Handler>
    var needsJobRestoration: bool
    var httpUpgradeSigningDate: int
    var lastConnectionDate: int
    var connectOnNetworkIsReachable: bool

    /** The effects so far. */
    ghost var log: seq<Effect>
    /** Job restorations since the last cancellation of all jobs (which only a disconnect does). */
    ghost var restorations: nat

    /** A live connection has a socket, and a socket was only opened on a reachable network. */
    predicate ConnectionConsistent()
      reads this`status, this`hasSocket, this`networkWasReachableOnConnection
    {
      (status != Disconnected ==> hasSocket) && (hasSocket ==> networkWasReachableOnConnection)
    }

    /** Jobs are restored at most once between disconnects, and not at all while a restoration is still due. */
    ghost predicate RestoresOnce()
      reads this`restorations, this`needsJobRestoration
    {
      restorations <= 1 && (needsJobRestoration ==> restorations == 0)
    }

    ghost predicate Valid()
      reads this`status, this`hasSocket, this`networkWasReachableOnConnection,
        this`restorations, this`needsJobRestoration
    {
      ConnectionConsistent() && RestoresOnce()
    }

    /**
     * The socket, reachability and date fields after a connect attempt from
     * the given old values: an attempt that opened a socket (`didOpen`) records a
     * reachable network and stamps both dates with `now`; otherwise nothing moved.
     */
    predicate ConnectionFields(didOpen: bool, now: int, hadSocket: bool, wasReachable: bool, lastDate: int, signingDate: int)
      reads this`hasSocket, this`networkWasReachableOnConnection, this`lastConnectionDate, this`httpUpgradeSigningDate
    {
      if didOpen then
        hasSocket && networkWasReachableOnConnection && lastConnectionDate == now && httpUpgradeSigningDate == now
      else
        hasSocket == hadSocket && networkWasReachableOnConnection == wasReachable
        && lastConnectionDate == lastDate && httpUpgradeSigningDate == signingDate
    }

    constructor(now: int)
      ensures Valid()
      ensures status == Disconnected && !hasSocket && !networkWasReachableOnConnection
      ensures messageHandlers == map[] && needsJobRestoration && !connectOnNetworkIsReachable
      ensures httpUpgradeSigningDate == now && lastConnectionDate == now
      ensures log == [] && restorations == 0
    {
      status := Disconnected;
      hasSocket := false;
      networkWasReachableOnConnection := false;
      messageHandlers := map[];
      needsJobRestoration := true;
      httpUpgradeSigningDate := now;
      lastConnectionDate := now;
      connectOnNetworkIsReachable := false;
      log := [];
      restorations := 0;
    }

    /**
     * The service reports itself connected exactly in the connected state,
     * and a consistent service that does has a socket opened on a reachable network.
     */
    function IsConnected(): (r: bool)
      reads this`status, this`hasSocket, this`networkWasReachableOnConnection
      ensures r <==> status == Connected
      ensures ConnectionConsistent() && r ==> hasSocket && networkWasReachableOnConnection
    {
      status == Connected
    }

    /**
     * Opens a connection when logged in, reachable, disconnected, with a valid
     * host (and, in the app extension, when it may process messages). An
     * unreachable network only announces the disconnection.
     */
    method Connect(env: Environment, now: int)
      requires ConnectionConsistent()
      modifies this`status, this`hasSocket, this`networkWasReachableOnConnection,
        this`lastConnectionDate, this`httpUpgradeSigningDate, this`log
      ensures ConnectionConsistent()
      ensures log == old(log) + ConnectEffects(env, old(status))
      ensures status == (if ConnectProceeds(env, old(status)) then Connecting else old(status))
      ensures ConnectionFields(ConnectProceeds(env, old(status)), now, old(hasSocket),
        old(networkWasReachableOnConnection), old(lastConnectionDate), old(httpUpgradeSigningDate))
    {
      if ConnectProceeds(env, status) {
        status := Connecting;
        hasSocket := true;
        networkWasReachableOnConnection := env.isReachable;
        lastConnectionDate := now;
        httpUpgradeSigningDate := now;
        log := log + [OpenSocket];
      } else if env.isLoggedIn && !env.isReachable {
        log := log + [PostDidDisconnect];
      }
    }

    /**
     * Closes a connecting or connected service with the exit code: the
     * heartbeat stops, all jobs are cancelled, the waiting handlers are
     * discarded without being invoked, and a later restoration is due.
     */
    method Disconnect()
      requires Valid()
      modifies this`status, this`messageHandlers, this`needsJobRestoration, this`connectOnNetworkIsReachable,
        this`log, this`restorations
      ensures Valid()
      ensures old(status) == Disconnected ==> unchanged(this)
      ensures old(status) != Disconnected ==>
        && status == Disconnected && messageHandlers == map[] && needsJobRestoration
        && !connectOnNetworkIsReachable && restorations == 0
        && log == old(log) + DisconnectEffects
    {
      if status != Disconnected {
        connectOnNetworkIsReachable := false;
        log := log + DisconnectEffects;
        needsJobRestoration := true;
        restorations := 0;
        messageHandlers := map[];
        status := Disconnected;
      }
    }

    /**
     * Connects when disconnected, and tears down a connection the socket no
     * longer reports as connected; neither without login and reachability.
     */
    method ConnectIfNeeded(env: Environment, socketIsConnected: bool, now: int) returns (ghost order: seq<string>)
      requires Valid()
      modifies this`status, this`hasSocket, this`networkWasReachableOnConnection, this`lastConnectionDate,
        this`httpUpgradeSigningDate, this`log, this`messageHandlers, this`connectOnNetworkIsReachable,
        this`needsJobRestoration, this`restorations
      ensures Valid()
      ensures (!(env.isLoggedIn && env.isReachable) || old(status) == Connecting
               || (old(status) == Connected && old(hasSocket) && socketIsConnected)) ==> unchanged(this)
      ensures env.isLoggedIn && env.isReachable && old(status) == Disconnected ==>
        && log == old(log) + ConnectEffects(env, Disconnected) && messageHandlers == old(messageHandlers)
        && status == (if ConnectProceeds(env, Disconnected) then Connecting else Disconnected)
        && connectOnNetworkIsReachable == old(connectOnNetworkIsReachable)
        && ConnectionFields(ConnectProceeds(env, Disconnected), now, old(hasSocket), old(networkWasReachableOnConnection), old(lastConnectionDate), old(httpUpgradeSigningDate))
      ensures env.isLoggedIn && env.isReachable && old(status) == Connected && !(old(hasSocket) && socketIsConnected) ==>
        var connectNow := ShouldConnectImmediately(env, old(networkWasReachableOnConnection), old(lastConnectionDate), now);
        && IsOrderOf(order, old(messageHandlers)) && messageHandlers == map[]
        && log == old(log) + ReconnectEffects(order, old(messageHandlers), now, true, old(hasSocket), connectNow, env)
        && connectOnNetworkIsReachable == !connectNow && needsJobRestoration == old(needsJobRestoration)
        && status == (if connectNow && ConnectProceeds(env, Disconnected) then Connecting else Disconnected)
        && ConnectionFields(connectNow && ConnectProceeds(env, Disconnected), now, old(hasSocket), old(networkWasReachableOnConnection), old(lastConnectionDate), old(httpUpgradeSigningDate))
    {
      order := [];
      if env.isLoggedIn && env.isReachable {
        if status == Disconnected {
          Connect(env, now);
        } else if status == Connected && !(hasSocket && socketIsConnected) {
          order := Reconnect(true, env, now);
        }
      }
    }

    /** Invokes one handler that was just taken out of the table. */
    method InvokeHandler(id: string, h: Handler, result: HandlerResult, now: int)
      requires RestoresOnce()
      modifies this`log, this`needsJobRestoration, this`restorations
      ensures RestoresOnce()
      ensures log == old(log) + InvocationEffects(id, h, result, old(needsJobRestoration), now)
      ensures restorations == old(restorations) + (if RestoreJobs in HandlerEffects(h, result, old(needsJobRestoration), now) then 1 else 0)
      ensures needsJobRestoration == (old(needsJobRestoration) && !(h == ListPendingMessagesHandler && result.Succeeded?))
    {
      if RestoreJobs in HandlerEffects(h, result, needsJobRestoration, now) {
        restorations := restorations + 1;
      }
      log := log + InvocationEffects(id, h, result, needsJobRestoration, now);
      if h == ListPendingMessagesHandler && result.Succeeded? {
        needsJobRestoration := false;
      }
    }

    /** A send needs a socket and an established connection; the frame must also encode. */
    method Send(id: string, encodes: bool) returns (sent: bool)
      modifies this`log
      ensures sent <==> hasSocket && status == Connected && encodes
      ensures log == old(log) + (if sent then [SendFrame(id)] else [])
    {
      sent := hasSocket && status == Connected && encodes;
      if sent {
        log := log + [SendFrame(id)];
      }
    }

    /**
     * A blocking request: unless logged out, a response waiter is registered
     * under the request's id and the request is sent; if the send fails the
     * waiter is removed again and the request fails with a timeout. The wait
     * for the response is left to the inbound frames.
     */
    method RespondedMessage(id: string, isLoggedIn: bool, encodes: bool) returns (outcome: RequestOutcome)
      modifies this`messageHandlers, this`log
      ensures !isLoggedIn ==> outcome == NotLoggedIn && unchanged(this)
      ensures isLoggedIn && outcome == AwaitingResponse ==>
        && hasSocket && status == Connected && encodes
        && messageHandlers == old(messageHandlers)[id := ResponseWaiter] && log == old(log) + [SendFrame(id)]
      ensures isLoggedIn && outcome != AwaitingResponse ==>
        && outcome == SendFailed(TimedOut) && !(hasSocket && status == Connected && encodes)
        && messageHandlers == old(messageHandlers) - {id} && log == old(log)
    {
      if !isLoggedIn {
        return NotLoggedIn;
      }
      messageHandlers := messageHandlers[id := ResponseWaiter];
      var sent := Send(id, encodes);
      if sent {
        outcome := AwaitingResponse;
      } else {
        messageHandlers := messageHandlers - {id};
        outcome := SendFailed(TimedOut);
      }
    }

    /** Asks the server for the pending messages; the handler stays registered even when the send fails. */
    method RequestListPendingMessages(id: string, encodes: bool)
      modifies this`messageHandlers, this`log
      ensures messageHandlers == old(messageHandlers)[id := ListPendingMessagesHandler]
      ensures log == old(log) + (if hasSocket && status == Connected && encodes then [SendFrame(id)] else [])
    {
      messageHandlers := messageHandlers[id := ListPendingMessagesHandler];
      var _ := Send(id, encodes);
    }

    /** The retry two seconds after a failed pending-messages request runs only while the socket reports connected. */
    method ListPendingRetryFired(id: string, socketIsConnected: bool, encodes: bool)
      modifies this`messageHandlers, this`log
      ensures !(hasSocket && socketIsConnected) ==> unchanged(this)
      ensures hasSocket && socketIsConnected ==>
        && messageHandlers == old(messageHandlers)[id := ListPendingMessagesHandler]
        && log == old(log) + (if status == Connected && encodes then [SendFrame(id)] else [])
    {
      if hasSocket && socketIsConnected {
        RequestListPendingMessages(id, encodes);
      }
    }

    /** A pong reaches the heartbeat, if there is one. */
    method WebsocketDidReceivePong()
      modifies this`log
      ensures log == old(log) + (if hasSocket then [HeartbeatPong] else [])
    {
      if hasSocket {
        log := log + [HeartbeatPong];
      }
    }

    /**
     * The handshake completed: ignored unless connecting. A skewed server time
     * never leads to the connected state: a stale signing date reconnects
     * with a remote close, otherwise the clock is marked skewed and the service
     * disconnects. An accepted handshake connects, asks for the pending
     * messages under `listPendingId` and schedules the refresh jobs.
     */
    method WebsocketDidConnect(serverTime: Option<int>, prekeyRefreshDate: Option<int>, env: Environment, now: int,
                               listPendingId: string, encodes: bool) returns (ghost order: seq<string>)
      requires Valid()
      modifies this`status, this`hasSocket, this`networkWasReachableOnConnection, this`lastConnectionDate,
        this`httpUpgradeSigningDate, this`log, this`messageHandlers, this`connectOnNetworkIsReachable,
        this`needsJobRestoration, this`restorations
      ensures Valid()
      ensures old(status) != Connecting ==> unchanged(this)
      ensures old(status) == Connecting && Skewed(serverTime, old(httpUpgradeSigningDate)) ==>
        status != Connected && messageHandlers == map[]
      ensures old(status) == Connecting && HandshakeVerdict(serverTime, old(httpUpgradeSigningDate), now) == ClockSkew ==>
        && status == Disconnected && needsJobRestoration && !connectOnNetworkIsReachable
        && log == old(log) + [SetClockSkewed] + DisconnectEffects + [PostClockSkewDetected]
        && ConnectionFields(false, now, old(hasSocket), old(networkWasReachableOnConnection), old(lastConnectionDate), old(httpUpgradeSigningDate))
      ensures old(status) == Connecting && HandshakeVerdict(serverTime, old(httpUpgradeSigningDate), now) == ReconnectStale ==>
        var connectNow := ShouldConnectImmediately(env, old(networkWasReachableOnConnection), old(lastConnectionDate), now);
        && IsOrderOf(order, old(messageHandlers))
        && log == old(log) + ReconnectEffects(order, old(messageHandlers), now, true, true, connectNow, env)
        && connectOnNetworkIsReachable == !connectNow && needsJobRestoration == old(needsJobRestoration)
        && status == (if connectNow && ConnectProceeds(env, Disconnected) then Connecting else Disconnected)
        && ConnectionFields(connectNow && ConnectProceeds(env, Disconnected), now, old(hasSocket), old(networkWasReachableOnConnection), old(lastConnectionDate), old(httpUpgradeSigningDate))
      ensures old(status) == Connecting && HandshakeVerdict(serverTime, old(httpUpgradeSigningDate), now) == Accept ==>
        && status == Connected
        && messageHandlers == old(messageHandlers)[listPendingId := ListPendingMessagesHandler]
        && log == old(log) + [PostDidConnect, ProcessReceivedMessages]
                 + (if encodes then [SendFrame(listPendingId)] else []) + AcceptTail(prekeyRefreshDate, now)
        && connectOnNetworkIsReachable == old(connectOnNetworkIsReachable)
        && needsJobRestoration == old(needsJobRestoration) && restorations == old(restorations)
        && ConnectionFields(false, now, old(hasSocket), old(networkWasReachableOnConnection), old(lastConnectionDate), old(httpUpgradeSigningDate))
    {
      order := [];
      if status == Connecting {
        match HandshakeVerdict(serverTime, httpUpgradeSigningDate, now)
        case ReconnectStale =>
          order := Reconnect(true, env, now);
        case ClockSkew =>
          log := log + [SetClockSkewed];
          Disconnect();
          log := log + [PostClockSkewDetected];
        case Accept =>
          AcceptHandshake(prekeyRefreshDate, now, listPendingId, encodes);
      }
    }

    /**
     * An accepted handshake on a connecting service: connected, asks for the
     * pending messages under `listPendingId`, and schedules the refresh jobs.
     */
    method AcceptHandshake(prekeyRefreshDate: Option<int>, now: int, listPendingId: string, encodes: bool)
      requires ConnectionConsistent() && status == Connecting
      modifies this`status, this`log, this`messageHandlers
      ensures ConnectionConsistent() && status == Connected
      ensures messageHandlers == old(messageHandlers)[listPendingId := ListPendingMessagesHandler]
      ensures log == old(log) + [PostDidConnect, ProcessReceivedMessages]
                 + (if encodes then [SendFrame(listPendingId)] else []) + AcceptTail(prekeyRefreshDate, now)
    {
      status := Connected;
      log := log + [PostDidConnect, ProcessReceivedMessages];
      RequestListPendingMessages(listPendingId, encodes);
      log := log + AcceptTail(prekeyRefreshDate, now);
    }

    /** The socket closed: ignored unless connecting or connected; a network switch changes host first. */
    method WebsocketDidDisconnect(isSwitchNetwork: bool, env: Environment, now: int) returns (ghost order: seq<string>)
      requires Valid()
      modifies this`status, this`hasSocket, this`networkWasReachableOnConnection, this`lastConnectionDate,
        this`httpUpgradeSigningDate, this`log, this`messageHandlers, this`connectOnNetworkIsReachable,
        this`needsJobRestoration, this`restorations
      ensures Valid()
      ensures old(status) == Disconnected ==> unchanged(this)
      ensures old(status) != Disconnected ==>
        var connectNow := ShouldConnectImmediately(env, old(networkWasReachableOnConnection), old(lastConnectionDate), now);
        && IsOrderOf(order, old(messageHandlers)) && messageHandlers == map[]
        && log == old(log) + (if isSwitchNetwork then [ToggleHost] else [])
                 + ReconnectEffects(order, old(messageHandlers), now, false, old(hasSocket), connectNow, env)
        && connectOnNetworkIsReachable == !connectNow && needsJobRestoration == old(needsJobRestoration)
        && status == (if connectNow && ConnectProceeds(env, Disconnected) then Connecting else Disconnected)
        && ConnectionFields(connectNow && ConnectProceeds(env, Disconnected), now, old(hasSocket), old(networkWasReachableOnConnection), old(lastConnectionDate), old(httpUpgradeSigningDate))
    {
      order := [];
      if status != Disconnected {
        if isSwitchNetwork {
          log := log + [ToggleHost];
        }
        order := Reconnect(false, env, now);
      }
    }

    /**
     * The debounce across two closes of the socket: when the first close
     * reconnects at once and a socket is opened, a second close less than a
     * second later does not reconnect but leaves the service waiting for the
     * network.
     */
    method CloseTwiceWithinDebounce(env: Environment, first: int, second: int)
      requires Valid() && status != Disconnected
      requires ShouldConnectImmediately(env, networkWasReachableOnConnection, lastConnectionDate, first)
      requires ConnectProceeds(env, Disconnected)
      requires first <= second < first + ReconnectDebounce
      modifies this`status, this`hasSocket, this`networkWasReachableOnConnection, this`lastConnectionDate,
        this`httpUpgradeSigningDate, this`log, this`messageHandlers, this`connectOnNetworkIsReachable,
        this`needsJobRestoration, this`restorations
      ensures Valid()
      ensures status == Disconnected && connectOnNetworkIsReachable && messageHandlers == map[]
      ensures lastConnectionDate == first
    {
      ghost var firstOrder: seq<string>;
      ghost var secondOrder: seq<string>;
      firstOrder := WebsocketDidDisconnect(false, env, first);
      secondOrder := WebsocketDidDisconnect(false, env, second);
    }

    /**
     * A decoded inbound frame (`None` when it is not gzip data or does not
     * decode): the handler waiting for its id is removed and invoked, then an
     * error frame may log out and a data frame is received or acknowledged.
     */
    method WebsocketDidReceiveData(frame: Option<BlazeMessage>, isClockSkewed: bool, now: int)
      requires RestoresOnce()
      modifies this`messageHandlers, this`log, this`needsJobRestoration, this`restorations
      ensures RestoresOnce()
      ensures frame.None? ==> unchanged(this)
      ensures frame.Some? ==>
        && messageHandlers == old(messageHandlers) - {frame.value.id}
        && log == old(log) + DispatchEffects(Lookup(old(messageHandlers), frame.value.id), frame.value,
                                             old(needsJobRestoration), isClockSkewed, now)
    {
      if frame.None? {
        return;
      }
      var m := frame.value;
      var handler := Lookup(messageHandlers, m.id);
      if handler.Some? {
        messageHandlers := messageHandlers - {m.id};
        InvokeHandler(m.id, handler.value, ResultOf(m), now);
      }
      log := log + FrameEffects(m, isClockSkewed);
    }

    /** A reachability change connects only when logged in, reachable, and a connection was deferred to it. */
    method NetworkBecomesReachable(env: Environment, now: int)
      requires ConnectionConsistent()
      modifies this`status, this`hasSocket, this`networkWasReachableOnConnection,
        this`lastConnectionDate, this`httpUpgradeSigningDate, this`log
      ensures ConnectionConsistent()
      ensures !(env.isLoggedIn && env.isReachable && old(connectOnNetworkIsReachable)) ==> unchanged(this)
      ensures env.isLoggedIn && env.isReachable && old(connectOnNetworkIsReachable) ==>
        && log == old(log) + ConnectEffects(env, old(status))
        && status == (if ConnectProceeds(env, old(status)) then Connecting else old(status))
        && ConnectionFields(ConnectProceeds(env, old(status)), now, old(hasSocket), old(networkWasReachableOnConnection), old(lastConnectionDate), old(httpUpgradeSigningDate))
    {
      if env.isLoggedIn && env.isReachable && connectOnNetworkIsReachable {
        Connect(env, now);
      }
    }

    /** Fails every waiting handler with a timeout, in some order, and empties the table. */
    method TimeOutHandlers(now: int) returns (ghost order: seq<string>)
      requires RestoresOnce()
      modifies this`log, this`messageHandlers, this`needsJobRestoration, this`restorations
      ensures RestoresOnce()
      ensures messageHandlers == map[]
      ensures IsOrderOf(order, old(messageHandlers))
      ensures log == old(log) + TimeoutEffects(order, old(messageHandlers), now)
      ensures needsJobRestoration == old(needsJobRestoration) && restorations == old(restorations)
    {
      var pending := messageHandlers;
      order := [];
      while pending != map[]
        invariant OrderSoFar(order, pending, old(messageHandlers))
        invariant log == old(log) + TimeoutEffects(order, old(messageHandlers), now)
        invariant needsJobRestoration == old(needsJobRestoration) && restorations == old(restorations)
        decreases pending.Keys
      {
        var id :| id in pending;
        var h := pending[id];
        TimeoutEffectsSnoc(order, id, old(messageHandlers), now);
        FailureIgnoresRestoration(id, h, TimedOut, needsJobRestoration, now);
        AppendAssociates(old(log), TimeoutEffects(order, old(messageHandlers), now),
          InvocationEffects(id, h, Failed(TimedOut), false, now));
        InvokeHandler(id, h, Failed(TimedOut), now);
        OrderStep(order, pending, old(messageHandlers), id);
        pending := pending - {id};
        order := order + [id];
      }
      OrderDone(order, old(messageHandlers));
      messageHandlers := map[];
    }

    /**
     * The first half of a reconnect: every waiting handler fails with a
     * timeout (in `order`, each exactly once) and the table is emptied, jobs
     * are suspended, the heartbeat stops, the socket is closed with the
     * failure code when the remote side is to be told, and the service
     * becomes disconnected.
     */
    method TearDown(sendDisconnectToRemote: bool, now: int) returns (ghost order: seq<string>)
      requires Valid()
      modifies this`status, this`log, this`messageHandlers, this`needsJobRestoration, this`restorations
      ensures Valid()
      ensures status == Disconnected && messageHandlers == map[] && IsOrderOf(order, old(messageHandlers))
      ensures needsJobRestoration == old(needsJobRestoration) && restorations == old(restorations)
      ensures log == old(log) + TearDownEffects(order, old(messageHandlers), now, sendDisconnectToRemote, hasSocket)
    {
      log := log + [ResetPrekeyRefreshRecords];
      order := TimeOutHandlers(now);
      ghost var t := TimeoutEffects(order, old(messageHandlers), now);
      ghost var d := ShutdownEffects(sendDisconnectToRemote, hasSocket);
      log := log + d;
      status := Disconnected;
      AppendFour(old(log), [ResetPrekeyRefreshRecords], t, d);
    }

    /**
     * Tears the connection down, then connects at once when the network
     * allows it and otherwise waits for the network.
     */
    method Reconnect(sendDisconnectToRemote: bool, env: Environment, now: int) returns (ghost order: seq<string>)
      requires Valid()
      modifies this`status, this`hasSocket, this`networkWasReachableOnConnection, this`lastConnectionDate,
        this`httpUpgradeSigningDate, this`log, this`messageHandlers, this`connectOnNetworkIsReachable,
        this`needsJobRestoration, this`restorations
      ensures Valid()
      ensures messageHandlers == map[] && IsOrderOf(order, old(messageHandlers))
      ensures needsJobRestoration == old(needsJobRestoration) && restorations == old(restorations)
      ensures var connectNow := ShouldConnectImmediately(env, old(networkWasReachableOnConnection), old(lastConnectionDate), now);
        && log == old(log) + ReconnectEffects(order, old(messageHandlers), now, sendDisconnectToRemote, old(hasSocket),
                                              connectNow, env)
        && connectOnNetworkIsReachable == !connectNow
        && status == (if connectNow && ConnectProceeds(env, Disconnected) then Connecting else Disconnected)
        && ConnectionFields(connectNow && ConnectProceeds(env, Disconnected), now, old(hasSocket), old(networkWasReachableOnConnection), old(lastConnectionDate), old(httpUpgradeSigningDate))
    {
      order := TearDown(sendDisconnectToRemote, now);
      ghost var front := TearDownEffects(order, old(messageHandlers), now, sendDisconnectToRemote, old(hasSocket));
      ghost var mid := log;
      var connectNow := ConnectOrWait(env, now);
      AppendAssociates(old(log), front, log[|mid|..]);
    }

    /**
     * The second half of a reconnect, on a disconnected service: connects
     * at once when the network allows it, and otherwise marks the service to
     * connect when the network becomes reachable.
     */
    method ConnectOrWait(env: Environment, now: int) returns (connectNow: bool)
      requires ConnectionConsistent() && status == Disconnected
      modifies this`status, this`hasSocket, this`networkWasReachableOnConnection, this`lastConnectionDate,
        this`httpUpgradeSigningDate, this`log, this`connectOnNetworkIsReachable
      ensures ConnectionConsistent()
      ensures connectNow == ShouldConnectImmediately(env, old(networkWasReachableOnConnection), old(lastConnectionDate), now)
      ensures log == old(log) + (if connectNow then ConnectEffects(env, Disconnected) else [])
      ensures connectOnNetworkIsReachable == !connectNow
      ensures status == (if connectNow && ConnectProceeds(env, Disconnected) then Connecting else Disconnected)
      ensures ConnectionFields(connectNow && ConnectProceeds(env, Disconnected), now, old(hasSocket), old(networkWasReachableOnConnection), old(lastConnectionDate), old(httpUpgradeSigningDate))
    {
      connectNow := ShouldConnectImmediately(env, networkWasReachableOnConnection, lastConnectionDate, now);
      if connectNow {
        connectOnNetworkIsReachable := false;
        Connect(env, now);
      } else {
        connectOnNetworkIsReachable := true;
      }
    }
  }
}
