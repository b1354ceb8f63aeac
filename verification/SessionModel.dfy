/**
 The WebSocket `session` as a state machine.

 `Control` holds the fields of the C++ object. The handlers are functions from a control state to an
 `Outcome`: the next control state and the command handed to `send`, if any. `World` adds what the
 session cannot see: the one outstanding write and the subscriptions the exchange holds for the
 connection.
 */
module SessionModel {
  import opened Wrappers

  type Stream = string

  datatype Verb = Subscribe | Unsubscribe

  datatype Command = Command(verb: Verb, params: set<Stream>)

  datatype ErrorCode = OperationAborted | HandshakeFailedOrSsl | OtherError

  datatype ErrorAction = Ignore | Reconnect | Fatal

  datatype Control = Control(
    live: set<Stream>,
    pendingSubs: set<Stream>,
    pendingUnsubs: set<Stream>,
    command: Option<Command>,
    inFlight: bool,
    subsInFlight: bool,
    unsubsInFlight: bool,
    connected: bool,
    connectedOnce: bool)

  datatype Outcome = Outcome(ctl: Control, sent: Option<Command>)

  const INITIAL_CONTROL := Control({}, {}, {}, None, false, false, false, false, false)

  // ---------------------------------------------------------------- handlers

  function ClassifyError(ec: ErrorCode, connectedOnce: bool): ErrorAction {
    if ec == OperationAborted then Ignore
    else if connectedOnce then Reconnect
    else if ec == HandshakeFailedOrSsl then Fatal
    else Reconnect
  }

  function Send(c: Control, cmd: Command): Outcome {
    Outcome(c.(inFlight := true), Some(cmd))
  }

  function SendPendingUnsubs(c: Control): Outcome {
    if c.pendingUnsubs == {} then Outcome(c, None)
    else Outcome(c.(inFlight := true, unsubsInFlight := true), Some(Command(Unsubscribe, c.pendingUnsubs)))
  }

  /** `if(!sendPendingSubs()) sendPendingUnsubs();` */
  function SendPending(c: Control): Outcome {
    if c.pendingSubs == {} then SendPendingUnsubs(c)
    else Outcome(c.(inFlight := true, subsInFlight := true), Some(Command(Subscribe, c.pendingSubs)))
  }

  function OnSubscribe(c: Control, stream: Stream): Outcome {
    if stream in c.live then Outcome(c, None)
    else
      var c1 := c.(live := c.live + {stream});
      if c.inFlight || !c.connected then
        if stream in c.pendingUnsubs then Outcome(c1.(pendingUnsubs := c.pendingUnsubs - {stream}), None)
        else Outcome(c1.(pendingSubs := c.pendingSubs + {stream}), None)
      else
        var cmd := Command(Subscribe, {stream});
        Send(c1.(command := Some(cmd)), cmd)
  }

  function OnUnsubscribe(c: Control, stream: Stream): Outcome {
    if stream !in c.live then Outcome(c, None)
    else
      var c1 := c.(live := c.live - {stream});
      if c.inFlight || !c.connected then
        if stream in c.pendingSubs then Outcome(c1.(pendingSubs := c.pendingSubs - {stream}), None)
        else Outcome(c1.(pendingUnsubs := c.pendingUnsubs + {stream}), None)
      else
        var cmd := Command(Unsubscribe, {stream});
        Send(c1.(command := Some(cmd)), cmd)
  }

  function OnError(c: Control, ec: ErrorCode): Control {
    match ClassifyError(ec, c.connectedOnce)
    case Ignore => c
    case Fatal => c
    case Reconnect => c.(inFlight := false, subsInFlight := false, unsubsInFlight := false, connected := false)
  }

  function OnWriteError(c: Control, ec: ErrorCode): Control {
    OnError(c.(inFlight := false, subsInFlight := false, unsubsInFlight := false), ec)
  }

  function OnWriteOk(c: Control): Outcome {
    var c1 := c.(inFlight := false);
    if c1.command.Some? then SendPending(c1.(command := None))
    else if c1.subsInFlight then SendPendingUnsubs(c1.(subsInFlight := false, pendingSubs := {}))
    else if c1.unsubsInFlight then SendPending(c1.(unsubsInFlight := false, pendingUnsubs := {}))
    else Outcome(c1, None)
  }

  function OnHandshake(c: Control): Outcome {
    var c1 := c.(connected := true, connectedOnce := true,
                 pendingSubs := c.pendingSubs + (c.live - c.pendingUnsubs),
                 pendingUnsubs := c.pendingUnsubs - c.live);
    if c1.command.Some? then Send(c1, c1.command.value) else SendPending(c1)
  }

  // ---------------------------------------------------------------- runs

  datatype Event =
    | SubscribeCall(stream: Stream)
    | UnsubscribeCall(stream: Stream)
    | WriteOk
    | WriteError(ec: ErrorCode)
    | ConnectionError(ec: ErrorCode)
    | HandshakeOk

  datatype World = World(ctl: Control, token: Option<Command>, exchange: set<Stream>)

  const INITIAL := World(INITIAL_CONTROL, None, {})

  /** What the exchange makes of one command. */
  function Apply(cmd: Command, exchange: set<Stream>): set<Stream> {
    match cmd.verb
    case Subscribe => exchange + cmd.params
    case Unsubscribe => exchange - cmd.params
  }

  /** The events the network can deliver. A write completes only while one is outstanding; an aborted write
      is the echo of the session's own close; the outstanding write is gone before the next handshake.
      A completion, good or bad, may still arrive after the connection was lost. */
  predicate Enabled(w: World, e: Event) {
    match e
    case WriteOk => w.token.Some?
    case WriteError(ec) => w.token.Some? && (ec == OperationAborted ==> !w.ctl.connected)
    case HandshakeOk => !w.ctl.connected && w.token.None?
    case _ => true
  }

  function Handle(c: Control, e: Event): Outcome {
    match e
    case SubscribeCall(stream) => OnSubscribe(c, stream)
    case UnsubscribeCall(stream) => OnUnsubscribe(c, stream)
    case WriteOk => OnWriteOk(c)
    case WriteError(ec) => Outcome(OnWriteError(c, ec), None)
    case ConnectionError(ec) => Outcome(OnError(c, ec), None)
    case HandshakeOk => OnHandshake(c)
  }

  /** The outstanding write that is left when `e` arrives, before the handler runs. */
  function Remaining(w: World, e: Event): Option<Command> {
    if e.WriteOk? || e.WriteError? then None else w.token
  }

  function Exchange(w: World, e: Event): set<Stream>
    requires Enabled(w, e)
  {
    match e
    case WriteOk => Apply(w.token.value, w.exchange)
    case HandshakeOk => {}
    case _ => w.exchange
  }

  function Step(w: World, e: Event): World
    requires Enabled(w, e)
  {
    var o := Handle(w.ctl, e);
    World(o.ctl, if o.sent.Some? then o.sent else Remaining(w, e), Exchange(w, e))
  }

  predicate Runnable(w: World, es: seq<Event>)
    decreases |es|
  {
    es == [] || (Enabled(w, es[0]) && Runnable(Step(w, es[0]), es[1..]))
  }

  function Run(w: World, es: seq<Event>): World
    requires Runnable(w, es)
    decreases |es|
  {
    if es == [] then w else Run(Step(w, es[0]), es[1..])
  }

  // ---------------------------------------------------------------- invariant

  /** What holds between any two handlers. */
  ghost predicate Valid(w: World) {
    var c := w.ctl;
    && c.pendingSubs <= c.live
    && c.pendingUnsubs !! c.live
    && (c.connected ==> c.connectedOnce)
    && (c.command.Some? ==> |c.command.value.params| == 1)
    && (c.inFlight || c.subsInFlight || c.unsubsInFlight ==> w.token.Some?)
    && !(c.subsInFlight && c.unsubsInFlight)
    && (c.subsInFlight || c.unsubsInFlight ==> c.command.None?)
    && (c.connected && !c.inFlight ==>
          w.token.None? && c.command.None? && c.pendingSubs == {} && c.pendingUnsubs == {})
    && (c.connected && c.inFlight ==>
          && (c.command.Some? ==> w.token == c.command)
          && (c.command.None? ==> c.subsInFlight || c.unsubsInFlight)
          && (c.subsInFlight ==> w.token.value.verb == Subscribe)
          && (c.unsubsInFlight ==> w.token.value.verb == Unsubscribe))
  }

  lemma SubscribeKeepsValid(w: World, stream: Stream)
    requires Valid(w)
    ensures Valid(Step(w, SubscribeCall(stream)))
    ensures OnSubscribe(w.ctl, stream).sent.Some? ==> w.token.None?
  {
  }

  lemma UnsubscribeKeepsValid(w: World, stream: Stream)
    requires Valid(w)
    ensures Valid(Step(w, UnsubscribeCall(stream)))
    ensures OnUnsubscribe(w.ctl, stream).sent.Some? ==> w.token.None?
  {
  }

  lemma WriteOkKeepsValid(w: World)
    requires Valid(w) && Enabled(w, WriteOk)
    ensures Valid(Step(w, WriteOk))
  {
  }

  lemma ErrorKeepsValid(w: World, e: Event)
    requires Valid(w) && Enabled(w, e) && (e.WriteError? || e.ConnectionError?)
    ensures Valid(Step(w, e))
  {
  }

  lemma HandshakeKeepsValid(w: World)
    requires Valid(w) && Enabled(w, HandshakeOk)
    ensures Valid(Step(w, HandshakeOk))
  {
  }

  /** Every handler keeps the invariant, and sends only when no write is outstanding. */
  lemma StepKeepsValid(w: World, e: Event)
    requires Valid(w) && Enabled(w, e)
    ensures Valid(Step(w, e))
    ensures Handle(w.ctl, e).sent.Some? ==> Remaining(w, e).None?
  {
    match e
    case SubscribeCall(stream) => SubscribeKeepsValid(w, stream);
    case UnsubscribeCall(stream) => UnsubscribeKeepsValid(w, stream);
    case WriteOk => WriteOkKeepsValid(w);
    case WriteError(_) => ErrorKeepsValid(w, e);
    case ConnectionError(_) => ErrorKeepsValid(w, e);
    case HandshakeOk => HandshakeKeepsValid(w);
  }

  lemma {:induction false} RunKeepsValid(w: World, es: seq<Event>)
    requires Valid(w) && Runnable(w, es)
    ensures Valid(Run(w, es))
    decreases |es|
  {
    if es != [] {
      StepKeepsValid(w, es[0]);
      RunKeepsValid(Step(w, es[0]), es[1..]);
    }
  }

  /** What holds in every reachable state, and when the next event arrives: the pending sets never contradict
      the live set; a connected session is either idle with nothing pending, or busy with exactly one of the
      single command, a subscribe batch and an unsubscribe batch; and no handler sends while a write is
      outstanding. */
  lemma ReachableStates(es: seq<Event>, e: Event)
    requires Runnable(INITIAL, es) && Enabled(Run(INITIAL, es), e)
    ensures var w := Run(INITIAL, es);
            var c := w.ctl;
            && c.pendingSubs <= c.live && c.pendingUnsubs !! c.live
            && (c.connected && !c.inFlight ==>
                  w.token.None? && c.command.None? && c.pendingSubs == {} && c.pendingUnsubs == {})
            && (c.connected && c.inFlight ==>
                  && w.token.Some?
                  && (|| (w.token == c.command && !c.subsInFlight && !c.unsubsInFlight)
                      || (c.command.None? && c.subsInFlight && !c.unsubsInFlight && w.token.value.verb == Subscribe)
                      || (c.command.None? && !c.subsInFlight && c.unsubsInFlight && w.token.value.verb == Unsubscribe)))
            && (Handle(c, e).sent.Some? ==> Remaining(w, e).None?)
  {
    RunKeepsValid(INITIAL, es);
    StepKeepsValid(Run(INITIAL, es), e);
  }

  // ---------------------------------------------------------------- what is never forgotten

  /** What the callers want after `calls`, whatever the network did in between. */
  function Wanted(before: set<Stream>, es: seq<Event>): set<Stream>
    decreases |es|
  {
    if es == [] then before
    else match es[0]
      case SubscribeCall(t) => Wanted(before + {t}, es[1..])
      case UnsubscribeCall(t) => Wanted(before - {t}, es[1..])
      case _ => Wanted(before, es[1..])
  }

  /** The live set is exactly what the callers want: no write, failure or reconnect changes it. */
  lemma {:induction false} LiveIsWanted(w: World, es: seq<Event>)
    requires Runnable(w, es)
    ensures Run(w, es).ctl.live == Wanted(w.ctl.live, es)
    decreases |es|
  {
    if es != [] {
      var v := Step(w, es[0]);
      match es[0] {
        case SubscribeCall(t) => assert v.ctl.live == w.ctl.live + {t};
        case UnsubscribeCall(t) => assert v.ctl.live == w.ctl.live - {t};
        case _ => assert v.ctl.live == w.ctl.live;
      }
      LiveIsWanted(v, es[1..]);
    }
  }

  lemma CommandIsKept(w: World, e: Event)
    requires Valid(w) && Enabled(w, e) && w.ctl.command.Some? && !e.WriteOk?
    ensures Step(w, e).ctl.command == w.ctl.command
  {
  }

  /** A single command whose write has not succeeded survives any calls, failures and handshakes, and is what
      the next handshake sends. */
  lemma {:induction false} RetainedCommandIsResent(w: World, es: seq<Event>)
    requires Valid(w) && w.ctl.command.Some? && Runnable(w, es) && WriteOk !in es
    ensures Run(w, es).ctl.command == w.ctl.command
    ensures Enabled(Run(w, es), HandshakeOk) ==> Step(Run(w, es), HandshakeOk).token == w.ctl.command
    decreases |es|
  {
    if es != [] {
      CommandIsKept(w, es[0]);
      StepKeepsValid(w, es[0]);
      RetainedCommandIsResent(Step(w, es[0]), es[1..]);
    }
  }

  // ---------------------------------------------------------------- what one event undoes or settles

  /** While a call has to wait, a subscribe and an unsubscribe of the same stream undo each other completely,
      in either order and whether they are queued or cancelled. */
  lemma WaitingCallsUndoEachOther(es: seq<Event>, t: Stream)
    requires Runnable(INITIAL, es)
    requires var c := Run(INITIAL, es).ctl; c.inFlight || !c.connected
    ensures var w := Run(INITIAL, es);
            && (t !in w.ctl.live ==> Step(Step(w, SubscribeCall(t)), UnsubscribeCall(t)) == w)
            && (t in w.ctl.live ==> Step(Step(w, UnsubscribeCall(t)), SubscribeCall(t)) == w)
  {
    RunKeepsValid(INITIAL, es);
    var c := Run(INITIAL, es).ctl;
    assert c.pendingSubs + {t} - {t} == c.pendingSubs - {t} && c.pendingUnsubs + {t} - {t} == c.pendingUnsubs - {t};
    if t in c.live {
      assert c.live - {t} + {t} == c.live && c.pendingUnsubs - {t} == c.pendingUnsubs;
      assert t in c.pendingSubs ==> c.pendingSubs - {t} + {t} == c.pendingSubs;
    } else {
      assert c.live + {t} - {t} == c.live && c.pendingSubs - {t} == c.pendingSubs;
      assert t in c.pendingUnsubs ==> c.pendingUnsubs - {t} + {t} == c.pendingUnsubs;
    }
  }

  /** An error of the connection or of a write, other than the echo of an own close, leaves a session that has
      ever been connected disconnected, with no write marked in flight and every stream and the retained
      command kept; before the first connection a fatal one changes nothing. */
  lemma ErrorsDisconnect(w: World, e: Event)
    requires Valid(w) && Enabled(w, e) && (e.ConnectionError? || e.WriteError?)
    ensures var v, c, d := Step(w, e), w.ctl, Step(w, e).ctl;
            && d.live == c.live && d.pendingSubs == c.pendingSubs && d.pendingUnsubs == c.pendingUnsubs
            && d.command == c.command && d.connectedOnce == c.connectedOnce && v.exchange == w.exchange
            && (e.ec != OperationAborted ==> !d.connected)
            && (e.ec != OperationAborted && (c.connectedOnce || e.ec != HandshakeFailedOrSsl) ==>
                  !d.inFlight && !d.subsInFlight && !d.unsubsInFlight)
            && (e.WriteError? ==> v.token.None? && !d.inFlight && !d.subsInFlight && !d.unsubsInFlight && !d.connected)
            && (e == ConnectionError(OperationAborted) ==> v == w)
  {
  }

  /** A successful write, even one that completes after the connection was lost, settles exactly what was
      written: the single command, or the whole set that is marked as being written. */
  lemma WriteOkSettles(w: World)
    requires Valid(w) && Enabled(w, WriteOk)
    ensures var v, c, d := Step(w, WriteOk), w.ctl, Step(w, WriteOk).ctl;
            && d.live == c.live && d.command.None? && d.connected == c.connected
            && d.pendingSubs == (if c.subsInFlight then {} else c.pendingSubs)
            && d.pendingUnsubs == (if c.unsubsInFlight then {} else c.pendingUnsubs)
            && (c.command.Some? || c.subsInFlight || c.unsubsInFlight ==>
                  v.token == if d.pendingSubs != {} then Some(Command(Subscribe, d.pendingSubs))
                             else if d.pendingUnsubs != {} then Some(Command(Unsubscribe, d.pendingUnsubs))
                             else None)
  {
  }
}
