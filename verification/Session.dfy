/**
 The `session` object: the handlers that update its fields in place, each proved to take the step of the
 state machine in `SessionModel`.
 */
module SessionObject {
  import opened Wrappers
  import opened SessionModel
  import opened Keys

  class Session {
    var liveSubscriptions: set<Stream>
    var pendingSubs: set<Stream>
    var pendingUnsubs: set<Stream>
    var inFlightCommand: Option<Command>
    var inFlight: bool
    var pendingSubsInFlight: bool
    var pendingUnsubsInFlight: bool
    var connected: bool
    var connectedOnce: bool

    // The environment: the one outstanding write, and what the exchange holds for this connection.
    ghost var token: Option<Command>
    ghost var exchange: set<Stream>

    ghost function Fields(): Control
      reads this
    {
      Control(liveSubscriptions, pendingSubs, pendingUnsubs, inFlightCommand,
              inFlight, pendingSubsInFlight, pendingUnsubsInFlight, connected, connectedOnce)
    }

    ghost function State(): World
      reads this
    {
      World(Fields(), token, exchange)
    }

    /** The object after a handler with outcome `o` that left `remaining` of the old write. */
    ghost predicate Became(o: Outcome, remaining: Option<Command>)
      reads this
    {
      Fields() == o.ctl && token == if o.sent.Some? then o.sent else remaining
    }

    constructor ()
      ensures State() == INITIAL && Valid(State())
    {
      liveSubscriptions, pendingSubs, pendingUnsubs := {}, {}, {};
      inFlightCommand := None;
      inFlight, pendingSubsInFlight, pendingUnsubsInFlight := false, false, false;
      connected, connectedOnce := false, false;
      token, exchange := None, {};
    }

    /** The throttler, the post to the strand and the write itself are one outstanding token. There must be
        none yet. */
    method Send(cmd: Command)
      requires token.None?
      modifies `inFlight, `token
      ensures Became(SessionModel.Send(old(Fields()), cmd), None)
    {
      token := Some(cmd);
      inFlight := true;
    }

    method SendPendingSubs() returns (sent: bool)
      requires token.None?
      modifies `inFlight, `pendingSubsInFlight, `token
      ensures sent == (pendingSubs != {})
      ensures sent ==> Became(SendPending(old(Fields())), None)
      ensures !sent ==> State() == old(State())
    {
      var params: set<Stream>, rest := {}, pendingSubs;
      while rest != {}
        invariant params + rest == pendingSubs
        decreases rest
      {
        var sub :| sub in rest;
        params, rest := params + {sub}, rest - {sub};
      }
      if params != {} {
        Send(Command(Subscribe, params));
        pendingSubsInFlight := true;
        return true;
      }
      return false;
    }

    method SendPendingUnsubs()
      requires token.None?
      modifies `inFlight, `pendingUnsubsInFlight, `token
      ensures Became(SessionModel.SendPendingUnsubs(old(Fields())), None)
    {
      var params: set<Stream>, rest := {}, pendingUnsubs;
      while rest != {}
        invariant params + rest == pendingUnsubs
        decreases rest
      {
        var unsub :| unsub in rest;
        params, rest := params + {unsub}, rest - {unsub};
      }
      if params != {} {
        Send(Command(Unsubscribe, params));
        pendingUnsubsInFlight := true;
      }
    }

    method OnHandshake()
      requires Valid(State()) && Enabled(State(), HandshakeOk)
      modifies this
      ensures State() == Step(old(State()), HandshakeOk) && Valid(State())
    {
      StepKeepsValid(State(), HandshakeOk);
      exchange := {};
      connected, connectedOnce := true, true;
      QueueLiveSubscriptions();
      if inFlightCommand.Some? {
        Send(inFlightCommand.value);
      } else {
        SendAllPending();
      }
    }

    /** The loop of `on_handshake` over the live subscriptions. */
    method QueueLiveSubscriptions()
      modifies `pendingSubs, `pendingUnsubs
      ensures pendingSubs == old(pendingSubs) + (liveSubscriptions - old(pendingUnsubs))
      ensures pendingUnsubs == old(pendingUnsubs) - liveSubscriptions
    {
      ghost var done: set<Stream> := {};
      var rest := liveSubscriptions;
      while rest != {}
        invariant done + rest == liveSubscriptions && done !! rest
        invariant pendingSubs == old(pendingSubs) + (done - old(pendingUnsubs))
        invariant pendingUnsubs == old(pendingUnsubs) - done
        decreases rest
      {
        var stream :| stream in rest;
        var cancelled;
        cancelled, pendingUnsubs := CheckAndCancel(stream, pendingUnsubs);
        if !cancelled {
          pendingSubs := pendingSubs + {stream};
        }
        done, rest := done + {stream}, rest - {stream};
      }
      assert done == liveSubscriptions;
    }

    method OnWriteOk()
      requires Valid(State()) && Enabled(State(), WriteOk)
      modifies this
      ensures State() == Step(old(State()), WriteOk) && Valid(State())
    {
      StepKeepsValid(State(), WriteOk);
      exchange := Apply(token.value, exchange);
      token := None;
      Written();
    }

    /** `on_write` without an error. */
    method Written()
      requires token.None?
      modifies this
      ensures Became(SessionModel.OnWriteOk(old(Fields())), None) && exchange == old(exchange)
    {
      inFlight := false;
      if inFlightCommand.Some? {
        inFlightCommand := None;
        SendAllPending();
      } else if pendingSubsInFlight {
        pendingSubsInFlight := false;
        pendingSubs := {};
        SendPendingUnsubs();
      } else if pendingUnsubsInFlight {
        pendingUnsubsInFlight := false;
        pendingUnsubs := {};
        SendAllPending();
      }
    }

    /** `if(!sendPendingSubs()) sendPendingUnsubs();` */
    method SendAllPending()
      requires token.None?
      modifies `inFlight, `pendingSubsInFlight, `pendingUnsubsInFlight, `token
      ensures Became(SendPending(old(Fields())), None)
    {
      var sent := SendPendingSubs();
      if !sent {
        SendPendingUnsubs();
      }
    }

    method OnWriteError(ec: ErrorCode)
      requires Valid(State()) && Enabled(State(), WriteError(ec))
      modifies this
      ensures State() == Step(old(State()), WriteError(ec)) && Valid(State())
    {
      StepKeepsValid(State(), WriteError(ec));
      token := None;
      inFlight := false;
      pendingSubsInFlight := false;
      pendingUnsubsInFlight := false;
      HandleError(ec);
    }

    /** An error of any other handler: resolve, connect, handshake, read or close. */
    method OnConnectionError(ec: ErrorCode)
      requires Valid(State())
      modifies this
      ensures State() == Step(old(State()), ConnectionError(ec)) && Valid(State())
      ensures ec != OperationAborted ==> !connected
    {
      StepKeepsValid(State(), ConnectionError(ec));
      ErrorsDisconnect(State(), ConnectionError(ec));
      HandleError(ec);
    }

    method HandleError(ec: ErrorCode)
      modifies `inFlight, `pendingSubsInFlight, `pendingUnsubsInFlight, `connected
      ensures Fields() == OnError(old(Fields()), ec)
    {
      var action := ClassifyError(ec, connectedOnce);
      if action == Reconnect {
        inFlight := false;
        pendingSubsInFlight := false;
        pendingUnsubsInFlight := false;
        connected := false;
      }
    }

    /** Try to cancel a call against a pending call of the other kind. */
    static method CheckAndCancel(stream: Stream, candidates: set<Stream>) returns (found: bool, rest: set<Stream>)
      ensures found == (stream in candidates)
      ensures rest == candidates - {stream} && (!found ==> rest == candidates)
    {
      found := stream in candidates;
      rest := if found then candidates - {stream} else candidates;
    }

    /** `subscribeTradeOnStrand` and `subscribeDepthOnStrand` */
    method SubscribeOnStrand(symbol: string, kind: PriceType)
      requires Valid(State())
      modifies this
      ensures State() == Step(old(State()), SubscribeCall(StreamName(symbol, kind))) && Valid(State())
    {
      var stream := StreamName(symbol, kind);
      StepKeepsValid(State(), SubscribeCall(stream));
      SubscribeStream(stream);
    }

    /** `unsubscribeTradeOnStrand` and `unsubscribeDepthOnStrand` */
    method UnsubscribeOnStrand(symbol: string, kind: PriceType)
      requires Valid(State())
      modifies this
      ensures State() == Step(old(State()), UnsubscribeCall(StreamName(symbol, kind))) && Valid(State())
    {
      var stream := StreamName(symbol, kind);
      StepKeepsValid(State(), UnsubscribeCall(stream));
      UnsubscribeStream(stream);
    }

    method SubscribeStream(stream: Stream)
      requires connected && !inFlight ==> token.None?
      modifies this
      ensures Became(OnSubscribe(old(Fields()), stream), old(token)) && exchange == old(exchange)
    {
      if stream in liveSubscriptions {
        return;
      }
      liveSubscriptions := liveSubscriptions + {stream};
      if inFlight || !connected {
        var cancelled;
        cancelled, pendingUnsubs := CheckAndCancel(stream, pendingUnsubs);
        if !cancelled {
          pendingSubs := pendingSubs + {stream};
        }
        return;
      }
      inFlightCommand := Some(Command(Subscribe, {stream}));
      Send(inFlightCommand.value);
    }

    method UnsubscribeStream(stream: Stream)
      requires connected && !inFlight ==> token.None?
      modifies this
      ensures Became(OnUnsubscribe(old(Fields()), stream), old(token)) && exchange == old(exchange)
    {
      if stream !in liveSubscriptions {
        return;
      }
      liveSubscriptions := liveSubscriptions - {stream};
      if inFlight || !connected {
        var cancelled;
        cancelled, pendingSubs := CheckAndCancel(stream, pendingSubs);
        if !cancelled {
          pendingUnsubs := pendingUnsubs + {stream};
        }
        return;
      }
      inFlightCommand := Some(Command(Unsubscribe, {stream}));
      Send(inFlightCommand.value);
    }
  }
}
