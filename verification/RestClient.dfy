/**
 The `BinanceRestClient` object: its handlers update the queue and the connection flags in place, each proved
 to take the step of `RestModel`.
 */
module RestClientObject {
  import opened Wrappers
  import opened RestModel

  class RestClient {
    var queue: seq<Request>
    var connected: bool
    var connectedOnce: bool

    // The environment and the record of the run.
    ghost var wire: Option<Request>
    ghost var launched: seq<Request>
    ghost var sends: seq<nat>
    var fired: seq<Fired>

    ghost function State(): RestModel.State
      reads this
    {
      RestModel.State(queue, connected, connectedOnce, wire, launched, fired, sends)
    }

    constructor ()
      ensures State() == INITIAL && Valid(State())
    {
      queue, connected, connectedOnce := [], false, false;
      wire, launched, fired, sends := None, [], [], [];
    }

    /** The task that `launch_request` posts to the strand. */
    method LaunchRequest(r: Request)
      requires Valid(State())
      modifies this
      ensures State() == Step(old(State()), LaunchEvent(r)) && Valid(State())
      ensures queue == old(queue) + [r] && launched == old(launched) + [r] && fired == old(fired)
    {
      StepKeepsValid(State(), LaunchEvent(r));
      queue := queue + [r];
      launched := launched + [r];
      if |queue| == 1 && connected {
        StartNextRequest();
      }
    }

    /** The request goes out while nothing is on the wire: there is a single write and read at a time. */
    method StartNextRequest()
      requires queue != [] && wire.None?
      modifies `wire, `sends
      ensures State() == StartNext(old(State()))
    {
      wire := Some(queue[0]);
      sends := sends + [|fired|];
    }

    method OnHandshake()
      requires Valid(State()) && Enabled(State(), HandshakeEvent)
      modifies this
      ensures State() == Step(old(State()), HandshakeEvent) && Valid(State())
      ensures connected && connectedOnce && queue == old(queue) && fired == old(fired)
    {
      StepKeepsValid(State(), HandshakeEvent);
      connected := true;
      connectedOnce := true;
      if queue != [] {
        StartNextRequest();
      }
    }

    /** Calls the front callback and pops it. */
    method FireFront(result: Result)
      requires queue != []
      modifies `queue, `fired
      ensures State() == Fire(old(State()), result)
    {
      fired := fired + [Fired(queue[0], result)];
      queue := queue[1..];
    }

    method OnRead(response: Response)
      requires Valid(State()) && Enabled(State(), ReadEvent(response))
      modifies this
      ensures old(queue) != [] && State() == Step(old(State()), ReadEvent(response)) && Valid(State())
      ensures queue == old(queue)[1..] && connected == old(connected)
      ensures response.body in {Empty, Malformed} ==>
                fired == old(fired) + [Fired(old(queue)[0], Answer(Nothing, old(queue)[0]))]
      ensures response.body.SymbolList? ==>
                fired == old(fired) + [Fired(old(queue)[0], Answer(Symbols(response.body.text), old(queue)[0]))]
      ensures response.body.Object? ==>
                fired == old(fired) + [Fired(old(queue)[0], Answer(Data(response.body.text), old(queue)[0]))]
    {
      StepKeepsValid(State(), ReadEvent(response));
      wire := None;
      FireFront(Answer(Parse(response.body), response.answers));
      if queue != [] {
        StartNextRequest();
      }
    }

    method OnFail(ec: ErrorCode)
      requires Valid(State())
      modifies this
      ensures State() == Step(old(State()), FailEvent(ec)) && Valid(State())
      ensures ec == OperationAborted ==> State() == old(State())
      ensures ec != OperationAborted ==> !connected && wire.None? && sends == old(sends)
      ensures ec != FatalError || old(connectedOnce) ==> queue == old(queue) && fired == old(fired)
      ensures ec == FatalError && !old(connectedOnce) ==>
                queue == [] && fired == old(fired) + FiredWith(old(queue), NoData)
    {
      StepKeepsValid(State(), FailEvent(ec));
      if ec == FatalError && !connectedOnce {
        FatalDrainReportsNoData(State());
      }
      if ec == OperationAborted {
        return;
      }
      connected := false;
      wire := None;
      if ec == FatalError && !connectedOnce {
        CloseConnection();
        DrainQueue(Failed(ec));
      }
    }

    method Stop()
      requires Valid(State())
      modifies this
      ensures State() == Step(old(State()), StopEvent) && Valid(State())
      ensures queue == [] && wire.None? && fired == old(fired) + FiredWith(old(queue), NoData)
    {
      CloseKeepsValid(State());
      StepKeepsValid(State(), StopEvent);
      CloseConnection();
    }

    method CloseConnection()
      modifies this
      ensures State() == Close(old(State()))
    {
      DrainQueue(NoData);
      wire := None;
    }

    /** Both drain loops: calls and pops every waiting callback. */
    method DrainQueue(result: Result)
      modifies `queue, `fired
      ensures State() == FireAll(old(State()), result)
    {
      while queue != []
        invariant FireAll(State(), result) == FireAll(old(State()), result)
        decreases |queue|
      {
        FireFront(result);
      }
    }
  }
}
