/**
 The REST client as a state machine: a FIFO of requests over one persistent connection, whose front is on
 the wire while the connection is up and is sent again after a failure.
 */
module RestModel {
  import opened Wrappers

  datatype Request = Request(target: string, callback: nat)

  /** A response body: empty, not a JSON object, or an object with or without a symbol list. */
  datatype Body = Empty | Malformed | SymbolList(text: string) | Object(text: string)

  datatype Response = Response(answers: Request, body: Body)

  datatype Json = Nothing | Symbols(text: string) | Data(text: string)

  datatype ErrorCode = OperationAborted | FatalError | OtherError

  datatype Result = Answer(json: Json, answers: Request) | NoData | Failed(ec: ErrorCode)

  /** A callback that has been called, with the request it belongs to. */
  datatype Fired = Fired(request: Request, result: Result)

  /** `launched`, `fired` and `sends` record the run: the requests in launch order, the callbacks in the
      order they were called, and for each transmission the position in `launched` of what was sent. */
  datatype State = State(
    queue: seq<Request>,
    connected: bool,
    connectedOnce: bool,
    wire: Option<Request>,
    launched: seq<Request>,
    fired: seq<Fired>,
    sends: seq<nat>)

  const INITIAL := State([], false, false, None, [], [], [])

  // ---------------------------------------------------------------- handlers

  function Parse(body: Body): Json {
    match body
    case Empty => Nothing
    case Malformed => Nothing
    case SymbolList(text) => Symbols(text)
    case Object(text) => Data(text)
  }

  function StartNext(s: State): State
    requires s.queue != []
  {
    s.(wire := Some(s.queue[0]), sends := s.sends + [|s.fired|])
  }

  function Launch(s: State, r: Request): State {
    var s1 := s.(queue := s.queue + [r], launched := s.launched + [r]);
    if |s1.queue| == 1 && s.connected then StartNext(s1) else s1
  }

  function Handshake(s: State): State {
    var s1 := s.(connected := true, connectedOnce := true);
    if s1.queue != [] then StartNext(s1) else s1
  }

  function Fire(s: State, result: Result): State
    requires s.queue != []
  {
    s.(fired := s.fired + [Fired(s.queue[0], result)], queue := s.queue[1..])
  }

  function Read(s: State, response: Response): State
    requires s.queue != []
  {
    var s1 := Fire(s.(wire := None), Answer(Parse(response.body), response.answers));
    if s1.queue != [] then StartNext(s1) else s1
  }

  function FireAll(s: State, result: Result): (r: State)
    ensures r.queue == []
    decreases |s.queue|
  {
    if s.queue == [] then s else FireAll(Fire(s, result), result)
  }

  /** `close_connection`: every waiting callback is told `no_data`; no completion of the old connection is
      delivered afterwards. */
  function Close(s: State): State {
    FireAll(s, NoData).(wire := None)
  }

  function Fail(s: State, ec: ErrorCode): State {
    if ec == OperationAborted then s
    else
      var s1 := s.(connected := false, wire := None);
      if ec == FatalError && !s.connectedOnce then FireAll(Close(s1), Failed(ec)) else s1
  }

  // ---------------------------------------------------------------- runs

  datatype Event =
    | LaunchEvent(request: Request)
    | HandshakeEvent
    | ReadEvent(response: Response)
    | FailEvent(ec: ErrorCode)
    | StopEvent

  /** The server answers what is on the wire; a handshake completes only while disconnected. */
  predicate Enabled(s: State, e: Event) {
    match e
    case HandshakeEvent => !s.connected
    case ReadEvent(response) => s.wire == Some(response.answers)
    case _ => true
  }

  function Step(s: State, e: Event): State
    requires Enabled(s, e) && (e.ReadEvent? ==> s.queue != [])
  {
    match e
    case LaunchEvent(r) => Launch(s, r)
    case HandshakeEvent => Handshake(s)
    case ReadEvent(response) => Read(s, response)
    case FailEvent(ec) => Fail(s, ec)
    case StopEvent => Close(s)
  }

  function Requests(fired: seq<Fired>): seq<Request> {
    seq(|fired|, i requires 0 <= i < |fired| => fired[i].request)
  }

  /** Each of the requests in turn, told the same. */
  function FiredWith(queue: seq<Request>, result: Result): seq<Fired> {
    seq(|queue|, i requires 0 <= i < |queue| => Fired(queue[i], result))
  }

  /** No callback is lost, repeated or reordered. */
  ghost predicate Conserved(s: State) {
    Requests(s.fired) + s.queue == s.launched
  }

  /** While connected, the front of the queue, and nothing else, is on the wire. */
  ghost predicate SingleFlight(s: State) {
    && (s.connected ==> s.connectedOnce)
    && (s.connected ==> s.wire == if s.queue == [] then None else Some(s.queue[0]))
    && (!s.connected ==> s.wire.None?)
  }

  /** Every answer went to the request it answers. */
  ghost predicate Matched(s: State) {
    forall i | 0 <= i < |s.fired| :: s.fired[i].result.Answer? ==> s.fired[i].result.answers == s.fired[i].request
  }

  /** Transmissions go through the launch order without going back: a position is sent only while it is the
      first one not fired, is answered only after it was sent, and is never sent again after it fired. */
  ghost predicate SentInOrder(s: State) {
    && (forall i, j | 0 <= i < j < |s.sends| :: s.sends[i] <= s.sends[j])
    && (forall i | 0 <= i < |s.sends| :: s.sends[i] <= |s.fired| && s.sends[i] < |s.launched|)
    && (s.wire.Some? ==> s.sends != [] && s.sends[|s.sends| - 1] == |s.fired|)
    && (forall i | 0 <= i < |s.fired| :: s.fired[i].result.Answer? ==> i in s.sends)
  }

  ghost predicate Recorded(s: State) {
    Conserved(s) && Matched(s) && SentInOrder(s)
  }

  ghost predicate Valid(s: State) {
    SingleFlight(s) && Recorded(s)
  }

  predicate Runnable(s: State, es: seq<Event>)
    decreases |es|
  {
    es == [] || (Enabled(s, es[0]) && (es[0].ReadEvent? ==> s.queue != []) && Runnable(Step(s, es[0]), es[1..]))
  }

  function Run(s: State, es: seq<Event>): State
    requires Runnable(s, es)
    decreases |es|
  {
    if es == [] then s else Run(Step(s, es[0]), es[1..])
  }

  // ---------------------------------------------------------------- preservation

  lemma StartNextKeepsValid(s: State)
    requires Recorded(s) && s.queue != [] && s.connected && s.connectedOnce
    ensures Valid(StartNext(s))
  {
    assert |Requests(s.fired)| == |s.fired|;
    assert forall i | 0 <= i < |s.fired| :: i in s.sends ==> i in StartNext(s).sends;
  }

  lemma FireKeepsRecorded(s: State, result: Result)
    requires Recorded(s) && s.queue != []
    requires result.Answer? ==> result.answers == s.queue[0] && |s.fired| in s.sends
    ensures Recorded(Fire(s.(wire := None), result))
  {
    assert s.queue == [s.queue[0]] + s.queue[1..];
    assert Requests(Fire(s, result).fired) == Requests(s.fired) + [s.queue[0]];
  }

  lemma {:induction false} FireAllKeepsRecorded(s: State, result: Result)
    requires Recorded(s) && s.wire.None? && !result.Answer?
    ensures Recorded(FireAll(s, result))
    ensures FireAll(s, result) == s.(queue := [], fired := s.fired + FiredWith(s.queue, result))
    decreases |s.queue|
  {
    if s.queue != [] {
      FireKeepsRecorded(s, result);
      assert s.(wire := None) == s;
      FireAllKeepsRecorded(Fire(s, result), result);
    }
  }

  lemma LaunchKeepsValid(s: State, r: Request)
    requires Valid(s)
    ensures Valid(Launch(s, r))
  {
    var s1 := s.(queue := s.queue + [r], launched := s.launched + [r]);
    assert Requests(s1.fired) + s1.queue == (Requests(s.fired) + s.queue) + [r];
    if |s1.queue| == 1 && s.connected {
      StartNextKeepsValid(s1);
    }
  }

  lemma ReadKeepsValid(s: State, response: Response)
    requires Valid(s) && Enabled(s, ReadEvent(response))
    ensures s.queue != [] && s.queue[0] == response.answers
    ensures Valid(Read(s, response))
  {
    assert s.sends[|s.sends| - 1] in s.sends;
    FireKeepsRecorded(s, Answer(Parse(response.body), response.answers));
    var s1 := Fire(s.(wire := None), Answer(Parse(response.body), response.answers));
    if s1.queue != [] {
      StartNextKeepsValid(s1);
    }
  }

  lemma CloseKeepsValid(s: State)
    requires Recorded(s) && (s.connected ==> s.connectedOnce)
    ensures Valid(Close(s))
    ensures Close(s) == s.(queue := [], wire := None,
                           fired := s.fired + FiredWith(s.queue, NoData))
  {
    CloseForgetsWire(s);
    FireAllKeepsRecorded(s.(wire := None), NoData);
  }

  lemma {:induction false} CloseForgetsWire(s: State)
    ensures FireAll(s, NoData).(wire := None) == FireAll(s.(wire := None), NoData)
    decreases |s.queue|
  {
    if s.queue != [] {
      assert Fire(s, NoData).(wire := None) == Fire(s.(wire := None), NoData);
      CloseForgetsWire(Fire(s, NoData));
    }
  }

  lemma StepKeepsValid(s: State, e: Event)
    requires Valid(s) && Enabled(s, e)
    ensures e.ReadEvent? ==> s.queue != []
    ensures Valid(Step(s, e))
  {
    match e
    case LaunchEvent(r) => LaunchKeepsValid(s, r);
    case HandshakeEvent =>
      if s.queue != [] {
        StartNextKeepsValid(s.(connected := true, connectedOnce := true));
      }
    case ReadEvent(response) => ReadKeepsValid(s, response);
    case FailEvent(ec) => CloseKeepsValid(s.(connected := false, wire := None));
    case StopEvent => CloseKeepsValid(s);
  }

  /** Conservation, single flight, matching and in-order transmission hold in every reachable state. */
  lemma {:induction false} RunKeepsValid(s: State, es: seq<Event>)
    requires Valid(s) && Runnable(s, es)
    ensures Valid(Run(s, es))
    decreases |es|
  {
    if es != [] {
      StepKeepsValid(s, es[0]);
      RunKeepsValid(Step(s, es[0]), es[1..]);
    }
  }

  /** Over every run the callbacks called so far, followed by the queue, are the launched requests in launch
      order, and the request on the wire is the first launched one whose callback has not been called. */
  lemma EveryRunConserves(es: seq<Event>)
    requires Runnable(INITIAL, es)
    ensures var s := Run(INITIAL, es);
            && Requests(s.fired) + s.queue == s.launched && Matched(s) && SentInOrder(s)
            && (s.connected ==> (s.wire.Some? <==> |s.fired| < |s.launched|))
            && (s.wire.Some? ==> |s.fired| < |s.launched| && s.wire.value == s.launched[|s.fired|])
  {
    RunKeepsValid(INITIAL, es);
    var s := Run(INITIAL, es);
    assert |Requests(s.fired)| == |s.fired|;
  }

  /** A drain of a client that never connected reports `no_data`, not the fatal error: the second drain loop
      of `fail` finds the queue empty. */
  lemma FatalDrainReportsNoData(s: State)
    requires Valid(s) && !s.connectedOnce
    ensures Fail(s, FatalError) == s.(queue := [], fired := s.fired + FiredWith(s.queue, NoData))
  {
    CloseKeepsValid(s.(connected := false, wire := None));
  }

  // ---------------------------------------------------------------- outages

  /** Launches and further failures, none of them fatal before the first connection. */
  predicate Outage(es: seq<Event>, connectedOnce: bool) {
    forall i | 0 <= i < |es| ::
      es[i].LaunchEvent? || (es[i].FailEvent? && (es[i].ec == FatalError ==> connectedOnce))
  }

  function Launches(es: seq<Event>): seq<Request> {
    if es == [] then []
    else (if es[0].LaunchEvent? then [es[0].request] else []) + Launches(es[1..])
  }

  lemma {:induction false} OutageOnlyQueues(s: State, es: seq<Event>)
    requires !s.connected && s.wire.None? && Outage(es, s.connectedOnce)
    ensures Runnable(s, es)
    ensures Run(s, es) == s.(queue := s.queue + Launches(es), launched := s.launched + Launches(es))
    decreases |es|
  {
    if es == [] {
      assert s.queue + [] == s.queue && s.launched + [] == s.launched;
    } else {
      var next := Step(s, es[0]);
      OutageOnlyQueues(next, es[1..]);
      assert next.queue + Launches(es[1..]) == s.queue + Launches(es);
      assert next.launched + Launches(es[1..]) == s.launched + Launches(es);
    }
  }

  /** A failure loses nothing unless it is fatal and comes before the first connection: the queue waits
      through any number of further failures, calls no callback and sends nothing, and the next handshake
      sends its front, the first request not answered, again. */
  lemma OutageResendsTheFront(s: State, ec: ErrorCode, es: seq<Event>)
    requires Valid(s) && ec != OperationAborted && (ec == FatalError ==> s.connectedOnce)
    requires Outage(es, s.connectedOnce)
    ensures Step(s, FailEvent(ec)) == s.(connected := false, wire := None)
    ensures Runnable(Step(s, FailEvent(ec)), es)
    ensures var down := Run(Step(s, FailEvent(ec)), es);
            && down.queue == s.queue + Launches(es) && down.launched == s.launched + Launches(es)
            && down.fired == s.fired && down.sends == s.sends && !down.connected && down.wire.None?
            && (var up := Step(down, HandshakeEvent);
                && up.connected && up.queue == down.queue && up.fired == s.fired
                && (up.queue != [] ==> up.wire == Some(up.queue[0]) && up.sends == s.sends + [|s.fired|])
                && (up.queue == [] ==> up.wire.None? && up.sends == s.sends))
  {
    OutageOnlyQueues(Step(s, FailEvent(ec)), es);
  }

  /** `to` is `from` after its queue was answered by `replies`, in order. */
  ghost predicate Answered(from: State, replies: seq<Response>, to: State)
    requires |replies| == |from.queue|
  {
    && to.queue == [] && to.connected
    && to.fired == from.fired + seq(|replies|, i requires 0 <= i < |replies| => FiredAnswer(from.queue[i], replies[i]))
  }

  function FiredAnswer(r: Request, reply: Response): Fired {
    Fired(r, Answer(Parse(reply.body), r))
  }

  lemma AnsweredAfterRead(s: State, replies: seq<Response>, to: State)
    requires Valid(s) && s.connected && |replies| == |s.queue| > 0 && replies[0].answers == s.queue[0]
    requires Answered(Read(s, replies[0]), replies[1..], to)
    ensures Answered(s, replies, to)
  {
    var s1, rest := Read(s, replies[0]), replies[1..];
    assert s1.fired == s.fired + [FiredAnswer(s.queue[0], replies[0])];
    assert seq(|replies|, i requires 0 <= i < |replies| => FiredAnswer(s.queue[i], replies[i]))
        == [FiredAnswer(s.queue[0], replies[0])] + seq(|rest|, i requires 0 <= i < |rest| => FiredAnswer(s1.queue[i], rest[i]));
  }

  /** A connected client answers its whole queue in order, each request with its own response. */
  lemma {:induction false} ConnectedQueueIsAnswered(s: State, replies: seq<Response>) returns (es: seq<Event>)
    requires Valid(s) && s.connected && |replies| == |s.queue|
    requires forall i | 0 <= i < |replies| :: replies[i].answers == s.queue[i]
    ensures es == seq(|replies|, i requires 0 <= i < |replies| => ReadEvent(replies[i]))
    ensures Runnable(s, es) && Answered(s, replies, Run(s, es))
    decreases |replies|
  {
    if replies == [] {
      return [];
    }
    ReadKeepsValid(s, replies[0]);
    var rest := ConnectedQueueIsAnswered(Read(s, replies[0]), replies[1..]);
    es := [ReadEvent(replies[0])] + rest;
    assert es[1..] == rest;
    AnsweredAfterRead(s, replies, Run(s, es));
  }
}
