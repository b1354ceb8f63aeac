/**
 The request/response router under re-entrancy.

 Callbacks are finite scripts of actions. A responder's script runs while its request is being forwarded; a
 response handler's script runs while its response is being delivered. `Inside` runs a script during a
 forward, where a request can only be queued; `Outside` runs one while no forward is in progress, where a
 request is forwarded at once and the queue is then drained. Every observable step is written to a log.
 */
module ReqRespModel {

  type ReqId = nat
  type ReqType = nat
  type ResponderId = nat

  datatype Action =
    | Request(id: ReqId, reqType: ReqType, script: seq<Action>)
    | Respond(id: ReqId, isLast: bool, handler: seq<Action>)
    | Cancel(id: ReqId)

  /** A queued `reqForwarder`. */
  datatype Forwarder = Forwarder(id: ReqId, reqType: ReqType, script: seq<Action>)

  datatype Event =
    | Accepted(id: ReqId)
    | ForwardBegin(id: ReqId)
    | ForwardEnd(id: ReqId)
    | Delivered(id: ReqId, isLast: bool)
    | Retired(id: ReqId)
    | Cancelled(id: ReqId)

  datatype State = State(
    pending: set<ReqId>,
    reqPending: bool,
    queue: seq<Forwarder>,
    book: map<ReqType, ResponderId>,
    log: seq<Event>)

  const INITIAL := State({}, false, [], map[], [])

  // ---------------------------------------------------------------- sizes

  function Size(script: seq<Action>): nat {
    if script == [] then 0
    else (match script[0]
          case Request(_, _, s) => 1 + Size(s)
          case Respond(_, _, h) => 1 + Size(h)
          case Cancel(_) => 1) + Size(script[1..])
  }

  /** The actions still to be run by the queued forwarders, and the forwarders themselves. */
  function Work(queue: seq<Forwarder>): nat {
    if queue == [] then 0 else 1 + Size(queue[0].script) + Work(queue[1..])
  }

  lemma {:induction false} WorkAppend(queue: seq<Forwarder>, f: Forwarder)
    ensures Work(queue + [f]) == Work(queue) + 1 + Size(f.script)
  {
    if queue == [] {
      assert queue + [f] == [f];
    } else {
      assert (queue + [f])[1..] == queue[1..] + [f];
      WorkAppend(queue[1..], f);
    }
  }

  // ---------------------------------------------------------------- steps

  predicate Quiescent(st: State) { !st.reqPending && st.queue == [] }

  function Log(st: State, e: Event): State { st.(log := st.log + [e]) }

  function Accept(st: State, id: ReqId): State {
    Log(st.(pending := st.pending + {id}), Accepted(id))
  }

  function Enqueue(st: State, f: Forwarder): (r: State)
    ensures Work(r.queue) == Work(st.queue) + 1 + Size(f.script)
  {
    WorkAppend(st.queue, f);
    st.(queue := st.queue + [f])
  }

  /** `if (isLast) m_pendingreqIds.erase(it);` once the handler has returned. */
  function AfterHandler(st: State, id: ReqId, isLast: bool): State {
    if isLast && id in st.pending then Log(st.(pending := st.pending - {id}), Retired(id)) else st
  }

  function CancelRequest(st: State, id: ReqId): State {
    if id in st.pending then Log(st.(pending := st.pending - {id}), Cancelled(id)) else st
  }

  function ActInside(st: State, a: Action): (r: State)
    requires st.reqPending
    ensures r.reqPending && r.book == st.book
    ensures Work(r.queue) <= Work(st.queue) + Size([a])
    decreases a
  {
    match a
    case Request(id, reqType, script) =>
      if id in st.pending then st else Enqueue(Accept(st, id), Forwarder(id, reqType, script))
    case Respond(id, isLast, handler) =>
      if id !in st.pending then st
      else AfterHandler(Inside(Log(st, Delivered(id, isLast)), handler), id, isLast)
    case Cancel(id) => CancelRequest(st, id)
  }

  function Inside(st: State, script: seq<Action>): (r: State)
    requires st.reqPending
    ensures r.reqPending && r.book == st.book
    ensures Work(r.queue) <= Work(st.queue) + Size(script)
    decreases script
  {
    if script == [] then st
    else Inside(ActInside(st, script[0]), script[1..])
  }

  /** One `reqForwarder()`: without a listener for the type, `produce` runs nothing. */
  function Forward(st: State, f: Forwarder): (r: State)
    requires !st.reqPending
    ensures !r.reqPending && r.book == st.book
    ensures Work(r.queue) <= Work(st.queue) + Size(f.script)
  {
    var begun := Log(st.(reqPending := true), ForwardBegin(f.id));
    var done := if f.reqType in st.book then Inside(begun, f.script) else begun;
    Log(done.(reqPending := false), ForwardEnd(f.id))
  }

  /** Drops the front of the queue once it has run. What a forward enqueues weighs less than its script. */
  function ForwardFront(st: State): (r: State)
    requires !st.reqPending && st.queue != []
    ensures !r.reqPending && r.book == st.book
    ensures Work(r.queue) < Work(st.queue)
  {
    QueueGrows(st, st.queue[0]);
    var done := Forward(st, st.queue[0]);
    assert done.queue[0] == st.queue[0];
    done.(queue := done.queue[1..])
  }

  function Drain(st: State): (r: State)
    requires !st.reqPending
    ensures Quiescent(r) && r.book == st.book
    decreases Work(st.queue)
  {
    if st.queue == [] then st else Drain(ForwardFront(st))
  }

  function ActOutside(st: State, a: Action): (r: State)
    requires Quiescent(st)
    ensures Quiescent(r) && r.book == st.book
    decreases a
  {
    match a
    case Request(id, reqType, script) =>
      if id in st.pending then st else Drain(Forward(Accept(st, id), Forwarder(id, reqType, script)))
    case Respond(id, isLast, handler) =>
      if id !in st.pending then st
      else AfterHandler(Outside(Log(st, Delivered(id, isLast)), handler), id, isLast)
    case Cancel(id) => CancelRequest(st, id)
  }

  function Outside(st: State, script: seq<Action>): (r: State)
    requires Quiescent(st)
    ensures Quiescent(r) && r.book == st.book
    decreases script
  {
    if script == [] then st
    else Outside(ActOutside(st, script[0]), script[1..])
  }

  /** The queue and the log only grow. */
  lemma {:induction false} InsideGrows(st: State, script: seq<Action>)
    requires st.reqPending
    ensures st.queue <= Inside(st, script).queue
    ensures st.log <= Inside(st, script).log
    decreases script
  {
    if script != [] {
      match script[0] {
        case Respond(id, isLast, handler) => InsideGrows(Log(st, Delivered(id, isLast)), handler);
        case _ =>
      }
      InsideGrows(ActInside(st, script[0]), script[1..]);
    }
  }

  lemma QueueGrows(st: State, f: Forwarder)
    requires !st.reqPending
    ensures st.queue <= Forward(st, f).queue
  {
    InsideGrows(Log(st.(reqPending := true), ForwardBegin(f.id)), f.script);
  }

  // ---------------------------------------------------------------- which callbacks run

  /** The event an action opens with: a request of a free id is accepted, a response to a pending id is
      delivered and a pending id can be cancelled. Anything else is ignored. */
  function Opening(pending: set<ReqId>, a: Action): seq<Event> {
    match a
    case Request(id, _, _) => if id in pending then [] else [Accepted(id)]
    case Respond(id, isLast, _) => if id in pending then [Delivered(id, isLast)] else []
    case Cancel(id) => if id in pending then [Cancelled(id)] else []
  }

  lemma ActionOpens(st: State, a: Action)
    requires st.reqPending
    ensures st.log + Opening(st.pending, a) <= ActInside(st, a).log
  {
    if a.Respond? && a.id in st.pending {
      InsideGrows(Log(st, Delivered(a.id, a.isLast)), a.handler);
    }
  }

  lemma ScriptOpens(st: State, script: seq<Action>)
    requires st.reqPending && script != []
    ensures st.log + Opening(st.pending, script[0]) <= Inside(st, script).log
  {
    ActionOpens(st, script[0]);
    InsideGrows(ActInside(st, script[0]), script[1..]);
  }

  /** The listener runs iff the request's type is registered: without one the forward does nothing at all,
      with one its first action directly follows the beginning of the forward. */
  lemma ListenerRunsIffRegistered(st: State, f: Forwarder)
    requires !st.reqPending
    ensures f.reqType !in st.book ==>
              Forward(st, f) == st.(log := st.log + [ForwardBegin(f.id), ForwardEnd(f.id)])
    ensures f.reqType in st.book && f.script != [] ==>
              st.log + [ForwardBegin(f.id)] + Opening(st.pending, f.script[0]) <= Forward(st, f).log
    ensures st.log + [ForwardBegin(f.id)] <= Forward(st, f).log
  {
    var begun := Log(st.(reqPending := true), ForwardBegin(f.id));
    if f.reqType !in st.book {
      assert begun.log + [ForwardEnd(f.id)] == st.log + [ForwardBegin(f.id), ForwardEnd(f.id)];
    } else if f.script != [] {
      ScriptOpens(begun, f.script);
    }
  }

  // ---------------------------------------------------------------- runs

  datatype Call =
    | Do(action: Action)
    | Register(reqType: ReqType, responder: ResponderId)
    | Unregister(reqType: ReqType, responder: ResponderId)

  /** `unregisterAsResponder` does not look at who registered. */
  function CallStep(st: State, c: Call): (r: State)
    requires Quiescent(st)
    ensures Quiescent(r)
  {
    match c
    case Do(a) => ActOutside(st, a)
    case Register(t, responder) => if t in st.book then st else st.(book := st.book[t := responder])
    case Unregister(t, _) => st.(book := st.book - {t})
  }

  function Run(st: State, calls: seq<Call>): (r: State)
    requires Quiescent(st)
    ensures Quiescent(r)
    decreases |calls|
  {
    if calls == [] then st else Run(CallStep(st, calls[0]), calls[1..])
  }
}
