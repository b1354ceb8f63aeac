/**
 Request/response over topics: the header encoding, the requester's response handling, and the responder's
 book of pending requests.
 */
module MiddlewareModel {
  import opened Wrappers
  import opened Decimal

  type Headers = map<string, string>

  /** A record on a topic. The message type travels as one more header. */
  datatype Record = Record(topic: string, key: string, payload: string, headers: Headers)

  datatype APIError = Ok | NonExistentReqId | PongCallbackNotRegistered

  /** What a requester's callbacks see. */
  datatype Callback = Response(reqId: uint64, payload: string, isLast: bool) | Pong(reqId: uint64) | ErrorReport

  /** `producerFunc`: a record without topic or key is not sent. */
  function Produce(topic: string, msgType: string, key: string, payload: string, headers: Headers): seq<Record> {
    if topic == "" || msgType == "" || key == "" then []
    else [Record(topic, key, payload, headers["message_type" := msgType])]
  }

  function MsgType(r: Record): string {
    if "message_type" in r.headers then r.headers["message_type"] else ""
  }

  // ---------------------------------------------------------------- requester

  function RequestFunc(appId: string, pongRegistered: bool, reqId: uint64, reqType: Option<string>,
                       payload: string, targetTopic: string): (APIError, seq<Record>)
  {
    if reqType == Some("ping") && !pongRegistered then (PongCallbackNotRegistered, [])
    else
      var headers := map["reqId" := ToString(reqId), "destTopic" := appId];
      var all := if reqType.Some? then headers["reqType" := reqType.value] else headers;
      (Ok, Produce(targetTopic, "request", appId, payload, all))
  }

  /** `None`: not a response. Otherwise the callbacks called. */
  function HandleResponse(r: Record, pongRegistered: bool): Option<seq<Callback>> {
    var msgType, h := MsgType(r), r.headers;
    if msgType != "response" && msgType != "last_response" then None
    else if "respId" !in h then Some([ErrorReport])
    else if "isLast" in h && h["isLast"] != "0" && h["isLast"] != "1" then Some([ErrorReport])
    else
      var isLast := "isLast" in h && h["isLast"] == "1";
      match Stoull(h["respId"])
      case None => Some([ErrorReport])
      case Some(reqId) =>
        if "respType" in h && h["respType"] == "pong" then Some(if pongRegistered then [Pong(reqId)] else [])
        else Some([Response(reqId, r.payload, isLast)])
  }

  // ---------------------------------------------------------------- responder

  /** What the responder's run leaves behind, besides the book. */
  datatype Entry =
    | Accepted(reqId: uint64, topic: string, payload: string)
    | Answered(reqId: uint64, topic: string, payload: string, isLast: bool)
    | Ponged(reqId: uint64, topic: string)

  datatype Node = Node(book: map<uint64, string>, log: seq<Entry>, out: seq<Record>, errors: nat)

  const INITIAL := Node(map[], [], [], 0)

  function ReportError(n: Node): Node { n.(errors := n.errors + 1) }

  function HandleSpecialRequest(n: Node, reqId: uint64, reqType: string, destTopic: string): Node {
    if reqType != "ping" then n
    else n.(log := n.log + [Ponged(reqId, destTopic)],
            out := n.out + Produce(destTopic, "response", "Null", "",
                                   map["respId" := ToString(reqId), "respType" := "pong", "isLast" := "1"]))
  }

  /** True iff the record is a request. An ordinary request that enters the book is passed to the request
      handler, which the log records. */
  function HandleRequest(n: Node, r: Record): (bool, Node) {
    var h := r.headers;
    if MsgType(r) != "request" then (false, n)
    else if "reqId" !in h then (true, ReportError(n))
    else match Stoull(h["reqId"])
      case None => (true, ReportError(n))
      case Some(reqId) =>
        if reqId in n.book then (true, ReportError(n))
        else if "destTopic" !in h then (true, ReportError(n))
        else if "reqType" in h then (true, HandleSpecialRequest(n, reqId, h["reqType"], h["destTopic"]))
        else (true, Admit(n, reqId, h["destTopic"], r.payload))
  }

  function Admit(n: Node, reqId: uint64, destTopic: string, payload: string): Node {
    n.(book := n.book[reqId := destTopic], log := n.log + [Accepted(reqId, destTopic, payload)])
  }

  function Respond(n: Node, reqId: uint64, payload: string, isLast: bool): (APIError, Node) {
    if reqId !in n.book then (NonExistentReqId, ReportError(n))
    else
      var topic := n.book[reqId];
      (Ok, n.(book := if isLast then n.book - {reqId} else n.book,
              log := n.log + [Answered(reqId, topic, payload, isLast)],
              out := n.out + Produce(topic, "response", "Null", payload,
                                     map["respId" := ToString(reqId), "isLast" := if isLast then "1" else "0"])))
  }

  // ---------------------------------------------------------------- runs

  datatype Event = Receive(record: Record) | RespondCall(reqId: uint64, payload: string, isLast: bool)

  function Step(n: Node, e: Event): Node {
    match e
    case Receive(r) => HandleRequest(n, r).1
    case RespondCall(reqId, payload, isLast) => Respond(n, reqId, payload, isLast).1
  }

  function Run(n: Node, es: seq<Event>): Node
    decreases |es|
  {
    if es == [] then n else Run(Step(n, es[0]), es[1..])
  }

  // ---------------------------------------------------------------- the pending book

  /** `i` is the acceptance of `reqId` with nothing last answered since. */
  ghost predicate OpenAt(log: seq<Entry>, i: nat, reqId: uint64, topic: string) {
    && i < |log| && log[i].Accepted? && log[i].reqId == reqId && log[i].topic == topic
    && forall j | i < j < |log| :: !(log[j].Answered? && log[j].reqId == reqId && log[j].isLast)
  }

  ghost predicate Open(log: seq<Entry>, reqId: uint64, topic: string) {
    exists i: nat :: OpenAt(log, i, reqId, topic)
  }

  predicate InBook(book: map<uint64, string>, reqId: uint64, topic: string) {
    reqId in book && book[reqId] == topic
  }

  /** The book is the accepted ordinary requests with no last response yet, each with the topic it named. */
  ghost predicate BookIsOpenRequests(n: Node) {
    forall reqId, topic :: InBook(n.book, reqId, topic) <==> Open(n.log, reqId, topic)
  }

  /** Every response, last or not, went to the topic of its own accepted and still open request. */
  ghost predicate AnswersAreDue(log: seq<Entry>) {
    forall j | 0 <= j < |log| && log[j].Answered? :: Open(log[..j], log[j].reqId, log[j].topic)
  }

  lemma OpenAppend(log: seq<Entry>, e: Entry, reqId: uint64, topic: string)
    ensures Open(log + [e], reqId, topic) <==>
              (|| (Open(log, reqId, topic) && !(e.Answered? && e.reqId == reqId && e.isLast))
               || (e.Accepted? && e.reqId == reqId && e.topic == topic))
  {
    var longer := log + [e];
    if Open(longer, reqId, topic) {
      var i: nat :| OpenAt(longer, i, reqId, topic);
      if i < |log| {
        assert forall j | i < j < |log| :: log[j] == longer[j];
        assert OpenAt(log, i, reqId, topic);
        assert longer[|log|] == e;
      }
    }
    if Open(log, reqId, topic) && !(e.Answered? && e.reqId == reqId && e.isLast) {
      var i: nat :| OpenAt(log, i, reqId, topic);
      assert OpenAt(longer, i, reqId, topic);
    }
    if e.Accepted? && e.reqId == reqId && e.topic == topic {
      assert OpenAt(longer, |log|, reqId, topic);
    }
  }

  lemma BookAppend(n: Node, m: Node, e: Entry)
    requires BookIsOpenRequests(n) && m.log == n.log + [e]
    requires e.Accepted? ==> e.reqId !in n.book && m.book == n.book[e.reqId := e.topic]
    requires e.Answered? ==> m.book == if e.isLast then n.book - {e.reqId} else n.book
    requires e.Ponged? ==> m.book == n.book
    ensures BookIsOpenRequests(m)
  {
    forall reqId, topic ensures InBook(m.book, reqId, topic) <==> Open(m.log, reqId, topic) {
      OpenAppend(n.log, e, reqId, topic);
      assert InBook(n.book, reqId, topic) <==> Open(n.log, reqId, topic);
    }
  }

  lemma DueAppend(log: seq<Entry>, e: Entry)
    requires AnswersAreDue(log)
    requires e.Answered? ==> Open(log, e.reqId, e.topic)
    ensures AnswersAreDue(log + [e])
  {
    var longer := log + [e];
    forall j | 0 <= j < |longer| && longer[j].Answered? ensures Open(longer[..j], longer[j].reqId, longer[j].topic) {
      if j < |log| {
        assert longer[..j] == log[..j] && longer[j] == log[j];
      } else {
        assert longer[..j] == log;
      }
    }
  }

  lemma StepKeepsBook(n: Node, e: Event)
    requires BookIsOpenRequests(n) && AnswersAreDue(n.log)
    ensures BookIsOpenRequests(Step(n, e)) && AnswersAreDue(Step(n, e).log)
  {
    var m := Step(n, e);
    if m.log == n.log {
      assert m.book == n.book;
    } else {
      var entry := m.log[|n.log|];
      assert m.log == n.log + [entry];
      BookAppend(n, m, entry);
      if entry.Answered? {
        assert InBook(n.book, entry.reqId, entry.topic);
      }
      DueAppend(n.log, entry);
    }
  }

  /** Over every run of requests and responses. */
  lemma {:induction false} RunKeepsBook(n: Node, es: seq<Event>)
    requires BookIsOpenRequests(n) && AnswersAreDue(n.log)
    ensures BookIsOpenRequests(Run(n, es)) && AnswersAreDue(Run(n, es).log)
    decreases |es|
  {
    if es != [] {
      StepKeepsBook(n, es[0]);
      RunKeepsBook(Step(n, es[0]), es[1..]);
    }
  }

  lemma PendingBook(es: seq<Event>)
    ensures BookIsOpenRequests(Run(INITIAL, es)) && AnswersAreDue(Run(INITIAL, es).log)
  {
    RunKeepsBook(INITIAL, es);
  }

  // ---------------------------------------------------------------- across two nodes

  /** What the requester owning `topic` sees of the responder's output, in the order of the topic. */
  function Received(out: seq<Record>, topic: string): seq<Callback> {
    if out == [] then []
    else
      var r := out[|out| - 1];
      Received(out[..|out| - 1], topic)
      + match (r.topic == topic, HandleResponse(r, true)) case (true, Some(cbs)) => cbs case _ => []
  }

  /** What the responder meant for that requester. */
  function Meant(log: seq<Entry>, topic: string): seq<Callback> {
    if log == [] then []
    else
      var e := log[|log| - 1];
      Meant(log[..|log| - 1], topic)
      + match e
        case Accepted(_, _, _) => []
        case Answered(reqId, t, payload, isLast) => if t == topic then [Response(reqId, payload, isLast)] else []
        case Ponged(reqId, t) => if t == topic then [Pong(reqId)] else []
  }

  /** Through decimal printing, the headers and the parsers on the other side, an answer comes out as the very
      callback it was meant to be. */
  lemma AnswerIsHeard(topic: string, reqId: uint64, payload: string, isLast: bool)
    requires topic != ""
    ensures var sent := Produce(topic, "response", "Null", payload,
                                map["respId" := ToString(reqId), "isLast" := if isLast then "1" else "0"]);
            && |sent| == 1 && sent[0].topic == topic
            && HandleResponse(sent[0], true) == Some([Response(reqId, payload, isLast)])
  {
    PrintParse(reqId);
  }

  lemma PongIsHeard(topic: string, reqId: uint64)
    requires topic != ""
    ensures var sent := Produce(topic, "response", "Null", "",
                                map["respId" := ToString(reqId), "respType" := "pong", "isLast" := "1"]);
            && |sent| == 1 && sent[0].topic == topic
            && HandleResponse(sent[0], true) == Some([Pong(reqId)])
  {
    PrintParse(reqId);
  }

  lemma ReceivedAppend(out: seq<Record>, r: Record, topic: string)
    ensures Received(out + [r], topic) == Received(out, topic)
              + match (r.topic == topic, HandleResponse(r, true)) case (true, Some(cbs)) => cbs case _ => []
  {
    assert (out + [r])[..|out + [r]| - 1] == out;
  }

  lemma MeantAppend(log: seq<Entry>, e: Entry, topic: string)
    ensures Meant(log + [e], topic) == Meant(log, topic)
              + match e
                case Accepted(_, _, _) => []
                case Answered(reqId, t, payload, isLast) => if t == topic then [Response(reqId, payload, isLast)] else []
                case Ponged(reqId, t) => if t == topic then [Pong(reqId)] else []
  {
    assert (log + [e])[..|log + [e]| - 1] == log;
  }

  lemma RespondIsHeard(n: Node, reqId: uint64, payload: string, isLast: bool, topic: string)
    requires topic != "" && Received(n.out, topic) == Meant(n.log, topic) && reqId in n.book
    ensures var m := Respond(n, reqId, payload, isLast).1; Received(m.out, topic) == Meant(m.log, topic)
  {
    var to := n.book[reqId];
    MeantAppend(n.log, Answered(reqId, to, payload, isLast), topic);
    if to != "" {
      AnswerIsHeard(to, reqId, payload, isLast);
      ReceivedAppend(n.out, Respond(n, reqId, payload, isLast).1.out[|n.out|], topic);
    } else {
      assert n.out + [] == n.out;
    }
  }

  lemma PingIsHeard(n: Node, reqId: uint64, to: string, topic: string)
    requires topic != "" && Received(n.out, topic) == Meant(n.log, topic)
    ensures var m := HandleSpecialRequest(n, reqId, "ping", to); Received(m.out, topic) == Meant(m.log, topic)
  {
    MeantAppend(n.log, Ponged(reqId, to), topic);
    if to != "" {
      PongIsHeard(to, reqId);
      ReceivedAppend(n.out, HandleSpecialRequest(n, reqId, "ping", to).out[|n.out|], topic);
    } else {
      assert n.out + [] == n.out;
    }
  }

  lemma AdmitIsHeard(n: Node, reqId: uint64, destTopic: string, payload: string, topic: string)
    requires Received(n.out, topic) == Meant(n.log, topic)
    ensures var m := Admit(n, reqId, destTopic, payload); Received(m.out, topic) == Meant(m.log, topic)
  {
    MeantAppend(n.log, Accepted(reqId, destTopic, payload), topic);
  }

  /** What a received record can do to the responder. */
  ghost predicate Effect(n: Node, m: Node, reqId: uint64, destTopic: string, payload: string) {
    || m == n
    || m == ReportError(n)
    || m == HandleSpecialRequest(n, reqId, "ping", destTopic)
    || m == Admit(n, reqId, destTopic, payload)
  }

  lemma ReceiveEffect(n: Node, r: Record) returns (reqId: uint64, destTopic: string)
    ensures Effect(n, HandleRequest(n, r).1, reqId, destTopic, r.payload)
  {
    reqId, destTopic := 0, "";
    if "reqId" in r.headers && "destTopic" in r.headers {
      var parsed := Stoull(r.headers["reqId"]);
      if parsed.Some? {
        reqId, destTopic := parsed.value, r.headers["destTopic"];
      }
    }
  }

  lemma EffectIsHeard(n: Node, m: Node, reqId: uint64, destTopic: string, payload: string, topic: string)
    requires topic != "" && Received(n.out, topic) == Meant(n.log, topic)
    requires Effect(n, m, reqId, destTopic, payload)
    ensures Received(m.out, topic) == Meant(m.log, topic)
  {
    if m == HandleSpecialRequest(n, reqId, "ping", destTopic) {
      PingIsHeard(n, reqId, destTopic, topic);
    } else if m == Admit(n, reqId, destTopic, payload) {
      AdmitIsHeard(n, reqId, destTopic, payload, topic);
    }
  }

  lemma StepIsHeard(n: Node, e: Event, topic: string)
    requires topic != "" && Received(n.out, topic) == Meant(n.log, topic)
    ensures Received(Step(n, e).out, topic) == Meant(Step(n, e).log, topic)
  {
    match e
    case RespondCall(reqId, payload, isLast) =>
      if reqId in n.book {
        RespondIsHeard(n, reqId, payload, isLast, topic);
      }
    case Receive(r) =>
      var reqId, destTopic := ReceiveEffect(n, r);
      EffectIsHeard(n, HandleRequest(n, r).1, reqId, destTopic, r.payload, topic);
  }

  /** For every run of a responder, each requester's callbacks receive exactly the ids, payloads and last flags
      that were answered to it, and the pongs, in order. */
  lemma {:induction false} RunIsHeard(n: Node, es: seq<Event>, topic: string)
    requires topic != "" && Received(n.out, topic) == Meant(n.log, topic)
    ensures Received(Run(n, es).out, topic) == Meant(Run(n, es).log, topic)
    decreases |es|
  {
    if es != [] {
      StepIsHeard(n, es[0], topic);
      RunIsHeard(Step(n, es[0]), es[1..], topic);
    }
  }

  /** Every response record, however its headers were written, calls exactly one callback of a requester that
      listens for pongs: the error callback iff its id is missing or no number or its last flag is neither "0"
      nor "1", and otherwise with the id read; no last flag means not last. */
  lemma ResponseCallsOneCallback(r: Record)
    ensures var h, called := r.headers, HandleResponse(r, true);
            && (called.Some? <==> MsgType(r) in {"response", "last_response"})
            && (called.Some? ==>
                  && |called.value| == 1
                  && match called.value[0]
                     case ErrorReport =>
                       || "respId" !in h || Stoull(h["respId"]).None?
                       || ("isLast" in h && h["isLast"] !in {"0", "1"})
                     case Response(reqId, payload, isLast) =>
                       && "respId" in h && Stoull(h["respId"]) == Some(reqId) && payload == r.payload
                       && ("isLast" in h ==> h["isLast"] in {"0", "1"})
                       && (isLast <==> "isLast" in h && h["isLast"] == "1")
                       && !("respType" in h && h["respType"] == "pong")
                     case Pong(reqId) =>
                       && "respId" in h && Stoull(h["respId"]) == Some(reqId)
                       && ("isLast" in h ==> h["isLast"] in {"0", "1"})
                       && "respType" in h && h["respType"] == "pong")
  {
  }

  /** A request sent by `RequestFunc` reaches the responder's book and handler under its own id, for the
      requester's own topic, unless the id is already pending: then nothing but an error report changes. */
  lemma RequestArrives(n: Node, appId: string, reqId: uint64, payload: string, targetTopic: string)
    requires appId != "" && targetTopic != ""
    ensures var (err, sent) := RequestFunc(appId, false, reqId, None, payload, targetTopic);
            && err == Ok && |sent| == 1 && sent[0].topic == targetTopic
            && Step(n, Receive(sent[0])) ==
                 if reqId in n.book then n.(errors := n.errors + 1)
                 else n.(book := n.book[reqId := appId], log := n.log + [Accepted(reqId, appId, payload)])
  {
    PrintParse(reqId);
  }

  /** The responses up to and including the first last one. */
  function UpToLast(reqId: uint64, responses: seq<(string, bool)>): seq<Callback> {
    if responses == [] then []
    else [Response(reqId, responses[0].0, responses[0].1)]
         + if responses[0].1 then [] else UpToLast(reqId, responses[1..])
  }

  function Calls(reqId: uint64, responses: seq<(string, bool)>): seq<Event> {
    seq(|responses|, i requires 0 <= i < |responses| => RespondCall(reqId, responses[i].0, responses[i].1))
  }

  lemma {:induction false} ResponsesAreMeant(n: Node, reqId: uint64, responses: seq<(string, bool)>, topic: string)
    ensures Meant(Run(n, Calls(reqId, responses)).log, topic) ==
            Meant(n.log, topic) + if reqId in n.book && n.book[reqId] == topic then UpToLast(reqId, responses) else []
    decreases |responses|
  {
    if responses != [] {
      var calls := Calls(reqId, responses);
      assert calls[1..] == Calls(reqId, responses[1..]);
      var m := Step(n, calls[0]);
      ResponsesAreMeant(m, reqId, responses[1..], topic);
      if reqId in n.book {
        MeantAppend(n.log, m.log[|n.log|], topic);
      }
    }
  }

  /** A request as its sender puts it on the topic, and then calls of `respond` for it. */
  function Conversation(appId: string, reqId: uint64, payload: string, targetTopic: string, responses: seq<(string, bool)>): seq<Event>
    requires appId != "" && targetTopic != ""
  {
    [Receive(RequestFunc(appId, false, reqId, None, payload, targetTopic).1[0])] + Calls(reqId, responses)
  }

  /** What the requester hears up to the end of the conversation. */
  function Heard(n: Node, appId: string, reqId: uint64, payload: string, targetTopic: string, responses: seq<(string, bool)>): seq<Callback>
    requires appId != "" && targetTopic != ""
  {
    Received(Run(n, Conversation(appId, reqId, payload, targetTopic, responses)).out, appId)
  }

  /** The two-node round trip: after a request, for every sequence of `respond` calls, the requester's callback
      receives exactly that sequence up to its first last response, with the same id, payloads and flags. */
  lemma RequestRoundTrip(n: Node, appId: string, reqId: uint64, payload: string, targetTopic: string, responses: seq<(string, bool)>)
    requires appId != "" && targetTopic != "" && reqId !in n.book
    requires Received(n.out, appId) == Meant(n.log, appId)
    ensures Heard(n, appId, reqId, payload, targetTopic, responses) == Received(n.out, appId) + UpToLast(reqId, responses)
  {
    RequestArrives(n, appId, reqId, payload, targetTopic);
    var es := Conversation(appId, reqId, payload, targetTopic, responses);
    var n1 := Step(n, es[0]);
    assert es[1..] == Calls(reqId, responses);
    MeantAppend(n.log, Accepted(reqId, appId, payload), appId);
    RunIsHeard(n1, Calls(reqId, responses), appId);
    ResponsesAreMeant(n1, reqId, responses, appId);
  }

  /** A ping as it arrives. */
  function PingEvent(appId: string, reqId: uint64, payload: string, targetTopic: string): Event
    requires appId != "" && targetTopic != ""
  {
    Receive(RequestFunc(appId, true, reqId, Some("ping"), payload, targetTopic).1[0])
  }

  /** A ping comes back to its sender as one pong with its id, and never enters the book. A sender that could
      not hear the pong is refused before anything is sent. */
  lemma PingRoundTrip(n: Node, appId: string, reqId: uint64, payload: string, targetTopic: string)
    requires appId != "" && targetTopic != "" && reqId !in n.book
    ensures var m := Step(n, PingEvent(appId, reqId, payload, targetTopic));
            m.book == n.book && Received(m.out, appId) == Received(n.out, appId) + [Pong(reqId)]
    ensures RequestFunc(appId, false, reqId, Some("ping"), payload, targetTopic) == (PongCallbackNotRegistered, [])
  {
    PrintParse(reqId);
    PongIsHeard(appId, reqId);
    var m := Step(n, PingEvent(appId, reqId, payload, targetTopic));
    ReceivedAppend(n.out, m.out[|n.out|], appId);
  }
}
