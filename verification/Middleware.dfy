/**
 The responder side of the middleware: the handlers that update `pendingRequestBook` in place, each proved to
 take the step of `MiddlewareModel`.
 */
module MiddlewareObject {
  import opened Wrappers
  import opened Decimal
  import opened MiddlewareModel

  /** Both headers are there, and the id is a number that is not pending. */
  predicate WellFormed(r: Record, book: map<uint64, string>) {
    && "reqId" in r.headers && "destTopic" in r.headers
    && var parsed := Stoull(r.headers["reqId"]); parsed.Some? && parsed.value !in book
  }

  class Responder {
    var pendingRequestBook: map<uint64, string>

    // What reached the topics, how often the error callback was called, and the record of the run.
    var produced: seq<Record>
    var errors: nat
    ghost var log: seq<Entry>

    ghost function State(): Node
      reads this
    {
      Node(pendingRequestBook, log, produced, errors)
    }

    constructor ()
      ensures State() == INITIAL
    {
      pendingRequestBook, produced, errors, log := map[], [], 0, [];
    }

    /** `handled` is false iff the record is no request. `accepted` is what the request handler is called
        with, if it is called. */
    method HandleRequest(r: Record) returns (handled: bool, accepted: Option<(uint64, string)>)
      modifies this
      ensures (handled, State()) == MiddlewareModel.HandleRequest(old(State()), r)
      ensures handled <==> "message_type" in r.headers && r.headers["message_type"] == "request"
      ensures errors == old(errors) + if handled && !WellFormed(r, old(pendingRequestBook)) then 1 else 0
      ensures accepted.Some? <==> handled && WellFormed(r, old(pendingRequestBook)) && "reqType" !in r.headers
      ensures accepted.None? ==> pendingRequestBook == old(pendingRequestBook)
      ensures accepted.Some? ==>
                && Stoull(r.headers["reqId"]) == Some(accepted.value.0) && accepted.value.1 == r.payload
                && accepted.value.0 !in old(pendingRequestBook) && "destTopic" in r.headers
                && State() == old(State()).(book := old(pendingRequestBook)[accepted.value.0 := r.headers["destTopic"]],
                                            log := old(log) + [Accepted(accepted.value.0, r.headers["destTopic"], accepted.value.1)])
    {
      var h := r.headers;
      accepted := None;
      if MsgType(r) != "request" { return false, None; }
      handled := true;
      if "reqId" !in h {
        errors := errors + 1;
        return;
      }
      var parsed := Stoull(h["reqId"]);
      if parsed.None? {
        errors := errors + 1;
        return;
      }
      var reqId := parsed.value;
      if reqId in pendingRequestBook {
        errors := errors + 1;
        return;
      }
      if "destTopic" !in h {
        errors := errors + 1;
        return;
      }
      if "reqType" in h {
        HandleSpecialRequest(reqId, h["reqType"], h["destTopic"]);
      } else {
        pendingRequestBook := pendingRequestBook[reqId := h["destTopic"]];
        log := log + [Accepted(reqId, h["destTopic"], r.payload)];
        accepted := Some((reqId, r.payload));
      }
    }

    method HandleSpecialRequest(reqId: uint64, reqType: string, destTopic: string)
      modifies `produced, `log
      ensures State() == MiddlewareModel.HandleSpecialRequest(old(State()), reqId, reqType, destTopic)
      ensures reqType != "ping" ==> State() == old(State())
    {
      if reqType == "ping" {
        produced := produced + Produce(destTopic, "response", "Null", "",
                                       map["respId" := ToString(reqId), "respType" := "pong", "isLast" := "1"]);
        log := log + [Ponged(reqId, destTopic)];
      }
    }

    method Respond(reqId: uint64, payload: string, isLast: bool) returns (err: APIError)
      modifies this
      ensures (err, State()) == MiddlewareModel.Respond(old(State()), reqId, payload, isLast)
      ensures err == Ok <==> reqId in old(pendingRequestBook)
      ensures err != Ok ==> produced == old(produced) && errors == old(errors) + 1
      ensures err == Ok && old(pendingRequestBook)[reqId] == "" ==> produced == old(produced)
      ensures err == Ok && old(pendingRequestBook)[reqId] != "" ==>
                produced == old(produced) + [Record(old(pendingRequestBook)[reqId], "Null", payload,
                                                    map["message_type" := "response", "respId" := ToString(reqId),
                                                        "isLast" := if isLast then "1" else "0"])]
      ensures pendingRequestBook == if isLast then old(pendingRequestBook) - {reqId} else old(pendingRequestBook)
    {
      if reqId !in pendingRequestBook {
        errors := errors + 1;
        return NonExistentReqId;
      }
      var destTopic := pendingRequestBook[reqId];
      produced := produced + Produce(destTopic, "response", "Null", payload,
                                     map["respId" := ToString(reqId), "isLast" := if isLast then "1" else "0"]);
      assert map["respId" := ToString(reqId), "isLast" := if isLast then "1" else "0"]["message_type" := "response"]
          == map["message_type" := "response", "respId" := ToString(reqId), "isLast" := if isLast then "1" else "0"];
      log := log + [Answered(reqId, destTopic, payload, isLast)];
      if isLast {
        pendingRequestBook := pendingRequestBook - {reqId};
      }
      return Ok;
    }
  }
}
