/**
 The `GenericReqRespRouter` object. Its methods really re-enter each other through the callbacks' scripts;
 each is proved to take the flat, non-nested step of `ReqRespModel`.
 */
module ReqRespRouter {
  import opened ReqRespModel
  import opened PubSubRouter
  import ReqRespTheorems

  type ListenerId = nat

  class GenericReqRespRouter {
    var reqPending: bool
    var pendingReqProcessors: seq<Forwarder>
    var pendingReqIds: set<ReqId>
    var responderBook: map<ReqType, ResponderId>
    const reqRouter: PubSubDataRouter<ReqType, nat, ListenerId>
    // The subscriber id the router uses for itself, `(size_t)this`.
    const selfId: nat

    ghost var log: seq<Event>

    ghost function State(): State
      reads this
    {
      ReqRespModel.State(pendingReqIds, reqPending, pendingReqProcessors, responderBook, log)
    }

    /** The book and the inner router hold the same request types, each with this router as its only
        subscriber. */
    ghost predicate BooksAgree()
      reads this, reqRouter
    {
      && reqRouter.Valid()
      && reqRouter.everythingSubscribers == map[]
      && forall t, i :: (t, i) in reqRouter.registrations <==> i == selfId && t in responderBook
    }

    ghost predicate Valid()
      reads this, reqRouter
    {
      BooksAgree() && (!reqPending ==> pendingReqProcessors == [])
    }

    constructor (selfId: nat)
      ensures Valid() && State() == INITIAL && fresh(reqRouter)
    {
      this.selfId := selfId;
      reqPending, pendingReqProcessors, pendingReqIds, responderBook := false, [], {}, map[];
      log := [];
      reqRouter := new PubSubDataRouter();
    }

    method RegisterAsResponder(responder: ResponderId, reqType: ReqType, listener: ListenerId) returns (ok: bool)
      requires Valid() && !reqPending
      modifies `responderBook, reqRouter
      ensures Valid()
      ensures ok <==> reqType !in old(responderBook)
      ensures State() == CallStep(old(State()), Register(reqType, responder))
      ensures ok ==> responderBook == old(responderBook)[reqType := responder]
                     && reqRouter.registrations == old(reqRouter.registrations)[(reqType, selfId) := listener]
      ensures !ok ==> responderBook == old(responderBook)
                      && reqRouter.registrations == old(reqRouter.registrations)
    {
      if reqType in responderBook { return false; }
      responderBook := responderBook[reqType := responder];
      var consumed := reqRouter.Consume(reqType, selfId, listener);
      assert consumed;
      return true;
    }

    method UnregisterAsResponder(responder: ResponderId, reqType: ReqType) returns (ok: bool)
      requires Valid() && !reqPending
      modifies `responderBook, reqRouter
      ensures Valid()
      ensures ok <==> reqType in old(responderBook)
      ensures State() == CallStep(old(State()), Unregister(reqType, responder))
      ensures responderBook == old(responderBook) - {reqType}
      ensures reqRouter.registrations == old(reqRouter.registrations) - {(reqType, selfId)}
    {
      if reqType !in responderBook { return false; }
      responderBook := responderBook - {reqType};
      var removed := reqRouter.Unregister(reqType, selfId);
      assert removed;
      return true;
    }

    /** `request`. During a forward the request is only queued; otherwise it is forwarded and the queue is
        drained, which may enqueue more. */
    method Request(id: ReqId, reqType: ReqType, script: seq<Action>, ghost fuel: nat) returns (ok: bool)
      requires Valid() && 1 + Size(script) <= fuel
      modifies this
      ensures Valid() && reqPending == old(reqPending)
      ensures ok <==> id !in old(pendingReqIds)
      ensures State() == Act(old(State()), Action.Request(id, reqType, script))
      decreases fuel, 0
    {
      if id in pendingReqIds { return false; }
      pendingReqIds := pendingReqIds + {id};
      log := log + [Accepted(id)];
      var forwarder := Forwarder(id, reqType, script);
      if reqPending {
        pendingReqProcessors := pendingReqProcessors + [forwarder];
      } else {
        ghost var accepted := State();
        RunForwarder(forwarder, fuel - 1);
        ghost var target := Drain(State());
        assert target == Drain(Forward(accepted, forwarder));
        while pendingReqProcessors != []
          invariant BooksAgree() && !reqPending
          invariant Work(pendingReqProcessors) <= fuel - 1
          invariant Drain(State()) == target
          decreases Work(pendingReqProcessors)
        {
          ghost var before := State();
          QueueGrows(before, before.queue[0]);
          RunForwarder(pendingReqProcessors[0], fuel - 1);
          pendingReqProcessors := pendingReqProcessors[1..];
          assert State() == ForwardFront(before);
        }
      }
      return true;
    }

    /** The body of `reqForwarder`: hands the request to the inner router, whose listener, if any, runs. */
    method RunForwarder(f: Forwarder, ghost fuel: nat)
      requires BooksAgree() && !reqPending && Size(f.script) <= fuel
      modifies this
      ensures BooksAgree() && !reqPending
      ensures State() == Forward(old(State()), f)
      ensures f.reqType !in old(responderBook) ==>
                log == old(log) + [ForwardBegin(f.id), ForwardEnd(f.id)]
                && pendingReqIds == old(pendingReqIds) && pendingReqProcessors == old(pendingReqProcessors)
      ensures f.reqType in old(responderBook) && f.script != [] ==>
                old(log) + [ForwardBegin(f.id)] + Opening(old(pendingReqIds), f.script[0]) <= log
      decreases fuel, 2
    {
      ListenerRunsIffRegistered(State(), f);
      reqPending := true;
      log := log + [ForwardBegin(f.id)];
      var any, listeners := reqRouter.Produce(f.reqType);
      AtMostOneListener(f.reqType, listeners);
      if listeners != [] {
        RunScript(f.script, fuel);
      }
      reqPending := false;
      log := log + [ForwardEnd(f.id)];
    }

    /** A request reaches at most one listener, and one iff its type is in the book. */
    lemma AtMostOneListener(reqType: ReqType, calls: seq<PubSubRouter.Call<nat, ListenerId>>)
      requires BooksAgree()
      requires multiset(calls) == multiset(reqRouter.KeyedCalls(reqType)) + multiset(reqRouter.EverythingCalls())
      ensures |calls| == if reqType in responderBook then 1 else 0
    {
      assert reqRouter.EverythingCalls() == {};
      var keyed := reqRouter.KeyedCalls(reqType);
      if reqType in responderBook {
        assert (reqType, selfId) in reqRouter.registrations;
        assert keyed == {Keyed(selfId, reqRouter.registrations[(reqType, selfId)])};
      } else {
        assert keyed == {};
      }
      assert |calls| == |multiset(calls)| == |keyed|;
    }

    /** What a callback does when it runs. */
    method RunScript(script: seq<Action>, ghost fuel: nat)
      requires Valid() && Size(script) <= fuel
      modifies this
      ensures Valid() && reqPending == old(reqPending)
      ensures State() == Exec(old(State()), script)
      decreases fuel, 1
    {
      var rest := script;
      while rest != []
        invariant Valid() && reqPending == old(reqPending)
        invariant Size(rest) <= fuel
        invariant Exec(State(), rest) == Exec(old(State()), script)
        decreases |rest|
      {
        match rest[0] {
          case Request(id, reqType, s) =>
            var _ := Request(id, reqType, s, fuel);
          case Respond(id, isLast, handler) =>
            RunResponse(id, isLast, handler, fuel - 1);
          case Cancel(id) =>
            var _ := CancelRequest(id);
        }
        rest := rest[1..];
      }
    }

    /** The response closure of `id`, called with a handler that will run `handler`. */
    method RunResponse(id: ReqId, isLast: bool, handler: seq<Action>, ghost fuel: nat)
      requires Valid() && Size(handler) <= fuel
      modifies this
      ensures Valid() && reqPending == old(reqPending)
      ensures State() == Act(old(State()), Respond(id, isLast, handler))
      ensures id !in old(pendingReqIds) ==> State() == old(State())
      ensures id in old(pendingReqIds) ==> old(log) + [Delivered(id, isLast)] <= log
      ensures isLast ==> id !in pendingReqIds
      decreases fuel, 3
    {
      if reqPending {
        ActionOpens(State(), Respond(id, isLast, handler));
      } else {
        ReqRespTheorems.ActOutsideOpens(State(), Respond(id, isLast, handler));
      }
      if id in pendingReqIds {
        log := log + [Delivered(id, isLast)];
        RunScript(handler, fuel);
        if isLast {
          if id in pendingReqIds {
            log := log + [Retired(id)];
          }
          pendingReqIds := pendingReqIds - {id};
        }
      }
    }

    method CancelRequest(id: ReqId) returns (ok: bool)
      requires Valid()
      modifies `pendingReqIds, `log
      ensures Valid() && reqPending == old(reqPending)
      ensures ok <==> id in old(pendingReqIds)
      ensures State() == Act(old(State()), Cancel(id))
      ensures pendingReqIds == old(pendingReqIds) - {id}
      ensures log == if ok then old(log) + [Cancelled(id)] else old(log)
    {
      ok := id in pendingReqIds;
      if ok {
        pendingReqIds := pendingReqIds - {id};
        log := log + [Cancelled(id)];
      }
    }
  }

  ghost function Act(st: State, a: Action): State
    requires !st.reqPending ==> st.queue == []
  {
    if st.reqPending then ActInside(st, a) else ActOutside(st, a)
  }

  ghost function Exec(st: State, script: seq<Action>): State
    requires !st.reqPending ==> st.queue == []
  {
    if st.reqPending then Inside(st, script) else Outside(st, script)
  }
}
