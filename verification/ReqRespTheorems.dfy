/**
 What the request/response router guarantees over every run, read off the log.
 */
module ReqRespTheorems {
  import opened ReqRespModel

  // ---------------------------------------------------------------- reading the log

  function Accepts(log: seq<Event>): seq<ReqId> {
    if log == [] then []
    else Accepts(log[..|log| - 1]) + if log[|log| - 1].Accepted? then [log[|log| - 1].id] else []
  }

  function Forwards(log: seq<Event>): seq<ReqId> {
    if log == [] then []
    else Forwards(log[..|log| - 1]) + if log[|log| - 1].ForwardBegin? then [log[|log| - 1].id] else []
  }

  datatype Nesting = Closed | Open(id: ReqId) | Broken

  /** `Broken` as soon as a forward begins inside another one, or ends without having begun. */
  function Nest(log: seq<Event>): Nesting {
    if log == [] then Closed
    else
      var before := Nest(log[..|log| - 1]);
      match log[|log| - 1]
      case ForwardBegin(id) => if before == Closed then Open(id) else Broken
      case ForwardEnd(id) => if before == Open(id) then Closed else Broken
      case _ => before
  }

  /** Accepted, minus retired by a last response, minus cancelled. */
  function OpenIds(log: seq<Event>): set<ReqId> {
    if log == [] then {}
    else
      var before := OpenIds(log[..|log| - 1]);
      match log[|log| - 1]
      case Accepted(id) => before + {id}
      case Retired(id) => before - {id}
      case Cancelled(id) => before - {id}
      case _ => before
  }

  /** The ids that were given a last response since they were last accepted. */
  function LastGiven(log: seq<Event>): set<ReqId> {
    if log == [] then {}
    else
      var before := LastGiven(log[..|log| - 1]);
      match log[|log| - 1]
      case Accepted(id) => before - {id}
      case Delivered(id, isLast) => if isLast then before + {id} else before
      case _ => before
  }

  /** Only a closed id is accepted; only an open one is responded to, retired or cancelled, and an id is
      retired only after a last response. */
  ghost predicate Legal(log: seq<Event>) {
    log == [] ||
    (var before := log[..|log| - 1];
     && Legal(before)
     && match log[|log| - 1]
        case Accepted(id) => id !in OpenIds(before)
        case Delivered(id, _) => id in OpenIds(before)
        case Retired(id) => id in OpenIds(before) && Delivered(id, true) in before
        case Cancelled(id) => id in OpenIds(before)
        case _ => true)
  }

  /** No response follows a last response. */
  ghost predicate Strict(log: seq<Event>) {
    log == [] ||
    (var before := log[..|log| - 1];
     && Strict(before)
     && (log[|log| - 1].Delivered? ==> log[|log| - 1].id !in LastGiven(before)))
  }

  lemma Snoc(log: seq<Event>, e: Event)
    ensures (log + [e])[..|log + [e]| - 1] == log && (log + [e])[|log + [e]| - 1] == e
  {
  }

  /** The independent reading of `OpenIds`: accepted at some point, and neither retired nor cancelled since. */
  lemma {:induction false} OpenIdsMeaning(log: seq<Event>, id: ReqId)
    ensures id in OpenIds(log) <==>
            exists i :: 0 <= i < |log| && log[i] == Accepted(id)
                        && forall j :: i < j < |log| ==> log[j] != Retired(id) && log[j] != Cancelled(id)
  {
    if log != [] {
      var n := |log| - 1;
      var before := log[..n];
      OpenIdsMeaning(before, id);
      if id in OpenIds(log) {
        if log[n] != Accepted(id) {
          var i :| 0 <= i < |before| && before[i] == Accepted(id)
                   && forall j :: i < j < |before| ==> before[j] != Retired(id) && before[j] != Cancelled(id);
          assert log[i] == Accepted(id);
        }
      } else {
        forall i | 0 <= i < |log| && log[i] == Accepted(id)
          ensures exists j :: i < j < |log| && (log[j] == Retired(id) || log[j] == Cancelled(id))
        {
          if log[n] != Retired(id) && log[n] != Cancelled(id) {
            assert before[i] == Accepted(id);
            var j :| i < j < |before| && (before[j] == Retired(id) || before[j] == Cancelled(id));
            assert log[j] == before[j];
          }
        }
      }
    }
  }

  /** In a strict log nothing is delivered to an id between its last response and its next acceptance. */
  lemma {:induction false} StrictMeansNothingAfterLast(log: seq<Event>, i: nat, j: nat, id: ReqId)
    requires Strict(log) && i < j < |log| && log[i] == Delivered(id, true) && log[j].Delivered? && log[j].id == id
    ensures exists k :: i < k < j && log[k] == Accepted(id)
    decreases |log|
  {
    var n := |log| - 1;
    if j == n {
      LastStaysGiven(log[..n], i, id);
      var k :| i < k < n && log[..n][k] == Accepted(id);
      assert log[k] == Accepted(id);
    } else {
      StrictMeansNothingAfterLast(log[..n], i, j, id);
      var k :| i < k < j && log[..n][k] == Accepted(id);
      assert log[k] == Accepted(id);
    }
  }

  lemma {:induction false} LastStaysGiven(log: seq<Event>, i: nat, id: ReqId)
    requires i < |log| && log[i] == Delivered(id, true)
    ensures id in LastGiven(log) || exists k :: i < k < |log| && log[k] == Accepted(id)
    decreases |log|
  {
    var n := |log| - 1;
    if i < n {
      LastStaysGiven(log[..n], i, id);
      if id !in LastGiven(log[..n]) {
        var k :| i < k < n && log[..n][k] == Accepted(id);
        assert log[k] == Accepted(id);
      } else if id !in LastGiven(log) {
        assert log[n] == Accepted(id);
      }
    }
  }

  // ---------------------------------------------------------------- the work queue

  function Ids(queue: seq<Forwarder>): seq<ReqId> {
    seq(|queue|, i requires 0 <= i < |queue| => queue[i].id)
  }

  /** Every accepted request has been forwarded, in order, or waits in the queue beyond the first `skip`. */
  ghost predicate Ordered(st: State, skip: nat) {
    skip <= |st.queue| && Accepts(st.log) == Forwards(st.log) + Ids(st.queue[skip..])
  }

  lemma SideEventOrdered(st: State, e: Event, skip: nat)
    requires Ordered(st, skip) && (e.Delivered? || e.Retired? || e.Cancelled?)
    ensures Ordered(Log(st, e), skip) && Nest(Log(st, e).log) == Nest(st.log)
  {
    Snoc(st.log, e);
  }

  lemma EnqueueOrdered(st: State, f: Forwarder, skip: nat)
    requires Ordered(st, skip)
    ensures Ordered(Enqueue(Accept(st, f.id), f), skip)
    ensures Nest(Accept(st, f.id).log) == Nest(st.log)
  {
    Snoc(st.log, Accepted(f.id));
    assert (st.queue + [f])[skip..] == st.queue[skip..] + [f];
    assert Ids(st.queue[skip..] + [f]) == Ids(st.queue[skip..]) + [f.id];
  }

  lemma HandlerReturnsOrdered(st: State, id: ReqId, isLast: bool, skip: nat)
    requires Ordered(st, skip)
    ensures Ordered(AfterHandler(st, id, isLast), skip) && Nest(AfterHandler(st, id, isLast).log) == Nest(st.log)
  {
    SideEventOrdered(st.(pending := st.pending - {id}), Retired(id), skip);
  }

  lemma CancelOrdered(st: State, id: ReqId, skip: nat)
    requires Ordered(st, skip)
    ensures Ordered(CancelRequest(st, id), skip) && Nest(CancelRequest(st, id).log) == Nest(st.log)
  {
    SideEventOrdered(st.(pending := st.pending - {id}), Cancelled(id), skip);
  }

  lemma {:induction false} InsideOrdered(st: State, script: seq<Action>, skip: nat)
    requires st.reqPending && Ordered(st, skip)
    ensures Ordered(Inside(st, script), skip) && Nest(Inside(st, script).log) == Nest(st.log)
    decreases script
  {
    if script != [] {
      ActInsideOrdered(st, script[0], skip);
      InsideOrdered(ActInside(st, script[0]), script[1..], skip);
    }
  }

  lemma {:induction false} ActInsideOrdered(st: State, a: Action, skip: nat)
    requires st.reqPending && Ordered(st, skip)
    ensures Ordered(ActInside(st, a), skip) && Nest(ActInside(st, a).log) == Nest(st.log)
    decreases a
  {
    match a {
      case Request(id, reqType, script) =>
        EnqueueOrdered(st, Forwarder(id, reqType, script), skip);
      case Respond(id, isLast, handler) =>
        if id in st.pending {
          var st1 := Log(st, Delivered(id, isLast));
          SideEventOrdered(st, Delivered(id, isLast), skip);
          InsideOrdered(st1, handler, skip);
          HandlerReturnsOrdered(Inside(st1, handler), id, isLast, skip);
        }
      case Cancel(id) =>
        CancelOrdered(st, id, skip);
    }
  }

  lemma ForwardOrdered(st: State, f: Forwarder, skip: nat)
    requires !st.reqPending && Nest(st.log) == Closed && skip <= |st.queue|
    requires Accepts(st.log) == Forwards(st.log) + [f.id] + Ids(st.queue[skip..])
    ensures Ordered(Forward(st, f), skip) && Nest(Forward(st, f).log) == Closed
  {
    var begun := Log(st.(reqPending := true), ForwardBegin(f.id));
    Snoc(st.log, ForwardBegin(f.id));
    InsideOrdered(begun, f.script, skip);
    var done := if f.reqType in st.book then Inside(begun, f.script) else begun;
    Snoc(done.log, ForwardEnd(f.id));
  }

  lemma {:induction false} DrainOrdered(st: State)
    requires !st.reqPending && Ordered(st, 0) && Nest(st.log) == Closed
    ensures Ordered(Drain(st), 0) && Nest(Drain(st).log) == Closed
    decreases Work(st.queue)
  {
    if st.queue != [] {
      var f := st.queue[0];
      assert st.queue[0..] == [f] + st.queue[1..];
      assert Ids([f] + st.queue[1..]) == [f.id] + Ids(st.queue[1..]);
      ForwardOrdered(st, f, 1);
      QueueGrows(st, f);
      var next := ForwardFront(st);
      assert next.queue[0..] == Forward(st, f).queue[1..];
      DrainOrdered(next);
    }
  }

  lemma {:induction false} OutsideOrdered(st: State, script: seq<Action>)
    requires Quiescent(st) && Ordered(st, 0) && Nest(st.log) == Closed
    ensures Ordered(Outside(st, script), 0) && Nest(Outside(st, script).log) == Closed
    decreases script
  {
    if script != [] {
      ActOutsideOrdered(st, script[0]);
      OutsideOrdered(ActOutside(st, script[0]), script[1..]);
    }
  }

  lemma {:induction false} ActOutsideOrdered(st: State, a: Action)
    requires Quiescent(st) && Ordered(st, 0) && Nest(st.log) == Closed
    ensures Ordered(ActOutside(st, a), 0) && Nest(ActOutside(st, a).log) == Closed
    decreases a
  {
    match a {
      case Request(id, reqType, script) =>
        if id !in st.pending {
          Snoc(st.log, Accepted(id));
          var f := Forwarder(id, reqType, script);
          ForwardOrdered(Accept(st, id), f, 0);
          DrainOrdered(Forward(Accept(st, id), f));
        }
      case Respond(id, isLast, handler) =>
        if id in st.pending {
          var st1 := Log(st, Delivered(id, isLast));
          SideEventOrdered(st, Delivered(id, isLast), 0);
          OutsideOrdered(st1, handler);
          HandlerReturnsOrdered(Outside(st1, handler), id, isLast, 0);
        }
      case Cancel(id) =>
        CancelOrdered(st, id, 0);
    }
  }

  lemma {:induction false} RunOrdered(st: State, calls: seq<Call>)
    requires Quiescent(st) && Ordered(st, 0) && Nest(st.log) == Closed
    ensures Ordered(Run(st, calls), 0) && Nest(Run(st, calls).log) == Closed
    decreases |calls|
  {
    if calls != [] {
      if calls[0].Do? {
        ActOutsideOrdered(st, calls[0].action);
      }
      RunOrdered(CallStep(st, calls[0]), calls[1..]);
    }
  }

  /** In every run each accepted request is forwarded exactly once, in acceptance order, never inside another
      forward, and each outermost call ends with the queue empty and no forward in progress. */
  lemma WorkQueueIsFifo(calls: seq<Call>)
    ensures var st := Run(INITIAL, calls);
            Forwards(st.log) == Accepts(st.log) && Nest(st.log) == Closed && st.queue == [] && !st.reqPending
  {
    assert Ids([]) == [];
    RunOrdered(INITIAL, calls);
  }

  // ---------------------------------------------------------------- pending ids

  ghost predicate Tracked(st: State) {
    st.pending == OpenIds(st.log) && Legal(st.log)
  }

  lemma AcceptTracked(st: State, id: ReqId)
    requires Tracked(st) && id !in st.pending
    ensures Tracked(Accept(st, id)) && st.log <= Accept(st, id).log
  {
    Snoc(st.log, Accepted(id));
  }

  lemma DeliverTracked(st: State, id: ReqId, isLast: bool)
    requires Tracked(st) && id in st.pending
    ensures Tracked(Log(st, Delivered(id, isLast)))
  {
    Snoc(st.log, Delivered(id, isLast));
  }

  lemma CancelTracked(st: State, id: ReqId)
    requires Tracked(st)
    ensures Tracked(CancelRequest(st, id)) && st.log <= CancelRequest(st, id).log
  {
    Snoc(st.log, Cancelled(id));
  }

  lemma {:induction false} InsideTracked(st: State, script: seq<Action>)
    requires st.reqPending && Tracked(st)
    ensures Tracked(Inside(st, script)) && st.log <= Inside(st, script).log
    decreases script
  {
    if script != [] {
      ActInsideTracked(st, script[0]);
      InsideTracked(ActInside(st, script[0]), script[1..]);
    }
  }

  lemma {:induction false} ActInsideTracked(st: State, a: Action)
    requires st.reqPending && Tracked(st)
    ensures Tracked(ActInside(st, a)) && st.log <= ActInside(st, a).log
    decreases a
  {
    match a {
      case Request(id, reqType, script) =>
        if id !in st.pending {
          AcceptTracked(st, id);
        }
      case Respond(id, isLast, handler) =>
        if id in st.pending {
          var st1 := Log(st, Delivered(id, isLast));
          DeliverTracked(st, id, isLast);
          InsideTracked(st1, handler);
          HandlerReturns(st, Inside(st1, handler), id, isLast);
        }
      case Cancel(id) =>
        CancelTracked(st, id);
    }
  }

  lemma HandlerReturns(st: State, after: State, id: ReqId, isLast: bool)
    requires Tracked(after) && st.log + [Delivered(id, isLast)] <= after.log
    ensures Tracked(AfterHandler(after, id, isLast)) && st.log <= AfterHandler(after, id, isLast).log
  {
    Snoc(after.log, Retired(id));
    assert after.log[|st.log|] == (st.log + [Delivered(id, isLast)])[|st.log|];
  }

  lemma ForwardTracked(st: State, f: Forwarder)
    requires !st.reqPending && Tracked(st)
    ensures Tracked(Forward(st, f)) && st.log <= Forward(st, f).log
  {
    var begun := Log(st.(reqPending := true), ForwardBegin(f.id));
    Snoc(st.log, ForwardBegin(f.id));
    InsideTracked(begun, f.script);
    var done := if f.reqType in st.book then Inside(begun, f.script) else begun;
    Snoc(done.log, ForwardEnd(f.id));
  }

  lemma {:induction false} DrainTracked(st: State)
    requires !st.reqPending && Tracked(st)
    ensures Tracked(Drain(st)) && st.log <= Drain(st).log
    decreases Work(st.queue)
  {
    if st.queue != [] {
      ForwardTracked(st, st.queue[0]);
      DrainTracked(ForwardFront(st));
    }
  }

  lemma {:induction false} OutsideTracked(st: State, script: seq<Action>)
    requires Quiescent(st) && Tracked(st)
    ensures Tracked(Outside(st, script)) && st.log <= Outside(st, script).log
    decreases script
  {
    if script != [] {
      ActOutsideTracked(st, script[0]);
      OutsideTracked(ActOutside(st, script[0]), script[1..]);
    }
  }

  lemma {:induction false} ActOutsideTracked(st: State, a: Action)
    requires Quiescent(st) && Tracked(st)
    ensures Tracked(ActOutside(st, a)) && st.log <= ActOutside(st, a).log
    decreases a
  {
    match a {
      case Request(id, reqType, script) =>
        if id !in st.pending {
          AcceptTracked(st, id);
          var f := Forwarder(id, reqType, script);
          ForwardTracked(Accept(st, id), f);
          DrainTracked(Forward(Accept(st, id), f));
        }
      case Respond(id, isLast, handler) =>
        if id in st.pending {
          var st1 := Log(st, Delivered(id, isLast));
          DeliverTracked(st, id, isLast);
          OutsideTracked(st1, handler);
          HandlerReturns(st, Outside(st1, handler), id, isLast);
        }
      case Cancel(id) =>
        CancelTracked(st, id);
    }
  }

  lemma {:induction false} RunTracked(st: State, calls: seq<Call>)
    requires Quiescent(st) && Tracked(st)
    ensures Tracked(Run(st, calls))
    decreases |calls|
  {
    if calls != [] {
      if calls[0].Do? {
        ActOutsideTracked(st, calls[0].action);
      }
      RunTracked(CallStep(st, calls[0]), calls[1..]);
    }
  }

  /** In every run the pending set is what was accepted and neither retired nor cancelled since, and no
      response reaches an id that is not pending: in particular none after a cancel. */
  lemma PendingIsOpen(calls: seq<Call>)
    ensures var st := Run(INITIAL, calls); st.pending == OpenIds(st.log) && Legal(st.log)
  {
    RunTracked(INITIAL, calls);
  }

  /** What legality means for a cancelled id. */
  lemma {:induction false} NothingAfterCancel(log: seq<Event>, i: nat, j: nat, id: ReqId)
    requires Legal(log) && i < j < |log| && log[i] == Cancelled(id) && log[j].Delivered? && log[j].id == id
    ensures exists k :: i < k < j && log[k] == Accepted(id)
    decreases |log|
  {
    var n := |log| - 1;
    var before := log[..n];
    if j == n {
      OpenIdsMeaning(before, id);
      var k :| 0 <= k < |before| && before[k] == Accepted(id)
               && forall m :: k < m < |before| ==> before[m] != Retired(id) && before[m] != Cancelled(id);
      assert log[k] == Accepted(id);
      assert before[i] == Cancelled(id);
    } else {
      NothingAfterCancel(before, i, j, id);
      var k :| i < k < j && before[k] == Accepted(id);
      assert log[k] == Accepted(id);
    }
  }

  // ---------------------------------------------------------------- at most one last response

  /** No response to `id` anywhere in the script, in its handlers or in the scripts of its requests. */
  predicate Avoids(script: seq<Action>, id: ReqId) {
    script == [] ||
    (&& (match script[0]
         case Request(_, _, s) => Avoids(s, id)
         case Respond(i, _, h) => i != id && Avoids(h, id)
         case Cancel(_) => true)
     && Avoids(script[1..], id))
  }

  /** The handler of a last response never re-enters the response closure it was called from. */
  predicate NoReentry(script: seq<Action>) {
    script == [] ||
    (&& (match script[0]
         case Request(_, _, s) => NoReentry(s)
         case Respond(i, isLast, h) => NoReentry(h) && (isLast ==> Avoids(h, i))
         case Cancel(_) => true)
     && NoReentry(script[1..]))
  }

  predicate Harmless(script: seq<Action>, busy: set<ReqId>) {
    NoReentry(script) && forall id | id in busy :: Avoids(script, id)
  }

  ghost predicate QueueHarmless(queue: seq<Forwarder>, busy: set<ReqId>) {
    forall i | 0 <= i < |queue| :: Harmless(queue[i].script, busy)
  }

  /** `busy`: the ids whose last handler is running. Only they may be pending after their last response. */
  ghost predicate Guarded(st: State, busy: set<ReqId>) {
    && Strict(st.log)
    && st.pending * LastGiven(st.log) <= busy
  }

  lemma AcceptGuarded(st: State, id: ReqId, busy: set<ReqId>)
    requires Guarded(st, busy)
    ensures Guarded(Accept(st, id), busy)
  {
    Snoc(st.log, Accepted(id));
  }

  lemma CancelGuarded(st: State, id: ReqId, busy: set<ReqId>)
    requires Guarded(st, busy)
    ensures Guarded(CancelRequest(st, id), busy)
  {
    Snoc(st.log, Cancelled(id));
  }

  function Busier(busy: set<ReqId>, id: ReqId, isLast: bool): set<ReqId> {
    if isLast then busy + {id} else busy
  }

  lemma DeliverGuarded(st: State, id: ReqId, isLast: bool, busy: set<ReqId>)
    requires Guarded(st, busy) && id in st.pending && id !in busy
    ensures Guarded(Log(st, Delivered(id, isLast)), Busier(busy, id, isLast))
  {
    Snoc(st.log, Delivered(id, isLast));
  }

  lemma ReturnGuarded(st: State, id: ReqId, isLast: bool, busy: set<ReqId>)
    requires Guarded(st, Busier(busy, id, isLast))
    ensures Guarded(AfterHandler(st, id, isLast), busy)
  {
    if isLast && id in st.pending {
      RetireKeeps(st.log, id);
      forall x | x in (st.pending - {id}) * LastGiven(st.log) ensures x in busy {
        assert x in st.pending * LastGiven(st.log);
      }
    }
  }

  lemma RetireKeeps(log: seq<Event>, id: ReqId)
    ensures LastGiven(log + [Retired(id)]) == LastGiven(log)
    ensures Strict(log + [Retired(id)]) == Strict(log)
  {
    Snoc(log, Retired(id));
  }

  lemma {:induction false} InsideGuarded(st: State, script: seq<Action>, busy: set<ReqId>, outer: set<ReqId>)
    requires st.reqPending && Guarded(st, busy) && Harmless(script, busy) && outer <= busy
    requires QueueHarmless(st.queue, outer)
    ensures Guarded(Inside(st, script), busy) && QueueHarmless(Inside(st, script).queue, outer)
    decreases script
  {
    if script != [] {
      assert Harmless(script[1..], busy);
      ActInsideGuarded(st, script[0], script, busy, outer);
      InsideGuarded(ActInside(st, script[0]), script[1..], busy, outer);
    }
  }

  lemma {:induction false} ActInsideGuarded(st: State, a: Action, script: seq<Action>, busy: set<ReqId>, outer: set<ReqId>)
    requires script != [] && a == script[0] && Harmless(script, busy)
    requires st.reqPending && Guarded(st, busy) && outer <= busy
    requires QueueHarmless(st.queue, outer)
    ensures Guarded(ActInside(st, a), busy) && QueueHarmless(ActInside(st, a).queue, outer)
    decreases a
  {
    match a {
      case Request(id, reqType, s) =>
        AcceptGuarded(st, id, busy);
        assert Harmless(s, outer);
      case Respond(id, isLast, handler) =>
        if id in st.pending {
          var st1 := Log(st, Delivered(id, isLast));
          DeliverGuarded(st, id, isLast, busy);
          InsideGuarded(st1, handler, Busier(busy, id, isLast), outer);
          ReturnGuarded(Inside(st1, handler), id, isLast, busy);
        }
      case Cancel(id) =>
        CancelGuarded(st, id, busy);
    }
  }

  lemma ForwardGuarded(st: State, f: Forwarder, busy: set<ReqId>)
    requires !st.reqPending && Guarded(st, busy) && Harmless(f.script, busy) && QueueHarmless(st.queue, busy)
    ensures Guarded(Forward(st, f), busy) && QueueHarmless(Forward(st, f).queue, busy)
  {
    var begun := Log(st.(reqPending := true), ForwardBegin(f.id));
    Snoc(st.log, ForwardBegin(f.id));
    InsideGuarded(begun, f.script, busy, busy);
    var done := if f.reqType in st.book then Inside(begun, f.script) else begun;
    Snoc(done.log, ForwardEnd(f.id));
  }

  lemma {:induction false} DrainGuarded(st: State, busy: set<ReqId>)
    requires !st.reqPending && Guarded(st, busy) && QueueHarmless(st.queue, busy)
    ensures Guarded(Drain(st), busy)
    decreases Work(st.queue)
  {
    if st.queue != [] {
      ForwardGuarded(st, st.queue[0], busy);
      QueueGrows(st, st.queue[0]);
      var next, done := ForwardFront(st).queue, Forward(st, st.queue[0]).queue;
      assert forall i :: 0 <= i < |next| ==> next[i] == done[i + 1];
      DrainGuarded(ForwardFront(st), busy);
    }
  }

  lemma {:induction false} OutsideGuarded(st: State, script: seq<Action>, busy: set<ReqId>)
    requires Quiescent(st) && Guarded(st, busy) && Harmless(script, busy)
    ensures Guarded(Outside(st, script), busy)
    decreases script
  {
    if script != [] {
      assert Harmless(script[1..], busy);
      ActOutsideGuarded(st, script[0], script, busy);
      OutsideGuarded(ActOutside(st, script[0]), script[1..], busy);
    }
  }

  lemma {:induction false} ActOutsideGuarded(st: State, a: Action, script: seq<Action>, busy: set<ReqId>)
    requires script != [] && a == script[0] && Harmless(script, busy)
    requires Quiescent(st) && Guarded(st, busy)
    ensures Guarded(ActOutside(st, a), busy)
    decreases a
  {
    match a {
      case Request(id, reqType, s) =>
        if id !in st.pending {
          AcceptGuarded(st, id, busy);
          var f := Forwarder(id, reqType, s);
          assert Harmless(s, busy);
          ForwardGuarded(Accept(st, id), f, busy);
          DrainGuarded(Forward(Accept(st, id), f), busy);
        }
      case Respond(id, isLast, handler) =>
        if id in st.pending {
          var st1 := Log(st, Delivered(id, isLast));
          DeliverGuarded(st, id, isLast, busy);
          OutsideGuarded(st1, handler, Busier(busy, id, isLast));
          ReturnGuarded(Outside(st1, handler), id, isLast, busy);
        }
      case Cancel(id) =>
        CancelGuarded(st, id, busy);
    }
  }

  predicate CallsDoNotReenter(calls: seq<Call>) {
    forall i | 0 <= i < |calls| :: calls[i].Do? ==> NoReentry([calls[i].action])
  }

  lemma {:induction false} RunGuarded(st: State, calls: seq<Call>)
    requires Quiescent(st) && Guarded(st, {}) && CallsDoNotReenter(calls)
    ensures Guarded(Run(st, calls), {})
    decreases |calls|
  {
    if calls != [] {
      if calls[0].Do? {
        ActOutsideGuarded(st, calls[0].action, [calls[0].action], {});
      }
      RunGuarded(CallStep(st, calls[0]), calls[1..]);
    }
  }

  /** As long as no handler re-enters the closure of its own last response, no run delivers anything to an id
      after its last response. */
  lemma AtMostOneLastResponse(calls: seq<Call>)
    requires CallsDoNotReenter(calls)
    ensures Strict(Run(INITIAL, calls).log)
  {
    RunGuarded(INITIAL, calls);
  }

  lemma RespondIsLogged(st: State, id: ReqId, isLast: bool, handler: seq<Action>, log: seq<Event>)
    requires Quiescent(st) && Tracked(st) && id in st.pending
    requires log <= Outside(Log(st, Delivered(id, isLast)), handler).log
    ensures Tracked(ActOutside(st, Respond(id, isLast, handler)))
    ensures log <= ActOutside(st, Respond(id, isLast, handler)).log
  {
    var st1 := Log(st, Delivered(id, isLast));
    DeliverTracked(st, id, isLast);
    OutsideTracked(st1, handler);
    HandlerReturns(st, Outside(st1, handler), id, isLast);
  }

  lemma FirstActionIsLogged(st: State, a: Action, rest: seq<Action>, log: seq<Event>)
    requires Quiescent(st) && Tracked(ActOutside(st, a)) && log <= ActOutside(st, a).log
    ensures log <= Outside(st, [a] + rest).log
  {
    assert ([a] + rest)[1..] == rest;
    OutsideTracked(ActOutside(st, a), rest);
  }

  lemma TwiceIsNotStrict(log: seq<Event>, id: ReqId, isLast: bool)
    ensures !Strict(log + [Delivered(id, true)] + [Delivered(id, isLast)])
  {
    Snoc(log, Delivered(id, true));
    Snoc(log + [Delivered(id, true)], Delivered(id, isLast));
  }

  /** The condition is needed: a handler that begins by re-entering its own closure is always delivered to
      again, because the id is only retired once the handler has returned. */
  lemma ReentryRepeats(st: State, id: ReqId, isLast: bool, inner: seq<Action>, rest: seq<Action>)
    requires Quiescent(st) && Tracked(st) && id in st.pending
    ensures !Strict(ActOutside(st, Respond(id, true, [Respond(id, isLast, inner)] + rest)).log)
  {
    var again := Respond(id, isLast, inner);
    var st1 := Log(st, Delivered(id, true));
    var twice := st1.log + [Delivered(id, isLast)];
    TwiceIsNotStrict(st.log, id, isLast);
    DeliverTracked(st, id, true);
    DeliverTracked(st1, id, isLast);
    OutsideTracked(Log(st1, Delivered(id, isLast)), inner);
    RespondIsLogged(st1, id, isLast, inner, twice);
    FirstActionIsLogged(st1, again, rest, twice);
    RespondIsLogged(st, id, true, [again] + rest, twice);
    StrictPrefix(ActOutside(st, Respond(id, true, [again] + rest)).log, |twice|);
  }

  lemma {:induction false} StrictPrefix(log: seq<Event>, n: nat)
    requires n <= |log|
    ensures Strict(log) ==> Strict(log[..n])
    decreases |log|
  {
    if n < |log| {
      StrictPrefix(log[..|log| - 1], n);
      assert log[..|log| - 1][..n] == log[..n];
    } else {
      assert log[..n] == log;
    }
  }

  // ---------------------------------------------------------------- which callbacks run

  lemma {:induction false} DrainGrows(st: State)
    requires !st.reqPending
    ensures st.log <= Drain(st).log
    decreases Work(st.queue)
  {
    if st.queue != [] {
      ListenerRunsIffRegistered(st, st.queue[0]);
      DrainGrows(ForwardFront(st));
    }
  }

  lemma {:induction false} OutsideGrows(st: State, script: seq<Action>)
    requires Quiescent(st)
    ensures st.log <= Outside(st, script).log
    decreases script
  {
    if script != [] {
      ActOutsideOpens(st, script[0]);
      OutsideGrows(ActOutside(st, script[0]), script[1..]);
    }
  }

  lemma {:induction false} ActOutsideOpens(st: State, a: Action)
    requires Quiescent(st)
    ensures st.log + Opening(st.pending, a) <= ActOutside(st, a).log
    decreases a
  {
    match a {
      case Request(id, reqType, script) =>
        if id !in st.pending {
          var f := Forwarder(id, reqType, script);
          ListenerRunsIffRegistered(Accept(st, id), f);
          DrainGrows(Forward(Accept(st, id), f));
        }
      case Respond(id, isLast, handler) =>
        if id in st.pending {
          OutsideGrows(Log(st, Delivered(id, isLast)), handler);
        }
      case Cancel(id) =>
    }
  }

  lemma ScriptOpensOutside(st: State, script: seq<Action>)
    requires Quiescent(st) && script != []
    ensures st.log + Opening(st.pending, script[0]) <= Outside(st, script).log
  {
    ActOutsideOpens(st, script[0]);
    OutsideGrows(ActOutside(st, script[0]), script[1..]);
  }

  /** A response to a pending id is delivered, and its handler runs at once, in and out of a forward. */
  lemma DeliveryRunsHandler(st: State, id: ReqId, isLast: bool, handler: seq<Action>)
    requires id in st.pending && handler != []
    ensures var opens := st.log + [Delivered(id, isLast)] + Opening(st.pending, handler[0]);
            && (st.reqPending ==> opens <= ActInside(st, Respond(id, isLast, handler)).log)
            && (Quiescent(st) ==> opens <= ActOutside(st, Respond(id, isLast, handler)).log)
  {
    if st.reqPending {
      ScriptOpens(Log(st, Delivered(id, isLast)), handler);
    } else if Quiescent(st) {
      ScriptOpensOutside(Log(st, Delivered(id, isLast)), handler);
    }
  }

  /** A script runs to its end: running two one after the other is running their concatenation. */
  lemma {:induction false} ScriptsRunInTurn(st: State, first: seq<Action>, second: seq<Action>)
    requires st.reqPending || Quiescent(st)
    ensures st.reqPending ==> Inside(st, first + second) == Inside(Inside(st, first), second)
    ensures Quiescent(st) ==> Outside(st, first + second) == Outside(Outside(st, first), second)
    decreases |first|
  {
    if first == [] {
      assert first + second == second;
    } else {
      assert (first + second)[1..] == first[1..] + second;
      if st.reqPending {
        ScriptsRunInTurn(ActInside(st, first[0]), first[1..], second);
      } else {
        ScriptsRunInTurn(ActOutside(st, first[0]), first[1..], second);
      }
    }
  }

  /** A request made outside any forward runs its listener at once, iff its type is registered: with a
      listener whose first action responds, the delivery directly follows the beginning of the forward;
      without one the id stays pending and nothing is ever delivered. */
  lemma RequestRunsListenerIffRegistered(st: State, id: ReqId, reqType: ReqType, isLast: bool,
                                         handler: seq<Action>, rest: seq<Action>)
    requires Quiescent(st) && id !in st.pending
    ensures var r := ActOutside(st, Request(id, reqType, [Respond(id, isLast, handler)] + rest));
            if reqType in st.book
            then st.log + [Accepted(id), ForwardBegin(id), Delivered(id, isLast)] <= r.log
            else r == st.(pending := st.pending + {id},
                          log := st.log + [Accepted(id), ForwardBegin(id), ForwardEnd(id)])
  {
    var f := Forwarder(id, reqType, [Respond(id, isLast, handler)] + rest);
    var accepted := Accept(st, id);
    ListenerRunsIffRegistered(accepted, f);
    DrainGrows(Forward(accepted, f));
    assert accepted.log + [ForwardBegin(id)] + [Delivered(id, isLast)]
        == st.log + [Accepted(id), ForwardBegin(id), Delivered(id, isLast)];
    assert accepted.log + [ForwardBegin(id), ForwardEnd(id)]
        == st.log + [Accepted(id), ForwardBegin(id), ForwardEnd(id)];
  }

  /** `f` is forwarded at entry `n` of the log, by its listener's first action or, without one, by nothing. */
  ghost predicate ForwardedAt(log: seq<Event>, n: nat, f: Forwarder, registered: bool) {
    && n < |log| && log[n] == ForwardBegin(f.id)
    && (!registered ==> n + 1 < |log| && log[n + 1] == ForwardEnd(f.id))
    && (registered && f.script != [] ==> Opening(OpenIds(log[..n]), f.script[0]) <= log[n + 1..])
  }

  lemma PrefixIsForwarded(before: seq<Event>, pending: set<ReqId>, f: Forwarder, registered: bool, log: seq<Event>)
    requires pending == OpenIds(before) && before + [ForwardBegin(f.id)] <= log
    requires !registered ==> before + [ForwardBegin(f.id), ForwardEnd(f.id)] <= log
    requires registered && f.script != [] ==>
               before + [ForwardBegin(f.id)] + Opening(pending, f.script[0]) <= log
    ensures ForwardedAt(log, |before|, f, registered)
  {
    var n := |before|;
    assert log[..n] == before;
    assert log[n] == (before + [ForwardBegin(f.id)])[n];
    if !registered {
      assert log[n + 1] == (before + [ForwardBegin(f.id), ForwardEnd(f.id)])[n + 1];
    } else if f.script != [] {
      var opening := Opening(pending, f.script[0]);
      assert (before + [ForwardBegin(f.id)] + opening)[n + 1..] == opening;
    }
  }

  lemma FrontIsForwarded(st: State)
    requires !st.reqPending && Tracked(st) && st.queue != []
    ensures ForwardedAt(Drain(st).log, |st.log|, st.queue[0], st.queue[0].reqType in st.book)
  {
    var f := st.queue[0];
    ListenerRunsIffRegistered(st, f);
    DrainGrows(ForwardFront(st));
    PrefixIsForwarded(st.log, st.pending, f, f.reqType in st.book, Drain(st).log);
  }

  /** The same for every request that waits in the queue: when the queue has drained, each was forwarded to
      its listener, if its type has one, as the ids stood at that moment. */
  lemma {:induction false} QueuedRequestRunsListenerIffRegistered(st: State, k: nat)
    requires !st.reqPending && Tracked(st) && k < |st.queue|
    ensures exists n: nat :: |st.log| <= n
                             && ForwardedAt(Drain(st).log, n, st.queue[k], st.queue[k].reqType in st.book)
    decreases k
  {
    if k == 0 {
      FrontIsForwarded(st);
    } else {
      var next := ForwardFront(st);
      ForwardTracked(st, st.queue[0]);
      QueueGrows(st, st.queue[0]);
      assert next.queue[k - 1] == st.queue[k];
      QueuedRequestRunsListenerIffRegistered(next, k - 1);
      var n: nat :| |next.log| <= n
                    && ForwardedAt(Drain(next).log, n, next.queue[k - 1], next.queue[k - 1].reqType in next.book);
      assert Drain(st) == Drain(next);
      assert ForwardedAt(Drain(st).log, n, st.queue[k], st.queue[k].reqType in st.book);
    }
  }

  lemma RequestDuringForwardWaits(st: State, outer: ReqId, outerType: ReqType, inner: Action)
    requires Quiescent(st) && inner.Request? && inner.id !in st.pending && outerType in st.book
    ensures var done := Forward(st, Forwarder(outer, outerType, [inner]));
            && done.queue == [Forwarder(inner.id, inner.reqType, inner.script)]
            && done.pending == st.pending + {inner.id}
            && done.log == st.log + [ForwardBegin(outer), Accepted(inner.id), ForwardEnd(outer)]
  {
    var begun := Log(st.(reqPending := true), ForwardBegin(outer));
    assert [inner][1..] == [];
    assert Inside(begun, [inner])
        == Enqueue(Accept(begun, inner.id), Forwarder(inner.id, inner.reqType, inner.script));
    assert begun.log + [Accepted(inner.id)] + [ForwardEnd(outer)]
        == st.log + [ForwardBegin(outer), Accepted(inner.id), ForwardEnd(outer)];
  }

  /** A request made from within a listener waits for that forward to end, and then runs its own listener. */
  lemma RequestDuringForwardRunsListener(st: State, outer: ReqId, outerType: ReqType, id: ReqId,
                                         reqType: ReqType, isLast: bool, handler: seq<Action>,
                                         rest: seq<Action>)
    requires Quiescent(st) && {outer, id} !! st.pending && outer != id
    requires outerType in st.book && reqType in st.book
    ensures st.log + [Accepted(outer), ForwardBegin(outer), Accepted(id), ForwardEnd(outer),
                      ForwardBegin(id), Delivered(id, isLast)]
         <= ActOutside(st, Request(outer, outerType,
                                   [Request(id, reqType, [Respond(id, isLast, handler)] + rest)])).log
  {
    var inner := Request(id, reqType, [Respond(id, isLast, handler)] + rest);
    var done := Forward(Accept(st, outer), Forwarder(outer, outerType, [inner]));
    RequestDuringForwardWaits(Accept(st, outer), outer, outerType, inner);
    ListenerRunsIffRegistered(done, done.queue[0]);
    DrainGrows(ForwardFront(done));
    assert done.log + [ForwardBegin(id)] + [Delivered(id, isLast)]
        == st.log + [Accepted(outer), ForwardBegin(outer), Accepted(id), ForwardEnd(outer),
                     ForwardBegin(id), Delivered(id, isLast)];
  }
}
