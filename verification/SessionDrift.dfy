/**
 How far the exchange can drift from the subscriptions the session wants.

 The pending sets stay editable while one of them is being written, and the written set is cleared whole
 when the write completes, so `exchange == live` is not an invariant of idle states. This module says
 exactly which streams drift: a small automaton that looks only at the session's own fields, never at the
 exchange, computes the drift of every run.
 */
module SessionDrift {
  import opened Wrappers
  import opened SessionModel

  // ---------------------------------------------------------------- draining

  /** The exchange once the outstanding write has been applied. */
  function Applied(w: World): set<Stream> {
    if w.token.Some? then Apply(w.token.value, w.exchange) else w.exchange
  }

  /** The exchange after the outstanding write and everything still pending has been written. */
  function Drained(w: World): set<Stream> {
    var c := w.ctl;
    if c.subsInFlight then Applied(w) - c.pendingUnsubs
    else if c.unsubsInFlight then Applied(w) + c.pendingSubs
    else Applied(w) + c.pendingSubs - c.pendingUnsubs
  }

  /** The streams the exchange will hold unwanted or lack once drained. */
  function Drift(w: World): set<Stream> {
    (Drained(w) - w.ctl.live) + (w.ctl.live - Drained(w))
  }

  function Present(streams: set<Stream>): nat {
    if streams == {} then 0 else 1
  }

  /** The number of successful writes left before the session is idle. */
  function WritesLeft(c: Control): nat {
    if !c.inFlight then 0
    else if c.subsInFlight then 1 + Present(c.pendingUnsubs)
    else if c.unsubsInFlight then 1 + Present(c.pendingSubs)
    else 1 + Present(c.pendingSubs) + Present(c.pendingUnsubs)
  }

  lemma WriteOkDrains(w: World)
    requires Valid(w) && w.ctl.connected && w.ctl.inFlight
    ensures Enabled(w, WriteOk)
    ensures var v := Step(w, WriteOk);
            && v.ctl.connected && v.ctl.live == w.ctl.live
            && WritesLeft(v.ctl) == WritesLeft(w.ctl) - 1
            && Drained(v) == Drained(w)
  {
    var v := Step(w, WriteOk);
    forall t: Stream ensures t in Drained(v) <==> t in Drained(w) {
    }
  }

  /** Playing out the handlers: with no new call, exactly `WritesLeft` and at most three successful writes
      make the session idle, and the exchange then holds exactly `Drained`. */
  lemma {:induction false} DrainBound(w: World) returns (es: seq<Event>)
    requires Valid(w) && w.ctl.connected
    ensures |es| == WritesLeft(w.ctl) <= 3
    ensures forall i :: 0 <= i < |es| ==> es[i] == WriteOk
    ensures Runnable(w, es)
    ensures var v := Run(w, es); v.ctl.connected && !v.ctl.inFlight && v.ctl.live == w.ctl.live && v.exchange == Drained(w)
    decreases WritesLeft(w.ctl)
  {
    if !w.ctl.inFlight {
      return [];
    }
    WriteOkDrains(w);
    StepKeepsValid(w, WriteOk);
    var rest := DrainBound(Step(w, WriteOk));
    es := [WriteOk] + rest;
    assert es[1..] == rest;
  }

  // ---------------------------------------------------------------- reconnect

  function SubscribeParams(cmd: Option<Command>): set<Stream> {
    if cmd.Some? && cmd.value.verb == Subscribe then cmd.value.params else {}
  }

  /** The stream a retained SUBSCRIBE would leave on the exchange although nobody wants it. */
  function HandshakeException(c: Control): set<Stream> {
    SubscribeParams(c.command) - c.live - c.pendingUnsubs
  }

  lemma HandshakeExceptionIsOneStream(w: World)
    requires Valid(w)
    ensures |HandshakeException(w.ctl)| <= 1
  {
    var extra := HandshakeException(w.ctl);
    if t :| t in extra {
      var params := w.ctl.command.value.params;
      assert |params - {t}| == 0;
      assert extra == {t};
    }
  }

  /** The handshake loop cancels nothing and queues every live stream. */
  lemma HandshakeQueuesLive(w: World)
    requires Valid(w)
    ensures var c := OnHandshake(w.ctl).ctl;
            c.pendingUnsubs == w.ctl.pendingUnsubs && c.pendingSubs == w.ctl.live == c.live
  {
    assert w.ctl.live - w.ctl.pendingUnsubs == w.ctl.live;
  }

  lemma HandshakeHeals(w: World)
    requires Valid(w) && Enabled(w, HandshakeOk)
    ensures var v := Step(w, HandshakeOk);
            && Drained(v) == w.ctl.live + HandshakeException(w.ctl)
            && Drift(v) == HandshakeException(w.ctl)
  {
    HandshakeQueuesLive(w);
    var v := Step(w, HandshakeOk);
    forall t: Stream ensures t in Drained(v) <==> t in w.ctl.live + HandshakeException(w.ctl) {
    }
  }

  /** Reconnect heals: in every reachable state, right after a handshake on an empty exchange, playing out the
      retained command and both batches yields exactly the live set, plus at most the stream of a retained
      SUBSCRIBE that is neither live nor about to be unsubscribed. The handshake loop has cancelled nothing. */
  lemma ReconnectHeals(es: seq<Event>)
    requires Runnable(INITIAL, es) && Enabled(Run(INITIAL, es), HandshakeOk)
    ensures var w := Run(INITIAL, es);
            var v := Step(w, HandshakeOk);
            && v.ctl.live == w.ctl.live == v.ctl.pendingSubs && v.ctl.pendingUnsubs == w.ctl.pendingUnsubs
            && Drained(v) == v.ctl.live + HandshakeException(w.ctl)
            && Drift(v) == HandshakeException(w.ctl) && |HandshakeException(w.ctl)| <= 1
  {
    RunKeepsValid(INITIAL, es);
    var w := Run(INITIAL, es);
    HandshakeQueuesLive(w);
    HandshakeHeals(w);
    HandshakeExceptionIsOneStream(w);
  }

  /** The streams whose last accepted call was an unsubscribe cancelled against a pending subscribe. */
  function CancelledUnsubs(c: Control, seen: set<Stream>, es: seq<Event>): set<Stream>
    decreases |es|
  {
    if es == [] then seen
    else CancelledUnsubs(Handle(c, es[0]).ctl, NoteCall(c, seen, es[0]), es[1..])
  }

  function NoteCall(c: Control, seen: set<Stream>, e: Event): set<Stream> {
    match e
    case SubscribeCall(t) => if t in c.live then seen else seen - {t}
    case UnsubscribeCall(t) =>
      if t !in c.live then seen
      else if t in c.pendingSubs then seen + {t}
      else seen - {t}
    case _ => seen
  }

  /** `seen` is right about the stream of a retained SUBSCRIBE. */
  ghost predicate Noted(w: World, seen: set<Stream>) {
    HandshakeException(w.ctl) == SubscribeParams(w.ctl.command) * seen
  }

  lemma NotedStep(w: World, seen: set<Stream>, e: Event)
    requires Valid(w) && Noted(w, seen) && Enabled(w, e)
    ensures Noted(Step(w, e), NoteCall(w.ctl, seen, e))
  {
    var v, seen1 := Step(w, e), NoteCall(w.ctl, seen, e);
    forall t: Stream ensures t in HandshakeException(v.ctl) <==> t in SubscribeParams(v.ctl.command) * seen1 {
      assert t in HandshakeException(w.ctl) <==> t in SubscribeParams(w.ctl.command) * seen;
    }
  }

  lemma {:induction false} NotedRun(w: World, seen: set<Stream>, es: seq<Event>)
    requires Valid(w) && Noted(w, seen) && Runnable(w, es)
    ensures Noted(Run(w, es), CancelledUnsubs(w.ctl, seen, es))
    decreases |es|
  {
    if es != [] {
      NotedStep(w, seen, es[0]);
      StepKeepsValid(w, es[0]);
      NotedRun(Step(w, es[0]), NoteCall(w.ctl, seen, es[0]), es[1..]);
    }
  }

  /** The handshake exception, read off the calls: over every run it is the stream of the retained SUBSCRIBE if
      and only if the last accepted call for it was an unsubscribe cancelled against a pending subscribe. An
      unsubscribe that was queued instead, connected or not, never leaves its stream behind. */
  lemma ExceptionIsACancelledUnsubscribe(es: seq<Event>)
    requires Runnable(INITIAL, es)
    ensures var c := Run(INITIAL, es).ctl;
            HandshakeException(c) == SubscribeParams(c.command) * CancelledUnsubs(INITIAL_CONTROL, {}, es)
  {
    NotedRun(INITIAL, {}, es);
  }

  lemma {:induction false} QueuedUnsubscribeStays(w: World, t: Stream, later: seq<Event>)
    requires Valid(w) && t !in w.ctl.live && t in w.ctl.pendingUnsubs
    requires Runnable(w, later) && SubscribeCall(t) !in later && WriteOk !in later
    ensures Valid(Run(w, later)) && t !in Run(w, later).ctl.live && t in Run(w, later).ctl.pendingUnsubs
    decreases |later|
  {
    if later != [] {
      assert later[0] in later;
      StepKeepsValid(w, later[0]);
      QueuedUnsubscribeStays(Step(w, later[0]), t, later[1..]);
    }
  }

  /** A stream unsubscribed while disconnected, unless that only cancels a pending subscribe, is gone from the
      exchange after the next handshake, however many failures, reconnects and other calls come between. */
  lemma OfflineUnsubscribeReachesExchange(es: seq<Event>, t: Stream, later: seq<Event>)
    requires Runnable(INITIAL, es)
    requires var c := Run(INITIAL, es).ctl; !c.connected && t in c.live && t !in c.pendingSubs
    requires Runnable(Step(Run(INITIAL, es), UnsubscribeCall(t)), later)
    requires SubscribeCall(t) !in later && WriteOk !in later
    requires Enabled(Run(Step(Run(INITIAL, es), UnsubscribeCall(t)), later), HandshakeOk)
    ensures var v := Run(Step(Run(INITIAL, es), UnsubscribeCall(t)), later);
            t !in Drained(Step(v, HandshakeOk))
  {
    RunKeepsValid(INITIAL, es);
    var w := Run(INITIAL, es);
    StepKeepsValid(w, UnsubscribeCall(t));
    QueuedUnsubscribeStays(Step(w, UnsubscribeCall(t)), t, later);
    HandshakeHeals(Run(Step(w, UnsubscribeCall(t)), later));
  }

  // ---------------------------------------------------------------- exact drift

  /** What an observer of the session's fields keeps: the streams that drift, and the pending entries whose
      cancellation would leave the exchange wrong. */
  datatype Watch = Watch(drift: set<Stream>, brittle: set<Stream>)

  const NOTHING := Watch({}, {})

  function Toggle(o: Watch, t: Stream): Watch {
    o.(drift := if t in o.drift then o.drift - {t} else o.drift + {t})
  }

  function Cancel(o: Watch, t: Stream): Watch {
    Watch(if t in o.brittle then o.drift + {t} else o.drift - {t}, o.brittle - {t})
  }

  function Insert(o: Watch, t: Stream): Watch {
    Watch(o.drift - {t}, if t in o.drift then o.brittle + {t} else o.brittle - {t})
  }

  predicate Accepted(c: Control, e: Event) {
    match e
    case SubscribeCall(t) => t !in c.live
    case UnsubscribeCall(t) => t in c.live
    case _ => false
  }

  predicate Cancels(c: Control, e: Event) {
    match e
    case SubscribeCall(t) => t in c.pendingUnsubs
    case UnsubscribeCall(t) => t in c.pendingSubs
    case _ => false
  }

  /** The call edits the pending set whose batch is being written. */
  predicate EditsWrittenSet(c: Control, e: Event) {
    && Accepted(c, e)
    && match e
       case SubscribeCall(t) => if Cancels(c, e) then c.unsubsInFlight else c.subsInFlight
       case UnsubscribeCall(t) => if Cancels(c, e) then c.subsInFlight else c.unsubsInFlight
       case _ => false
  }

  function WatchStep(c: Control, o: Watch, e: Event): Watch {
    match e
    case HandshakeOk =>
      var resent := SubscribeParams(c.command);
      Watch(HandshakeException(c), (c.pendingUnsubs - resent) + (c.live * resent))
    case SubscribeCall(t) => WatchCall(c, o, e, t)
    case UnsubscribeCall(t) => WatchCall(c, o, e, t)
    case _ => o
  }

  function WatchCall(c: Control, o: Watch, e: Event, t: Stream): Watch {
    if !Accepted(c, e) || !c.connected then o
    else if !c.inFlight then o.(drift := o.drift - {t})
    else if EditsWrittenSet(c, e) then Toggle(o, t)
    else if Cancels(c, e) then Cancel(o, t)
    else Insert(o, t)
  }

  /** The observer is right about a connected session. */
  ghost predicate Right(w: World, o: Watch) {
    w.ctl.connected ==>
      && o.drift == Drift(w)
      && (!w.ctl.unsubsInFlight ==> forall t :: t in w.ctl.pendingUnsubs ==> (t in o.brittle <==> t !in Applied(w)))
      && (!w.ctl.subsInFlight ==> forall t :: t in w.ctl.pendingSubs ==> (t in o.brittle <==> t in Applied(w)))
  }

  lemma IdleCallStaysRight(w: World, o: Watch, e: Event)
    requires Valid(w) && Right(w, o) && Accepted(w.ctl, e) && w.ctl.connected && !w.ctl.inFlight
    ensures Right(Step(w, e), WatchStep(w.ctl, o, e))
  {
    var v := Step(w, e);
    assert v.ctl.pendingSubs == {} && v.ctl.pendingUnsubs == {};
    forall t: Stream ensures t in Drift(v) <==> t in o.drift && t != e.stream {
    }
  }

  lemma BusySubscribeStaysRight(w: World, o: Watch, t: Stream)
    requires Valid(w) && Right(w, o) && w.ctl.connected && w.ctl.inFlight && t !in w.ctl.live
    ensures Right(Step(w, SubscribeCall(t)), WatchStep(w.ctl, o, SubscribeCall(t)))
  {
    var v, p := Step(w, SubscribeCall(t)), WatchStep(w.ctl, o, SubscribeCall(t));
    assert Applied(v) == Applied(w);
    forall x: Stream ensures x in p.drift <==> x in Drift(v) {
    }
  }

  lemma BusyUnsubscribeStaysRight(w: World, o: Watch, t: Stream)
    requires Valid(w) && Right(w, o) && w.ctl.connected && w.ctl.inFlight && t in w.ctl.live
    ensures Right(Step(w, UnsubscribeCall(t)), WatchStep(w.ctl, o, UnsubscribeCall(t)))
  {
    var v, p := Step(w, UnsubscribeCall(t)), WatchStep(w.ctl, o, UnsubscribeCall(t));
    assert Applied(v) == Applied(w);
    forall x: Stream ensures x in p.drift <==> x in Drift(v) {
    }
  }

  lemma WriteOkStaysRight(w: World, o: Watch)
    requires Valid(w) && Right(w, o) && Enabled(w, WriteOk)
    ensures Right(Step(w, WriteOk), o)
  {
    if w.ctl.connected {
      WriteOkDrains(w);
    }
  }

  lemma HandshakeStaysRight(w: World, o: Watch)
    requires Valid(w) && Enabled(w, HandshakeOk)
    ensures Right(Step(w, HandshakeOk), WatchStep(w.ctl, o, HandshakeOk))
  {
    HandshakeQueuesLive(w);
    HandshakeHeals(w);
  }

  /** One step of the observer. */
  lemma WatchStaysRight(w: World, o: Watch, e: Event)
    requires Valid(w) && Right(w, o) && Enabled(w, e)
    ensures Right(Step(w, e), WatchStep(w.ctl, o, e))
  {
    match e
    case WriteOk => WriteOkStaysRight(w, o);
    case WriteError(_) =>
    case ConnectionError(_) =>
    case HandshakeOk => HandshakeStaysRight(w, o);
    case SubscribeCall(t) =>
      if t !in w.ctl.live && w.ctl.connected {
        if w.ctl.inFlight {
          BusySubscribeStaysRight(w, o, t);
        } else {
          IdleCallStaysRight(w, o, e);
        }
      }
    case UnsubscribeCall(t) =>
      if t in w.ctl.live && w.ctl.connected {
        if w.ctl.inFlight {
          BusyUnsubscribeStaysRight(w, o, t);
        } else {
          IdleCallStaysRight(w, o, e);
        }
      }
  }

  function Predict(c: Control, o: Watch, es: seq<Event>): Watch
    decreases |es|
  {
    if es == [] then o else Predict(Handle(c, es[0]).ctl, WatchStep(c, o, es[0]), es[1..])
  }

  lemma {:induction false} RunStaysRight(w: World, o: Watch, es: seq<Event>)
    requires Valid(w) && Right(w, o) && Runnable(w, es)
    ensures Right(Run(w, es), Predict(w.ctl, o, es))
    decreases |es|
  {
    if es != [] {
      StepKeepsValid(w, es[0]);
      WatchStaysRight(w, o, es[0]);
      RunStaysRight(Step(w, es[0]), WatchStep(w.ctl, o, es[0]), es[1..]);
    }
  }

  /** Exact drift over every run: `Predict`, which never sees the exchange or the wire, names exactly the
      streams that will be wrong once the connection has drained. In particular, on an idle connection a
      stream is on the exchange iff it is live, except precisely for the predicted streams. */
  lemma ExactDrift(es: seq<Event>)
    requires Runnable(INITIAL, es)
    ensures var w, o := Run(INITIAL, es), Predict(INITIAL_CONTROL, NOTHING, es);
            w.ctl.connected ==>
              && Drift(w) == o.drift
              && (!w.ctl.inFlight ==> forall t :: (t in w.exchange <==> t in w.ctl.live) <==> t !in o.drift)
  {
    RunStaysRight(INITIAL, NOTHING, es);
    RunKeepsValid(INITIAL, es);
  }

  // ---------------------------------------------------------------- the windows

  /** `windows`: the streams a call has put at risk since the last handshake. `aged`: the pending
      unsubscribes that are older than the handshake and that no retained SUBSCRIBE re-creates. */
  datatype History = History(windows: set<Stream>, aged: set<Stream>)

  const BLANK := History({}, {})

  /** The three kinds of call that put their stream at risk: (a) it edits the set being written, (b) it is a
      subscribe cancelled against an aged unsubscribe, (c) it is an unsubscribe cancelled against a pending
      subscribe while the single command in flight subscribes that very stream. */
  predicate InWindow(c: Control, h: History, e: Event) {
    && c.connected && c.inFlight && Accepted(c, e)
    && (|| EditsWrittenSet(c, e)
        || (Cancels(c, e) && match e
                             case SubscribeCall(t) => t in h.aged
                             case UnsubscribeCall(t) => c.command == Some(Command(Subscribe, {t}))
                             case _ => false))
  }

  function HistoryStep(c: Control, h: History, e: Event): History {
    if e.HandshakeOk? then
      History(HandshakeException(c), c.pendingUnsubs - c.live - SubscribeParams(c.command))
    else
      History(if InWindow(c, h, e) then h.windows + {e.stream} else h.windows,
              h.aged * Handle(c, e).ctl.pendingUnsubs)
  }

  function Recall(c: Control, h: History, es: seq<Event>): History
    decreases |es|
  {
    if es == [] then h else Recall(Handle(c, es[0]).ctl, HistoryStep(c, h, es[0]), es[1..])
  }

  ghost predicate Covered(w: World, o: Watch, h: History) {
    var c := w.ctl;
    c.connected ==>
      && o.drift <= h.windows
      && h.aged <= c.pendingUnsubs
      && (!c.unsubsInFlight ==>
            forall t :: t in c.pendingUnsubs ==>
              && (t in o.brittle ==> t in h.windows || t in h.aged)
              && (t in h.aged ==> t !in Applied(w)))
      && (!c.subsInFlight ==>
            forall t :: t in c.pendingSubs && t in o.brittle ==>
              t in h.windows || c.command == Some(Command(Subscribe, {t})))
  }

  lemma SingletonParams(cmd: Command, t: Stream)
    requires |cmd.params| == 1 && t in cmd.params
    ensures cmd.params == {t}
  {
    assert |cmd.params - {t}| == 0;
  }

  lemma HandshakeIsCovered(w: World, o: Watch, h: History)
    requires Valid(w) && Enabled(w, HandshakeOk)
    ensures Covered(Step(w, HandshakeOk), WatchStep(w.ctl, o, HandshakeOk), HistoryStep(w.ctl, h, HandshakeOk))
  {
    HandshakeQueuesLive(w);
    var cmd := w.ctl.command;
    if t :| cmd.Some? && t in cmd.value.params {
      SingletonParams(cmd.value, t);
    }
  }

  lemma SubscribeStaysCovered(w: World, o: Watch, h: History, t: Stream)
    requires Valid(w) && Right(w, o) && Covered(w, o, h)
    ensures Covered(Step(w, SubscribeCall(t)), WatchStep(w.ctl, o, SubscribeCall(t)), HistoryStep(w.ctl, h, SubscribeCall(t)))
  {
  }

  lemma UnsubscribeStaysCovered(w: World, o: Watch, h: History, t: Stream)
    requires Valid(w) && Right(w, o) && Covered(w, o, h)
    ensures Covered(Step(w, UnsubscribeCall(t)), WatchStep(w.ctl, o, UnsubscribeCall(t)), HistoryStep(w.ctl, h, UnsubscribeCall(t)))
  {
  }

  lemma StaysCovered(w: World, o: Watch, h: History, e: Event)
    requires Valid(w) && Right(w, o) && Covered(w, o, h) && Enabled(w, e)
    ensures Covered(Step(w, e), WatchStep(w.ctl, o, e), HistoryStep(w.ctl, h, e))
  {
    match e
    case HandshakeOk => HandshakeIsCovered(w, o, h);
    case SubscribeCall(t) => SubscribeStaysCovered(w, o, h, t);
    case UnsubscribeCall(t) => UnsubscribeStaysCovered(w, o, h, t);
    case _ =>
  }

  lemma {:induction false} RunStaysCovered(w: World, o: Watch, h: History, es: seq<Event>)
    requires Valid(w) && Right(w, o) && Covered(w, o, h) && Runnable(w, es)
    ensures Valid(Run(w, es)) && Right(Run(w, es), Predict(w.ctl, o, es))
    ensures Covered(Run(w, es), Predict(w.ctl, o, es), Recall(w.ctl, h, es))
    decreases |es|
  {
    if es != [] {
      StepKeepsValid(w, es[0]);
      WatchStaysRight(w, o, es[0]);
      StaysCovered(w, o, h, es[0]);
      RunStaysCovered(Step(w, es[0]), WatchStep(w.ctl, o, es[0]), HistoryStep(w.ctl, h, es[0]), es[1..]);
    }
  }

  /** Only the handshake exception and streams called inside a window since the last handshake drift. */
  lemma OnlyWindowsDrift(es: seq<Event>)
    requires Runnable(INITIAL, es) && Run(INITIAL, es).ctl.connected
    ensures Drift(Run(INITIAL, es)) <= Recall(INITIAL_CONTROL, BLANK, es).windows
  {
    RunStaysCovered(INITIAL, NOTHING, BLANK, es);
  }

  /** A stream that no window has touched starts to drift with a call exactly when the call is in a window. */
  lemma FreshStreamDriftsIffInWindow(es: seq<Event>, e: Event)
    requires Runnable(INITIAL, es) && Run(INITIAL, es).ctl.connected
    requires e.SubscribeCall? || e.UnsubscribeCall?
    requires e.stream !in Recall(INITIAL_CONTROL, BLANK, es).windows
    ensures var w := Run(INITIAL, es);
            e.stream in Drift(Step(w, e)) <==> InWindow(w.ctl, Recall(INITIAL_CONTROL, BLANK, es), e)
  {
    RunStaysCovered(INITIAL, NOTHING, BLANK, es);
    var w, o := Run(INITIAL, es), Predict(INITIAL_CONTROL, NOTHING, es);
    WatchStaysRight(w, o, e);
    var t := e.stream;
    if Accepted(w.ctl, e) && w.ctl.inFlight && Cancels(w.ctl, e) && !EditsWrittenSet(w.ctl, e) {
      assert t in Drift(Step(w, e)) <==> t in o.brittle;
    }
  }

  // ---------------------------------------------------------------- convergence

  /** Draining gives exactly the live set, and no pending entry is brittle. */
  ghost predicate Calm(w: World) {
    Valid(w) && w.ctl.connected && Right(w, NOTHING)
  }

  predicate Quiet(c: Control, e: Event) {
    (e.SubscribeCall? || e.UnsubscribeCall? || e.WriteOk?) && !EditsWrittenSet(c, e)
  }

  predicate QuietRun(c: Control, es: seq<Event>)
    decreases |es|
  {
    es == [] || (Quiet(c, es[0]) && QuietRun(Handle(c, es[0]).ctl, es[1..]))
  }

  lemma UntroubledWatch(c: Control, e: Event)
    requires c.connected && (e.SubscribeCall? || e.UnsubscribeCall?)
    ensures WatchStep(c, NOTHING, e) == Watch(if EditsWrittenSet(c, e) && c.inFlight then {e.stream} else {}, {})
  {
  }

  lemma CalmOrDrifting(w: World, o: Watch)
    requires Valid(w) && w.ctl.connected && Right(w, o) && o.brittle == {}
    ensures Calm(w) <==> o.drift == {}
    ensures Drift(w) == o.drift
  {
  }

  lemma QuietOrLoudCall(w: World, e: Event, drift: set<Stream>)
    requires Calm(w) && (e.SubscribeCall? || e.UnsubscribeCall?)
    requires drift == if EditsWrittenSet(w.ctl, e) then {e.stream} else {}
    ensures Valid(Step(w, e)) && Step(w, e).ctl.connected && Right(Step(w, e), Watch(drift, {}))
  {
    StepKeepsValid(w, e);
    WatchStaysRight(w, NOTHING, e);
    UntroubledWatch(w.ctl, e);
  }

  /** From a calm state one call leaves the session calm iff it does not edit the set being written;
      otherwise its own stream, and no other, drifts. */
  lemma CalmCall(w: World, e: Event)
    requires Calm(w) && (e.SubscribeCall? || e.UnsubscribeCall?)
    ensures Calm(Step(w, e)) <==> !EditsWrittenSet(w.ctl, e)
    ensures EditsWrittenSet(w.ctl, e) ==> Drift(Step(w, e)) == {e.stream}
  {
    var drift := if EditsWrittenSet(w.ctl, e) then {e.stream} else {};
    QuietOrLoudCall(w, e, drift);
    CalmOrDrifting(Step(w, e), Watch(drift, {}));
  }

  lemma CalmWrite(w: World)
    requires Calm(w) && Enabled(w, WriteOk)
    ensures Calm(Step(w, WriteOk))
  {
    StepKeepsValid(w, WriteOk);
    WatchStaysRight(w, NOTHING, WriteOk);
  }

  /** Within one connection, from an idle state in step with the exchange, any interleaving of calls and
      successful writes that never edits the set being written converges: draining gives exactly the live
      set, so every later idle state is again in step. */
  lemma {:induction false} ConvergesWithinConnection(w: World, es: seq<Event>)
    requires Calm(w) && Runnable(w, es) && QuietRun(w.ctl, es)
    ensures var v := Run(w, es);
            && Calm(v) && Drained(v) == v.ctl.live
            && (!v.ctl.inFlight ==> v.exchange == v.ctl.live)
    decreases |es|
  {
    if es != [] {
      if es[0].WriteOk? {
        CalmWrite(w);
      } else {
        CalmCall(w, es[0]);
      }
      ConvergesWithinConnection(Step(w, es[0]), es[1..]);
    } else {
      forall t: Stream ensures t in Drained(w) <==> t in w.ctl.live {
        assert t !in Drift(w);
      }
    }
  }

  lemma IdleInStepIsCalm(w: World)
    requires Valid(w) && w.ctl.connected && !w.ctl.inFlight && w.exchange == w.ctl.live
    ensures Calm(w)
  {
  }

  /** Idle does not imply in step: a subscribe accepted while a SUBSCRIBE batch is being written is lost. */
  lemma IdleMayBeOutOfStep() returns (es: seq<Event>)
    ensures Runnable(INITIAL, es)
    ensures var w := Run(INITIAL, es);
            w.ctl.connected && !w.ctl.inFlight && w.ctl.live == {"a@trade", "b@trade"} && w.exchange == {"a@trade"}
  {
    es := [SubscribeCall("a@trade"), HandshakeOk, SubscribeCall("b@trade"), WriteOk];
    var w1 := Step(INITIAL, es[0]);
    assert w1.ctl.pendingSubs == {"a@trade"};
    var w2 := Step(w1, es[1]);
    assert w2.ctl.pendingSubs == {"a@trade"};
    assert w2.ctl.subsInFlight;
    var w3 := Step(w2, es[2]);
    var w4 := Step(w3, es[3]);
    assert w4.exchange == {"a@trade"};
    assert Runnable(w4, []) && Run(w4, []) == w4;
    assert es[3..] == [WriteOk] && Runnable(w3, es[3..]);
    assert es[2..][1..] == es[3..] && Runnable(w2, es[2..]);
    assert es[1..][1..] == es[2..] && Runnable(w1, es[1..]);
  }
}
