/**
 The gateway's communication with the platform: the global subscription table, updated in place, and the
 fan-out of price updates to the topics that want them.
 */
module PlatformCommObject {
  import opened Wrappers
  import opened Keys
  import opened PlatformCommModel

  const INSTRUMENT_WILD_CARD := "*"

  datatype PriceUpdate = TradeUpdate(text: string) | DepthUpdate(text: string) | PriceBlanking

  datatype Body = Payload(text: string) | Blank(symbol: string, subscriptionType: string, exchange: string)

  /** One call of `producerFunc`, with the routing key it was made for. */
  datatype Emission = Emission(forKey: Key, topic: Topic, msgType: string, recordKey: string, body: Body)

  function Expected(key: Key, topic: Topic, data: PriceUpdate): Emission
    requires |Split(key, ':')| >= 2
  {
    match data
    case TradeUpdate(text) => Emission(key, topic, "trade_update", key, Payload(text))
    case DepthUpdate(text) => Emission(key, topic, "depth_update", key, Payload(text))
    case PriceBlanking =>
      var (symbol, subscriptionType, exchange) := DisintegrateKey(key);
      Emission(key, topic, "price_blanked", "NULL", Blank(symbol, subscriptionType, exchange))
  }

  function Targets(out: seq<Emission>): seq<(Key, Topic)> {
    seq(|out|, i requires 0 <= i < |out| => (out[i].forKey, out[i].topic))
  }

  lemma TargetsAppend(a: seq<Emission>, b: seq<Emission>)
    ensures Targets(a + b) == Targets(a) + Targets(b)
  {
  }

  /** The routing keys an update is for: the wildcard stands for every key, but only when prices are blanked. */
  predicate Concerns(updateKey: Key, data: PriceUpdate, key: Key) {
    if updateKey == INSTRUMENT_WILD_CARD then data.PriceBlanking? else key == updateKey
  }

  /** What a consumer reads: a trade or depth update under its routing key, a blanked price under "NULL" with
      the key taken apart. */
  ghost predicate Carries(e: Emission, data: PriceUpdate) {
    var tokens := Split(e.forKey, ':');
    && |tokens| >= 2
    && match data
       case TradeUpdate(text) =>
         e.msgType == "trade_update" && e.recordKey == e.forKey && e.body == Payload(text)
       case DepthUpdate(text) =>
         e.msgType == "depth_update" && e.recordKey == e.forKey && e.body == Payload(text)
       case PriceBlanking =>
         e.msgType == "price_blanked" && e.recordKey == "NULL" && e.body == Blank(tokens[0], tokens[1], "BINANCE")
  }

  ghost predicate AllCarry(out: seq<Emission>, data: PriceUpdate) {
    forall i | 0 <= i < |out| :: Carries(out[i], data)
  }

  class PlatformComm {
    var symbolToDestTopics: Table
    var syncLog: seq<Update>
    // Every message `msgCb` was called with.
    ghost var history: seq<Message>

    ghost function State(): Comm
      reads this
    {
      Comm(symbolToDestTopics, syncLog)
    }

    ghost predicate Valid()
      reads this
    {
      State() == Run(history)
    }

    constructor ()
      ensures Valid() && history == []
    {
      symbolToDestTopics, syncLog, history := map[], [], [];
    }

    method HandleBookKeepingForSubscription(key: Key, destTopic: Topic) returns (ok: bool)
      modifies `symbolToDestTopics
      ensures (ok, symbolToDestTopics) == SubscribeTopic(old(symbolToDestTopics), key, destTopic)
    {
      if key !in symbolToDestTopics {
        symbolToDestTopics := symbolToDestTopics[key := {destTopic}];
        return true;
      }
      ok := destTopic !in symbolToDestTopics[key];
      symbolToDestTopics := symbolToDestTopics[key := symbolToDestTopics[key] + {destTopic}];
    }

    method HandleBookKeepingForUnsubscription(key: Key, destTopic: Topic) returns (ok: bool)
      modifies `symbolToDestTopics
      ensures (ok, symbolToDestTopics) == UnsubscribeTopic(old(symbolToDestTopics), key, destTopic)
    {
      if key !in symbolToDestTopics {
        return false;
      }
      if destTopic in symbolToDestTopics[key] {
        var destTopics := symbolToDestTopics[key] - {destTopic};
        if destTopics == {} {
          symbolToDestTopics := symbolToDestTopics - {key};
        } else {
          symbolToDestTopics := symbolToDestTopics[key := destTopics];
        }
        return true;
      }
      return false;
    }

    method MsgCb(m: Message)
      requires Valid()
      modifies this
      ensures Valid() && history == old(history) + [m]
      ensures State() == Step(old(State()), m)
      ensures m.known && m.symbol.Some? && m.subscriptionType.Some? && m.msgType in {"subscribe", "unsubscribe"} ==>
                (Wants(symbolToDestTopics, CStr(m.symbol.value) + ":" + m.subscriptionType.value, CStr(m.destTopic))
                 <==> m.msgType == "subscribe")
    {
      if m.known && m.symbol.Some? && m.subscriptionType.Some? && m.msgType in {"subscribe", "unsubscribe"} {
        CommandTakesEffect(history, m.msgType == "subscribe", m.partition, m.symbol.value, m.subscriptionType.value,
                           m.destTopic);
      }
      history := history + [m];
      assert history[..|history| - 1] == old(history);
      if m.msgType != "subscribe" && m.msgType != "unsubscribe" { return; }
      if !m.known { return; }
      var isSub := m.msgType == "subscribe";
      var routingKey := GenerateKey(m.symbol, m.subscriptionType);
      if routingKey.None? { return; }
      var destTopic := CStr(m.destTopic);
      var ok;
      if isSub {
        ok := HandleBookKeepingForSubscription(routingKey.value, destTopic);
      } else {
        ok := HandleBookKeepingForUnsubscription(routingKey.value, destTopic);
      }
      if !ok {
        RunIsConsistent(old(history));
        BookKeepingChangesOnePair(old(symbolToDestTopics), routingKey.value, destTopic, isSub);
        return;
      }
      syncLog := syncLog + [Update(m.partition, routingKey.value, isSub, destTopic)];
    }

    /** One message to each topic of one key. */
    method EmitForKey(key: Key, data: PriceUpdate) returns (out: seq<Emission>)
      requires key in symbolToDestTopics && |Split(key, ':')| >= 2
      ensures AllCarry(out, data)
      ensures multiset(Targets(out)) == multiset(set t | t in symbolToDestTopics[key] :: (key, t))
    {
      out := [];
      var topics := symbolToDestTopics[key];
      var rest := topics;
      ghost var sent: set<(Key, Topic)> := {};
      while rest != {}
        invariant rest <= topics && AllCarry(out, data)
        invariant sent == set t | t in topics - rest :: (key, t)
        invariant multiset(Targets(out)) == multiset(sent)
        decreases rest
      {
        var topic :| topic in rest;
        var e := Expected(key, topic, data);
        assert (key, topic) !in sent;
        TargetsAppend(out, [e]);
        assert Targets([e]) == [(key, topic)];
        out := out + [e];
        sent, rest := sent + {(key, topic)}, rest - {topic};
      }
      assert topics - rest == topics;
    }

    /** An update sends exactly one message to each topic whose latest handled command for the key was a
        subscribe, and to no other; blanking every price sends exactly one per subscribed pair. */
    method OnPriceDataFromExchange(key: Key, data: PriceUpdate) returns (out: seq<Emission>)
      requires Valid()
      ensures AllCarry(out, data)
      ensures forall k, t :: multiset(Targets(out))[(k, t)] ==
                if Concerns(key, data, k) && Latest(history, k, t) == Some(true) then 1 else 0
    {
      RunIsConsistent(history);
      out := [];
      if key == INSTRUMENT_WILD_CARD {
        if data.PriceBlanking? {
          var rest := symbolToDestTopics.Keys;
          while rest != {}
            invariant rest <= symbolToDestTopics.Keys && AllCarry(out, data)
            invariant forall k, t :: multiset(Targets(out))[(k, t)] == if Wants(symbolToDestTopics, k, t) && k !in rest then 1 else 0
            decreases rest
          {
            var k :| k in rest;
            var more := EmitForKey(k, data);
            TargetsAppend(out, more);
            out := out + more;
            rest := rest - {k};
          }
        }
      } else if key in symbolToDestTopics {
        out := EmitForKey(key, data);
      }
      forall k, t ensures multiset(Targets(out))[(k, t)] ==
          if Concerns(key, data, k) && Latest(history, k, t) == Some(true) then 1 else 0
      {
        assert Wants(symbolToDestTopics, k, t) <==> Latest(history, k, t) == Some(true);
      }
    }
  }
}
