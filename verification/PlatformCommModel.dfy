/**
 The gateway's subscription table: which destination topics want which routing key, and the change log the
 gateway emits while it keeps the table.
 */
module PlatformCommModel {
  import opened Wrappers
  import opened Keys

  type Key = string
  type Topic = string
  type Table = map<Key, set<Topic>>

  /** A platform message as `msgCb` reads it; a missing JSON member is `None`. `known`: the partition is one
      the gateway keeps a state machine for. */
  datatype Message = Message(msgType: string, partition: int, known: bool,
                             symbol: Option<string>, subscriptionType: Option<string>, destTopic: string)

  /** One `sync_data_update`. */
  datatype Update = Update(partition: int, key: Key, isSub: bool, topic: Topic)

  datatype Comm = Comm(table: Table, log: seq<Update>)

  const INITIAL := Comm(map[], [])

  // ---------------------------------------------------------------- handlers

  function SubscribeTopic(table: Table, key: Key, topic: Topic): (bool, Table) {
    if key !in table then (true, table[key := {topic}])
    else (topic !in table[key], table[key := table[key] + {topic}])
  }

  function UnsubscribeTopic(table: Table, key: Key, topic: Topic): (bool, Table) {
    if key !in table || topic !in table[key] then (false, table)
    else
      var rest := table[key] - {topic};
      (true, if rest == {} then table - {key} else table[key := rest])
  }

  function BookKeeping(table: Table, key: Key, topic: Topic, isSub: bool): (bool, Table) {
    if isSub then SubscribeTopic(table, key, topic) else UnsubscribeTopic(table, key, topic)
  }

  /** A command that gets as far as the book-keeping. */
  datatype Command = Command(key: Key, topic: Topic, isSub: bool)

  function Parse(m: Message): Option<Command> {
    if m.msgType != "subscribe" && m.msgType != "unsubscribe" then None
    else if !m.known then None
    else match GenerateKey(m.symbol, m.subscriptionType)
      case None => None
      case Some(key) => Some(Command(key, CStr(m.destTopic), m.msgType == "subscribe"))
  }

  function Step(c: Comm, m: Message): Comm {
    match Parse(m)
    case None => c
    case Some(cmd) =>
      var (ok, table) := BookKeeping(c.table, cmd.key, cmd.topic, cmd.isSub);
      if ok then Comm(table, c.log + [Update(m.partition, cmd.key, cmd.isSub, cmd.topic)]) else c
  }

  function Run(ms: seq<Message>): Comm {
    if ms == [] then INITIAL else Step(Run(ms[..|ms| - 1]), ms[|ms| - 1])
  }

  // ---------------------------------------------------------------- independent readings

  predicate Wants(table: Table, key: Key, topic: Topic) {
    key in table && topic in table[key]
  }

  /** The latest handled command for the pair: `Some(true)` for a subscribe. */
  function Latest(ms: seq<Message>, key: Key, topic: Topic): Option<bool> {
    if ms == [] then None
    else match Parse(ms[|ms| - 1])
      case Some(cmd) =>
        if cmd.key == key && cmd.topic == topic then Some(cmd.isSub) else Latest(ms[..|ms| - 1], key, topic)
      case None => Latest(ms[..|ms| - 1], key, topic)
  }

  /** What a follower of the change log knows: the log replayed on a plain set of pairs. */
  function Replay(log: seq<Update>): set<(Key, Topic)> {
    if log == [] then {}
    else
      var u := log[|log| - 1];
      var before := Replay(log[..|log| - 1]);
      if u.isSub then before + {(u.key, u.topic)} else before - {(u.key, u.topic)}
  }

  function KeysOf(pairs: set<(Key, Topic)>): set<Key> {
    set p | p in pairs :: p.0
  }

  function TopicsOf(pairs: set<(Key, Topic)>, key: Key): set<Topic> {
    set p | p in pairs && p.0 == key :: p.1
  }

  /** Pairs grouped by key. */
  function Group(pairs: set<(Key, Topic)>): Table {
    map key | key in KeysOf(pairs) :: TopicsOf(pairs, key)
  }

  /** The actions the log reports for one pair. */
  function Actions(log: seq<Update>, key: Key, topic: Topic): seq<bool> {
    if log == [] then []
    else
      var u := log[|log| - 1];
      Actions(log[..|log| - 1], key, topic) + if u.key == key && u.topic == topic then [u.isSub] else []
  }

  // ---------------------------------------------------------------- invariants

  ghost predicate Splittable(table: Table) {
    && (forall key | key in table :: table[key] != {})
    && (forall key | key in table :: |Split(key, ':')| >= 2)
  }

  ghost predicate Consistent(c: Comm, ms: seq<Message>) {
    && Splittable(c.table)
    && (forall key, topic :: Wants(c.table, key, topic) <==> Latest(ms, key, topic) == Some(true))
    && (forall key, topic :: Wants(c.table, key, topic) <==> (key, topic) in Replay(c.log))
    && (forall key, topic :: Alternates(Actions(c.log, key, topic), Wants(c.table, key, topic)))
  }

  /** Subscribe and unsubscribe alternate, starting with subscribe and ending with subscribe iff `now`. */
  predicate Alternates(actions: seq<bool>, now: bool) {
    && (forall i | 0 <= i < |actions| :: actions[i] <==> i % 2 == 0)
    && (now <==> |actions| % 2 == 1)
  }

  lemma SubscribeChangesOnePair(table: Table, key: Key, topic: Topic)
    requires forall k | k in table :: table[k] != {}
    ensures var (ok, after) := SubscribeTopic(table, key, topic);
            && (forall k | k in after :: after[k] != {})
            && (ok <==> !Wants(table, key, topic))
            && (!ok ==> after == table)
            && (forall k, t :: Wants(after, k, t) <==> (k, t) == (key, topic) || Wants(table, k, t))
  {
    if key in table && topic in table[key] {
      assert table[key] + {topic} == table[key];
      assert table[key := table[key]] == table;
    }
  }

  lemma UnsubscribeChangesOnePair(table: Table, key: Key, topic: Topic)
    requires forall k | k in table :: table[k] != {}
    ensures var (ok, after) := UnsubscribeTopic(table, key, topic);
            && (forall k | k in after :: after[k] != {})
            && (ok <==> Wants(table, key, topic))
            && (!ok ==> after == table)
            && (forall k, t :: Wants(after, k, t) <==> (k, t) != (key, topic) && Wants(table, k, t))
  {
    var after := UnsubscribeTopic(table, key, topic).1;
    forall k, t ensures Wants(after, k, t) <==> (k, t) != (key, topic) && Wants(table, k, t) {
      if Wants(table, key, topic) && k == key {
        assert t in table[key] - {topic} <==> t != topic && Wants(table, k, t);
      }
    }
  }

  lemma BookKeepingChangesOnePair(table: Table, key: Key, topic: Topic, isSub: bool)
    requires forall k | k in table :: table[k] != {}
    ensures var (ok, after) := BookKeeping(table, key, topic, isSub);
            && (forall k | k in after :: after[k] != {})
            && (ok <==> Wants(table, key, topic) != isSub)
            && (!ok ==> after == table)
            && (forall k, t :: Wants(after, k, t) <==> if (k, t) == (key, topic) then isSub else Wants(table, k, t))
  {
    SubscribeChangesOnePair(table, key, topic);
    UnsubscribeChangesOnePair(table, key, topic);
  }

  lemma StepKeepsSplittable(c: Comm, m: Message)
    requires Splittable(c.table)
    ensures Splittable(Step(c, m).table)
  {
    if Parse(m).Some? {
      SplitJoined(CStr(m.symbol.value), ':', m.subscriptionType.value);
    }
  }

  lemma LogAppend(log: seq<Update>, u: Update, key: Key, topic: Topic)
    ensures (key, topic) in Replay(log + [u]) <==>
              if (u.key, u.topic) == (key, topic) then u.isSub else (key, topic) in Replay(log)
    ensures Actions(log + [u], key, topic) ==
              Actions(log, key, topic) + if (u.key, u.topic) == (key, topic) then [u.isSub] else []
  {
    assert (log + [u])[..|log + [u]| - 1] == log;
  }

  lemma AlternatesAppend(actions: seq<bool>, now: bool)
    requires Alternates(actions, now)
    ensures Alternates(actions + [!now], !now)
  {
  }

  /** One command, seen from one pair. */
  lemma PairStaysConsistent(c: Comm, after: Comm, u: Update, key: Key, topic: Topic)
    requires Wants(c.table, key, topic) <==> (key, topic) in Replay(c.log)
    requires Alternates(Actions(c.log, key, topic), Wants(c.table, key, topic))
    requires after.log == c.log + [u] && Wants(c.table, u.key, u.topic) != u.isSub
    requires Wants(after.table, key, topic) <==> if (key, topic) == (u.key, u.topic) then u.isSub else Wants(c.table, key, topic)
    ensures Wants(after.table, key, topic) <==> (key, topic) in Replay(after.log)
    ensures Alternates(Actions(after.log, key, topic), Wants(after.table, key, topic))
  {
    LogAppend(c.log, u, key, topic);
    AlternatesAppend(Actions(c.log, key, topic), Wants(c.table, key, topic));
    assert Actions(c.log, key, topic) + [] == Actions(c.log, key, topic);
  }

  lemma LatestAppend(ms: seq<Message>, m: Message, cmd: Command, key: Key, topic: Topic)
    requires Parse(m) == Some(cmd)
    ensures Latest(ms + [m], key, topic) == if (key, topic) == (cmd.key, cmd.topic) then Some(cmd.isSub) else Latest(ms, key, topic)
  {
    assert (ms + [m])[..|ms + [m]| - 1] == ms;
  }

  lemma CommandStaysConsistent(c: Comm, after: Comm, ms: seq<Message>, m: Message, cmd: Command)
    requires Consistent(c, ms) && Parse(m) == Some(cmd) && Splittable(after.table)
    requires after.log == if Wants(c.table, cmd.key, cmd.topic) != cmd.isSub
                          then c.log + [Update(m.partition, cmd.key, cmd.isSub, cmd.topic)] else c.log
    requires forall k, t :: Wants(after.table, k, t) <==> if (k, t) == (cmd.key, cmd.topic) then cmd.isSub else Wants(c.table, k, t)
    ensures Consistent(after, ms + [m])
  {
    forall key, topic
      ensures Wants(after.table, key, topic) <==> Latest(ms + [m], key, topic) == Some(true)
    {
      LatestAppend(ms, m, cmd, key, topic);
      assert Wants(c.table, key, topic) <==> Latest(ms, key, topic) == Some(true);
    }
    var u := Update(m.partition, cmd.key, cmd.isSub, cmd.topic);
    forall key, topic
      ensures Wants(after.table, key, topic) <==> (key, topic) in Replay(after.log)
      ensures Alternates(Actions(after.log, key, topic), Wants(after.table, key, topic))
    {
      assert Alternates(Actions(c.log, key, topic), Wants(c.table, key, topic));
      if Wants(c.table, cmd.key, cmd.topic) != cmd.isSub {
        PairStaysConsistent(c, after, u, key, topic);
      }
    }
  }

  lemma StepKeepsConsistent(c: Comm, ms: seq<Message>, m: Message)
    requires Consistent(c, ms)
    ensures Consistent(Step(c, m), ms + [m])
  {
    if Parse(m).Some? {
      var cmd := Parse(m).value;
      StepKeepsSplittable(c, m);
      BookKeepingChangesOnePair(c.table, cmd.key, cmd.topic, cmd.isSub);
      CommandStaysConsistent(c, Step(c, m), ms, m, cmd);
    } else {
      IgnoredMessage(ms, m);
    }
  }

  lemma IgnoredMessage(ms: seq<Message>, m: Message)
    requires Parse(m).None?
    ensures forall key, topic :: Latest(ms + [m], key, topic) == Latest(ms, key, topic)
  {
    assert (ms + [m])[..|ms + [m]| - 1] == ms;
  }

  /** Over every run of messages. */
  lemma {:induction false} RunIsConsistent(ms: seq<Message>)
    ensures Consistent(Run(ms), ms)
  {
    if ms != [] {
      var before := ms[..|ms| - 1];
      RunIsConsistent(before);
      assert ms == before + [ms[|ms| - 1]];
      StepKeepsConsistent(Run(before), before, ms[|ms| - 1]);
    }
  }

  /** Only one table without empty buckets holds a given set of pairs. */
  lemma GroupIsUnique(table: Table, pairs: set<(Key, Topic)>)
    requires forall key | key in table :: table[key] != {}
    requires forall key, topic :: Wants(table, key, topic) <==> (key, topic) in pairs
    ensures table == Group(pairs)
  {
    forall key | key in table ensures key in KeysOf(pairs) {
      var topic :| topic in table[key];
      assert Wants(table, key, topic);
    }
    forall p | p in pairs ensures p.0 in table {
      assert (p.0, p.1) in pairs;
      assert Wants(table, p.0, p.1);
    }
    forall key | key in table ensures table[key] == TopicsOf(pairs, key) {
      forall topic ensures topic in table[key] <==> topic in TopicsOf(pairs, key) {
        assert Wants(table, key, topic) <==> (key, topic) in pairs;
      }
    }
    assert table.Keys == KeysOf(pairs);
  }

  /** Replaying the emitted log from nothing rebuilds the table exactly. */
  lemma ReplayRebuildsTable(ms: seq<Message>)
    ensures Run(ms).table == Group(Replay(Run(ms).log))
  {
    RunIsConsistent(ms);
    GroupIsUnique(Run(ms).table, Replay(Run(ms).log));
  }

  lemma RunAppend(ms: seq<Message>, m: Message)
    ensures Run(ms + [m]) == Step(Run(ms), m)
  {
    assert (ms + [m])[..|ms + [m]| - 1] == ms;
  }

  /** After any run, a subscribe makes its topic want its key and an unsubscribe makes it stop, whatever the
      table held; no other pair changes, and the log reports the command iff it changed something. */
  lemma CommandTakesEffect(ms: seq<Message>, isSub: bool, p: int, symbol: string, kind: string, topic: string)
    ensures var m := Message(if isSub then "subscribe" else "unsubscribe", p, true, Some(symbol), Some(kind), topic);
            var before, after := Run(ms), Run(ms + [m]);
            var key, dest := CStr(symbol) + ":" + kind, CStr(topic);
            && (Wants(after.table, key, dest) <==> isSub)
            && (forall k, t :: (k, t) != (key, dest) ==> (Wants(after.table, k, t) <==> Wants(before.table, k, t)))
            && after.log == if Wants(before.table, key, dest) == isSub then before.log
                            else before.log + [Update(p, key, isSub, dest)]
  {
    var m := Message(if isSub then "subscribe" else "unsubscribe", p, true, Some(symbol), Some(kind), topic);
    RunAppend(ms, m);
    RunIsConsistent(ms);
    BookKeepingChangesOnePair(Run(ms).table, CStr(symbol) + ":" + kind, CStr(topic), isSub);
  }

  /** A message of another type, for a partition the gateway does not keep, or without its symbol or
      subscription type changes neither the table nor the log. */
  lemma OtherMessagesAreIgnored(ms: seq<Message>, m: Message)
    requires m.msgType !in {"subscribe", "unsubscribe"} || !m.known || m.symbol.None? || m.subscriptionType.None?
    ensures Run(ms + [m]) == Run(ms)
  {
    RunAppend(ms, m);
  }
}
