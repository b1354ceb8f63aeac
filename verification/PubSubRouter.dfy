/**
 The publish/subscribe router: two redundant indexes over the same registrations, plus the subscribers to
 everything. Callbacks are values; `Produce` returns the calls it makes, in order.
 */
module PubSubRouter {

  datatype Call<Id, Callback> =
    | Keyed(id: Id, callback: Callback)
    | Everything(id: Id, callback: Callback)

  predicate InTable<Key, Id, Callback>(table: map<Key, map<Id, Callback>>, k: Key, i: Id) {
    k in table && i in table[k]
  }

  predicate InIndex<Key, Id>(keysOf: map<Id, set<Key>>, k: Key, i: Id) {
    i in keysOf && k in keysOf[i]
  }

  /** The routing table holds exactly the registrations `regs`, with no empty bucket. */
  ghost predicate TableHolds<Key(!new), Id(!new), Callback>(
    table: map<Key, map<Id, Callback>>, regs: map<(Key, Id), Callback>)
  {
    && (forall k :: k in table ==> table[k] != map[])
    && (forall k, i :: InTable(table, k, i) <==> (k, i) in regs)
    && (forall k, i :: InTable(table, k, i) ==> regs[(k, i)] == table[k][i])
  }

  /** So does the index by subscriber. */
  ghost predicate IndexHolds<Key(!new), Id(!new), Callback>(
    keysOf: map<Id, set<Key>>, regs: map<(Key, Id), Callback>)
  {
    && (forall i :: i in keysOf ==> keysOf[i] != {})
    && (forall k, i :: InIndex(keysOf, k, i) <==> (k, i) in regs)
  }

  /** The second index is redundant: either index determines the registrations, and they determine both. */
  lemma IndexesAreDetermined<Key(!new), Id(!new), Callback(!new)>(
    table1: map<Key, map<Id, Callback>>, keysOf1: map<Id, set<Key>>, regs: map<(Key, Id), Callback>,
    table2: map<Key, map<Id, Callback>>, keysOf2: map<Id, set<Key>>)
    requires TableHolds(table1, regs) && IndexHolds(keysOf1, regs)
    requires TableHolds(table2, regs) && IndexHolds(keysOf2, regs)
    ensures table1 == table2 && keysOf1 == keysOf2
  {
    TableWithin(table1, table2, regs);
    TableWithin(table2, table1, regs);
    IndexWithin(keysOf1, keysOf2, regs);
    IndexWithin(keysOf2, keysOf1, regs);
    assert table1.Keys == table2.Keys;
    assert keysOf1.Keys == keysOf2.Keys;
  }

  lemma TableWithin<Key(!new), Id(!new), Callback(!new)>(
    table1: map<Key, map<Id, Callback>>, table2: map<Key, map<Id, Callback>>, regs: map<(Key, Id), Callback>)
    requires TableHolds(table1, regs) && TableHolds(table2, regs)
    ensures table1.Keys <= table2.Keys
    ensures forall k :: k in table1 ==> table1[k] == table2[k]
  {
    forall k | k in table1 ensures k in table2 && table1[k] == table2[k] {
      assert table1[k].Keys != {};
      var i :| i in table1[k].Keys;
      assert InTable(table1, k, i) && InTable(table2, k, i);
      forall i ensures i in table1[k] <==> i in table2[k] {
        assert InTable(table1, k, i) <==> InTable(table2, k, i);
      }
      forall i | i in table1[k] ensures table1[k][i] == table2[k][i] {
        assert InTable(table1, k, i) && InTable(table2, k, i);
      }
    }
  }

  lemma IndexWithin<Key(!new), Id(!new), Callback>(
    keysOf1: map<Id, set<Key>>, keysOf2: map<Id, set<Key>>, regs: map<(Key, Id), Callback>)
    requires IndexHolds(keysOf1, regs) && IndexHolds(keysOf2, regs)
    ensures keysOf1.Keys <= keysOf2.Keys
    ensures forall i :: i in keysOf1 ==> keysOf1[i] == keysOf2[i]
  {
    forall i | i in keysOf1 ensures i in keysOf2 && keysOf1[i] == keysOf2[i] {
      var k :| k in keysOf1[i];
      assert InIndex(keysOf1, k, i) && InIndex(keysOf2, k, i);
      forall k ensures k in keysOf1[i] <==> k in keysOf2[i] {
        assert InIndex(keysOf1, k, i) <==> InIndex(keysOf2, k, i);
      }
    }
  }

  class PubSubDataRouter<Key(==, !new), Id(==, !new), Callback(==, !new)> {
    var routingTable: map<Key, map<Id, Callback>>
    var regIdToKeys: map<Id, set<Key>>
    var everythingSubscribers: map<Id, Callback>

    // The plain map of (key, subscriber) pairs both indexes stand for.
    ghost var registrations: map<(Key, Id), Callback>

    ghost predicate Valid()
      reads this
    {
      TableHolds(routingTable, registrations) && IndexHolds(regIdToKeys, registrations)
    }

    constructor ()
      ensures Valid() && registrations == map[] && everythingSubscribers == map[]
    {
      routingTable, regIdToKeys, everythingSubscribers := map[], map[], map[];
      registrations := map[];
    }

    /** The keyed subscribers due for one update. */
    ghost function KeyedCalls(key: Key): set<Call<Id, Callback>>
      reads this
    {
      set p | p in registrations && p.0 == key :: Keyed(p.1, registrations[p])
    }

    ghost function EverythingCalls(): set<Call<Id, Callback>>
      reads this
    {
      set i | i in everythingSubscribers :: Everything(i, everythingSubscribers[i])
    }

    /** Runs each matching callback once, keyed subscribers first, and is true iff at least one ran. */
    method Produce(key: Key) returns (any: bool, calls: seq<Call<Id, Callback>>)
      requires Valid()
      ensures multiset(calls) == multiset(KeyedCalls(key)) + multiset(EverythingCalls())
      ensures any <==> calls != []
      ensures forall i, j :: 0 <= i < j < |calls| && calls[j].Keyed? ==> calls[i].Keyed?
    {
      var keyed := ProduceKeyed(key);
      var rest := ProduceEverything();
      any, calls := key in routingTable || everythingSubscribers != map[], keyed + rest;
    }

    method ProduceKeyed(key: Key) returns (calls: seq<Call<Id, Callback>>)
      requires Valid()
      ensures multiset(calls) == multiset(KeyedCalls(key))
      ensures calls != [] <==> key in routingTable
      ensures forall i :: 0 <= i < |calls| ==> calls[i].Keyed?
    {
      calls := [];
      if key in routingTable {
        calls := RunBucket(routingTable[key]);
      }
      BucketIsKeyedCalls(key);
    }

    /** Runs every callback of one bucket. */
    static method RunBucket(bucket: map<Id, Callback>) returns (calls: seq<Call<Id, Callback>>)
      ensures multiset(calls) == multiset(set i | i in bucket.Keys :: Keyed(i, bucket[i]))
      ensures calls != [] <==> bucket != map[]
      ensures forall i :: 0 <= i < |calls| ==> calls[i].Keyed?
    {
      calls := [];
      ghost var made: set<Call<Id, Callback>> := {};
      var rest := bucket.Keys;
      while rest != {}
        invariant rest <= bucket.Keys
        invariant made == set i | i in bucket.Keys - rest :: Keyed(i, bucket[i])
        invariant multiset(calls) == multiset(made)
        invariant calls == [] ==> rest == bucket.Keys
        invariant forall i :: 0 <= i < |calls| ==> calls[i].Keyed?
        decreases rest
      {
        var i :| i in rest;
        assert Keyed(i, bucket[i]) !in made;
        calls := calls + [Keyed(i, bucket[i])];
        made, rest := made + {Keyed(i, bucket[i])}, rest - {i};
      }
      assert bucket.Keys - rest == bucket.Keys;
    }

    ghost function BucketCalls(key: Key): set<Call<Id, Callback>>
      reads this
    {
      if key in routingTable then set i | i in routingTable[key].Keys :: Keyed(i, routingTable[key][i]) else {}
    }

    lemma BucketIsKeyedCalls(key: Key)
      requires Valid()
      ensures BucketCalls(key) == KeyedCalls(key)
    {
      forall c | c in BucketCalls(key) ensures c in KeyedCalls(key) {
        assert InTable(routingTable, key, c.id);
        assert (key, c.id) in registrations;
      }
      forall c | c in KeyedCalls(key) ensures c in BucketCalls(key) {
        assert InTable(routingTable, key, c.id);
      }
    }

    method ProduceEverything() returns (calls: seq<Call<Id, Callback>>)
      ensures multiset(calls) == multiset(EverythingCalls())
      ensures calls != [] <==> everythingSubscribers != map[]
      ensures forall i :: 0 <= i < |calls| ==> calls[i].Everything?
    {
      calls := [];
      ghost var made: set<Call<Id, Callback>> := {};
      var rest := everythingSubscribers.Keys;
      while rest != {}
        invariant rest <= everythingSubscribers.Keys
        invariant made == set i | i in everythingSubscribers.Keys - rest :: Everything(i, everythingSubscribers[i])
        invariant multiset(calls) == multiset(made)
        invariant calls == [] ==> rest == everythingSubscribers.Keys
        invariant calls != [] ==> everythingSubscribers != map[]
        invariant forall i :: 0 <= i < |calls| ==> calls[i].Everything?
        decreases rest
      {
        var i :| i in rest;
        assert Everything(i, everythingSubscribers[i]) !in made;
        calls := calls + [Everything(i, everythingSubscribers[i])];
        made, rest := made + {Everything(i, everythingSubscribers[i])}, rest - {i};
      }
      assert made == EverythingCalls();
    }

    method Consume(key: Key, id: Id, callback: Callback) returns (ok: bool)
      requires Valid()
      modifies `routingTable, `regIdToKeys, `registrations
      ensures Valid()
      ensures ok <==> (key, id) !in old(registrations)
      ensures registrations == if ok then old(registrations)[(key, id) := callback] else old(registrations)
    {
      assert InTable(routingTable, key, id) <==> (key, id) in registrations;
      ok := true;
      if key in routingTable {
        if id !in routingTable[key] {
          AddToTable(key, routingTable[key], id, callback);
          AddToIndex(key, id, callback);
        } else {
          ok := false;
        }
      } else {
        AddToTable(key, map[], id, callback);
        AddToIndex(key, id, callback);
      }
    }

    method AddToTable(key: Key, bucket: map<Id, Callback>, id: Id, callback: Callback)
      requires TableHolds(routingTable, registrations)
      requires bucket == if key in routingTable then routingTable[key] else map[]
      modifies `routingTable
      ensures TableHolds(routingTable, registrations[(key, id) := callback])
    {
      ghost var before := routingTable;
      routingTable := routingTable[key := bucket[id := callback]];
      forall k, i ensures InTable(routingTable, k, i) <==> InTable(before, k, i) || (k, i) == (key, id) {
      }
    }

    method AddToIndex(key: Key, id: Id, callback: Callback)
      requires IndexHolds(regIdToKeys, registrations)
      requires TableHolds(routingTable, registrations[(key, id) := callback])
      modifies `regIdToKeys, `registrations
      ensures Valid() && registrations == old(registrations)[(key, id) := callback]
    {
      ghost var before := regIdToKeys;
      regIdToKeys := regIdToKeys[id := (if id in regIdToKeys then regIdToKeys[id] else {}) + {key}];
      registrations := registrations[(key, id) := callback];
      forall k, i ensures InIndex(regIdToKeys, k, i) <==> InIndex(before, k, i) || (k, i) == (key, id) {
      }
    }

    method ConsumeEverything(id: Id, callback: Callback) returns (ok: bool)
      modifies `everythingSubscribers
      ensures ok <==> id !in old(everythingSubscribers)
      ensures everythingSubscribers == if ok then old(everythingSubscribers)[id := callback] else old(everythingSubscribers)
    {
      if id in everythingSubscribers { return false; }
      everythingSubscribers := everythingSubscribers[id := callback];
      return true;
    }

    method UnregisterFromEverything(id: Id) returns (ok: bool)
      modifies `everythingSubscribers
      ensures ok <==> id in old(everythingSubscribers)
      ensures everythingSubscribers == old(everythingSubscribers) - {id}
    {
      ok := id in everythingSubscribers;
      everythingSubscribers := everythingSubscribers - {id};
    }

    /** The two removals succeed or fail together: the second one is never refused after the first. */
    method Unregister(key: Key, id: Id) returns (ok: bool)
      requires Valid()
      modifies `routingTable, `regIdToKeys, `registrations
      ensures Valid()
      ensures ok <==> (key, id) in old(registrations)
      ensures registrations == old(registrations) - {(key, id)}
    {
      ghost var before := registrations;
      assert InIndex(regIdToKeys, key, id) <==> (key, id) in registrations;
      ok := RemoveFromRoutingTable(key, id);
      if ok {
        ok := RemoveFromRegIdStore(key, id, before);
        assert ok;
      } else {
        assert registrations == before;
      }
    }

    method UnregisterAll(id: Id) returns (ok: bool)
      requires Valid()
      modifies this
      ensures Valid()
      ensures ok <==> id in old(everythingSubscribers) || exists k :: (k, id) in old(registrations)
      ensures forall p :: p in registrations <==> p in old(registrations) && p.1 != id
      ensures forall p :: p in registrations ==> registrations[p] == old(registrations)[p]
      ensures everythingSubscribers == old(everythingSubscribers) - {id}
    {
      ghost var index := regIdToKeys;
      ok := false;
      assert forall k :: (k, id) in registrations <==> InIndex(regIdToKeys, k, id);
      if id in regIdToKeys {
        var someKey :| someKey in regIdToKeys[id];
        assert (someKey, id) in old(registrations);
        RemoveKeysFromTable(regIdToKeys[id], id);
        regIdToKeys := regIdToKeys - {id};
        forall k, i ensures InIndex(regIdToKeys, k, i) <==> InIndex(index, k, i) && i != id {
        }
        ok := true;
      }
      if id in everythingSubscribers {
        ok := true;
      }
      everythingSubscribers := everythingSubscribers - {id};
    }

    method RemoveKeysFromTable(keys: set<Key>, id: Id)
      requires TableHolds(routingTable, registrations)
      modifies `routingTable, `registrations
      ensures TableHolds(routingTable, registrations)
      ensures forall p :: p in registrations <==> p in old(registrations) && !(p.1 == id && p.0 in keys)
      ensures forall p :: p in registrations ==> registrations[p] == old(registrations)[p]
    {
      var rest := keys;
      while rest != {}
        invariant rest <= keys
        invariant TableHolds(routingTable, registrations)
        invariant forall p :: p in registrations <==> p in old(registrations) && !(p.1 == id && p.0 in keys && p.0 !in rest)
        invariant forall p :: p in registrations ==> registrations[p] == old(registrations)[p]
        decreases rest
      {
        var key :| key in rest;
        var _ := RemoveFromRoutingTable(key, id);
        rest := rest - {key};
      }
    }

    method RemoveFromRoutingTable(key: Key, id: Id) returns (ok: bool)
      requires TableHolds(routingTable, registrations)
      modifies `routingTable, `registrations
      ensures ok <==> (key, id) in old(registrations)
      ensures registrations == old(registrations) - {(key, id)}
      ensures TableHolds(routingTable, registrations)
    {
      ghost var before := routingTable;
      ok := false;
      assert InTable(routingTable, key, id) <==> (key, id) in registrations;
      if key in routingTable {
        if id in routingTable[key] {
          var bucket := routingTable[key] - {id};
          if bucket == map[] {
            routingTable := routingTable - {key};
          } else {
            routingTable := routingTable[key := bucket];
          }
          ok := true;
        }
      }
      registrations := registrations - {(key, id)};
      forall k, i ensures InTable(routingTable, k, i) <==> InTable(before, k, i) && (k, i) != (key, id) {
        if ok && k == key { assert InTable(before, k, i) && i != id ==> i in before[key] - {id}; }
      }
      forall k, i | InTable(routingTable, k, i) ensures routingTable[k][i] == before[k][i] {
      }
    }

    method RemoveFromRegIdStore(key: Key, id: Id, ghost before: map<(Key, Id), Callback>) returns (ok: bool)
      requires IndexHolds(regIdToKeys, before)
      modifies `regIdToKeys
      ensures ok <==> (key, id) in before
      ensures IndexHolds(regIdToKeys, before - {(key, id)})
    {
      ghost var index := regIdToKeys;
      assert InIndex(regIdToKeys, key, id) <==> (key, id) in before;
      ok := false;
      if id in regIdToKeys {
        if key in regIdToKeys[id] {
          var keys := regIdToKeys[id] - {key};
          if keys == {} {
            regIdToKeys := regIdToKeys - {id};
          } else {
            regIdToKeys := regIdToKeys[id := keys];
          }
          ok := true;
        }
      }
      forall k, i ensures InIndex(regIdToKeys, k, i) <==> InIndex(index, k, i) && (k, i) != (key, id) {
        if ok && i == id { assert InIndex(index, k, i) && k != key ==> k in index[id] - {key}; }
      }
    }
  }
}
