/** The bank-balance topology: transactions read from `bank-transactions`
    are grouped by key and folded into one balance per key, kept in a state
    store; the updated balances are written to `bank-balances`, and the
    latest transaction of each is also written to `rejected-transactions`
    when that transaction was rejected. The model forwards every update, one
    per transaction, as Kafka Streams does with its record cache disabled.

    What a balance is and how a transaction changes it belong to model
    classes whose bodies are not part of this model; they enter as the
    uninterpreted functions of an `Aggregator`. */
module BankBalanceTopology {
  import opened Wrappers
  import opened Streams

  datatype TransactionState = Requested | Approved | Rejected

  /** What the topology uses of the balance and transaction classes:
      the zero-value constructor, the reducer, and the two getters. */
  datatype Aggregator<!T, !B> = Aggregator(
    initial: B,
    process: (B, T) -> B,
    latestTransaction: B -> T,
    state: T -> TransactionState)

  /** The predicate of the rejected-transactions `filter`. */
  function RejectedFilter<K, T, B>(a: Aggregator<T, B>): (K, T) -> bool {
    (key: K, tx: T) => a.state(tx) == Rejected
  }

  /** The balance a transaction for `key` is applied to: the stored one, or a
      fresh zero value when the key has none yet. */
  function Current<K, T, B>(a: Aggregator<T, B>, store: map<K, B>, key: K): (r: B)
    ensures key in store ==> r == store[key]
    ensures key !in store ==> r == a.initial
  {
    Get(store, key).GetOr(a.initial)
  }

  /** Everything one transaction leads to. */
  datatype Update<K, T, B> = Update(store: map<K, B>, balance: KeyValue<K, B>, rejected: Option<KeyValue<K, T>>)

  /** One transaction through the topology: the aggregate step of
      `groupByKey().aggregate(...)` followed by both sinks. */
  function Aggregate<K, T, B>(a: Aggregator<T, B>, store: map<K, B>, event: KeyValue<K, T>): (r: Update<K, T, B>)
    // The store gains the event's key and nothing else ...
    ensures r.store.Keys == store.Keys + {event.key}
    // ... holds the reduced balance under it ...
    ensures r.store[event.key] == a.process(Current(a, store, event.key), event.value)
    // ... and every other entry is left as it was.
    ensures forall k :: k in store && k != event.key ==> r.store[k] == store[k]
    // Exactly one balance record, under the event's key, holding what was stored.
    ensures r.balance == KeyValue(event.key, r.store[event.key])
    // A rejected-transaction record exactly when the stored balance's latest
    // transaction was rejected; that record is the transaction itself.
    ensures r.rejected.Some? <==> a.state(a.latestTransaction(r.store[event.key])) == Rejected
    ensures r.rejected.Some? ==> r.rejected.value == KeyValue(event.key, a.latestTransaction(r.store[event.key]))
  {
    var next := a.process(Current(a, store, event.key), event.value);
    var latest := a.latestTransaction(next);
    Update(store[event.key := next],
           KeyValue(event.key, next),
           if a.state(latest) == Rejected then Some(KeyValue(event.key, latest)) else None)
  }

  /** The store after a batch and everything written to the two topics. */
  datatype Output<K, T, B> = Output(store: map<K, B>, balances: seq<KeyValue<K, B>>, rejected: seq<KeyValue<K, T>>)

  function OptionToSeq<X>(o: Option<X>): (r: seq<X>)
    ensures |r| <= 1
  {
    match o
    case Some(x) => [x]
    case None => []
  }

  /** The keys occurring in a batch. */
  function KeysOf<K, V>(events: seq<KeyValue<K, V>>): (r: set<K>)
    ensures forall i :: 0 <= i < |events| ==> events[i].key in r
    decreases |events|
  {
    if |events| == 0 then {} else {events[0].key} + KeysOf(events[1..])
  }

  /** A batch of transactions processed in arrival order, from `store`. */
  function Run<K, T, B>(a: Aggregator<T, B>, store: map<K, B>, events: seq<KeyValue<K, T>>): (r: Output<K, T, B>)
    // One balance record per transaction, under its key; never more
    // rejected-transaction records than balance records.
    ensures |r.balances| == |events|
    ensures forall i :: 0 <= i < |events| ==> r.balances[i].key == events[i].key
    ensures |r.rejected| <= |r.balances|
    decreases |events|
  {
    if |events| == 0 then Output(store, [], [])
    else
      var u := Aggregate(a, store, events[0]);
      var rest := Run(a, u.store, events[1..]);
      Output(rest.store, [u.balance] + rest.balances, OptionToSeq(u.rejected) + rest.rejected)
  }

  // ---------------------------------------------------------------------
  // The per-key view: one balance per key, folded over that key's
  // transactions in arrival order.

  /** A key's transactions, in arrival order. */
  function TransactionsOf<K(==), T>(events: seq<KeyValue<K, T>>, key: K): (r: seq<T>)
    ensures |r| <= |events|
    decreases |events|
  {
    if |events| == 0 then []
    else (if events[0].key == key then [events[0].value] else []) + TransactionsOf(events[1..], key)
  }

  /** The left fold of the reducer over `txs`, starting from `start`. */
  function Fold<T, B>(a: Aggregator<T, B>, start: B, txs: seq<T>): B
    decreases |txs|
  {
    if |txs| == 0 then start else Fold(a, a.process(start, txs[0]), txs[1..])
  }

  /** A key's entry in the store after `txs`, from entry `current`: it stays
      absent until a transaction arrives, which starts from the zero value. */
  function Materialize<T, B>(a: Aggregator<T, B>, current: Option<B>, txs: seq<T>): (r: Option<B>)
    ensures r.None? <==> current.None? && |txs| == 0
  {
    if |txs| == 0 then current else Some(Fold(a, current.GetOr(a.initial), txs))
  }

  /** Folding head first is the same as applying the transactions one by one
      as they arrive: the last one is applied to the fold of the others. */
  lemma {:induction false} FoldSnoc<T, B>(a: Aggregator<T, B>, start: B, txs: seq<T>, tx: T)
    ensures Fold(a, start, txs + [tx]) == a.process(Fold(a, start, txs), tx)
    decreases |txs|
  {
    if |txs| == 0 {
      assert txs + [tx] == [tx];
    } else {
      assert (txs + [tx])[1..] == txs[1..] + [tx];
      FoldSnoc(a, a.process(start, txs[0]), txs[1..], tx);
    }
  }

  /** One more transaction on a key moves its entry one reducer step on. */
  lemma MaterializeSnoc<T, B>(a: Aggregator<T, B>, current: Option<B>, txs: seq<T>, tx: T)
    ensures Materialize(a, current, txs + [tx])
         == Some(a.process(Materialize(a, current, txs).GetOr(a.initial), tx))
  {
    if |txs| == 0 {
      assert txs + [tx] == [tx];
      assert Fold(a, current.GetOr(a.initial), [tx]) == Fold(a, a.process(current.GetOr(a.initial), tx), []);
    } else {
      FoldSnoc(a, current.GetOr(a.initial), txs, tx);
    }
  }

  lemma {:induction false} TransactionsOfConcat<K, T>(e1: seq<KeyValue<K, T>>, e2: seq<KeyValue<K, T>>, key: K)
    ensures TransactionsOf(e1 + e2, key) == TransactionsOf(e1, key) + TransactionsOf(e2, key)
    decreases |e1|
  {
    if |e1| == 0 {
      assert e1 + e2 == e2;
    } else {
      var head := if e1[0].key == key then [e1[0].value] else [];
      assert (e1 + e2)[0] == e1[0];
      assert (e1 + e2)[1..] == e1[1..] + e2;
      TransactionsOfConcat(e1[1..], e2, key);
      assert TransactionsOf(e1 + e2, key) == head + TransactionsOf(e1[1..] + e2, key);
      assert TransactionsOf(e1, key) == head + TransactionsOf(e1[1..], key);
    }
  }

  /** A key occurs in a batch exactly when it has transactions in it. */
  lemma {:induction false} KeysOfTransactions<K, T>(events: seq<KeyValue<K, T>>, key: K)
    ensures key in KeysOf(events) <==> |TransactionsOf(events, key)| > 0
    decreases |events|
  {
    if |events| > 0 {
      KeysOfTransactions(events[1..], key);
    }
  }

  /** After a batch, each key's entry is its entry before the batch advanced
      by that key's own transactions, in arrival order, and by nothing else. */
  lemma {:induction false} RunPerKey<K, T, B>(a: Aggregator<T, B>, store: map<K, B>, events: seq<KeyValue<K, T>>, key: K)
    ensures Get(Run(a, store, events).store, key) == Materialize(a, Get(store, key), TransactionsOf(events, key))
    decreases |events|
  {
    if |events| > 0 {
      var u := Aggregate(a, store, events[0]);
      RunPerKey(a, u.store, events[1..], key);
      var rest := TransactionsOf(events[1..], key);
      if events[0].key == key {
        var txs := [events[0].value] + rest;
        assert TransactionsOf(events, key) == txs;
        var c := Get(store, key).GetOr(a.initial);
        assert Get(u.store, key) == Some(a.process(c, events[0].value));
        assert txs[0] == events[0].value && txs[1..] == rest;
        assert Fold(a, c, txs) == Fold(a, a.process(c, events[0].value), rest);
      } else {
        assert TransactionsOf(events, key) == rest;
        assert Get(u.store, key) == Get(store, key);
      }
    }
  }

  /** Entries are created for the batch's keys and never removed. */
  lemma {:induction false} RunKeys<K, T, B>(a: Aggregator<T, B>, store: map<K, B>, events: seq<KeyValue<K, T>>)
    ensures Run(a, store, events).store.Keys == store.Keys + KeysOf(events)
    decreases |events|
  {
    if |events| > 0 {
      RunKeys(a, Aggregate(a, store, events[0]).store, events[1..]);
    }
  }

  /** Every key of the batch is the key of one of its transactions. */
  lemma {:induction false} KeysOfOccur<K, V>(events: seq<KeyValue<K, V>>, key: K)
    ensures key in KeysOf(events) <==> exists i :: 0 <= i < |events| && events[i].key == key
    decreases |events|
  {
    if |events| > 0 {
      KeysOfOccur(events[1..], key);
      if key !in KeysOf(events) {
        forall i | 0 <= i < |events|
          ensures events[i].key != key
        {
        }
      } else if events[0].key != key {
        var j :| 0 <= j < |events[1..]| && events[1..][j].key == key;
        assert events[j + 1].key == key;
      }
    }
  }

  /** Keys the batch does not mention keep their entries, absent or present. */
  lemma RunFrame<K, T, B>(a: Aggregator<T, B>, store: map<K, B>, events: seq<KeyValue<K, T>>, key: K)
    requires key !in KeysOf(events)
    ensures Get(Run(a, store, events).store, key) == Get(store, key)
  {
    KeysOfTransactions(events, key);
    RunPerKey(a, store, events, key);
  }

  /** Replaying a batch into an empty store gives every key that occurs in
      it the fold of the reducer over its own transactions from the zero
      value, and no entry to any other key. */
  lemma ReplayFromEmpty<K, T, B>(a: Aggregator<T, B>, events: seq<KeyValue<K, T>>, key: K)
    ensures key in Run(a, map[], events).store <==> key in KeysOf(events)
    ensures key in KeysOf(events) ==>
      Run(a, map[], events).store[key] == Fold(a, a.initial, TransactionsOf(events, key))
  {
    RunPerKey(a, map[], events, key);
    KeysOfTransactions(events, key);
  }

  /** Replay determinism: the final store depends on each key's own
      transaction sequence only, not on how keys are interleaved. */
  lemma ReplayDeterminism<K, T, B>(a: Aggregator<T, B>, e1: seq<KeyValue<K, T>>, e2: seq<KeyValue<K, T>>)
    requires forall k :: TransactionsOf(e1, k) == TransactionsOf(e2, k)
    ensures Run(a, map[], e1).store == Run(a, map[], e2).store
  {
    forall k
      ensures Get(Run(a, map[], e1).store, k) == Get(Run(a, map[], e2).store, k)
    {
      RunPerKey(a, map[], e1, k);
      RunPerKey(a, map[], e2, k);
    }
    GetExtensional(Run(a, map[], e1).store, Run(a, map[], e2).store);
  }

  /** Processing a batch in two parts is processing it at once: the second
      part starts from the store the first left ... */
  lemma {:induction false} RunConcatStore<K, T, B>(a: Aggregator<T, B>, store: map<K, B>, e1: seq<KeyValue<K, T>>, e2: seq<KeyValue<K, T>>)
    ensures Run(a, store, e1 + e2).store == Run(a, Run(a, store, e1).store, e2).store
    decreases |e1|
  {
    if |e1| == 0 {
      assert e1 + e2 == e2;
    } else {
      assert (e1 + e2)[0] == e1[0];
      assert (e1 + e2)[1..] == e1[1..] + e2;
      RunConcatStore(a, Aggregate(a, store, e1[0]).store, e1[1..], e2);
    }
  }

  /** ... and the balance records of the two parts follow on ... */
  lemma {:induction false} RunConcatBalances<K, T, B>(a: Aggregator<T, B>, store: map<K, B>, e1: seq<KeyValue<K, T>>, e2: seq<KeyValue<K, T>>)
    ensures Run(a, store, e1 + e2).balances == Run(a, store, e1).balances + Run(a, Run(a, store, e1).store, e2).balances
    decreases |e1|
  {
    if |e1| == 0 {
      assert e1 + e2 == e2;
    } else {
      var u := Aggregate(a, store, e1[0]);
      assert (e1 + e2)[0] == e1[0];
      assert (e1 + e2)[1..] == e1[1..] + e2;
      RunConcatBalances(a, u.store, e1[1..], e2);
      var tail := Run(a, u.store, e1[1..]);
      assert [u.balance] + (tail.balances + Run(a, tail.store, e2).balances)
          == ([u.balance] + tail.balances) + Run(a, tail.store, e2).balances;
    }
  }

  /** ... and so do their rejected-transaction records. */
  lemma {:induction false} RunConcatRejected<K, T, B>(a: Aggregator<T, B>, store: map<K, B>, e1: seq<KeyValue<K, T>>, e2: seq<KeyValue<K, T>>)
    ensures Run(a, store, e1 + e2).rejected == Run(a, store, e1).rejected + Run(a, Run(a, store, e1).store, e2).rejected
    decreases |e1|
  {
    if |e1| == 0 {
      assert e1 + e2 == e2;
    } else {
      var u := Aggregate(a, store, e1[0]);
      assert (e1 + e2)[0] == e1[0];
      assert (e1 + e2)[1..] == e1[1..] + e2;
      RunConcatRejected(a, u.store, e1[1..], e2);
      var tail := Run(a, u.store, e1[1..]);
      assert OptionToSeq(u.rejected) + (tail.rejected + Run(a, tail.store, e2).rejected)
          == (OptionToSeq(u.rejected) + tail.rejected) + Run(a, tail.store, e2).rejected;
    }
  }

  /** Per-key order: the balance written for the i-th transaction is its
      key's entry advanced by exactly that key's transactions up to and
      including the i-th, so every earlier one on the key is reflected. */
  lemma EmittedBalanceReflectsPrefix<K, T, B>(a: Aggregator<T, B>, store: map<K, B>, events: seq<KeyValue<K, T>>, i: nat)
    requires i < |events|
    ensures Some(Run(a, store, events).balances[i].value)
         == Materialize(a, Get(store, events[i].key), TransactionsOf(events[..i + 1], events[i].key))
  {
    var key := events[i].key;
    var before, after := events[..i], events[i..];
    assert events == before + after;
    RunConcatBalances(a, store, before, after);
    var r1 := Run(a, store, before);
    assert Run(a, store, events).balances[i] == Run(a, r1.store, after).balances[0];
    RunPerKey(a, store, before, key);
    assert events[..i + 1] == before + [events[i]];
    TransactionsOfConcat(before, [events[i]], key);
    assert TransactionsOf([events[i]], key) == [events[i].value];
    MaterializeSnoc(a, Get(store, key), TransactionsOf(before, key), events[i].value);
  }

  /** The rejected-transactions topic is what the DSL wiring makes of the
      balance stream: `mapValues(getLatestTransaction)` then
      `filter(state == REJECTED)`. */
  lemma {:induction false} RejectedIsFilteredLatest<K, T, B>(a: Aggregator<T, B>, store: map<K, B>, events: seq<KeyValue<K, T>>)
    ensures Run(a, store, events).rejected
         == Filter(MapValues(Run(a, store, events).balances, a.latestTransaction), RejectedFilter(a))
    decreases |events|
  {
    if |events| > 0 {
      var u := Aggregate(a, store, events[0]);
      var rest := Run(a, u.store, events[1..]);
      RejectedIsFilteredLatest(a, u.store, events[1..]);
      MapValuesConcat([u.balance], rest.balances, a.latestTransaction);
      var head := MapValues([u.balance], a.latestTransaction);
      FilterConcat(head, MapValues(rest.balances, a.latestTransaction), RejectedFilter(a));
      assert Filter(head, RejectedFilter<K, T, B>(a)) == OptionToSeq(u.rejected);
    }
  }

  /** One more transaction keeps a store that holds, for every key, the
      fold over the key's transactions so far. */
  lemma StoreStep<K, T, B>(a: Aggregator<T, B>, events: seq<KeyValue<K, T>>, n: nat, store: map<K, B>)
    requires n < |events|
    requires forall k :: Get(store, k) == Materialize(a, None, TransactionsOf(events[..n], k))
    ensures forall k :: Get(Aggregate(a, store, events[n]).store, k) == Materialize(a, None, TransactionsOf(events[..n + 1], k))
  {
    var event := events[n];
    var store' := Aggregate(a, store, event).store;
    assert events[..n + 1] == events[..n] + [event];
    forall k
      ensures Get(store', k) == Materialize(a, None, TransactionsOf(events[..n + 1], k))
    {
      TransactionsOfConcat(events[..n], [event], k);
      if k == event.key {
        assert TransactionsOf([event], k) == [event.value];
        MaterializeSnoc(a, None, TransactionsOf(events[..n], k), event.value);
      } else {
        assert TransactionsOf([event], k) == [];
        assert TransactionsOf(events[..n], k) + [] == TransactionsOf(events[..n], k);
      }
    }
  }

  /** One more balance record extends the rejected-transactions topic by its
      latest transaction exactly when that one was rejected. */
  lemma RejectedStep<K, T, B>(a: Aggregator<T, B>, balances: seq<KeyValue<K, B>>, b: KeyValue<K, B>)
    ensures Filter(MapValues(balances + [b], a.latestTransaction), RejectedFilter(a))
         == Filter(MapValues(balances, a.latestTransaction), RejectedFilter(a))
            + (if a.state(a.latestTransaction(b.value)) == Rejected then [KeyValue(b.key, a.latestTransaction(b.value))] else [])
  {
    MapValuesConcat(balances, [b], a.latestTransaction);
    FilterConcat(MapValues(balances, a.latestTransaction), MapValues([b], a.latestTransaction), RejectedFilter(a));
    assert MapValues([b], a.latestTransaction) == [KeyValue(b.key, a.latestTransaction(b.value))];
  }

  /** What the stream thread has produced after the first `n` transactions:
      the store holds each key's fold so far, one balance record per
      transaction reflects its key's transactions up to it, and the rejected
      topic is the DSL's filter of the balance stream. */
  ghost predicate Replayed<K(!new), T, B>(a: Aggregator<T, B>, events: seq<KeyValue<K, T>>, n: nat,
                                    store: map<K, B>, balances: seq<KeyValue<K, B>>, rejected: seq<KeyValue<K, T>>)
    requires n <= |events|
  {
    && (forall k :: Get(store, k) == Materialize(a, None, TransactionsOf(events[..n], k)))
    && |balances| == n
    && (forall i :: 0 <= i < n ==>
          balances[i].key == events[i].key
          && Some(balances[i].value) == Materialize(a, None, TransactionsOf(events[..i + 1], events[i].key)))
    && rejected == Filter(MapValues(balances, a.latestTransaction), RejectedFilter(a))
  }

  lemma ReplayedStep<K(!new), T, B>(a: Aggregator<T, B>, events: seq<KeyValue<K, T>>, n: nat,
                              store: map<K, B>, balances: seq<KeyValue<K, B>>, rejected: seq<KeyValue<K, T>>)
    requires n < |events|
    requires Replayed(a, events, n, store, balances, rejected)
    ensures var u := Aggregate(a, store, events[n]);
      Replayed(a, events, n + 1, u.store, balances + [u.balance], rejected + OptionToSeq(u.rejected))
  {
    var u := Aggregate(a, store, events[n]);
    StoreStep(a, events, n, store);
    RejectedStep(a, balances, u.balance);
    assert Get(u.store, events[n].key) == Some(u.balance.value);
  }

  /** The topology run imperatively over a batch from an empty store, as the
      stream thread does: look up or create, reduce, put, forward to both sinks.
      Afterwards every key holds the fold over its own transactions, the i-th
      balance record reflects its key's transactions up to the i-th, and the
      rejected topic is the filtered balance stream (see `Replayed`). */
  method ProcessBatch<K(==, !new), T, B>(a: Aggregator<T, B>, events: seq<KeyValue<K, T>>)
    returns (store: map<K, B>, balances: seq<KeyValue<K, B>>, rejected: seq<KeyValue<K, T>>)
    ensures Replayed(a, events, |events|, store, balances, rejected)
  {
    store, balances, rejected := map[], [], [];
    var n := 0;
    while n < |events|
      invariant 0 <= n <= |events|
      invariant Replayed(a, events, n, store, balances, rejected)
    {
      var u := Aggregate(a, store, events[n]);
      ReplayedStep(a, events, n, store, balances, rejected);
      store, balances, rejected := u.store, balances + [u.balance], rejected + OptionToSeq(u.rejected);
      n := n + 1;
    }
    assert events[..n] == events;
  }
}
