/** The query side of the bank-balance application: a point lookup of one
    account's balance in the topology's state store. */
module BankBalanceService {
  import opened Wrappers
  import opened Streams
  import opened BankBalanceTopology

  /** `getBankBalanceById`: the stored balance, or None (`null` in the
      source) when the account has none. */
  function GetBankBalanceById<K, B>(store: map<K, B>, bankBalanceId: K): (r: Option<B>)
    ensures r.Some? <==> bankBalanceId in store
    ensures r.Some? ==> r.value == store[bankBalanceId]
  {
    Get(store, bankBalanceId)
  }

  /** A lookup after a batch replayed into an empty store finds a balance
      exactly for the accounts the batch mentions, and that balance is the
      fold of the reducer over the account's own transactions. */
  lemma QueryAfterReplay<K, T, B>(a: Aggregator<T, B>, events: seq<KeyValue<K, T>>, id: K)
    ensures GetBankBalanceById(Run(a, map[], events).store, id).Some?
        <==> exists i :: 0 <= i < |events| && events[i].key == id
    ensures GetBankBalanceById(Run(a, map[], events).store, id)
         == Materialize(a, None, TransactionsOf(events, id))
  {
    RunPerKey(a, map[], events, id);
    KeysOfTransactions(events, id);
    KeysOfOccur(events, id);
  }
}
