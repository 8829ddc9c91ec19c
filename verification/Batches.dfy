/** Batches of writes: every entry has a byte key, the store takes a batch only if its keys strictly
    increase, and what it then holds. */
module Batches {
  import opened LedgerTypes
  import opened Allocation
  import opened LedgerMachine
  import opened Keys
  import opened Operations
  import opened Scans

  // "/config/symbols/" and "/config/ext_info/" in ASCII.
  const SYMBOLS_ROOT_DASH: Bytes := [47, 99, 111, 110, 102, 105, 103, 47, 115, 121, 109, 98, 111, 108, 115, 47]
  const EXT_INFO_ROOT: Bytes := [47, 99, 111, 110, 102, 105, 103, 47, 101, 120, 116, 95, 105, 110, 102, 111, 47]

  function Ascii(s: string): Bytes { seq(|s|, i requires 0 <= i < |s| => s[i] as nat) }

  // One write. The store holds no extended information, so writing it changes nothing here.
  datatype Entry =
    | BalanceEntry(holding: Holding, amount: nat)
    | TokenEntry(symbol: Symbol, info: TokenInfo)
    | ExtInfoEntry(symbol: Symbol)
    | TickersEntry(tickers: map<Symbol, string>)
    | CounterEntry(identity: Address, next: nat, perIdentity: bool)
    | AccountEntry(id: Address, account: Account)
    | TxEntry(token: nat, tx: Multisig)
    | EventEntry(event: nat, log: EventLog)
    | EventCountEntry(count: nat)
    | HeightEntry(height: nat)
    | CountsEntry(counts: AccountCounts)

  function KeyOf(text: Address -> Bytes, e: Entry): Bytes {
    match e
    case BalanceEntry(holding, _) => BalanceKey(text, holding)
    case TokenEntry(symbol, _) => SYMBOLS_ROOT_DASH + text(symbol)
    case ExtInfoEntry(symbol) => EXT_INFO_ROOT + text(symbol)
    case TickersEntry(_) => Ascii("/config/symbols")
    case CounterEntry(identity, _, perIdentity) =>
      if perIdentity then Ascii("/config/subresource_counter/") + text(identity) else Ascii("/config/account_id")
    case AccountEntry(id, _) => Ascii("/accounts/") + text(id)
    case TxEntry(token, _) => MultisigKey(ToBytes(token))
    case EventEntry(id, _) => EventKey(ToBytes(id))
    case EventCountEntry(_) => EVENT_COUNT_ROOT
    case HeightEntry(_) => Ascii("/height")
    case CountsEntry(_) => Ascii("/data/attributes")
  }

  function KeysOf(text: Address -> Bytes, batch: seq<Entry>): (keys: seq<Bytes>)
    ensures |keys| == |batch| && forall i :: 0 <= i < |batch| ==> keys[i] == KeyOf(text, batch[i])
  {
    seq(|batch|, i requires 0 <= i < |batch| => KeyOf(text, batch[i]))
  }

  function Write(db: Store, e: Entry): Store {
    match e
    case BalanceEntry(holding, amount) => db.(balances := db.balances[holding := amount])
    case TokenEntry(symbol, info) => db.(tokens := db.tokens[symbol := info])
    case ExtInfoEntry(_) => db
    case TickersEntry(tickers) => db.(tickers := tickers)
    case CounterEntry(identity, next, _) => db.(alloc := db.alloc.WithCounter(identity, next))
    case AccountEntry(id, account) => db.(accounts := db.accounts[id := account])
    case TxEntry(token, tx) => db.(multisigs := db.multisigs[token := tx])
    case EventEntry(id, log) => db.(events := db.events[id := log])
    case EventCountEntry(count) => db.(eventCount := count)
    case HeightEntry(height) => db.(height := height)
    case CountsEntry(counts) => db.(counts := Some(counts))
  }

  /** The store after the writes of a batch, one after the other. */
  function WriteAll(db: Store, batch: seq<Entry>): Store
    decreases |batch|
  {
    if batch == [] then db else WriteAll(Write(db, batch[0]), batch[1..])
  }

  lemma WriteOne(db: Store, e: Entry)
    ensures WriteAll(db, [e]) == Write(db, e)
  {
    assert [e][1..] == [];
  }

  lemma WriteTwo(db: Store, a: Entry, b: Entry)
    ensures WriteAll(db, [a, b]) == Write(Write(db, a), b)
  {
    hide Write;
    assert [a, b][1..] == [b];
    WriteOne(Write(db, a), b);
  }

  lemma {:induction false} WriteMore(db: Store, a: seq<Entry>, b: seq<Entry>)
    ensures WriteAll(db, a + b) == WriteAll(WriteAll(db, a), b)
    decreases |a|
  {
    hide Write;
    if a == [] {
      assert a + b == b;
    } else {
      assert (a + b)[1..] == a[1..] + b;
      WriteMore(Write(db, a[0]), a[1..], b);
    }
  }

  // ---------------------------------------------------------------- transactions and events

  function TxEntries(batch: seq<(nat, Multisig)>): (r: seq<Entry>)
    ensures |r| == |batch| && forall i :: 0 <= i < |batch| ==> r[i] == TxEntry(batch[i].0, batch[i].1)
  {
    seq(|batch|, i requires 0 <= i < |batch| => TxEntry(batch[i].0, batch[i].1))
  }

  function EventEntries(batch: seq<(nat, EventLog)>): (r: seq<Entry>)
    ensures |r| == |batch| && forall i :: 0 <= i < |batch| ==> r[i] == EventEntry(batch[i].0, batch[i].1)
  {
    seq(|batch|, i requires 0 <= i < |batch| => EventEntry(batch[i].0, batch[i].1))
  }

  lemma {:induction false} TxEntriesWrite(db: Store, batch: seq<(nat, Multisig)>)
    ensures WriteAll(db, TxEntries(batch)) == db.(multisigs := PutAll(db.multisigs, batch))
    decreases |batch|
  {
    if batch != [] {
      var front, last := batch[..|batch| - 1], batch[|batch| - 1];
      TxEntriesWrite(db, front);
      assert TxEntries(batch) == TxEntries(front) + [TxEntry(last.0, last.1)];
      WriteMore(db, TxEntries(front), [TxEntry(last.0, last.1)]);
      WriteOne(WriteAll(db, TxEntries(front)), TxEntry(last.0, last.1));
      hide WriteAll;
    }
  }

  lemma {:induction false} EventEntriesWrite(db: Store, batch: seq<(nat, EventLog)>)
    ensures WriteAll(db, EventEntries(batch)) == db.(events := PutAll(db.events, batch))
    decreases |batch|
  {
    if batch != [] {
      var front, last := batch[..|batch| - 1], batch[|batch| - 1];
      EventEntriesWrite(db, front);
      assert EventEntries(batch) == EventEntries(front) + [EventEntry(last.0, last.1)];
      WriteMore(db, EventEntries(front), [EventEntry(last.0, last.1)]);
      WriteOne(WriteAll(db, EventEntries(front)), EventEntry(last.0, last.1));
      hide WriteAll;
    }
  }

  lemma KeysIncrease(a: nat, b: nat)
    requires a < b < Pow256(EVENT_ID_KEY_SIZE_IN_BYTES)
    ensures LexLess(MultisigKey(ToBytes(a)), MultisigKey(ToBytes(b)))
    ensures LexLess(EventKey(ToBytes(a)), EventKey(ToBytes(b)))
  {
    hide EventKey, MultisigKey, LexLess;
    ToBytesFits(a, EVENT_ID_KEY_SIZE_IN_BYTES);
    ToBytesFits(b, EVENT_ID_KEY_SIZE_IN_BYTES);
    KeysAreNumeric(ToBytes(a), ToBytes(b));
  }

  // The identifiers of a batch fit their keys.
  predicate FitKeys<V>(batch: seq<(nat, V)>) {
    forall i :: 0 <= i < |batch| ==> batch[i].0 < Pow256(EVENT_ID_KEY_SIZE_IN_BYTES)
  }

  /** A numerically increasing batch of transactions is strictly sorted by its byte keys. */
  lemma TxEntriesSorted(text: Address -> Bytes, batch: seq<(nat, Multisig)>)
    requires Increasing(batch) && FitKeys(batch)
    ensures StrictlySorted(KeysOf(text, TxEntries(batch)))
  {
    hide EventKey, MultisigKey, ToBytes, LexLess, Pow256;
    forall i, j | 0 <= i < j < |batch|
      ensures LexLess(MultisigKey(ToBytes(batch[i].0)), MultisigKey(ToBytes(batch[j].0)))
    {
      KeysIncrease(batch[i].0, batch[j].0);
    }
  }

  /** And so is one of events. */
  lemma EventEntriesSorted(text: Address -> Bytes, batch: seq<(nat, EventLog)>)
    requires Increasing(batch) && FitKeys(batch)
    ensures StrictlySorted(KeysOf(text, EventEntries(batch)))
  {
    hide EventKey, MultisigKey, ToBytes, LexLess, Pow256;
    forall i, j | 0 <= i < j < |batch|
      ensures LexLess(EventKey(ToBytes(batch[i].0)), EventKey(ToBytes(batch[j].0)))
    {
      KeysIncrease(batch[i].0, batch[j].0);
    }
  }

  // ---------------------------------------------------------------- sorting a batch

  function InsertEntry(text: Address -> Bytes, e: Entry, sorted: seq<Entry>): seq<Entry> {
    if sorted == [] then [e]
    else if LexLess(KeyOf(text, sorted[0]), KeyOf(text, e))
    then [sorted[0]] + InsertEntry(text, e, sorted[1..])
    else [e] + sorted
  }

  function SortBatch(text: Address -> Bytes, batch: seq<Entry>): seq<Entry> {
    if batch == [] then [] else InsertEntry(text, batch[0], SortBatch(text, batch[1..]))
  }

  // No two entries have the same key.
  predicate DistinctKeys(text: Address -> Bytes, batch: seq<Entry>) {
    forall i, j :: 0 <= i < j < |batch| ==> KeyOf(text, batch[i]) != KeyOf(text, batch[j])
  }

  predicate Sorted(text: Address -> Bytes, batch: seq<Entry>) {
    forall i, j :: 0 <= i < j < |batch| ==> LexLess(KeyOf(text, batch[i]), KeyOf(text, batch[j]))
  }

  lemma SortedKeys(text: Address -> Bytes, batch: seq<Entry>)
    ensures StrictlySorted(KeysOf(text, batch)) <==> Sorted(text, batch)
  {
    var keys := KeysOf(text, batch);
    if StrictlySorted(keys) {
      forall i, j | 0 <= i < j < |batch| ensures LexLess(KeyOf(text, batch[i]), KeyOf(text, batch[j])) {
        assert LexLess(keys[i], keys[j]);
      }
    }
  }

  lemma {:induction false} InsertSorts(text: Address -> Bytes, e: Entry, sorted: seq<Entry>)
    requires Sorted(text, sorted) && forall i :: 0 <= i < |sorted| ==> KeyOf(text, sorted[i]) != KeyOf(text, e)
    ensures Sorted(text, InsertEntry(text, e, sorted))
    ensures forall x :: x in InsertEntry(text, e, sorted) <==> x == e || x in sorted
    decreases |sorted|
  {
    hide KeyOf, LexLess;
    if sorted != [] {
      assert sorted == [sorted[0]] + sorted[1..];
      var first, key := KeyOf(text, sorted[0]), KeyOf(text, e);
      if LexLess(first, key) {
        InsertSorts(text, e, sorted[1..]);
        var r := InsertEntry(text, e, sorted[1..]);
        forall j | 0 <= j < |r| ensures LexLess(first, KeyOf(text, r[j])) {
          assert r[j] in r;
        }
      } else {
        LexTotal(first, key);
        forall j | 1 <= j < |sorted| ensures LexLess(key, KeyOf(text, sorted[j])) {
          LexTransitive(key, first, KeyOf(text, sorted[j]));
        }
      }
    }
  }

  /** Sorting a batch with distinct keys gives a strictly sorted one with the same entries. */
  lemma {:induction false} SortSorts(text: Address -> Bytes, batch: seq<Entry>)
    requires DistinctKeys(text, batch)
    ensures Sorted(text, SortBatch(text, batch))
    ensures forall x :: x in SortBatch(text, batch) <==> x in batch
    decreases |batch|
  {
    hide KeyOf, LexLess, InsertEntry;
    if batch != [] {
      var rest := SortBatch(text, batch[1..]);
      SortSorts(text, batch[1..]);
      assert batch == [batch[0]] + batch[1..];
      forall i | 0 <= i < |rest| ensures KeyOf(text, rest[i]) != KeyOf(text, batch[0]) {
        assert rest[i] in rest && rest[i] in batch[1..];
        var j :| 0 <= j < |batch[1..]| && batch[1..][j] == rest[i];
        assert batch[j + 1] == rest[i];
      }
      InsertSorts(text, batch[0], rest);
    }
  }

  // The entries of a token creation.
  predicate OfCreation(e: Entry) { e.BalanceEntry? || e.TokenEntry? || e.ExtInfoEntry? }

  lemma WritesCommute(text: Address -> Bytes, db: Store, a: Entry, b: Entry)
    requires OfCreation(a) && OfCreation(b) && KeyOf(text, a) != KeyOf(text, b)
    ensures Write(Write(db, a), b) == Write(Write(db, b), a)
  {
    if a.BalanceEntry? && b.BalanceEntry? {
      assert db.balances[a.holding := a.amount][b.holding := b.amount]
          == db.balances[b.holding := b.amount][a.holding := a.amount];
    } else if a.TokenEntry? && b.TokenEntry? {
      assert db.tokens[a.symbol := a.info][b.symbol := b.info] == db.tokens[b.symbol := b.info][a.symbol := a.info];
    }
  }

  lemma {:induction false} InsertWrites(text: Address -> Bytes, db: Store, e: Entry, sorted: seq<Entry>)
    requires OfCreation(e)
    requires forall i :: 0 <= i < |sorted| ==> OfCreation(sorted[i]) && KeyOf(text, sorted[i]) != KeyOf(text, e)
    ensures WriteAll(db, InsertEntry(text, e, sorted)) == WriteAll(Write(db, e), sorted)
    decreases |sorted|
  {
    hide Write, KeyOf, LexLess, OfCreation;
    if sorted == [] {
      WriteOne(db, e);
    } else if LexLess(KeyOf(text, sorted[0]), KeyOf(text, e)) {
      InsertWrites(text, Write(db, sorted[0]), e, sorted[1..]);
      WritesCommute(text, db, e, sorted[0]);
    } else {
      assert ([e] + sorted)[1..] == sorted;
    }
  }

  /** Sorting the batch of a creation does not change what it writes. */
  lemma {:induction false} SortWrites(text: Address -> Bytes, db: Store, batch: seq<Entry>)
    requires DistinctKeys(text, batch) && forall i :: 0 <= i < |batch| ==> OfCreation(batch[i])
    ensures WriteAll(db, SortBatch(text, batch)) == WriteAll(db, batch)
    decreases |batch|
  {
    hide Write, KeyOf, InsertEntry, OfCreation;
    if batch != [] {
      var rest := SortBatch(text, batch[1..]);
      SortSorts(text, batch[1..]);
      forall i | 0 <= i < |rest| ensures OfCreation(rest[i]) && KeyOf(text, rest[i]) != KeyOf(text, batch[0]) {
        assert rest[i] in rest && rest[i] in batch[1..];
        var j :| 0 <= j < |batch[1..]| && batch[1..][j] == rest[i];
        assert batch[j + 1] == rest[i];
      }
      InsertWrites(text, db, batch[0], rest);
      SortWrites(text, Write(db, batch[0]), batch[1..]);
    }
  }

  // ---------------------------------------------------------------- the batch of a creation

  function BalanceEntries(symbol: Symbol, dist: Distribution): (r: seq<Entry>)
    ensures |r| == |dist| && forall i :: 0 <= i < |dist| ==> r[i] == BalanceEntry(Holding(dist[i].0, symbol), dist[i].1)
  {
    seq(|dist|, i requires 0 <= i < |dist| => BalanceEntry(Holding(dist[i].0, symbol), dist[i].1))
  }

  // The entries of a token creation in the order they are collected.
  function CreationEntries(symbol: Symbol, dist: Distribution, info: TokenInfo): seq<Entry> {
    BalanceEntries(symbol, dist) + [TokenEntry(symbol, info), ExtInfoEntry(symbol)]
  }

  lemma LastBalance(symbol: Symbol, dist: Distribution)
    requires dist != []
    ensures var front, last := dist[..|dist| - 1], dist[|dist| - 1];
            && CreateUpdates(symbol, dist) == CreateUpdates(symbol, front)[Holding(last.0, symbol) := last.1]
            && BalanceEntries(symbol, dist)
               == BalanceEntries(symbol, front) + [BalanceEntry(Holding(last.0, symbol), last.1)]
  {
  }

  lemma {:induction false} BalanceEntriesWrite(db: Store, symbol: Symbol, dist: Distribution)
    ensures WriteAll(db, BalanceEntries(symbol, dist)) == db.(balances := db.balances + CreateUpdates(symbol, dist))
    decreases |dist|
  {
    if dist == [] {
      assert db.balances + CreateUpdates(symbol, dist) == db.balances;
    } else {
      hide WriteAll, CreateUpdates, BalanceEntries;
      var front, last := dist[..|dist| - 1], dist[|dist| - 1];
      var e := BalanceEntry(Holding(last.0, symbol), last.1);
      LastBalance(symbol, dist);
      BalanceEntriesWrite(db, symbol, front);
      WriteMore(db, BalanceEntries(symbol, front), [e]);
      WriteOne(WriteAll(db, BalanceEntries(symbol, front)), e);
      assert db.balances + CreateUpdates(symbol, dist)
          == (db.balances + CreateUpdates(symbol, front))[e.holding := e.amount];
    }
  }

  // ---------------------------------------------------------------- the batch of a mint or a burn

  // The balances of the listed addresses after a mint, and after a burn.
  function Raised(balances: Balances, symbol: Symbol, dist: Distribution): (r: Distribution)
    ensures |r| == |dist|
    ensures forall i :: 0 <= i < |dist| ==> r[i] == (dist[i].0, BalanceOf(balances, dist[i].0, symbol) + dist[i].1)
  {
    seq(|dist|, i requires 0 <= i < |dist| => (dist[i].0, BalanceOf(balances, dist[i].0, symbol) + dist[i].1))
  }

  function Lowered(balances: Balances, symbol: Symbol, dist: Distribution): (r: Distribution)
    requires Covered(balances, symbol, dist)
    ensures |r| == |dist|
    ensures forall i :: 0 <= i < |dist| ==> r[i] == (dist[i].0, BalanceOf(balances, dist[i].0, symbol) - dist[i].1)
  {
    seq(|dist|, i requires 0 <= i < |dist| => (dist[i].0, BalanceOf(balances, dist[i].0, symbol) - dist[i].1))
  }

  lemma {:induction false} RaisedUpdates(balances: Balances, symbol: Symbol, dist: Distribution)
    ensures CreateUpdates(symbol, Raised(balances, symbol, dist)) == MintUpdates(balances, symbol, dist)
    decreases |dist|
  {
    hide BalanceOf;
    if dist != [] {
      var front, raised := dist[..|dist| - 1], Raised(balances, symbol, dist);
      assert raised[..|raised| - 1] == Raised(balances, symbol, front);
      RaisedUpdates(balances, symbol, front);
    }
  }

  lemma {:induction false} LoweredUpdates(balances: Balances, symbol: Symbol, dist: Distribution)
    requires Covered(balances, symbol, dist)
    ensures CreateUpdates(symbol, Lowered(balances, symbol, dist)) == BurnUpdates(balances, symbol, dist)
    decreases |dist|
  {
    hide BalanceOf;
    if dist != [] {
      var front, lowered := dist[..|dist| - 1], Lowered(balances, symbol, dist);
      assert lowered[..|lowered| - 1] == Lowered(balances, symbol, front);
      LoweredUpdates(balances, symbol, front);
    }
  }

  // The entries of a mint or a burn: the new balances in the order of the distribution, and the token.
  function SupplyEntries(symbol: Symbol, after: Distribution, info: TokenInfo): seq<Entry> {
    BalanceEntries(symbol, after) + [TokenEntry(symbol, info)]
  }

  lemma SupplyEntriesWrite(db: Store, symbol: Symbol, after: Distribution, info: TokenInfo)
    ensures WriteAll(db, SupplyEntries(symbol, after, info))
            == db.(balances := db.balances + CreateUpdates(symbol, after), tokens := db.tokens[symbol := info])
  {
    WriteMore(db, BalanceEntries(symbol, after), [TokenEntry(symbol, info)]);
    BalanceEntriesWrite(db, symbol, after);
    WriteOne(WriteAll(db, BalanceEntries(symbol, after)), TokenEntry(symbol, info));
    hide WriteAll, CreateUpdates, BalanceEntries;
  }

  /** The store accepts the batch of a mint or a burn exactly when the printed addresses of the
      distribution come in order; the token's key comes after all of them anyway. */
  lemma SupplyEntriesSorted(text: Address -> Bytes, symbol: Symbol, dist: Distribution, after: Distribution,
                            info: TokenInfo)
    requires |after| == |dist| && forall i :: 0 <= i < |dist| ==> after[i].0 == dist[i].0
    ensures StrictlySorted(KeysOf(text, SupplyEntries(symbol, after, info))) <==> InStoreOrder(text, symbol, dist)
  {
    var batch, n := SupplyEntries(symbol, after, info), |dist|;
    SortedKeys(text, batch);
    forall i | 0 <= i < n
      ensures KeyOf(text, batch[i]) == BalanceKey(text, Holding(dist[i].0, symbol))
      ensures LexLess(KeyOf(text, batch[i]), KeyOf(text, batch[n]))
    {
      BalanceBeforeToken(text, Holding(dist[i].0, symbol), symbol, after[i].1, info);
    }
    hide LexLess, KeyOf, BalanceKey;
    if Sorted(text, batch) {
      forall i, j | 0 <= i < j < n
        ensures LexLess(BalanceKey(text, Holding(dist[i].0, symbol)), BalanceKey(text, Holding(dist[j].0, symbol)))
      {
        assert LexLess(KeyOf(text, batch[i]), KeyOf(text, batch[j]));
      }
    }
  }

  lemma BalanceBeforeToken(text: Address -> Bytes, k: Holding, symbol: Symbol, amount: nat, info: TokenInfo)
    ensures KeyOf(text, BalanceEntry(k, amount)) == BalanceKey(text, k)
    ensures LexLess(BalanceKey(text, k), KeyOf(text, TokenEntry(symbol, info)))
  {
    var a, b := BalanceKey(text, k), KeyOf(text, TokenEntry(symbol, info));
    assert a[0] == b[0] && a[1] == 98 && b[1] == 99;
    assert a[1..][0] < b[1..][0];
  }

  // ---------------------------------------------------------------- the creation, sorted

  lemma CreationDistinct(text: Address -> Bytes, symbol: Symbol, dist: Distribution, info: TokenInfo)
    requires PrintsInjectively(text)
    ensures DistinctKeys(text, CreationEntries(symbol, dist, info))
  {
    var batch, n := CreationEntries(symbol, dist, info), |dist|;
    forall i, j | 0 <= i < j < |batch| ensures KeyOf(text, batch[i]) != KeyOf(text, batch[j]) {
      if j < n {
        SameSymbolKeysDiffer(text, dist[i].0, dist[j].0, symbol);
      } else if i < n {
        assert KeyOf(text, batch[i])[1] == 98 && KeyOf(text, batch[j])[1] == 99;
      } else {
        assert KeyOf(text, batch[i])[8] == 115 && KeyOf(text, batch[j])[8] == 101;
      }
    }
  }

  /** The batch of a token creation, sorted by key, is accepted by the store and writes the listed
      balances and the record of the symbol. */
  lemma CreationApplied(text: Address -> Bytes, db: Store, symbol: Symbol, dist: Distribution, info: TokenInfo)
    requires PrintsInjectively(text)
    ensures var batch := SortBatch(text, CreationEntries(symbol, dist, info));
            && StrictlySorted(KeysOf(text, batch))
            && WriteAll(db, batch) == db.(balances := db.balances + CreateUpdates(symbol, dist),
                                          tokens := db.tokens[symbol := info])
  {
    hide KeyOf, LexLess, CreateUpdates, SortBatch;
    var batch, pair := CreationEntries(symbol, dist, info), [TokenEntry(symbol, info), ExtInfoEntry(symbol)];
    CreationDistinct(text, symbol, dist, info);
    SortSorts(text, batch);
    SortedKeys(text, SortBatch(text, batch));
    SortWrites(text, db, batch);
    WriteMore(db, BalanceEntries(symbol, dist), pair);
    BalanceEntriesWrite(db, symbol, dist);
    WriteTwo(WriteAll(db, BalanceEntries(symbol, dist)), pair[0], pair[1]);
    hide WriteAll;
  }

  /** The two balances of a send, whichever key comes first, and the event of a log. */
  lemma PairSorted(text: Address -> Bytes, a: Entry, b: Entry)
    ensures StrictlySorted(KeysOf(text, [a, b])) <==> LexLess(KeyOf(text, a), KeyOf(text, b))
  {
    var keys := KeysOf(text, [a, b]);
    assert keys[0] == KeyOf(text, a) && keys[1] == KeyOf(text, b);
  }
}
