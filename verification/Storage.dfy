/** The ledger storage object: methods that update its store in place, each proved to do
    exactly what the operation of the same name says. */
module Storage {
  import opened LedgerTypes
  import opened Allocation
  import opened AccountRules
  import opened LedgerMachine
  import opened Keys
  import opened Footprints
  import opened Legality
  import opened Scans
  import opened Batches
  import opened TxHistory
  import EventIds
  import Outcomes
  import Executions
  import Ops = Operations

  // What a method that may nest answers: a result, or nothing because the stack ran out.
  datatype Reply = Reply(r: Result<Value>) | Crashed

  lemma MintCheckStops(info: TokenInfo, dist: Distribution, i: nat)
    requires i < |dist| && Ops.MintCheck(info, dist[..i]).Ok? && Ops.MintCheck(info, dist[..i + 1]).Err?
    ensures Ops.MintCheck(info, dist) == Ops.MintCheck(info, dist[..i + 1])
    decreases |dist|
  {
    var front := dist[..|dist| - 1];
    if i < |dist| - 1 {
      assert front[..i] == dist[..i] && front[..i + 1] == dist[..i + 1];
      MintCheckStops(info, front, i);
    } else {
      assert dist[..i + 1] == dist;
    }
  }

  lemma BurnCheckStops(balances: Balances, symbol: Symbol, dist: Distribution, i: nat)
    requires i < |dist| && Ops.BurnCheck(balances, symbol, dist[..i]).Ok?
    requires Ops.BurnCheck(balances, symbol, dist[..i + 1]).Err?
    ensures Ops.BurnCheck(balances, symbol, dist) == Ops.BurnCheck(balances, symbol, dist[..i + 1])
    decreases |dist|
  {
    var front := dist[..|dist| - 1];
    if i < |dist| - 1 {
      assert front[..i] == dist[..i] && front[..i + 1] == dist[..i + 1];
      BurnCheckStops(balances, symbol, front, i);
    } else {
      assert dist[..i + 1] == dist;
    }
  }

  // Distributions entry by entry.

  lemma EmptyDistribution(balances: Balances, symbol: Symbol)
    ensures BalanceEntries(symbol, Raised(balances, symbol, [])) == BalanceEntries(symbol, []) == []
    ensures BalanceEntries(symbol, Lowered(balances, symbol, [])) == []
    ensures SumOf([]) == 0
  {
  }

  lemma SumPrefix(dist: Distribution, i: nat)
    requires i < |dist|
    ensures SumOf(dist[..i + 1]) == SumOf(dist[..i]) + dist[i].1
  {
    assert dist[..i + 1][..i] == dist[..i];
  }

  lemma RaisedPrefix(balances: Balances, symbol: Symbol, dist: Distribution, i: nat)
    requires i < |dist|
    ensures BalanceEntries(symbol, Raised(balances, symbol, dist[..i + 1]))
            == BalanceEntries(symbol, Raised(balances, symbol, dist[..i]))
               + [BalanceEntry(Holding(dist[i].0, symbol), BalanceOf(balances, dist[i].0, symbol) + dist[i].1)]
  {
    hide BalanceOf;
    assert dist[..i + 1][i] == dist[i];
    assert forall j :: 0 <= j < i ==> dist[..i + 1][j] == dist[..i][j];
  }

  lemma LoweredPrefix(balances: Balances, symbol: Symbol, dist: Distribution, i: nat)
    requires i < |dist| && Covered(balances, symbol, dist[..i + 1])
    ensures Covered(balances, symbol, dist[..i])
    ensures BalanceEntries(symbol, Lowered(balances, symbol, dist[..i + 1]))
            == BalanceEntries(symbol, Lowered(balances, symbol, dist[..i]))
               + [BalanceEntry(Holding(dist[i].0, symbol), BalanceOf(balances, dist[i].0, symbol) - dist[i].1)]
  {
    hide BalanceOf;
    assert dist[..i + 1][i] == dist[i];
    assert forall j :: 0 <= j < i ==> dist[..i + 1][j] == dist[..i][j];
  }

  lemma SweptExactly(s: State, t: nat)
    requires t in s.committed.txs && t in s.db.multisigs && TxSound(s.committed.txs[t], s.memoActive)
    ensures var tx := s.committed.txs[t];
            && Swept(s, t) == (if s.now >= tx.info.timeout && !tx.disabled then Closed(tx, Expired)
                               else s.db.multisigs[t])
            && (s.now < tx.info.timeout && tx.creation <= s.now ==>
                  s.now - tx.creation <= MULTISIG_MAXIMUM_TIMEOUT_IN_SECS)
  {
  }

  // The identifiers stored fit their keys.
  ghost predicate IdsFit(db: Store) {
    && (forall id :: id in db.events ==> id < Pow256(EVENT_ID_KEY_SIZE_IN_BYTES))
    && (forall t :: t in db.multisigs ==> t < Pow256(EVENT_ID_KEY_SIZE_IN_BYTES))
  }

  lemma WithinFits(s: State, n: nat)
    requires EventIds.IdsWithin(s, n) && n <= 3 * U64
    ensures IdsFit(s.db)
  {
    assert Pow256(1) == 0x100 && Pow256(2) == 0x1_0000 && Pow256(3) == 0x100_0000 && Pow256(4) == 0x1_0000_0000;
    assert Pow256(5) == 0x100_0000_0000 && Pow256(6) == 0x1_0000_0000_0000 && Pow256(7) == 0x100_0000_0000_0000;
    assert Pow256(8) == U64 && Pow256(9) == 256 * U64;
    PowGrows(9, EVENT_ID_KEY_SIZE_IN_BYTES);
  }

  lemma SweepCommits(s: State)
    ensures var db := Apply(s, ExpirySwept).db; Apply(s, ExpirySwept) == s.(db := db, committed := CommittedOf(db))
  {
  }

  lemma SweepFits(s: State)
    requires IdsFit(s.db)
    ensures IdsFit(Apply(s, ExpirySwept).db)
  {
    hide Pow256;
  }

  lemma CollectedFits<V>(m: map<nat, V>, target: map<nat, V>, up: bool, keys: seq<nat>, batch: seq<(nat, V)>)
    requires Collected(m, target, up, keys, |keys|, batch)
    requires forall k :: k in m ==> k < Pow256(EVENT_ID_KEY_SIZE_IN_BYTES)
    ensures FitKeys(InKeyOrder(up, batch))
  {
    CollectedSorted(m, target, up, keys, |keys|, batch);
    hide InKeyOrder, Pow256;
  }

  // A record a scan does not find is not swept.
  lemma UnscannedStay(s: State)
    ensures forall t :: t in s.db.multisigs ==> t in s.committed.txs || Swept(s, t) == s.db.multisigs[t]
  {
  }

  lemma MintBatch(text: Address -> Bytes, db: Store, symbol: Symbol, dist: Distribution, info: TokenInfo)
    ensures var batch := BalanceEntries(symbol, Raised(db.balances, symbol, dist)) + [TokenEntry(symbol, info)];
            && (StrictlySorted(KeysOf(text, batch)) <==> Ops.InStoreOrder(text, symbol, dist))
            && WriteAll(db, batch) == db.(balances := db.balances + MintUpdates(db.balances, symbol, dist),
                                          tokens := db.tokens[symbol := info])
  {
    hide WriteAll, KeysOf, StrictlySorted, BalanceEntries, MintUpdates, CreateUpdates, Ops.InStoreOrder;
    SupplyEntriesSorted(text, symbol, dist, Raised(db.balances, symbol, dist), info);
    SupplyEntriesWrite(db, symbol, Raised(db.balances, symbol, dist), info);
    RaisedUpdates(db.balances, symbol, dist);
  }

  lemma BurnBatch(text: Address -> Bytes, db: Store, symbol: Symbol, dist: Distribution, info: TokenInfo)
    requires Covered(db.balances, symbol, dist)
    ensures var batch := BalanceEntries(symbol, Lowered(db.balances, symbol, dist)) + [TokenEntry(symbol, info)];
            && (StrictlySorted(KeysOf(text, batch)) <==> Ops.InStoreOrder(text, symbol, dist))
            && WriteAll(db, batch) == db.(balances := db.balances + BurnUpdates(db.balances, symbol, dist),
                                          tokens := db.tokens[symbol := info])
  {
    hide WriteAll, KeysOf, StrictlySorted, BalanceEntries, BurnUpdates, CreateUpdates, Ops.InStoreOrder;
    SupplyEntriesSorted(text, symbol, dist, Lowered(db.balances, symbol, dist), info);
    SupplyEntriesWrite(db, symbol, Lowered(db.balances, symbol, dist), info);
    LoweredUpdates(db.balances, symbol, dist);
  }

  // The two entries of a log: the event, and how many there are.
  lemma LogBatch(text: Address -> Bytes, db: Store, log: EventLog, count: nat)
    ensures var batch := [EventEntry(log.id, log), EventCountEntry(count)];
            && StrictlySorted(KeysOf(text, batch))
            && WriteAll(db, batch) == db.(events := db.events[log.id := log], eventCount := count)
  {
    hide EventKey, LexLess, ToBytes;
    LogBatchSorted(ToBytes(log.id));
    PairSorted(text, EventEntry(log.id, log), EventCountEntry(count));
    WriteTwo(db, EventEntry(log.id, log), EventCountEntry(count));
  }

  // One entry of a burn more.
  lemma BurnStep(balances: Balances, symbol: Symbol, dist: Distribution, i: nat)
    requires i < |dist| && Ops.BurnCheck(balances, symbol, dist[..i]).Ok?
    ensures Ops.BurnCheck(balances, symbol, dist[..i + 1])
            == if dist[i].1 == 0 then Err(ZeroDistributed)
               else if BalanceOf(balances, dist[i].0, symbol) < dist[i].1 || dist[i].0 == Anonymous
               then Err(MissingFunds)
               else Ok(())
    ensures Ops.BurnCheck(balances, symbol, dist[..i + 1]).Ok? ==> Covered(balances, symbol, dist[..i + 1])
  {
    assert dist[..i + 1][..i] == dist[..i] && dist[..i + 1][i] == dist[i];
    BurnCheckExact(balances, symbol, dist[..i + 1]);
    hide BalanceOf, Covered;
  }

  // Records and the log are apart: it does not matter which is written first.
  lemma LogCommutes(s: State, content: Event, id: Address, account: Account)
    ensures PutAccount(LedgerMachine.LogEvent(s, content), id, account)
            == LedgerMachine.LogEvent(PutAccount(s, id, account), content)
  {
  }

  // The search for a free identifier, one step at a time.
  function Free(identity: Address, symbols: set<Symbol>, from: nat): Option<nat>
    requires Derivable(identity)
  {
    NextFree(identity, symbols, from)
  }

  lemma FreeStep(identity: Address, symbols: set<Symbol>, from: nat)
    requires Derivable(identity) && from <= MAX_SUBRESOURCE_ID
    ensures Free(identity, symbols, from)
            == if Derive(identity, from) !in symbols then Some(from)
               else if from == MAX_SUBRESOURCE_ID then None else Free(identity, symbols, from + 1)
  {
  }

  lemma AllocatesFree(al: Allocator, identity: Address, symbols: set<Symbol>)
    requires Derivable(identity) && al.Counter(identity) <= MAX_SUBRESOURCE_ID
    ensures NextSubresource(al, identity, symbols)
            == match Free(identity, symbols, al.Counter(identity))
               case None => Err(SubresourceExhausted)
               case Some(k) => Ok((al.WithCounter(identity, k + 1), Derive(identity, k)))
  {
  }

  // The height is incremented before the migrations run, which do not depend on it.

  function AtHeight(s: State, height: nat): State { s.(db := s.db.(height := height)) }

  lemma MigratesAtAnyHeight(s: State, height: nat, e: Effect)
    requires e.MemoMigrated? || e.CountsInitialised?
    ensures Apply(AtHeight(s, height), e) == AtHeight(Apply(s, e), height)
    ensures Apply(s, e).db.height == s.db.height
  {
  }

  class LedgerStorage {
    var db: Store
    var latestTid: nat
    var now: nat
    var memoActive: bool
    // What scans find: they do not see what was written since the last commit.
    var committed: Committed
    const text: Address -> Bytes

    // The state the store was opened in, and the effects performed since.
    ghost const start: State
    ghost var history: seq<Effect>

    ghost predicate Valid() { PrintsInjectively(text) }

    ghost function S(): State
      reads this
    {
      State(db, latestTid, now, memoActive, text, committed)
    }

    ghost function M(): Machine
      reads this
    {
      Machine(S(), history)
    }

    // Opened on sound transactions and identifiers of 64 bits, and changed by allowed effects only.
    ghost predicate Running()
      reads this
    {
      Valid() && TxsSound(start) && EventIds.IdsWithin(start, U64) && Reached(start, M())
    }

    /** Opens a store: the identifiers of a block start from the height committed last. */
    constructor Load(store: Store, time: nat, migrated: bool, printing: Address -> Bytes)
      requires PrintsInjectively(printing)
      ensures Valid() && S() == EventIds.Load(store, time, migrated, printing) && history == []
      ensures TxsSound(S()) && EventIds.IdsWithin(S(), U64) ==> Running()
    {
      db, now, memoActive, text, history := store, time, migrated, printing, [];
      committed := CommittedOf(store);
      latestTid := EventBase(if store.height == 0 then 0 else store.height - 1);
      start := EventIds.Load(store, time, migrated, printing);
    }

    // -------------------------------------------------------------- writing

    /** The one way the store is written: a batch whose keys strictly increase. */
    method ApplyBatch(batch: seq<Entry>)
      requires StrictlySorted(KeysOf(text, batch))
      modifies this`db
      ensures db == WriteAll(old(db), batch)
    {
      db := WriteAll(db, batch);
    }

    /** A batch whose keys may come in any order: unless they strictly increase, it is refused. */
    method TryBatch(batch: seq<Entry>) returns (ok: bool)
      modifies this`db
      ensures ok <==> StrictlySorted(KeysOf(text, batch))
      ensures db == if ok then WriteAll(old(db), batch) else old(db)
    {
      ok := StrictlySorted(KeysOf(text, batch));
      if ok { ApplyBatch(batch); }
    }

    method ApplyOne(e: Entry)
      modifies this`db
      ensures db == Write(old(db), e)
    {
      WriteOne(db, e);
      ApplyBatch([e]);
    }

    // -------------------------------------------------------------- events

    method NewEventId() returns (id: nat)
      modifies this`latestTid
      ensures id == latestTid == old(latestTid) + 1
    {
      latestTid := latestTid + 1;
      id := latestTid;
    }

    method LogEvent(content: Event)
      modifies this`latestTid, this`db
      ensures S() == LedgerMachine.LogEvent(old(S()), content)
    {
      var count := db.eventCount;
      var id := NewEventId();
      var log := EventLog(id, now, content);
      LogBatch(text, db, log, count + 1);
      hide StrictlySorted, KeysOf, WriteAll;
      ApplyBatch([EventEntry(id, log), EventCountEntry(count + 1)]);
    }

    // -------------------------------------------------------------- balances

    method GetBalance(who: Address, symbol: Symbol) returns (amount: nat)
      ensures amount == BalanceOf(db.balances, who, symbol)
    {
      if who == Anonymous {
        amount := 0;
      } else if Holding(who, symbol) in db.balances {
        amount := db.balances[Holding(who, symbol)];
      } else {
        amount := 0;
      }
    }

    /** Writes two balances of one symbol, whichever key comes first. */
    method ApplyInKeyOrder(a: (Holding, nat), b: (Holding, nat))
      requires Valid() && a.0.symbol == b.0.symbol && a.0.owner != b.0.owner
      modifies this`db
      ensures db == old(db).(balances := old(db).balances[a.0 := a.1][b.0 := b.1])
    {
      hide LexLess, BalanceKey;
      var first, second := BalanceEntry(a.0, a.1), BalanceEntry(b.0, b.1);
      SameSymbolKeysDiffer(text, a.0.owner, b.0.owner, a.0.symbol);
      LexTotal(BalanceKey(text, a.0), BalanceKey(text, b.0));
      PairSorted(text, first, second);
      PairSorted(text, second, first);
      if LexLess(BalanceKey(text, a.0), BalanceKey(text, b.0)) {
        WriteTwo(db, first, second);
        ApplyBatch([first, second]);
      } else {
        WriteTwo(db, second, first);
        ApplyBatch([second, first]);
        assert db.balances == old(db).balances[a.0 := a.1][b.0 := b.1];
      }
    }

    /** Updates the counters, unless one would fall below zero. */
    method UpdateAccountCount(from: Address, to: Address, amount: nat, symbol: Symbol) returns (ok: bool)
      modifies this`db
      ensures ok <==> (old(db).counts.Some? ==>
                         !CountsUnderflow(old(db).counts.value, old(db).balances, from, to, symbol, amount))
      ensures db == if !ok || old(db).counts.None? then old(db)
                    else old(db).(counts := Some(SendCounts(old(db).counts.value, old(db).balances, from, to, symbol,
                                                            amount)))
    {
      assert Holding(to, symbol) !in db.balances ==> BalanceOf(db.balances, to, symbol) == 0;
      hide BalanceOf;
      ok := true;
      if db.counts.Some? {
        var counts := db.counts.value;
        var destinationIsEmpty := Holding(to, symbol) !in db.balances;
        var atDestination := GetBalance(to, symbol);
        if destinationIsEmpty {
          counts := counts.(total := counts.total + 1);
        }
        if atDestination == 0 || destinationIsEmpty {
          counts := counts.(nonZero := counts.nonZero + 1);
        }
        var atOrigin := GetBalance(from, symbol);
        if atOrigin == amount {
          if counts.nonZero == 0 { return false; }
          counts := counts.(nonZero := counts.nonZero - 1);
        }
        ApplyOne(CountsEntry(counts));
      }
    }

    /** Moves the amount and logs it, unless a counter would fall below zero. */
    method Transfer(from: Address, to: Address, symbol: Symbol, amount: nat, memo: Option<Memo>) returns (ok: bool)
      requires Valid() && from != to && BalanceOf(db.balances, from, symbol) >= amount
      modifies this`db, this`latestTid
      ensures ok <==> (old(db).counts.Some? ==>
                         !CountsUnderflow(old(db).counts.value, old(db).balances, from, to, symbol, amount))
      ensures S() == if ok then ApplySent(old(S()), from, to, symbol, amount, memo) else old(S())
    {
      hide LedgerMachine.LogEvent, SendCounts, CountsUnderflow, BalanceKey, BalanceOf, StrictlySorted,
        PrintsInjectively;
      var amountFrom := GetBalance(from, symbol);
      var amountTo := GetBalance(to, symbol);
      amountTo := amountTo + amount;
      amountFrom := amountFrom - amount;
      var entryFrom, entryTo := (Holding(from, symbol), amountFrom), (Holding(to, symbol), amountTo);
      ok := UpdateAccountCount(from, to, amount, symbol);
      if ok {
        ApplyInKeyOrder(entryFrom, entryTo);
        LogEvent(SendEvent(from, to, symbol, amount, memo));
      }
    }

    method StorageSend(ghost authority: Authority, from: Address, to: Address, symbol: Symbol, amount: nat,
                       memo: Option<Memo>) returns (r: Result<Value>)
      requires Valid()
      modifies this
      ensures Ops.Done(M(), r) == Ops.StorageSend(old(M()), authority, from, to, symbol, amount, memo)
    {
      hide Apply, ApplySent, LedgerMachine.LogEvent, CountsUnderflow, BalanceOf, PrintsInjectively;
      if from == to { return Err(DestinationIsSource); }
      if amount == 0 { return Err(AmountIsZero); }
      if to == Anonymous || from == Anonymous { return Err(AnonymousCannotHoldFunds); }
      var amountFrom := GetBalance(from, symbol);
      if amount > amountFrom { return Err(InsufficientFunds); }
      SentWrites(S(), authority, from, to, symbol, amount, memo);
      var sent := Transfer(from, to, symbol, amount, memo);
      if !sent { return Err(CounterUnderflow); }
      history := history + [Sent(authority, from, to, symbol, amount, memo)];
      r := Ok(Nothing);
    }

    method Send(sender: Address, from: Option<Address>, to: Address, symbol: Symbol, amount: nat, memo: Option<Memo>)
      returns (r: Result<Value>)
      requires Valid()
      modifies this
      ensures Ops.Done(M(), r) == Ops.Send(old(M()), sender, from, to, symbol, amount, memo)
    {
      hide Ops.StorageSend, Ops.VerifyAccountRole, EnabledAccount, Apply, BalanceOf, PrintsInjectively;
      var source := from.GetOr(sender);
      if source == Illegal { return Err(Unauthorized); }
      if source != sender {
        var account := EnabledAccount(db, source);
        if account.None? { return Err(Unauthorized); }
        var ok := Ops.VerifyAccountRole(account.value, sender, account.value.features.ledger, {CanLedgerTransact});
        if ok.Err? { return Err(ok.error); }
      }
      r := StorageSend(Direct(sender), source, to, symbol, amount, memo);
    }

    // -------------------------------------------------------------- minting and burning

    /** The running check of a mint, and the new balances collected on the way. */
    method MintEntries(symbol: Symbol, dist: Distribution, info: TokenInfo)
      returns (r: Result<()>, batch: seq<Entry>, circulating: nat)
      ensures r == Ops.MintCheck(info, dist)
      ensures r.Ok? ==> batch == BalanceEntries(symbol, Raised(db.balances, symbol, dist)) && circulating == SumOf(dist)
    {
      hide BalanceEntries, Raised, SumOf, BalanceOf;
      EmptyDistribution(db.balances, symbol);
      batch, circulating := [], 0;
      var i := 0;
      while i < |dist|
        invariant 0 <= i <= |dist|
        invariant batch == BalanceEntries(symbol, Raised(db.balances, symbol, dist[..i]))
        invariant circulating == SumOf(dist[..i])
        invariant Ops.MintCheck(info, dist[..i]).Ok?
      {
        var (who, amount) := dist[i];
        assert dist[..i + 1][..i] == dist[..i] && dist[..i + 1][i] == dist[i];
        SumPrefix(dist, i);
        RaisedPrefix(db.balances, symbol, dist, i);
        if amount == 0 {
          MintCheckStops(info, dist, i);
          return Err(ZeroDistributed), [], 0;
        }
        circulating := circulating + amount;
        if info.maximum.Some? && info.circulating + circulating > info.maximum.value {
          MintCheckStops(info, dist, i);
          return Err(OverMaximum), [], 0;
        }
        var held := GetBalance(who, symbol);
        batch := batch + [BalanceEntry(Holding(who, symbol), held + amount)];
        i := i + 1;
      }
      assert dist[..i] == dist;
      r := Ok(());
    }

    /** A mint, whose batch the store may refuse; nothing is written when it does or the check fails. */
    method MintToken(symbol: Symbol, dist: Distribution) returns (r: Result<()>)
      requires symbol in db.tokens
      modifies this`db
      ensures r == var check := Ops.MintCheck(old(db).tokens[symbol], dist);
                   if check.Ok? && !Ops.InStoreOrder(text, symbol, dist) then Err(BatchRefused) else check
      ensures r.Err? ==> db == old(db)
      ensures r.Ok? ==>
                var info := old(db).tokens[symbol];
                db == old(db).(
                  balances := old(db).balances + MintUpdates(old(db).balances, symbol, dist),
                  tokens := old(db).tokens[symbol := info.(circulating := info.circulating + SumOf(dist),
                                                           total := info.total + SumOf(dist))])
    {
      hide MintUpdates, BalanceEntries, Raised, SumOf, WriteAll, KeysOf, StrictlySorted, Ops.InStoreOrder,
        Ops.MintCheck;
      var info := db.tokens[symbol];
      var check, batch, circulating := MintEntries(symbol, dist, info);
      if check.Err? { return check; }
      info := info.(circulating := info.circulating + circulating, total := info.total + circulating);
      batch := batch + [TokenEntry(symbol, info)];
      MintBatch(text, db, symbol, dist, info);
      var applied := TryBatch(batch);
      r := if applied then check else Err(BatchRefused);
    }

    method Mint(sender: Address, symbol: Symbol, dist: Distribution, memo: Option<Memo>) returns (r: Result<Value>)
      modifies this
      ensures Ops.Done(M(), r) == Ops.Mint(old(M()), sender, symbol, dist, memo)
    {
      hide Apply, LedgerMachine.LogEvent, MintUpdates, SumOf, Ops.MintCheck, Ops.InStoreOrder;
      ghost var s := S();
      if sender != db.alloc.TokenIdentity() { return Err(InvalidSender); }
      if symbol !in committed.symbols || symbol !in db.tokens { return Err(SymbolNotFound); }
      var ok := MintToken(symbol, dist);
      if ok.Err? { return Err(ok.error); }
      LogEvent(MintEvent(symbol, dist, memo));
      MintedWrites(s, sender, symbol, dist, memo);
      history := history + [Minted(sender, symbol, dist, memo)];
      r := Ok(Nothing);
    }

    /** The loop of a burn, likewise. */
    method BurnEntries(symbol: Symbol, dist: Distribution)
      returns (r: Result<()>, batch: seq<Entry>, circulating: nat)
      ensures r == Ops.BurnCheck(db.balances, symbol, dist)
      ensures r.Ok? ==>
                && Covered(db.balances, symbol, dist) && circulating == SumOf(dist)
                && batch == BalanceEntries(symbol, Lowered(db.balances, symbol, dist))
    {
      EmptyDistribution(db.balances, symbol);
      assert Ops.BurnCheck(db.balances, symbol, []).Ok?;
      BurnCheckExact(db.balances, symbol, []);
      hide BalanceEntries, Lowered, SumOf, BalanceOf, Covered, Ops.BurnCheck;
      batch, circulating := [], 0;
      var i := 0;
      while i < |dist|
        invariant 0 <= i <= |dist| && Covered(db.balances, symbol, dist[..i])
        invariant batch == BalanceEntries(symbol, Lowered(db.balances, symbol, dist[..i]))
        invariant circulating == SumOf(dist[..i])
        invariant Ops.BurnCheck(db.balances, symbol, dist[..i]).Ok?
      {
        var (who, amount) := dist[i];
        BurnStep(db.balances, symbol, dist, i);
        if amount == 0 {
          BurnCheckStops(db.balances, symbol, dist, i);
          return Err(ZeroDistributed), [], 0;
        }
        var held := GetBalance(who, symbol);
        if held < amount || who == Anonymous {
          BurnCheckStops(db.balances, symbol, dist, i);
          return Err(MissingFunds), [], 0;
        }
        SumPrefix(dist, i);
        LoweredPrefix(db.balances, symbol, dist, i);
        batch := batch + [BalanceEntry(Holding(who, symbol), held - amount)];
        circulating := circulating + amount;
        i := i + 1;
      }
      assert dist[..i] == dist;
      r := Ok(());
    }

    method BurnToken(symbol: Symbol, dist: Distribution) returns (r: Result<()>)
      requires symbol in db.tokens
      modifies this`db
      ensures var info, sum := old(db).tokens[symbol], SumOf(dist);
              var check := Ops.BurnCheck(old(db).balances, symbol, dist);
              && r == (if check.Err? then check
                       else if info.circulating < sum || info.total < sum then Err(SupplyUnderflow)
                       else if !Ops.InStoreOrder(text, symbol, dist) then Err(BatchRefused) else Ok(()))
              && (r.Err? ==> db == old(db))
              && (r.Ok? ==>
                    db == old(db).(
                      balances := old(db).balances + BurnUpdates(old(db).balances, symbol, dist),
                      tokens := old(db).tokens[symbol := info.(circulating := info.circulating - sum,
                                                               total := info.total - sum)]))
    {
      hide BurnUpdates, BalanceEntries, Lowered, SumOf, WriteAll, KeysOf, StrictlySorted, Ops.InStoreOrder,
        Ops.BurnCheck, Covered;
      var check, batch, circulating := BurnEntries(symbol, dist);
      if check.Err? { return check; }
      var info := db.tokens[symbol];
      if info.circulating < circulating || info.total < circulating { return Err(SupplyUnderflow); }
      info := info.(circulating := info.circulating - circulating, total := info.total - circulating);
      batch := batch + [TokenEntry(symbol, info)];
      BurnBatch(text, db, symbol, dist, info);
      var applied := TryBatch(batch);
      r := if applied then Ok(()) else Err(BatchRefused);
    }

    method Burn(sender: Address, symbol: Symbol, dist: Distribution, memo: Option<Memo>, errorOnUnderBurn: Option<bool>)
      returns (r: Result<Value>)
      modifies this
      ensures Ops.Done(M(), r) == Ops.Burn(old(M()), sender, symbol, dist, memo, errorOnUnderBurn)
    {
      hide Apply, LedgerMachine.LogEvent, BurnUpdates, SumOf, Ops.BurnCheck, Ops.InStoreOrder, BalanceOf;
      ghost var s := S();
      if sender != db.alloc.TokenIdentity() { return Err(InvalidSender); }
      if symbol !in committed.symbols || symbol !in db.tokens { return Err(SymbolNotFound); }
      if errorOnUnderBurn == Some(false) { return Err(PartialBurnDisabled); }
      var ok := BurnToken(symbol, dist);
      if ok.Err? { return Err(ok.error); }
      LogEvent(BurnEvent(symbol, dist, memo));
      BurnedWrites(s, sender, symbol, dist, memo);
      history := history + [Burned(sender, symbol, dist, memo)];
      r := Ok(Nothing);
    }

    // -------------------------------------------------------------- subresources and tokens

    /** The search for the next subresource that is not a symbol. */
    method GetNextSubresource(identity: Address) returns (r: Result<Address>)
      modifies this`db
      ensures match NextSubresource(old(db).alloc, identity, committed.symbols)
              case Err(e) => r == Err(e) && db == old(db)
              case Ok((alloc, address)) => r == Ok(address) && db == old(db).(alloc := alloc)
    {
      var id := db.alloc.Counter(identity);
      if id > MAX_SUBRESOURCE_ID { return Err(SubresourceExhausted); }
      if !Derivable(identity) { return Err(InvalidIdentity); }
      var symbols := committed.symbols;
      AllocatesFree(db.alloc, identity, symbols);
      hide NextSubresource, Free;
      while Derive(identity, id) in symbols
        invariant db == old(db) && id <= MAX_SUBRESOURCE_ID
        invariant Free(identity, symbols, id) == Free(identity, symbols, db.alloc.Counter(identity))
        decreases MAX_SUBRESOURCE_ID - id
      {
        FreeStep(identity, symbols, id);
        id := id + 1;
        if id > MAX_SUBRESOURCE_ID { return Err(SubresourceExhausted); }
      }
      FreeStep(identity, symbols, id);
      ApplyOne(CounterEntry(identity, id + 1, db.alloc.migrated));
      r := Ok(Derive(identity, id));
    }

    /** The balance entries and the supply of a new token. */
    method InitialBatch(symbol: Symbol, dist: Distribution) returns (batch: seq<Entry>, supply: nat)
      ensures batch == BalanceEntries(symbol, dist) && supply == SumOf(dist)
    {
      hide SumOf;
      EmptyDistribution(map[], symbol);
      batch, supply := [], 0;
      var i := 0;
      while i < |dist|
        invariant 0 <= i <= |dist|
        invariant batch == BalanceEntries(symbol, dist[..i])
        invariant supply == SumOf(dist[..i])
      {
        SumPrefix(dist, i);
        batch := batch + [BalanceEntry(Holding(dist[i].0, symbol), dist[i].1)];
        supply := supply + dist[i].1;
        i := i + 1;
      }
      assert dist[..i] == dist;
    }

    method StorageCreateToken(sender: Address, args: TokenCreateArgs) returns (r: Result<Value>)
      requires Valid()
      modifies this
      ensures match NextSubresource(old(db).alloc, old(db).alloc.TokenIdentity(), old(committed).symbols)
              case Err(e) => M() == old(M()) && r == Err(e)
              case Ok((_, symbol)) =>
                && symbol.Subresource? && r == Ok(NewSymbol(symbol))
                && M() == Do(old(M()), TokenCreated(sender, symbol.id, args))
    {
      hide Apply, NextFree, CreateUpdates, SumOf, SortBatch, BalanceEntries, KeysOf, WriteAll, StrictlySorted,
        PrintsInjectively;
      ghost var s := S();
      var found := GetNextSubresource(db.alloc.TokenIdentity());
      if found.Err? { return Err(found.error); }
      var symbol := found.value;
      assert symbol.Subresource? by { AllocationExact(s.db.alloc, s.db.alloc.TokenIdentity(), s.committed.symbols); }
      ApplyOne(TickersEntry(db.tickers[symbol := args.ticker]));
      var dist := args.distribution.GetOr([]);
      var batch, supply := InitialBatch(symbol, dist);
      var info := TokenInfo(args.name, args.ticker, args.decimals, supply, supply, args.maximum,
                            NewOwner(sender, args.owner));
      batch := batch + [TokenEntry(symbol, info), ExtInfoEntry(symbol)];
      LogEvent(TokenCreateEvent(symbol, args));
      CreationApplied(text, db, symbol, dist, info);
      batch := SortBatch(text, batch);
      ApplyBatch(batch);
      TokenCreatedWrites(s, sender, symbol.id, args);
      history := history + [TokenCreated(sender, symbol.id, args)];
      r := Ok(NewSymbol(symbol));
    }

    method CreateToken(sender: Address, args: TokenCreateArgs) returns (r: Result<Value>)
      requires Valid()
      modifies this
      ensures Ops.Done(M(), r) == Ops.CreateToken(old(M()), sender, args)
    {
      hide Apply, NextSubresource, Ops.VerifyTokenAcl;
      if sender != db.alloc.TokenIdentity() { return Err(InvalidSender); }
      if args.owner.Some? && args.owner.value.To? {
        var acl := Ops.VerifyTokenAcl(db, sender, args.owner.value.owner, CanTokensCreate);
        if acl.Err? { return Err(acl.error); }
      }
      if args.ticker in db.tickers.Values { return Err(TickerExists); }
      r := StorageCreateToken(sender, args);
    }

    /** Overwrites the fields of a token record that are given. */
    method UpdateInfo(stored: TokenInfo, args: TokenUpdateArgs) returns (info: TokenInfo)
      ensures info == UpdatedInfo(stored, args)
    {
      info := stored;
      if args.name.Some? { info := info.(name := args.name.value); }
      if args.ticker.Some? { info := info.(ticker := args.ticker.value); }
      if args.decimals.Some? { info := info.(decimals := args.decimals.value); }
      if args.owner.Some? {
        info := info.(owner := if args.owner.value.To? then Some(args.owner.value.owner) else None);
      }
    }

    method StorageUpdateToken(sender: Address, args: TokenUpdateArgs) returns (r: Result<Value>)
      requires args.symbol in db.tokens
      modifies this
      ensures if args.ticker.Some? && args.ticker.value in old(db).tickers.Values
              then M() == old(M()) && r == Err(TickerExists)
              else M() == Do(old(M()), TokenUpdated(sender, args)) && r == Ok(Nothing)
    {
      hide Apply, UpdatedInfo;
      ghost var s := S();
      if args.ticker.Some? {
        if args.ticker.value in db.tickers.Values { return Err(TickerExists); }
        ApplyOne(TickersEntry(db.tickers[args.symbol := args.ticker.value]));
      }
      var info := UpdateInfo(db.tokens[args.symbol], args);
      ApplyOne(TokenEntry(args.symbol, info));
      LogEvent(TokenUpdateEvent(args));
      TokenUpdatedWrites(s, sender, args);
      history := history + [TokenUpdated(sender, args)];
      r := Ok(Nothing);
    }

    method UpdateToken(sender: Address, args: TokenUpdateArgs) returns (r: Result<Value>)
      modifies this
      ensures Ops.Done(M(), r) == Ops.UpdateToken(old(M()), sender, args)
    {
      hide Apply, Ops.VerifyTokenAcl;
      if args.symbol !in db.tokens { return Err(SymbolNotFound); }
      var owner := db.tokens[args.symbol].owner;
      if owner.None? { return Err(TokenImmutable); }
      var acl := Ops.VerifyTokenAcl(db, sender, owner.value, CanTokensUpdate);
      if acl.Err? { return Err(acl.error); }
      if args.symbol !in committed.symbols { return Err(SymbolNotFound); }
      r := StorageUpdateToken(sender, args);
    }

    // -------------------------------------------------------------- accounts

    method CommitAccount(id: Address, account: Account)
      modifies this`db
      ensures S() == PutAccount(old(S()), id, account)
    {
      ApplyOne(AccountEntry(id, account));
    }

    /** The account owns itself and its multisig arguments are filled in. */
    method OwnItself(created: Account, id: Address) returns (account: Account)
      ensures account == Finished(created, id)
    {
      account := created.(roles := AddRole(created.roles, id, Owner));
      ThresholdNeverUnderflows(created.roles, id);
      if account.features.multisig.Some? {
        var arg := account.features.multisig.value;
        if arg.threshold.None? {
          arg := arg.(threshold := Some(|Eligible(account.roles)| - 1));
        }
        arg := arg.(timeout := Some(if arg.timeout.None? then MULTISIG_DEFAULT_TIMEOUT_IN_SECS
                                    else Min(MULTISIG_MAXIMUM_TIMEOUT_IN_SECS, arg.timeout.value)));
        arg := arg.(automatic := Some(arg.automatic.GetOr(MULTISIG_DEFAULT_EXECUTE_AUTOMATICALLY)));
        account := account.(features := account.features.(multisig := Some(arg)));
      }
    }

    method StorageAddAccount(created: Account) returns (r: Result<Value>)
      modifies this
      ensures Ops.Done(M(), r) == Ops.StorageAddAccount(old(M()), created)
    {
      hide Apply, NextFree, Finished;
      ghost var s := S();
      var found := GetNextSubresource(db.alloc.AccountIdentity());
      if found.Err? { return Err(found.error); }
      var id := found.value;
      assert id.Subresource? by { AllocationExact(s.db.alloc, s.db.alloc.AccountIdentity(), s.committed.symbols); }
      var account := OwnItself(created, id);
      LogEvent(AccountCreateEvent(id, account.description, account.roles, account.features));
      CommitAccount(id, account);
      AccountCreatedWrites(s, id.id, account);
      history := history + [AccountCreated(id.id, account)];
      r := Ok(NewAccount(id));
    }

    method AddAccount(creator: Address, args: CreateArgs) returns (r: Result<Value>)
      modifies this
      ensures Ops.Done(M(), r) == Ops.AddAccount(old(M()), creator, args)
    {
      var account := Fresh(creator, args);
      if !ValidRoles(account) { return Err(UnknownRole); }
      r := StorageAddAccount(account);
    }

    /** The enabled account at `target`, if the sender owns it. */
    method OwnedAccount(sender: Address, target: Address) returns (r: Result<Account>)
      ensures r == match EnabledAccount(db, target)
                   case None => Err(UnknownAccount)
                   case Some(account) => if account.HasRole(sender, Owner) then Ok(account) else Err(NeedsRole)
    {
      var account := EnabledAccount(db, target);
      if account.None? { return Err(UnknownAccount); }
      if !account.value.HasRole(sender, Owner) { return Err(NeedsRole); }
      r := Ok(account.value);
    }

    method DisableAccount(sender: Address, target: Address) returns (r: Result<Value>)
      modifies this
      ensures Ops.Done(M(), r) == Ops.StorageChangeAccount(old(M()), sender, target, Disable)
    {
      hide Apply, LedgerMachine.LogEvent, PutAccount;
      ghost var s := S();
      var found := OwnedAccount(sender, target);
      if found.Err? { return Err(found.error); }
      CommitAccount(target, found.value.(disabled := Flag(true)));
      LogEvent(AccountChangeEvent(target, Disable));
      AccountChangedWrites(s, sender, target, Disable);
      history := history + [AccountChanged(sender, target, Disable)];
      r := Ok(Nothing);
    }

    method SetDescription(sender: Address, target: Address, description: string) returns (r: Result<Value>)
      modifies this
      ensures Ops.Done(M(), r) == Ops.StorageChangeAccount(old(M()), sender, target, Describe(description))
    {
      hide Apply, LedgerMachine.LogEvent, PutAccount;
      ghost var s := S();
      var found := OwnedAccount(sender, target);
      if found.Err? { return Err(found.error); }
      LogCommutes(s, AccountChangeEvent(target, Describe(description)), target,
                  found.value.(description := Some(description)));
      LogEvent(AccountChangeEvent(target, Describe(description)));
      CommitAccount(target, found.value.(description := Some(description)));
      AccountChangedWrites(s, sender, target, Describe(description));
      history := history + [AccountChanged(sender, target, Describe(description))];
      r := Ok(Nothing);
    }

    method AddRolesTo(sender: Address, target: Address, added: Roles) returns (r: Result<Value>)
      modifies this
      ensures Ops.Done(M(), r) == Ops.StorageChangeAccount(old(M()), sender, target, AddRoles(added))
    {
      hide Apply, LedgerMachine.LogEvent, PutAccount;
      ghost var s := S();
      var found := OwnedAccount(sender, target);
      if found.Err? { return Err(found.error); }
      var roles := AddEachRole(found.value.roles, added);
      LogCommutes(s, AccountChangeEvent(target, AddRoles(added)), target, found.value.(roles := roles));
      LogEvent(AccountChangeEvent(target, AddRoles(added)));
      CommitAccount(target, found.value.(roles := roles));
      AccountChangedWrites(s, sender, target, AddRoles(added));
      history := history + [AccountChanged(sender, target, AddRoles(added))];
      r := Ok(Nothing);
    }

    method RemoveRolesFrom(sender: Address, target: Address, removed: Roles) returns (r: Result<Value>)
      modifies this
      ensures Ops.Done(M(), r) == Ops.StorageChangeAccount(old(M()), sender, target, RemoveRoles(removed))
    {
      hide Apply, LedgerMachine.LogEvent, PutAccount;
      ghost var s := S();
      var found := OwnedAccount(sender, target);
      if found.Err? { return Err(found.error); }
      if target in removed && Owner in removed[target] { return Err(AccountMustOwnItself); }
      var roles := RemoveEachRole(found.value.roles, removed);
      LogCommutes(s, AccountChangeEvent(target, RemoveRoles(removed)), target, found.value.(roles := roles));
      LogEvent(AccountChangeEvent(target, RemoveRoles(removed)));
      CommitAccount(target, found.value.(roles := roles));
      AccountChangedWrites(s, sender, target, RemoveRoles(removed));
      history := history + [AccountChanged(sender, target, RemoveRoles(removed))];
      r := Ok(Nothing);
    }

    method AddFeaturesTo(sender: Address, target: Address, features: Features, extra: Roles) returns (r: Result<Value>)
      modifies this
      ensures Ops.Done(M(), r) == Ops.StorageChangeAccount(old(M()), sender, target, AddFeatures(features, extra))
    {
      hide Apply, LedgerMachine.LogEvent, PutAccount;
      ghost var s := S();
      var found := OwnedAccount(sender, target);
      if found.Err? { return Err(found.error); }
      var account := found.value;
      if Overlap(account.features, features) { return Err(FeatureExists); }
      var roles := AddEachRole(account.roles, extra);
      account := account.(features := JoinFeatures(account.features, features), roles := roles);
      if !ValidRoles(account) { return Err(UnknownRole); }
      LogCommutes(s, AccountChangeEvent(target, AddFeatures(features, extra)), target, account);
      LogEvent(AccountChangeEvent(target, AddFeatures(features, extra)));
      CommitAccount(target, account);
      AccountChangedWrites(s, sender, target, AddFeatures(features, extra));
      history := history + [AccountChanged(sender, target, AddFeatures(features, extra))];
      r := Ok(Nothing);
    }

    method SetMultisigDefaults(sender: Address, target: Address, threshold: Option<nat>, timeout: Option<nat>,
                               automatic: Option<bool>) returns (r: Result<Value>)
      modifies this
      ensures Ops.Done(M(), r)
              == Ops.StorageChangeAccount(old(M()), sender, target, SetDefaults(threshold, timeout, automatic))
    {
      hide Apply, LedgerMachine.LogEvent, PutAccount;
      ghost var s := S();
      var found := OwnedAccount(sender, target);
      if found.Err? { return Err(found.error); }
      var account := found.value;
      if account.features.multisig.Some? {
        var arg := account.features.multisig.value;
        if threshold.Some? { arg := arg.(threshold := threshold); }
        var clipped := ClipTimeout(timeout);
        if clipped.Some? { arg := arg.(timeout := clipped); }
        if automatic.Some? { arg := arg.(automatic := automatic); }
        LogCommutes(s, AccountChangeEvent(target, SetDefaults(threshold, clipped, automatic)), target,
                    account.(features := account.features.(multisig := Some(arg))));
        LogEvent(AccountChangeEvent(target, SetDefaults(threshold, clipped, automatic)));
        CommitAccount(target, account.(features := account.features.(multisig := Some(arg))));
        AccountChangedWrites(s, sender, target, SetDefaults(threshold, clipped, automatic));
        history := history + [AccountChanged(sender, target, SetDefaults(threshold, clipped, automatic))];
      }
      r := Ok(Nothing);
    }

    method StorageChangeAccount(sender: Address, target: Address, change: AccountChange) returns (r: Result<Value>)
      modifies this
      ensures Ops.Done(M(), r) == Ops.StorageChangeAccount(old(M()), sender, target, change)
    {
      match change
      case Disable => r := DisableAccount(sender, target);
      case Describe(description) => r := SetDescription(sender, target, description);
      case AddRoles(added) => r := AddRolesTo(sender, target, added);
      case RemoveRoles(removed) => r := RemoveRolesFrom(sender, target, removed);
      case AddFeatures(features, extra) => r := AddFeaturesTo(sender, target, features, extra);
      case SetDefaults(threshold, timeout, automatic) =>
        r := SetMultisigDefaults(sender, target, threshold, timeout, automatic);
    }

    // -------------------------------------------------------------- multisig transactions

    method CommitMultisigTransaction(token: nat, tx: Multisig)
      modifies this`db
      ensures S() == PutTx(old(S()), token, tx)
    {
      ApplyOne(TxEntry(token, tx));
    }

    method Override<T>(given: Option<T>, isOwner: bool, default: T) returns (r: Result<T>)
      ensures r == Ops.Overridden(given, isOwner, default)
    {
      if given.None? {
        r := Ok(default);
      } else if isOwner {
        r := Ok(given.value);
      } else {
        r := Err(NeedsRole);
      }
    }

    /** Threshold, timeout and automatic execution of a submission. */
    method TermsOf(arg: SubmitArgs, isOwner: bool, f: MultisigArg) returns (r: Result<(nat, nat, bool)>)
      ensures var threshold := Ops.Overridden(arg.threshold, isOwner, f.threshold.GetOr(MULTISIG_DEFAULT_THRESHOLD));
              var timeout := Ops.Overridden(arg.timeout, isOwner, f.timeout.GetOr(MULTISIG_DEFAULT_TIMEOUT_IN_SECS));
              var automatic := Ops.Overridden(arg.automatic, isOwner,
                                              f.automatic.GetOr(MULTISIG_DEFAULT_EXECUTE_AUTOMATICALLY));
              r == if threshold.Err? || timeout.Err? || automatic.Err? then Err(NeedsRole)
                   else Ok((threshold.value, timeout.value, automatic.value))
    {
      hide Ops.Overridden;
      var threshold := Override(arg.threshold, isOwner, f.threshold.GetOr(MULTISIG_DEFAULT_THRESHOLD));
      if threshold.Err? { return Err(NeedsRole); }
      var timeout := Override(arg.timeout, isOwner, f.timeout.GetOr(MULTISIG_DEFAULT_TIMEOUT_IN_SECS));
      if timeout.Err? { return Err(NeedsRole); }
      var automatic := Override(arg.automatic, isOwner, f.automatic.GetOr(MULTISIG_DEFAULT_EXECUTE_AUTOMATICALLY));
      if automatic.Err? { return Err(NeedsRole); }
      r := Ok((threshold.value, timeout.value, automatic.value));
    }

    method CreateMultisigTransaction(sender: Address, arg: SubmitArgs) returns (r: Result<Value>)
      modifies this
      ensures Ops.Done(M(), r) == Ops.Submit(old(M()), sender, arg)
    {
      TakeIdWrites(S());
      hide Apply, LedgerMachine.LogEvent, PutTx, Ops.Overridden, EnabledAccount;
      ghost var s := S();
      var token := NewEventId();
      history := history + [TakeId];
      var found := EnabledAccount(db, arg.account);
      if found.None? { return Err(UnknownAccount); }
      var account := found.value;
      var isOwner := account.HasRole(sender, Owner);
      if !account.HasAnyRole(sender, {CanMultisigSubmit, Owner}) { return Err(NeedsRole); }
      if account.features.multisig.None? { return Err(FeatureNotFound); }
      var f := account.features.multisig.value;
      var terms := TermsOf(arg, isOwner, f);
      if terms.Err? { return Err(NeedsRole); }
      var (threshold, timeout, automatic) := terms.value;
      var deadline := now + Min(timeout, MULTISIG_MAXIMUM_TIMEOUT_IN_SECS);
      var memo_, data_, memo := arg.memo_, arg.data_, None;
      if memoActive { memo_, data_, memo := None, None, arg.memo; }
      var tx := Multisig(arg.account,
                         TxInfo(memo_, memo, arg.transaction, sender, map[sender := true], threshold, automatic,
                                deadline, data_, Pending),
                         now, false);
      CommitMultisigTransaction(token, tx);
      LogEvent(SubmitEvent(sender, arg.account, memo_, arg.transaction, token, threshold, deadline, automatic,
                           data_, memo));
      SubmittedWrites(s, tx);
      history := old(history) + [Submitted(tx)];
      r := Ok(NewToken(token));
    }

    method DisableMultisigTransaction(token: nat, state: TxState) returns (r: Result<Value>)
      modifies this
      ensures Ops.Done(M(), r) == Ops.DisableTx(old(M()), token, state)
    {
      if token !in db.multisigs { return Err(TransactionNotFound); }
      if db.multisigs[token].disabled { return Err(ExpiredOrWithdrawn); }
      ApplyOne(TxEntry(token, Closed(db.multisigs[token], state)));
      history := history + [Ended(token, state)];
      r := Ok(Nothing);
    }

    method RevokeMultisig(sender: Address, token: nat) returns (r: Result<Value>)
      modifies this
      ensures Ops.Done(M(), r) == Ops.Revoke(old(M()), sender, token)
    {
      var found := Ops.LookUp(db, token);
      if found.Err? { return Err(found.error); }
      var (tx, account) := found.value;
      if sender in tx.info.approvers {
        tx := WithApproval(tx, sender, false);
      } else if Ops.CanApprove(account, sender) {
        tx := WithApproval(tx, sender, false);
      } else {
        return Err(CannotApprove);
      }
      CommitMultisigTransaction(token, tx);
      LogEvent(RevokeEvent(tx.account, token, sender));
      history := history + [Revoked(token, sender)];
      r := Ok(Executed(false));
    }

    method WithdrawMultisig(sender: Address, token: nat) returns (r: Result<Value>)
      modifies this
      ensures Ops.Done(M(), r) == Ops.Withdraw(old(M()), sender, token)
    {
      var found := Ops.LookUp(db, token);
      if found.Err? { return Err(found.error); }
      var (tx, account) := found.value;
      if !Ops.CanExecute(tx, account, sender) { return Err(CannotExecute); }
      var closed := DisableMultisigTransaction(token, Withdrawn);
      LogEvent(WithdrawEvent(tx.account, token, sender));
      history := history + [Logged(WithdrawEvent(tx.account, token, sender))];
      r := Ok(Nothing);
    }

    method RunPayload(depth: nat, token: nat, tx: Multisig) returns (reply: Reply)
      requires Valid()
      modifies this
      ensures match Ops.RunPayload(depth, old(M()), token, tx)
              case Overflow => reply.Crashed?
              case Done(m, r) => M() == m && reply == Reply(r)
      decreases depth, 2
    {
      hide Apply, LedgerMachine.LogEvent, Ops.StorageSend, Ops.AddAccount, Ops.StorageChangeAccount, Ops.Submit,
        Ops.Approve, Ops.Revoke, Ops.Execute, Ops.Withdraw, PrintsInjectively, EnabledAccount;
      var sender, r := tx.account, Err(Unsupported);
      match tx.info.transaction {
        case TransferPayload(None, _, _, _, _) => r := Err(InvalidFrom);
        case TransferPayload(Some(from), to, symbol, amount, memo) =>
          var account := EnabledAccount(db, from);
          if account.None? {
            r := Err(UnknownAccount);
          } else if !account.value.HasAnyRole(sender, {CanLedgerTransact, Owner}) {
            r := Err(NeedsRole);
          } else {
            r := StorageSend(ViaMultisig(token), from, to, symbol, amount, memo);
          }
        case CreateAccountPayload(args) => r := AddAccount(sender, args);
        case ChangeAccountPayload(target, change) => r := StorageChangeAccount(sender, target, change);
        case SubmitPayload(arg) => r := CreateMultisigTransaction(sender, arg);
        case ApprovePayload(t) =>
          var nested := ApproveMultisig(depth, sender, t);
          if nested.Crashed? { return Crashed; }
          r := if nested.r.Ok? then Ok(Nothing) else nested.r;
        case RevokePayload(t) =>
          r := RevokeMultisig(sender, t);
          if r.Ok? { r := Ok(Nothing); }
        case ExecutePayload(t) =>
          var nested := ExecuteMultisig(depth, sender, t);
          if nested.Crashed? { return Crashed; }
          r := if nested.r.Ok? then Ok(Nothing) else nested.r;
        case WithdrawPayload(t) => r := WithdrawMultisig(sender, t);
        case UnsupportedPayload =>
      }
      reply := Reply(r);
    }

    method ExecuteMultisigTransactionInternal(depth: nat, token: nat, tx: Multisig, automatically: bool)
      returns (reply: Reply)
      requires Valid()
      modifies this
      ensures match Ops.ExecuteInternal(depth, old(M()), token, tx, automatically)
              case Overflow => reply.Crashed?
              case Done(m, r) => M() == m && reply == Reply(r)
      decreases depth, 0
    {
      hide Apply, Ops.RunPayload, PrintsInjectively;
      if depth == 0 { return Crashed; }
      StartedWrites(S(), token);
      history := history + [Started(token)];
      var answer := RunPayload(depth - 1, token, tx);
      if answer.Crashed? { return Crashed; }
      var state := if automatically then ExecutedAutomatically else ExecutedManually;
      var closed := DisableMultisigTransaction(token, state);
      if closed.Err? { return Reply(closed); }
      reply := Reply(Ok(Responded(Response(tx.account, answer.r, now))));
    }

    method ApproveMultisig(depth: nat, sender: Address, token: nat) returns (reply: Reply)
      requires Valid()
      modifies this
      ensures match Ops.Approve(depth, old(M()), sender, token)
              case Overflow => reply.Crashed?
              case Done(m, r) => M() == m && reply == Reply(r)
      decreases depth, 1
    {
      hide Apply, Ops.ExecuteInternal, Ops.LookUp, Ops.CanApprove;
      ghost var s := S();
      var found := Ops.LookUp(db, token);
      if found.Err? { return Reply(Err(found.error)); }
      var (tx, account) := found.value;
      if !Ops.CanApprove(account, sender) { return Reply(Err(CannotApprove)); }
      tx := WithApproval(tx, sender, true);
      CommitMultisigTransaction(token, tx);
      LogEvent(ApproveEvent(tx.account, token, sender));
      ApprovedWrites(s, token, sender);
      history := history + [Approved(token, sender)];
      if tx.info.automatic && tx.ShouldExecute() {
        var executed := ExecuteMultisigTransactionInternal(depth, token, tx, true);
        if executed.Crashed? || executed.r.Err? { return executed; }
        var event := ExecuteEvent(tx.account, token, None, executed.r.value);
        LoggedWrites(S(), event);
        LogEvent(event);
        history := history + [Logged(event)];
        return Reply(Ok(Executed(true)));
      }
      reply := Reply(Ok(Executed(false)));
    }

    method ExecuteMultisig(depth: nat, sender: Address, token: nat) returns (reply: Reply)
      requires Valid()
      modifies this
      ensures match Ops.Execute(depth, old(M()), sender, token)
              case Overflow => reply.Crashed?
              case Done(m, r) => M() == m && reply == Reply(r)
      decreases depth, 1
    {
      hide Apply, Ops.ExecuteInternal, Ops.LookUp, Ops.CanExecute;
      var found := Ops.LookUp(db, token);
      if found.Err? { return Reply(Err(found.error)); }
      var (tx, account) := found.value;
      if !Ops.CanExecute(tx, account, sender) || !tx.ShouldExecute() { return Reply(Err(CannotExecute)); }
      var executed := ExecuteMultisigTransactionInternal(depth, token, tx, false);
      if executed.Crashed? || executed.r.Err? { return executed; }
      var event := ExecuteEvent(tx.account, token, Some(sender), executed.r.value);
      LoggedWrites(S(), event);
      LogEvent(event);
      history := history + [Logged(event)];
      reply := executed;
    }

    // -------------------------------------------------------------- blocks

    /** The expiry sweep: a descending scan of the committed transactions with an early exit, whose
        reversed batch is written over the current ones. */
    method CheckTimedOutMultisigTransactions()
      requires TxsSound(S()) && IdsFit(db)
      modifies this`db
      ensures db == Apply(old(S()), ExpirySwept).db
    {
      SweepWrites(S());
      hide Swept, Collected, Apply, TxSound, Closed, Descending, Reversed, PutAll, WriteAll, KeysOf, StrictlySorted,
        TxEntries, Pow256;
      ghost var s := S();
      ghost var target := map t | t in db.multisigs :: Swept(s, t);
      var keys := Descending(committed.txs.Keys);
      CollectStart(db.multisigs, target, false, keys);
      var batch: seq<(nat, Multisig)>, i := [], 0;
      while i < |keys|
        invariant i <= |keys| && db == old(db)
        invariant Collected(db.multisigs, target, false, keys, i, batch)
      {
        var k := keys[i];
        assert k in keys;
        var tx := committed.txs[k];
        SweptExactly(s, k);
        if now >= tx.info.timeout {
          if !tx.disabled {
            CollectPush(db.multisigs, target, false, keys, i, batch);
            batch := batch + [(k, Closed(tx, Expired))];
          } else {
            CollectSkip(db.multisigs, target, false, keys, i, batch);
          }
        } else {
          if tx.creation <= now {
            if now - tx.creation > MULTISIG_MAXIMUM_TIMEOUT_IN_SECS { break; }
          }
          CollectSkip(db.multisigs, target, false, keys, i, batch);
        }
        i := i + 1;
      }
      UnscannedStay(s);
      CollectDone(db.multisigs, target, false, keys, batch);
      EmptyBatch(db.multisigs);
      CollectedFits(db.multisigs, target, false, keys, batch);
      if batch != [] {
        batch := Reversed(batch);
        TxEntriesSorted(text, batch);
        TxEntriesWrite(db, batch);
        ApplyBatch(TxEntries(batch));
      }
    }

    /** Rewrites the submissions in the log, then the stored transactions, each by one ascending
        scan whose batch is applied as collected and committed. */
    method MigrateMemos()
      requires IdsFit(db) && committed == CommittedOf(db)
      modifies this
      ensures M() == Do(old(M()), MemoMigrated) && committed == CommittedOf(db)
    {
      UpdateMultisigSubmitEvents();
      CommitStorage();
      UpdateMultisigStorage();
      CommitStorage();
      memoActive := true;
      history := history + [MemoMigrated];
    }

    method UpdateMultisigSubmitEvents()
      requires IdsFit(db)
      modifies this`db
      ensures db == old(db).(events := map id | id in old(db).events :: MigratedEvent(old(db).events[id]))
    {
      hide Collected, PutAll, Ascending, WriteAll, KeysOf, StrictlySorted, TxEntries, EventEntries, Pow256;
      ghost var target := map id | id in db.events :: MigratedEvent(db.events[id]);
      var keys := Ascending(db.events.Keys);
      CollectStart(db.events, target, true, keys);
      var batch: seq<(nat, EventLog)>, i := [], 0;
      while i < |keys|
        invariant i <= |keys| && db == old(db)
        invariant Collected(db.events, target, true, keys, i, batch)
      {
        var k := keys[i];
        assert k in keys;
        var log := db.events[k];
        if log.content.SubmitEvent? && log.content.newMemo.None?
           && MergedMemo(log.content.memo_, log.content.data_).Some?
        {
          var merged := MergedMemo(log.content.memo_, log.content.data_);
          CollectPush(db.events, target, true, keys, i, batch);
          batch := batch + [(k, log.(content := log.content.(memo_ := None, data_ := None, newMemo := merged)))];
        } else {
          CollectSkip(db.events, target, true, keys, i, batch);
        }
        i := i + 1;
      }
      CollectDone(db.events, target, true, keys, batch);
      CollectedFits(db.events, target, true, keys, batch);
      EventEntriesSorted(text, batch);
      EventEntriesWrite(db, batch);
      ApplyBatch(EventEntries(batch));
    }

    method UpdateMultisigStorage()
      requires IdsFit(db) && committed.txs == db.multisigs
      modifies this`db
      ensures db == old(db).(multisigs := map t | t in old(db).multisigs :: MigratedTx(old(db).multisigs[t]))
    {
      hide Collected, PutAll, Ascending, WriteAll, KeysOf, StrictlySorted, TxEntries, EventEntries, Pow256;
      ghost var target := map t | t in db.multisigs :: MigratedTx(db.multisigs[t]);
      var keys := Ascending(committed.txs.Keys);
      CollectStart(db.multisigs, target, true, keys);
      var batch: seq<(nat, Multisig)>, i := [], 0;
      while i < |keys|
        invariant i <= |keys| && db == old(db)
        invariant Collected(db.multisigs, target, true, keys, i, batch)
      {
        var k := keys[i];
        assert k in keys;
        var tx := committed.txs[k];
        if tx.info.memo.None? && MergedMemo(tx.info.memo_, tx.info.data_).Some? {
          var merged := MergedMemo(tx.info.memo_, tx.info.data_);
          CollectPush(db.multisigs, target, true, keys, i, batch);
          batch := batch + [(k, tx.(info := tx.info.(memo_ := None, data_ := None, memo := merged)))];
        } else {
          CollectSkip(db.multisigs, target, true, keys, i, batch);
        }
        i := i + 1;
      }
      CollectDone(db.multisigs, target, true, keys, batch);
      CollectedFits(db.multisigs, target, true, keys, batch);
      TxEntriesSorted(text, batch);
      TxEntriesWrite(db, batch);
      ApplyBatch(TxEntries(batch));
    }

    method InitialiseCounts()
      modifies this`db, this`history
      ensures M() == Do(old(M()), CountsInitialised)
    {
      var counts := CountBalances(db.balances);
      ApplyOne(CountsEntry(counts));
      history := history + [CountsInitialised];
    }

    // From now on scans find what is stored.
    method CommitStorage()
      modifies this`committed
      ensures committed == CommittedOf(db)
    {
      committed := CommittedOf(db);
    }

    method IncHeight() returns (height: nat)
      modifies this`db
      ensures height == old(db).height && db == old(db).(height := height + 1)
    {
      height := db.height;
      ApplyOne(HeightEntry(height + 1));
    }

    method SetTime(time: nat)
      modifies this`now, this`history
      ensures M() == Do(old(M()), TimeSet(time))
    {
      now := time;
      history := history + [TimeSet(time)];
    }

    /** Ends a block; the migrations that become active with it are given. */
    method Commit(memo: bool, counts: bool)
      requires TxsSound(S()) && IdsFit(db)
      modifies this
      ensures M() == Ops.Commit(old(M()), memo, counts)
    {
      hide Apply, TxsSound, Pow256, PrintsInjectively;
      ghost var m := Do(M(), ExpirySwept);
      SweepFits(S());
      SweepCommits(S());
      CheckTimedOutMultisigTransactions();
      var height := IncHeight();
      CommitStorage();
      history := history + [ExpirySwept];
      assert S() == AtHeight(m.s, height + 1);
      if memo {
        MigratesAtAnyHeight(m.s, height + 1, MemoMigrated);
        MigrateMemos();
        m := Do(m, MemoMigrated);
      }
      if counts {
        MigratesAtAnyHeight(m.s, height + 1, CountsInitialised);
        InitialiseCounts();
        m := Do(m, CountsInitialised);
      }
      CommitStorage();
      NextBlockWrites(m.s);
      latestTid := EventBase(height);
      history := history + [NextBlock];
    }

    // -------------------------------------------------------------- calls

    method CreateAccount(sender: Address, args: CreateArgs) returns (r: Result<Value>)
      modifies this
      ensures Ops.Done(M(), r) == Ops.CreateAccount(old(M()), sender, args)
    {
      if NoFeatures(args.features) { return Err(EmptyFeature); }
      r := AddAccount(sender, args);
    }

    method ChangeAccount(sender: Address, target: Address, change: AccountChange) returns (r: Result<Value>)
      modifies this
      ensures Ops.Done(M(), r) == Ops.ChangeAccount(old(M()), sender, target, change)
    {
      if change.AddFeatures? && NoFeatures(change.features) { return Err(EmptyFeature); }
      r := StorageChangeAccount(sender, target, change);
    }

    /** Every call does to the object what the operations say, so what is proved of their runs
        holds of the object's; in particular its answer and its new state are the outcome of the
        call, and the object is ready for the next one. */
    method Handle(depth: nat, c: Ops.Call) returns (reply: Reply)
      requires Running() && (c.CommitCall? ==> |history| <= U64)
      modifies this
      ensures match Ops.Answer(depth, old(M()), c)
              case Overflow => reply.Crashed?
              case Done(m, r) => M() == m && reply == Reply(r) && Running()
      ensures reply.Reply? ==> Outcomes.CallOutcome(depth, old(S()), c, reply.r, S())
    {
      TxsSoundAlways(start, history);
      EventIds.IdsWithinAlways(start, history);
      if c.CommitCall? { WithinFits(S(), U64 + 2 * |history|); }
      if Ops.Answer(depth, M(), c).Done? {
        AnswerLegal(depth, start, M(), c);
        Executions.CallExact(depth, M(), c);
      }
      hide Outcomes.CallOutcome, Ops.Answer;
      reply := Dispatch(depth, c);
    }

    method Dispatch(depth: nat, c: Ops.Call) returns (reply: Reply)
      requires Valid() && TxsSound(S()) && (c.CommitCall? ==> IdsFit(db))
      modifies this
      ensures match Ops.Answer(depth, old(M()), c)
              case Overflow => reply.Crashed?
              case Done(m, r) => M() == m && reply == Reply(r)
    {
      hide Apply, Ops.Send, Ops.Mint, Ops.Burn, Ops.CreateToken, Ops.UpdateToken, Ops.CreateAccount, Ops.ChangeAccount,
        Ops.Submit, Ops.Revoke, Ops.Withdraw, Ops.Approve, Ops.Execute, Ops.Commit;
      var r: Result<Value> := Ok(Nothing);
      match c {
        case SendCall(sender, from, to, symbol, amount, memo) => r := Send(sender, from, to, symbol, amount, memo);
        case MintCall(sender, symbol, dist, memo) => r := Mint(sender, symbol, dist, memo);
        case BurnCall(sender, symbol, dist, memo, flag) => r := Burn(sender, symbol, dist, memo, flag);
        case CreateTokenCall(sender, args) => r := CreateToken(sender, args);
        case UpdateTokenCall(sender, args) => r := UpdateToken(sender, args);
        case CreateAccountCall(sender, args) => r := CreateAccount(sender, args);
        case ChangeAccountCall(sender, target, change) => r := ChangeAccount(sender, target, change);
        case SubmitCall(sender, arg) => r := CreateMultisigTransaction(sender, arg);
        case RevokeCall(sender, id) => r := RevokeMultisig(sender, id);
        case WithdrawCall(sender, id) => r := WithdrawMultisig(sender, id);
        case BeginBlockCall(time) => if time.Some? { SetTime(time.value); }
        case CommitCall(memo, counts) => Commit(memo, counts);
        case ApproveCall(sender, id) =>
          reply := ApproveMultisig(depth, sender, id);
          return;
        case ExecuteCall(sender, id) =>
          reply := ExecuteMultisig(depth, sender, id);
          return;
      }
      reply := Reply(r);
    }
  }
}
