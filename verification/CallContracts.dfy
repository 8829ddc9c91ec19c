/** What each call answers and leaves behind, seen from outside: exactly when it is refused,
    what a refusal leaves unchanged, and what an accepted call changes and nothing else. */
module CallContracts {
  import opened LedgerTypes
  import opened Allocation
  import opened AccountRules
  import opened LedgerMachine
  import opened Operations
  import opened Footprints
  import opened Legality
  import opened Outcomes
  import opened Replay
  import opened Registry
  import opened Supply
  import opened Counters
  import opened Termination
  import opened TxHistory
  import opened SelfWithdrawal

  // ---------------------------------------------------------------- moving tokens

  /** Moving tokens succeeds exactly when both addresses may hold some, the source covers the positive
      amount and no counter would fall below zero; it moves the amount, counts, logs it, and touches
      no other balance. */
  lemma MoveExact(m: Machine, authority: Authority, from: Address, to: Address, symbol: Symbol, amount: nat,
                  memo: Option<Memo>)
    ensures var o := StorageSend(m, authority, from, to, symbol, amount, memo);
            && MoveOutcome(m.s, from, to, symbol, amount, memo, o.r, o.m.s)
            && (o.r.Err? ==> o.m == m)
  {
    MoveAccepted(m, authority, from, to, symbol, amount, memo);
    hide Apply, LogsOne, BalanceOf, StorageSend, Miscounted, Shifted, Recounted;
    if StorageSend(m, authority, from, to, symbol, amount, memo).r.Ok? {
      SentIs(m.s, authority, from, to, symbol, amount, memo);
      SendShifts(m.s.db.balances, from, to, symbol, amount);
    }
  }

  lemma MoveAccepted(m: Machine, authority: Authority, from: Address, to: Address, symbol: Symbol, amount: nat,
                     memo: Option<Memo>)
    ensures var o, db := StorageSend(m, authority, from, to, symbol, amount, memo), m.s.db;
            && (o.r.Ok? <==> Movable(db.balances, from, to, symbol, amount)
                             && !Miscounted(db, from, to, symbol, amount))
            && (o.r.Ok? ==> o.r == Ok(Nothing))
            && (o.r.Err? ==> MoveRefused(db, from, to, symbol, amount, o.r.error))
            && o.m == if o.r.Ok? then Do(m, Sent(authority, from, to, symbol, amount, memo)) else m
  {
    hide Do, BalanceOf;
  }

  /** A send moves tokens as above exactly when the source is the sender or gives it owner or
      feature-backed transact role; otherwise it is refused. */
  lemma SendExact(m: Machine, sender: Address, from: Option<Address>, to: Address, symbol: Symbol, amount: nat,
                  memo: Option<Memo>)
    ensures var o := Send(m, sender, from, to, symbol, amount, memo);
            && SendOutcome(m.s, sender, from, to, symbol, amount, memo, o.r, o.m.s)
            && (o.r.Err? ==> o.m == m)
  {
    hide StorageSend, MoveOutcome;
    var source := from.GetOr(sender);
    MoveExact(m, Direct(sender), source, to, symbol, amount, memo);
    hide EnabledAccount;
    var account := EnabledAccount(m.s.db, source);
    if account.Some? { AnyRole(account.value, sender, {CanLedgerTransact}); }
  }

  /** Exact counters are never taken below zero: what is refused so would be accepted by a recount. */
  lemma ExactCountsSend(m: Machine, sender: Address, from: Option<Address>, to: Address, symbol: Symbol, amount: nat,
                        memo: Option<Memo>)
    requires CountsExact(m.s)
    ensures Send(m, sender, from, to, symbol, amount, memo).r != Err(CounterUnderflow)
  {
    var source := from.GetOr(sender);
    SendExact(m, sender, from, to, symbol, amount, memo);
    if Movable(m.s.db.balances, source, to, symbol, amount) {
      SendRecounts(m.s.db.balances, source, to, symbol, amount);
    }
    hide Send, Recount;
  }

  /** So no send is refused for its counters as long as the mints, burns and creations since the
      counters were initialised are neutral. */
  lemma NeutralRunsCount(g: State, es: seq<Effect>, trace: seq<Effect>, sender: Address, from: Option<Address>,
                         to: Address, symbol: Symbol, amount: nat, memo: Option<Memo>)
    requires HoldingsRegistered(g)
    requires Legal(Apply(g, CountsInitialised), es) && Along(Apply(g, CountsInitialised), es, CountNeutral)
    ensures var m := Machine(After(Apply(g, CountsInitialised), es), trace);
            Send(m, sender, from, to, symbol, amount, memo).r != Err(CounterUnderflow)
  {
    CountsAlwaysExact(g, es);
    hide Apply, Send, After, Recount;
    ExactCountsSend(Machine(After(Apply(g, CountsInitialised), es), trace), sender, from, to, symbol, amount, memo);
  }

  // A state of the small ledger's token, at the given balances and counters.
  ghost predicate SmallState(m: Machine, balances: Balances, counts: AccountCounts) {
    var symbol := Subresource(1, 0);
    && m.s.db.balances == balances && m.s.db.counts == Some(counts)
    && m.s.db.alloc.TokenIdentity() == PublicKey(1)
    && Listed(m.s, symbol) && m.s.db.tokens[symbol].maximum.None?
  }

  function MintOne(who: Address): Call { MintCall(PublicKey(1), Subresource(1, 0), [(who, 1)], None) }

  function Pay(from: Address, to: Address, amount: nat): Call {
    SendCall(from, None, to, Subresource(1, 0), amount, None)
  }

  lemma OneInOrder(text: Address -> Bytes, symbol: Symbol, who: Address)
    ensures InStoreOrder(text, symbol, [(who, 1)])
  {
  }

  lemma OneIsMinted(depth: nat, m: Machine, who: Address, balances: Balances, counts: AccountCounts)
    requires SmallState(m, balances, counts) && who != Anonymous
    ensures var o, k := Answer(depth, m, MintOne(who)), Holding(who, Subresource(1, 0));
            o.Done? && SmallState(o.m, balances[k := BalanceOf(balances, who, k.symbol) + 1], counts)
  {
    var symbol, dist: Distribution := Subresource(1, 0), [(who, 1)];
    OneMinting(balances, symbol, who);
    MintCheckExact(m.s.db.tokens[symbol], dist);
    OneInOrder(m.s.text, symbol, who);
    MintedWrites(m.s, PublicKey(1), symbol, dist, None);
    hide Apply, InStoreOrder, SumOf, MintCheck, MintUpdates, BalanceOf;
  }

  lemma OneMinting(balances: Balances, symbol: Symbol, who: Address)
    ensures var k := Holding(who, symbol);
            balances + MintUpdates(balances, symbol, [(who, 1)]) == balances[k := BalanceOf(balances, who, symbol) + 1]
  {
    var k, dist: Distribution := Holding(who, symbol), [(who, 1)];
    assert dist[..0] == [];
    assert MintUpdates(balances, symbol, dist) == map[k := BalanceOf(balances, who, symbol) + 1];
  }

  lemma AllIsPaid(depth: nat, m: Machine, from: Address, to: Address, amount: nat, balances: Balances,
                  counts: AccountCounts)
    requires SmallState(m, balances, counts) && from != to && from.PublicKey? && to.PublicKey?
    requires 0 < amount == BalanceOf(balances, from, Subresource(1, 0))
    requires !Miscounted(m.s.db, from, to, Subresource(1, 0), amount)
    ensures var o := Answer(depth, m, Pay(from, to, amount));
            && o.Done?
            && SmallState(o.m, SendBalances(balances, from, to, Subresource(1, 0), amount),
                          SendCounts(counts, balances, from, to, Subresource(1, 0), amount))
  {
    MoveAccepted(m, Direct(from), from, to, Subresource(1, 0), amount, None);
    SentWrites(m.s, Direct(from), from, to, Subresource(1, 0), amount, None);
    hide Apply, StorageSend, SendBalances, SendCounts, BalanceOf;
  }

  // What the mints leave uncounted.
  function UncountedRun(b: Address, c: Address): seq<Call> {
    [MintOne(b), Pay(PublicKey(2), c, 5), Pay(b, c, 1), MintOne(b)]
  }

  /** A case in which a counter would fall below zero, from a ledger whose counters are exact: two
      mints to an address that held nothing are not counted, and when that address pays all of it
      away for the second time, the counter of positive holdings is at zero already. */
  lemma UncountedMintBlocksSend(depth: nat, text: Address -> Bytes)
    ensures var g, b, c := Machine(SmallLedger(PublicKey(2), text), []), PublicKey(3), PublicKey(4);
            var run := Calls(depth, g, UncountedRun(b, c));
            && CountsExact(g.s) && run.Some?
            && Movable(run.value.s.db.balances, b, c, Subresource(1, 0), 1)
            && Answer(depth, run.value, Pay(b, c, 1)) == Done(run.value, Err(CounterUnderflow))
  {
    var g, symbol := Machine(SmallLedger(PublicKey(2), text), []), Subresource(1, 0);
    var b, c := PublicKey(3), PublicKey(4);
    OneRecounted(Holding(PublicKey(2), symbol), 5);
    UncountedRunEnds(depth, text);
    hide Answer, Calls, Recount, Apply, SmallLedger, UncountedRun;
    var m := Calls(depth, g, UncountedRun(b, c)).value;
    SendExact(m, b, None, c, symbol, 1, None);
    PayIsSend(depth, m, b, c, 1);
  }

  // Balances of the token once its first holder has paid all away.
  function Spread(b: nat, c: nat): Balances {
    var symbol := Subresource(1, 0);
    map[Holding(PublicKey(2), symbol) := 0, Holding(PublicKey(3), symbol) := b, Holding(PublicKey(4), symbol) := c]
  }

  lemma UncountedRunEnds(depth: nat, text: Address -> Bytes)
    ensures var run := Calls(depth, Machine(SmallLedger(PublicKey(2), text), []),
                             UncountedRun(PublicKey(3), PublicKey(4)));
            run.Some? && SmallState(run.value, Spread(1, 6), AccountCounts(2, 0))
  {
    var g, a, b, c := Machine(SmallLedger(PublicKey(2), text), []), PublicKey(2), PublicKey(3), PublicKey(4);
    FirstMint(depth, g, text);
    hide Answer, Calls, SmallLedger, SmallState, MintOne, Pay, Spread;
    var m1 := Answer(depth, g, MintOne(b)).m;
    FirstPayment(depth, m1);
    var m2 := Answer(depth, m1, Pay(a, c, 5)).m;
    SecondPayment(depth, m2);
    var m3 := Answer(depth, m2, Pay(b, c, 1)).m;
    SecondMint(depth, m3);
    var m4 := Answer(depth, m3, MintOne(b)).m;
    FourCalls(depth, g, MintOne(b), m1, Pay(a, c, 5), m2, Pay(b, c, 1), m3, MintOne(b), m4);
  }

  ghost predicate AnswersTo(depth: nat, m: Machine, c: Call, m': Machine) {
    Answer(depth, m, c).Done? && Answer(depth, m, c).m == m'
  }

  lemma FourCalls(depth: nat, m: Machine, c1: Call, m1: Machine, c2: Call, m2: Machine, c3: Call, m3: Machine, c4: Call,
                  m4: Machine)
    requires AnswersTo(depth, m, c1, m1) && AnswersTo(depth, m1, c2, m2)
    requires AnswersTo(depth, m2, c3, m3) && AnswersTo(depth, m3, c4, m4)
    ensures Calls(depth, m, [c1, c2, c3, c4]) == Some(m4)
  {
    assert Calls(depth, m, []) == Some(m);
    hide Answer, Calls;
    NextCall(depth, m, [], c1, m, m1);
    assert [] + [c1] == [c1];
    NextCall(depth, m, [c1], c2, m1, m2);
    assert [c1] + [c2] == [c1, c2];
    NextCall(depth, m, [c1, c2], c3, m2, m3);
    assert [c1, c2] + [c3] == [c1, c2, c3];
    NextCall(depth, m, [c1, c2, c3], c4, m3, m4);
    assert [c1, c2, c3] + [c4] == [c1, c2, c3, c4];
  }

  lemma FirstMint(depth: nat, m: Machine, text: Address -> Bytes)
    requires m.s == SmallLedger(PublicKey(2), text)
    ensures var o, symbol := Answer(depth, m, MintOne(PublicKey(3))), Subresource(1, 0);
            o.Done? && SmallState(o.m, map[Holding(PublicKey(2), symbol) := 5, Holding(PublicKey(3), symbol) := 1],
                                  AccountCounts(1, 1))
  {
    hide Answer;
    OneIsMinted(depth, m, PublicKey(3), map[Holding(PublicKey(2), Subresource(1, 0)) := 5], AccountCounts(1, 1));
  }

  lemma FirstPayment(depth: nat, m: Machine)
    requires var symbol := Subresource(1, 0);
             SmallState(m, map[Holding(PublicKey(2), symbol) := 5, Holding(PublicKey(3), symbol) := 1],
                        AccountCounts(1, 1))
    ensures var o := Answer(depth, m, Pay(PublicKey(2), PublicKey(4), 5));
            o.Done? && SmallState(o.m, Spread(1, 5), AccountCounts(2, 1))
  {
    var symbol := Subresource(1, 0);
    var balances := map[Holding(PublicKey(2), symbol) := 5, Holding(PublicKey(3), symbol) := 1];
    AllIsPaid(depth, m, PublicKey(2), PublicKey(4), 5, balances, AccountCounts(1, 1));
    hide SmallState, Answer;
    assert SendBalances(balances, PublicKey(2), PublicKey(4), symbol, 5) == Spread(1, 5);
  }

  lemma SecondPayment(depth: nat, m: Machine)
    requires SmallState(m, Spread(1, 5), AccountCounts(2, 1))
    ensures var o := Answer(depth, m, Pay(PublicKey(3), PublicKey(4), 1));
            o.Done? && SmallState(o.m, Spread(0, 6), AccountCounts(2, 0))
  {
    AllIsPaid(depth, m, PublicKey(3), PublicKey(4), 1, Spread(1, 5), AccountCounts(2, 1));
    hide SmallState, Answer;
    assert SendBalances(Spread(1, 5), PublicKey(3), PublicKey(4), Subresource(1, 0), 1) == Spread(0, 6);
  }

  lemma SecondMint(depth: nat, m: Machine)
    requires SmallState(m, Spread(0, 6), AccountCounts(2, 0))
    ensures var o := Answer(depth, m, MintOne(PublicKey(3)));
            o.Done? && SmallState(o.m, Spread(1, 6), AccountCounts(2, 0))
  {
    OneIsMinted(depth, m, PublicKey(3), Spread(0, 6), AccountCounts(2, 0));
    hide SmallState, Answer;
    assert Spread(0, 6)[Holding(PublicKey(3), Subresource(1, 0)) := 1] == Spread(1, 6);
  }

  lemma PayIsSend(depth: nat, m: Machine, from: Address, to: Address, amount: nat)
    ensures Answer(depth, m, Pay(from, to, amount)) == Send(m, from, None, to, Subresource(1, 0), amount, None)
  {
    hide Send;
  }

  lemma NextCall(depth: nat, m: Machine, calls: seq<Call>, c: Call, before: Machine, after: Machine)
    requires Calls(depth, m, calls) == Some(before) && AnswersTo(depth, before, c, after)
    ensures Calls(depth, m, calls + [c]) == Some(after)
  {
    hide Answer;
    assert (calls + [c])[..|calls|] == calls;
  }

  lemma SentIs(s: State, authority: Authority, from: Address, to: Address, symbol: Symbol, amount: nat,
               memo: Option<Memo>)
    requires Movable(s.db.balances, from, to, symbol, amount) && !Miscounted(s.db, from, to, symbol, amount)
    ensures var s' := Apply(s, Sent(authority, from, to, symbol, amount, memo));
            && s'.db.balances == SendBalances(s.db.balances, from, to, symbol, amount)
            && Recounted(s.db.counts, s'.db.counts, s.db.balances, from, to, symbol, amount)
            && LogsOne(s, s', s.db.(balances := s'.db.balances, counts := s'.db.counts),
                       SendEvent(from, to, symbol, amount, memo))
  {
    SentWrites(s, authority, from, to, symbol, amount, memo);
    if s.db.counts.Some? { SendCountsAre(s.db, from, to, symbol, amount); }
    hide Apply, SendBalances, SendCounts, BalanceOf, Miscounted, Movable;
  }

  lemma SendCountsAre(db: Store, from: Address, to: Address, symbol: Symbol, amount: nat)
    requires Movable(db.balances, from, to, symbol, amount) && !Miscounted(db, from, to, symbol, amount)
    requires db.counts.Some?
    ensures Recounted(db.counts, Some(SendCounts(db.counts.value, db.balances, from, to, symbol, amount)), db.balances,
                      from, to, symbol, amount)
  {
  }

  lemma SendShifts(balances: Balances, from: Address, to: Address, symbol: Symbol, amount: nat)
    requires Movable(balances, from, to, symbol, amount)
    ensures Shifted(balances, SendBalances(balances, from, to, symbol, amount), from, to, symbol, amount)
  {
    assert Holding(from, symbol) in balances;
  }

  // ---------------------------------------------------------------- minting and burning

  lemma {:induction false} MintRefusals(info: TokenInfo, dist: Distribution)
    requires MintCheck(info, dist).Err?
    ensures match MintCheck(info, dist).error
            case ZeroDistributed => !AllPositive(dist)
            case OverMaximum => dist != [] && info.maximum.Some? && info.circulating + SumOf(dist) > info.maximum.value
            case _ => false
    decreases |dist|
  {
    var front := dist[..|dist| - 1];
    if MintCheck(info, front).Err? {
      MintRefusals(info, front);
      assert forall i :: 0 <= i < |front| ==> front[i] == dist[i];
    }
  }

  lemma {:induction false} BurnRefusals(balances: Balances, symbol: Symbol, dist: Distribution)
    requires BurnCheck(balances, symbol, dist).Err?
    ensures match BurnCheck(balances, symbol, dist).error
            case ZeroDistributed => !AllPositive(dist)
            case MissingFunds => !Covered(balances, symbol, dist)
            case _ => false
    decreases |dist|
  {
    hide BalanceOf;
    var front := dist[..|dist| - 1];
    if BurnCheck(balances, symbol, front).Err? {
      BurnRefusals(balances, symbol, front);
      assert forall i :: 0 <= i < |front| ==> front[i] == dist[i];
    }
  }

  lemma ListedIs(symbol: Symbol, dist: Distribution, k: Holding)
    ensures k in Holdings(symbol, dist) <==> k.symbol == symbol && IsListed(dist, k.owner)
  {
    if k.symbol == symbol && IsListed(dist, k.owner) {
      var i :| 0 <= i < |dist| && dist[i].0 == k.owner;
      assert Holding(dist[i].0, symbol) in Holdings(symbol, dist);
    }
  }

  // What writing entries for the listed addresses leaves of the others.
  lemma OthersAreKept(balances: Balances, updates: Balances, symbol: Symbol, dist: Distribution)
    requires updates.Keys == Holdings(symbol, dist)
    ensures OthersKept(balances, balances + updates, symbol, dist)
    ensures forall i :: 0 <= i < |dist| ==>
              Holding(dist[i].0, symbol) in updates
              && (balances + updates)[Holding(dist[i].0, symbol)] == updates[Holding(dist[i].0, symbol)]
  {
    forall k ensures k in updates <==> k.symbol == symbol && IsListed(dist, k.owner) {
      ListedIs(symbol, dist, k);
    }
    forall i | 0 <= i < |dist| ensures Holding(dist[i].0, symbol) in updates {
      ListedIs(symbol, dist, Holding(dist[i].0, symbol));
    }
    hide IsListed, Holdings;
  }

  /** A mint succeeds for the token identity exactly when the symbol is listed, every amount is
      positive, the printed addresses come in order and the maximum is kept; every listed address
      then holds its amount more, both supplies grow by the sum, and the rest stays. */
  lemma MintExact(m: Machine, sender: Address, symbol: Symbol, dist: Distribution, memo: Option<Memo>)
    ensures var o := Mint(m, sender, symbol, dist, memo);
            && MintOutcome(m.s, sender, symbol, dist, memo, o.r, o.m.s)
            && (o.r.Err? ==> o.m == m)
  {
    MintAccepted(m, sender, symbol, dist, memo);
    hide Apply, Mint, LogsOne, SumOf, InStoreOrder, OthersKept, BalanceOf, AllPositive;
    if Mint(m, sender, symbol, dist, memo).r.Ok? { MintedIs(m.s, sender, symbol, dist, memo); }
  }

  lemma MintAccepted(m: Machine, sender: Address, symbol: Symbol, dist: Distribution, memo: Option<Memo>)
    ensures var o, db := Mint(m, sender, symbol, dist, memo), m.s.db;
            && o.m == (if o.r.Ok? then Do(m, Minted(sender, symbol, dist, memo)) else m)
            && (o.r.Ok? ==>
                  && o.r == Ok(Nothing) && sender == db.alloc.TokenIdentity()
                  && symbol in db.tokens && symbol in m.s.committed.symbols
                  && AllPositive(dist) && InStoreOrder(m.s.text, symbol, dist)
                  && var info := db.tokens[symbol];
                  (info.maximum == None || dist == [] || info.circulating + SumOf(dist) <= info.maximum.value))
            && (o.r.Err? ==>
                  match o.r.error
                  case InvalidSender => sender != db.alloc.TokenIdentity()
                  case SymbolNotFound => symbol !in db.tokens || symbol !in m.s.committed.symbols
                  case ZeroDistributed => !AllPositive(dist)
                  case OverMaximum =>
                    && symbol in db.tokens && db.tokens[symbol].maximum.Some? && dist != []
                    && db.tokens[symbol].circulating + SumOf(dist) > db.tokens[symbol].maximum.value
                  case BatchRefused => !InStoreOrder(m.s.text, symbol, dist)
                  case _ => false)
  {
    hide Do, MintCheck, SumOf, InStoreOrder;
    if symbol in m.s.db.tokens {
      MintCheckExact(m.s.db.tokens[symbol], dist);
      if MintCheck(m.s.db.tokens[symbol], dist).Err? { MintRefusals(m.s.db.tokens[symbol], dist); }
    }
  }

  lemma MintedIs(s: State, minter: Address, symbol: Symbol, dist: Distribution, memo: Option<Memo>)
    requires symbol in s.db.tokens
    ensures var s', info := Apply(s, Minted(minter, symbol, dist, memo)), s.db.tokens[symbol];
            && (forall i :: 0 <= i < |dist| ==>
                  Holding(dist[i].0, symbol) in s'.db.balances
                  && s'.db.balances[Holding(dist[i].0, symbol)]
                     == BalanceOf(s.db.balances, dist[i].0, symbol) + dist[i].1)
            && OthersKept(s.db.balances, s'.db.balances, symbol, dist)
            && LogsOne(s, s', s.db.(balances := s'.db.balances, tokens := s.db.tokens[symbol :=
                         TokenInfo(info.name, info.ticker, info.decimals, info.total + SumOf(dist),
                                   info.circulating + SumOf(dist), info.maximum, info.owner)]),
                       MintEvent(symbol, dist, memo))
  {
    hide Apply, MintUpdates, SumOf, BalanceOf, OthersKept, Holdings, LogsOne;
    MintLogged(s, minter, symbol, dist, memo);
    MintUpdatesAre(s.db.balances, symbol, dist);
    OthersAreKept(s.db.balances, MintUpdates(s.db.balances, symbol, dist), symbol, dist);
  }

  lemma MintLogged(s: State, minter: Address, symbol: Symbol, dist: Distribution, memo: Option<Memo>)
    requires symbol in s.db.tokens
    ensures var s', info := Apply(s, Minted(minter, symbol, dist, memo)), s.db.tokens[symbol];
            && s'.db.balances == s.db.balances + MintUpdates(s.db.balances, symbol, dist)
            && LogsOne(s, s', s.db.(balances := s'.db.balances, tokens := s.db.tokens[symbol :=
                         TokenInfo(info.name, info.ticker, info.decimals, info.total + SumOf(dist),
                                   info.circulating + SumOf(dist), info.maximum, info.owner)]),
                       MintEvent(symbol, dist, memo))
  {
    hide Apply, MintUpdates, SumOf;
    MintedWrites(s, minter, symbol, dist, memo);
  }

  /** A burn likewise, exactly when every listed address covers its amount and the supplies cover the
      sum; partial burns are refused. */
  lemma BurnExact(m: Machine, sender: Address, symbol: Symbol, dist: Distribution, memo: Option<Memo>,
                  flag: Option<bool>)
    ensures var o := Burn(m, sender, symbol, dist, memo, flag);
            && BurnOutcome(m.s, sender, symbol, dist, memo, flag, o.r, o.m.s)
            && (o.r.Err? ==> o.m == m)
  {
    BurnAccepted(m, sender, symbol, dist, memo, flag);
    hide Apply, Burn, LogsOne, SumOf, InStoreOrder, OthersKept, BalanceOf, AllPositive, Covered;
    if Burn(m, sender, symbol, dist, memo, flag).r.Ok? { BurnedIs(m.s, sender, symbol, dist, memo); }
  }

  lemma BurnAccepted(m: Machine, sender: Address, symbol: Symbol, dist: Distribution, memo: Option<Memo>,
                     flag: Option<bool>)
    ensures var o := Burn(m, sender, symbol, dist, memo, flag);
            && o.m == (if o.r.Ok? then Do(m, Burned(sender, symbol, dist, memo)) else m)
            && (o.r.Ok? ==>
                  && o.r == Ok(Nothing) && sender == m.s.db.alloc.TokenIdentity() && flag != Some(false)
                  && symbol in m.s.db.tokens && symbol in m.s.committed.symbols
                  && AllPositive(dist) && InStoreOrder(m.s.text, symbol, dist) && Covered(m.s.db.balances, symbol, dist)
                  && SumOf(dist) <= m.s.db.tokens[symbol].circulating && SumOf(dist) <= m.s.db.tokens[symbol].total)
            && (o.r.Err? ==>
                  match o.r.error
                  case InvalidSender => sender != m.s.db.alloc.TokenIdentity()
                  case SymbolNotFound => symbol !in m.s.db.tokens || symbol !in m.s.committed.symbols
                  case PartialBurnDisabled => flag == Some(false)
                  case ZeroDistributed => !AllPositive(dist)
                  case MissingFunds => !Covered(m.s.db.balances, symbol, dist)
                  case SupplyUnderflow =>
                    && symbol in m.s.db.tokens
                    && (SumOf(dist) > m.s.db.tokens[symbol].circulating || SumOf(dist) > m.s.db.tokens[symbol].total)
                  case BatchRefused => !InStoreOrder(m.s.text, symbol, dist)
                  case _ => false)
  {
    BurnCheckExact(m.s.db.balances, symbol, dist);
    if BurnCheck(m.s.db.balances, symbol, dist).Err? { BurnRefusals(m.s.db.balances, symbol, dist); }
    hide Do, BurnCheck, SumOf, InStoreOrder, Covered, BalanceOf;
  }

  lemma BurnedIs(s: State, burner: Address, symbol: Symbol, dist: Distribution, memo: Option<Memo>)
    requires symbol in s.db.tokens && Covered(s.db.balances, symbol, dist)
    requires SumOf(dist) <= s.db.tokens[symbol].circulating && SumOf(dist) <= s.db.tokens[symbol].total
    ensures var s', info := Apply(s, Burned(burner, symbol, dist, memo)), s.db.tokens[symbol];
            && (forall i :: 0 <= i < |dist| ==>
                  && dist[i].0 != Anonymous && Holding(dist[i].0, symbol) in s'.db.balances
                  && s'.db.balances[Holding(dist[i].0, symbol)] + dist[i].1
                     == BalanceOf(s.db.balances, dist[i].0, symbol))
            && OthersKept(s.db.balances, s'.db.balances, symbol, dist)
            && LogsOne(s, s', s.db.(balances := s'.db.balances, tokens := s.db.tokens[symbol :=
                         TokenInfo(info.name, info.ticker, info.decimals, info.total - SumOf(dist),
                                   info.circulating - SumOf(dist), info.maximum, info.owner)]),
                       BurnEvent(symbol, dist, memo))
  {
    hide Apply, BurnUpdates, SumOf, BalanceOf, OthersKept, Holdings, LogsOne;
    BurnLogged(s, burner, symbol, dist, memo);
    BurnUpdatesAre(s.db.balances, symbol, dist);
    OthersAreKept(s.db.balances, BurnUpdates(s.db.balances, symbol, dist), symbol, dist);
  }

  lemma BurnLogged(s: State, burner: Address, symbol: Symbol, dist: Distribution, memo: Option<Memo>)
    requires symbol in s.db.tokens
    requires SumOf(dist) <= s.db.tokens[symbol].circulating && SumOf(dist) <= s.db.tokens[symbol].total
    ensures var s', info := Apply(s, Burned(burner, symbol, dist, memo)), s.db.tokens[symbol];
            && s'.db.balances == s.db.balances + BurnUpdates(s.db.balances, symbol, dist)
            && LogsOne(s, s', s.db.(balances := s'.db.balances, tokens := s.db.tokens[symbol :=
                         TokenInfo(info.name, info.ticker, info.decimals, info.total - SumOf(dist),
                                   info.circulating - SumOf(dist), info.maximum, info.owner)]),
                       BurnEvent(symbol, dist, memo))
  {
    hide Apply, BurnUpdates, SumOf;
    BurnedWrites(s, burner, symbol, dist, memo);
  }

  // ---------------------------------------------------------------- tokens

  // An allocation takes the first free identifier, and fails only if there is none.
  lemma AllocationMeans(al: Allocator, identity: Address, symbols: set<Symbol>)
    ensures match NextSubresource(al, identity, symbols)
            case Ok((al', id)) =>
              && id.Subresource? && FirstFree(al, identity, symbols, id.id) && id == Subresource(identity.hash, id.id)
              && id == Derive(identity, id.id) && al' == al.WithCounter(identity, id.id + 1)
            case Err(SubresourceExhausted) => NoneFree(al, identity, symbols)
            case Err(InvalidIdentity) => NotDerivable(al, identity)
            case Err(_) => false
  {
    hide NextFree;
    if Derivable(identity) && al.Counter(identity) <= 0x7FFF_FFFF {
      var found := NextFree(identity, symbols, al.Counter(identity));
      forall k: nat | al.Counter(identity) <= k < found.GetOr(0x8000_0000)
        ensures Subresource(identity.hash, k) in symbols
      {
        assert Derive(identity, k) in symbols;
      }
    }
  }

  lemma AclRefusals(db: Store, sender: Address, owner: Address, role: Role)
    ensures var r := VerifyTokenAcl(db, sender, owner, role);
            r.Ok? || r == Err(Unauthorized) || r == Err(NeedsRole)
  {
  }

  /** A token is created exactly when the token identity asks, may act for the owner it names,
      the ticker is free and an identifier is left; it gets the first one, starts with the listed
      balances and their sum as both supplies, and was not stored before although the scan does not
      find the symbols of this block. */
  lemma CreateTokenExact(m: Machine, sender: Address, args: TokenCreateArgs)
    ensures var o := CreateToken(m, sender, args);
            && CreateTokenOutcome(m.s, sender, args, o.r, o.m.s)
            && (o.r.Err? ==> o.m == m)
            && (o.r.Ok? && SymbolsPast(m.s) ==> o.r.value.symbol !in m.s.db.tokens)
  {
    hide Apply, NextFree, NextSubresource, VerifyTokenAcl, ActsFor, SumOf, CreateUpdates, LogsOne, OthersKept,
      FirstFree;
    var al, symbols := m.s.db.alloc, m.s.committed.symbols;
    AllocationMeans(al, al.TokenIdentity(), symbols);
    if args.owner.Some? && args.owner.value.To? {
      TokenAclMeans(m.s.db, sender, args.owner.value.owner, CanTokensCreate);
      AclRefusals(m.s.db, sender, args.owner.value.owner, CanTokensCreate);
    }
    var o := CreateToken(m, sender, args);
    if o.r.Ok? {
      FirstIsNew(m.s, o.r.value.symbol.id);
      NewTokenIs(m.s, sender, o.r.value.symbol.id, args);
    }
  }

  lemma FirstIsNew(s: State, id: nat)
    requires FirstFree(s.db.alloc, s.db.alloc.TokenIdentity(), s.committed.symbols, id)
    ensures Derivable(s.db.alloc.TokenIdentity())
    ensures SymbolsPast(s) ==> Derive(s.db.alloc.TokenIdentity(), id) !in s.db.tokens
  {
  }

  lemma NewTokenIs(s: State, creator: Address, id: nat, args: TokenCreateArgs)
    requires Derivable(s.db.alloc.TokenIdentity())
    ensures var db, identity, s' := s.db, s.db.alloc.TokenIdentity(), Apply(s, TokenCreated(creator, id, args));
            var symbol, dist := Derive(identity, id), args.distribution.GetOr([]);
            && (forall i :: 0 <= i < |dist| ==>
                  Holding(dist[i].0, symbol) in s'.db.balances
                  && s'.db.balances[Holding(dist[i].0, symbol)] == dist[i].1)
            && OthersKept(db.balances, s'.db.balances, symbol, dist)
            && LogsOne(s, s', db.(balances := s'.db.balances, tickers := db.tickers[symbol := args.ticker],
                                  alloc := db.alloc.WithCounter(identity, id + 1),
                                  tokens := db.tokens[symbol :=
                                    TokenInfo(args.name, args.ticker, args.decimals, SumOf(dist), SumOf(dist),
                                              args.maximum, match args.owner
                                                            case Some(To(owner)) => Some(owner)
                                                            case Some(Nobody) => None
                                                            case None => Some(creator))]),
                       TokenCreateEvent(symbol, args))
  {
    var symbol, dist := Derive(s.db.alloc.TokenIdentity(), id), args.distribution.GetOr([]);
    TokenCreatedWrites(s, creator, id, args);
    CreateUpdatesAre(symbol, dist);
    OthersAreKept(s.db.balances, CreateUpdates(symbol, dist), symbol, dist);
    hide Apply, SumOf, CreateUpdates, OthersKept, Holdings;
  }

  /** A token is updated exactly when it was not created in this block, it has an owner the sender may
      act for and the new ticker, if any, is not taken, not even by the token itself; supplies and
      maximum stay. */
  lemma UpdateTokenExact(m: Machine, sender: Address, args: TokenUpdateArgs)
    ensures var o := UpdateToken(m, sender, args);
            && UpdateTokenOutcome(m.s, sender, args, o.r, o.m.s)
            && (o.r.Err? ==> o.m == m)
  {
    hide Apply, VerifyTokenAcl, ActsFor, EnabledAccount;
    if args.symbol in m.s.db.tokens && m.s.db.tokens[args.symbol].owner.Some? {
      TokenAclMeans(m.s.db, sender, m.s.db.tokens[args.symbol].owner.value, CanTokensUpdate);
      AclRefusals(m.s.db, sender, m.s.db.tokens[args.symbol].owner.value, CanTokensUpdate);
    }
    hide LogsOne, Overwritten;
    if UpdateToken(m, sender, args).r.Ok? { UpdatedIs(m.s, sender, args); }
  }

  lemma UpdatedIs(s: State, updater: Address, args: TokenUpdateArgs)
    requires args.symbol in s.db.tokens
    ensures var s', symbol := Apply(s, TokenUpdated(updater, args)), args.symbol;
            && symbol in s'.db.tokens && Overwritten(s.db.tokens[symbol], args, s'.db.tokens[symbol])
            && LogsOne(s, s', s.db.(tokens := s.db.tokens[symbol := s'.db.tokens[symbol]],
                                    tickers := if args.ticker.Some? then s.db.tickers[symbol := args.ticker.value]
                                               else s.db.tickers),
                       TokenUpdateEvent(args))
  {
    hide Apply;
    TokenUpdatedWrites(s, updater, args);
  }

  /** A case in which the ticker is taken: a token cannot be given the ticker it has. */
  lemma OwnTickerRefused(m: Machine, sender: Address, args: TokenUpdateArgs)
    requires TickersAgree(m.s) && args.symbol in m.s.db.tokens
    requires args.ticker == Some(m.s.db.tokens[args.symbol].ticker)
    ensures UpdateToken(m, sender, args).r.Err? && UpdateToken(m, sender, args).m == m
  {
    assert m.s.db.tickers[args.symbol] in m.s.db.tickers.Values;
    UpdateTokenExact(m, sender, args);
    hide UpdateToken;
  }

  // ---------------------------------------------------------------- accounts

  lemma RolesFitExact(account: Account)
    ensures ValidRoles(account) <==>
            RolesFit(account.roles, account.features.multisig.Some?, account.features.ledger, account.features.tokens)
  {
    forall role: Role
      ensures role in AllowedRoles(account.features) <==>
              RoleFits(role, account.features.multisig.Some?, account.features.ledger, account.features.tokens)
    {
    }
    hide AllowedRoles, RoleFits;
    if !ValidRoles(account) {
      var a :| a in account.roles && !(account.roles[a] <= AllowedRoles(account.features));
      var role :| role in account.roles[a] && role !in AllowedRoles(account.features);
    }
  }

  lemma FreshRolesFit(creator: Address, args: CreateArgs)
    ensures ValidRoles(Fresh(creator, args)) <==>
            RolesFit(args.roles, args.features.multisig.Some?, args.features.ledger, args.features.tokens)
  {
    RolesFitExact(Fresh(creator, args));
    hide ValidRoles;
    var roles := Fresh(creator, args).roles;
    assert forall who, role :: Holds(roles, who, role) <==>
                               Holds(args.roles, who, role) || (who == creator && role == Owner);
    if RolesFit(roles, args.features.multisig.Some?, args.features.ledger, args.features.tokens) {
      forall who, role | who in args.roles && role in args.roles[who]
        ensures RoleFits(role, args.features.multisig.Some?, args.features.ledger, args.features.tokens)
      {
        assert Holds(roles, who, role);
      }
    } else {
      var who, role :| who in roles && role in roles[who]
                       && !RoleFits(role, args.features.multisig.Some?, args.features.ledger, args.features.tokens);
      assert Holds(roles, who, role);
    }
  }

  /** The record stored for an account: it owns itself, and its multisig arguments are those asked
      for, or the defaults. */
  lemma FinishedIs(account: Account, id: Address)
    requires account.disabled == Unset
    ensures AccountStored(account.description, account.roles, account.features, {id}, id, Finished(account, id))
  {
    hide FeaturesStored, AddRole;
    FinishedFeatures(account, id);
    OneOwnerMore(account.roles, id);
    assert Finished(account, id).roles == AddRole(account.roles, id, Owner);
  }

  lemma FinishedFeatures(account: Account, id: Address)
    ensures var f := Finished(account, id); FeaturesStored(account.features, f.features, f.roles, id)
  {
    if account.features.multisig.Some? { FinishedThreshold(account, id); }
    VotersApart(Finished(account, id).roles, id);
    hide Eligible, MayVote;
  }

  lemma VotersApart(roles: Roles, id: Address)
    ensures Eligible(roles) - {id} == set who | who in roles && who != id && MayVote(roles, who)
  {
  }

  lemma OneOwnerMore(roles: Roles, who: Address)
    ensures AddRole(roles, who, Owner).Keys == roles.Keys + {who}
    ensures forall a, role :: Holds(AddRole(roles, who, Owner), a, role) <==>
                              Holds(roles, a, role) || (role == Owner && a == who)
  {
  }

  lemma NewAccountIs(creator: Address, args: CreateArgs, id: Address)
    ensures AccountStored(args.description, args.roles, args.features, {creator, id}, id,
                          Finished(Fresh(creator, args), id))
  {
    FinishedIs(Fresh(creator, args), id);
    OneOwnerMore(args.roles, creator);
    hide Finished, FeaturesStored, AddRole;
  }

  /** An account is created, by a call or by a payload, exactly when its roles belong to its features
      and an identifier is left; it gets the first one, the owners added are the creator and itself,
      and its features are those asked for with the multisig arguments filled in. */
  lemma CreateAccountExact(m: Machine, creator: Address, args: CreateArgs)
    ensures var o := AddAccount(m, creator, args);
            && CreateAccountOutcome(m.s, creator, args, o.r, o.m.s)
            && (o.r.Err? ==> o.m == m)
  {
    hide Apply, NextFree, NextSubresource, ValidRoles, Fresh, Finished, RolesFit, AccountStored, FirstFree, LogsOne;
    var al, symbols := m.s.db.alloc, m.s.committed.symbols;
    AllocationMeans(al, al.AccountIdentity(), symbols);
    FreshRolesFit(creator, args);
    var o := AddAccount(m, creator, args);
    if o.r.Ok? {
      var id := o.r.value.id;
      NewAccountIs(creator, args, id);
      NewAccountStored(m.s, id.id, Finished(Fresh(creator, args), id));
    }
  }

  lemma NewAccountStored(s: State, id: nat, account: Account)
    requires FirstFree(s.db.alloc, s.db.alloc.AccountIdentity(), s.committed.symbols, id)
    ensures var identity, s' := s.db.alloc.AccountIdentity(), Apply(s, AccountCreated(id, account));
            var address := Subresource(identity.hash, id);
            && address in s'.db.accounts && s'.db.accounts[address] == account
            && LogsOne(s, s', s.db.(alloc := s.db.alloc.WithCounter(identity, id + 1),
                                    accounts := s.db.accounts[address := account]),
                       AccountCreateEvent(address, account.description, account.roles, account.features))
  {
    AccountCreatedWrites(s, id, account);
    hide Apply;
  }

  lemma RolesAreAdded(roles: Roles, added: Roles)
    ensures RolesAdded(roles, added, AddAllRoles(roles, added))
  {
  }

  lemma ChangeIs(account: Account, change: AccountChange)
    requires change.SetDefaults? ==> account.features.multisig.Some?
    ensures ChangedTo(account, change, ApplyChange(account, Told(change)))
  {
    match change {
      case AddRoles(added) => RolesAreAdded(account.roles, added);
      case AddFeatures(f, extra) => RolesAreAdded(account.roles, extra);
      case _ =>
    }
    hide AddAllRoles, RolesAdded;
  }

  lemma AdditionExact(account: Account, f: Features, extra: Roles)
    ensures AddsFeatureAgain(account.features, f) <==> Overlap(account.features, f)
    ensures AdditionFits(account, f, extra) <==> ValidRoles(ApplyChange(account, AddFeatures(f, extra)))
  {
    RolesFitExact(ApplyChange(account, AddFeatures(f, extra)));
    RolesAreAdded(account.roles, extra);
    hide AddAllRoles, ValidRoles, RoleFits, RolesFit;
    UnionFits(account.roles, extra, AddAllRoles(account.roles, extra),
              account.features.multisig.Some? || f.multisig.Some?, account.features.ledger || f.ledger,
              account.features.tokens || f.tokens);
  }

  lemma UnionFits(a: Roles, b: Roles, both: Roles, multisig: bool, ledger: bool, tokens: bool)
    requires RolesAdded(a, b, both)
    ensures RolesFit(both, multisig, ledger, tokens) <==>
            RolesFit(a, multisig, ledger, tokens) && RolesFit(b, multisig, ledger, tokens)
  {
    hide RoleFits;
    assert forall who, role :: Holds(both, who, role) <==> Holds(a, who, role) || Holds(b, who, role);
    if RolesFit(both, multisig, ledger, tokens) {
      forall who, role | who in a && role in a[who] ensures RoleFits(role, multisig, ledger, tokens) {
        assert Holds(a, who, role) && Holds(both, who, role);
      }
      forall who, role | who in b && role in b[who] ensures RoleFits(role, multisig, ledger, tokens) {
        assert Holds(b, who, role) && Holds(both, who, role);
      }
    } else {
      var who, role :| who in both && role in both[who] && !RoleFits(role, multisig, ledger, tokens);
      assert Holds(both, who, role);
    }
  }

  /** A change, by a call or by a payload, is accepted exactly when an owner asks for it on an enabled
      account and it neither takes the account's own ownership nor adds a feature or role it may not.
      One record changes, into what the change says: a disabled one is no longer enabled, a timeout
      is cut at the maximum, and what is not named stays. */
  lemma ChangeAccountExact(m: Machine, sender: Address, target: Address, change: AccountChange)
    ensures var o := StorageChangeAccount(m, sender, target, change);
            && ChangeAccountOutcome(m.s, sender, target, change, o.r, o.m.s)
            && (o.r.Err? ==> o.m == m)
  {
    hide Apply, ValidRoles, ApplyChange, AdditionFits, AddsFeatureAgain, Overlap, ChangedTo, LogsOne;
    var found := EnabledAccount(m.s.db, target);
    if found.Some? {
      if change.AddFeatures? { AdditionExact(found.value, change.features, change.extra); }
      if change.SetDefaults? ==> found.value.features.multisig.Some? {
        ChangeIs(found.value, change);
        ChangeStored(m.s, sender, target, Told(change));
      }
    }
  }

  lemma ChangeStored(s: State, changer: Address, target: Address, change: AccountChange)
    requires target in s.db.accounts
    ensures var s' := Apply(s, AccountChanged(changer, target, change));
            && target in s'.db.accounts && s'.db.accounts[target] == ApplyChange(s.db.accounts[target], change)
            && LogsOne(s, s', s.db.(accounts := s.db.accounts[target := s'.db.accounts[target]]),
                       AccountChangeEvent(target, change))
  {
    AccountChangedWrites(s, changer, target, change);
    hide Apply, ApplyChange;
  }

  // ---------------------------------------------------------------- submitting, revoking, withdrawing

  /** A submission, by a call or by a payload, is accepted exactly when the sender owns or may submit
      to the enabled account, the account has the multisig feature, and only an owner overrides its
      defaults; what is stored and logged is what was asked for, its memo included. Whatever happens
      one identifier is spent, and nothing else when it is refused. */
  lemma SubmitExact(m: Machine, sender: Address, arg: SubmitArgs)
    ensures var o := Submit(m, sender, arg); SubmitOutcome(m.s, sender, arg, o.r, o.m.s)
  {
    SubmitAccepted(m, sender, arg);
    if Submit(m, sender, arg).r.Ok? { SubmitStores(m, sender, arg); }
    hide Submit, LogsOne, EnabledAccount, Timeout;
  }

  lemma SubmitAccepted(m: Machine, sender: Address, arg: SubmitArgs)
    ensures var o, account := Submit(m, sender, arg), EnabledAccount(m.s.db, arg.account);
            && (o.r.Ok? <==>
                  && account.Some? && account.value.features.multisig.Some?
                  && (account.value.HasRole(sender, Owner)
                      || (account.value.HasRole(sender, CanMultisigSubmit)
                          && arg.threshold.None? && arg.timeout.None? && arg.automatic.None?)))
            && (o.r.Err? ==>
                  && o.m.s == m.s.(latestTid := m.s.latestTid + 1)
                  && (match o.r.error
                      case UnknownAccount => account.None?
                      case FeatureNotFound =>
                        && account.Some? && account.value.features.multisig.None?
                        && (account.value.HasRole(sender, Owner) || account.value.HasRole(sender, CanMultisigSubmit))
                      case NeedsRole =>
                        && account.Some? && !account.value.HasRole(sender, Owner)
                        && (|| !account.value.HasRole(sender, CanMultisigSubmit)
                            || (&& account.value.features.multisig.Some?
                                && (arg.threshold.Some? || arg.timeout.Some? || arg.automatic.Some?)))
                      case _ => false))
  {
    if EnabledAccount(m.s.db, arg.account).Some? {
      AnyRole(EnabledAccount(m.s.db, arg.account).value, sender, {CanMultisigSubmit, Owner});
    }
    TakeIdWrites(m.s);
    hide Apply, EnabledAccount, NewTx;
  }

  lemma SubmitStores(m: Machine, sender: Address, arg: SubmitArgs)
    requires Submit(m, sender, arg).r.Ok?
    ensures EnabledAccount(m.s.db, arg.account).Some?
            && EnabledAccount(m.s.db, arg.account).value.features.multisig.Some?
    ensures var o, token, s := Submit(m, sender, arg), m.s.latestTid + 1, m.s;
            && o.r.value == NewToken(token) && token in o.m.s.db.multisigs
            && var tx := o.m.s.db.multisigs[token];
            var f := EnabledAccount(s.db, arg.account).value.features.multisig.value;
            && tx.account == arg.account && tx.creation == s.now && !tx.disabled
            && tx.info.transaction == arg.transaction && tx.info.submitter == sender
            && tx.info.approvers == map[sender := true]
            && tx.info.threshold == arg.threshold.GetOr(f.threshold.GetOr(1))
            && tx.info.timeout == s.now + Timeout(Some(arg.timeout.GetOr(f.timeout.GetOr(86400))))
            && tx.info.automatic == arg.automatic.GetOr(f.automatic.GetOr(false))
            && tx.info.state == Pending
            && tx.info.memo_ == (if s.memoActive then None else arg.memo_)
            && tx.info.data_ == (if s.memoActive then None else arg.data_)
            && tx.info.memo == (if s.memoActive then arg.memo else None)
            && LogsOne(s.(latestTid := token), o.m.s, s.db.(multisigs := s.db.multisigs[token := tx]),
                       SubmitEvent(sender, arg.account, tx.info.memo_, arg.transaction, token, tx.info.threshold,
                                   tx.info.timeout, tx.info.automatic, tx.info.data_, tx.info.memo))
  {
    hide Apply, LogsOne, EnabledAccount;
    SubmittedIs(m.s, Submit(m, sender, arg).m.trace[|m.trace|].tx);
  }

  lemma SubmittedIs(s: State, tx: Multisig)
    ensures var token, s' := s.latestTid + 1, Apply(s, Submitted(tx));
            && s'.db.multisigs == s.db.multisigs[token := tx]
            && LogsOne(s.(latestTid := token), s', s.db.(multisigs := s.db.multisigs[token := tx]),
                       SubmitEvent(tx.info.submitter, tx.account, tx.info.memo_, tx.info.transaction, token,
                                   tx.info.threshold, tx.info.timeout, tx.info.automatic, tx.info.data_, tx.info.memo))
  {
    SubmittedWrites(s, tx);
    hide Apply;
  }

  // A lookup fails for the reason it gives.
  lemma LookUpMeans(db: Store, token: nat)
    ensures LookUp(db, token).Ok? <==> Open(db, token)
    ensures Open(db, token) ==>
              && db.multisigs[token].account in db.accounts
              && LookUp(db, token).value == (db.multisigs[token], db.accounts[db.multisigs[token].account])
    ensures LookUp(db, token).Err? ==> NotOpen(db, token, LookUp(db, token).error)
  {
  }

  lemma VotesMean(account: Account, who: Address)
    ensures CanApprove(account, who) <==> MayVote(account.roles, who)
    ensures MayApprove(RolesOf(account.roles, who)) <==> MayVote(account.roles, who)
  {
  }

  /** Revoking, by a call or by a payload, is open to whoever may approve, and to whoever is listed
      already, even if the role is gone since; it takes the sender off the approvers and changes
      nothing else. */
  lemma RevokeExact(m: Machine, sender: Address, token: nat)
    ensures var o := Revoke(m, sender, token);
            && RevokeOutcome(m.s, sender, token, o.r, o.m.s)
            && (o.r.Err? ==> o.m == m)
            && (o.r.Ok? ==>
                  && Open(m.s.db, token) && token in o.m.s.db.multisigs
                  && Voters(o.m.s.db.multisigs[token]) == Voters(m.s.db.multisigs[token]) - {sender})
  {
    LookUpMeans(m.s.db, token);
    if Open(m.s.db, token) {
      VotesMean(LookUp(m.s.db, token).value.1, sender);
      RevokedIs(m.s, token, sender);
    }
    hide Apply, CanApprove, MayVote, Open, LogsOne;
  }

  lemma RevokedIs(s: State, token: nat, who: Address)
    requires token in s.db.multisigs
    ensures var s', tx := Apply(s, Revoked(token, who)), s.db.multisigs[token];
            && LogsOne(s, s', s.db.(multisigs := s.db.multisigs[token := Voted(tx, who, false)]),
                       RevokeEvent(tx.account, token, who))
            && token in s'.db.multisigs && s'.db.multisigs[token] == Voted(tx, who, false)
            && Voters(Voted(tx, who, false)) == Voters(tx) - {who}
  {
  }

  /** A case in which the role is gone: whoever is listed and holds no role any more cannot approve,
      yet revokes. */
  lemma FormerApproverRevokes(depth: nat, m: Machine, sender: Address, token: nat)
    requires Open(m.s.db, token) && sender in m.s.db.multisigs[token].info.approvers
    requires sender !in m.s.db.accounts[m.s.db.multisigs[token].account].roles
    ensures Approve(depth, m, sender, token) == Done(m, Err(CannotApprove))
    ensures Revoke(m, sender, token).r.Ok?
            && sender !in Revoke(m, sender, token).m.s.db.multisigs[token].Approvals()
  {
    RevokeExact(m, sender, token);
    hide Apply, Revoke;
  }

  /** Only an owner or the submitter withdraws, by a call or by a payload, and the transaction is
      closed as withdrawn. */
  lemma WithdrawExact(m: Machine, sender: Address, token: nat)
    ensures var o := Withdraw(m, sender, token);
            && WithdrawOutcome(m.s, sender, token, o.r, o.m.s)
            && (o.r.Err? ==> o.m == m)
  {
    LookUpMeans(m.s.db, token);
    var o := Withdraw(m, sender, token);
    if o.r.Ok? {
      var tx, m1 := m.s.db.multisigs[token], DisableTx(m, token, Withdrawn).m;
      assert m1.s == PutTx(m.s, token, ClosedAs(tx, Withdrawn));
      LoggedWrites(m1.s, WithdrawEvent(tx.account, token, sender));
      hide Apply;
    }
  }

  // ---------------------------------------------------------------- approving and executing

  predicate Executable(db: Store, token: nat, sender: Address) {
    && Open(db, token)
    && var tx := db.multisigs[token];
    && (sender == tx.info.submitter || db.accounts[tx.account].HasRole(sender, Owner))
    && |tx.Approvals()| >= tx.info.threshold
  }

  /** Execution on request: refused without any change unless an owner or the submitter asks for
      an open transaction with a quorum; otherwise the payload starts and the transaction ends
      closed: as withdrawn, with an error, exactly when its chain of executions ends in its own
      withdrawal, else as executed manually, with a logged answer. */
  lemma ExecuteExact(depth: nat, m: Machine, sender: Address, token: nat)
    requires Execute(depth, m, sender, token).Done?
    ensures var o := Execute(depth, m, sender, token);
            if !Executable(m.s.db, token, sender) then o.r.Err? && o.m == m
            else
              && IsClosed(o.m.s, token)
              && (o.r.Ok? <==> !Withdraws(Frame(m.s, token), token, {}))
              && (o.r.Err? ==> o.r == Err(ExpiredOrWithdrawn) && o.m.s.db.multisigs[token].info.state == Withdrawn)
              && (o.r.Ok? ==>
                    && o.m.s.db.multisigs[token].info.state == ExecutedManually
                    && o.m.trace[|o.m.trace| - 1]
                       == Logged(ExecuteEvent(m.s.db.multisigs[token].account, token, Some(sender), o.r.value)))
  {
    hide Apply, ExecuteInternal, Withdraws;
    if Executable(m.s.db, token, sender) {
      ExecutionOutcome(depth, m, token, false);
      var o := ExecuteInternal(depth, m, token, m.s.db.multisigs[token], false);
      if o.r.Ok? {
        LoggedWrites(o.m.s, ExecuteEvent(m.s.db.multisigs[token].account, token, Some(sender), o.r.value));
      }
    }
  }

  /** Approving: refused without any change unless the sender may approve the open transaction.
      The approval counts at once; it executes the transaction exactly when it is automatic and
      the approvals, this one included, reach the threshold, and that execution fails exactly when
      its chain, started in the state with the approval, ends in its own withdrawal. */
  lemma ApproveExact(depth: nat, m: Machine, sender: Address, token: nat)
    requires Approve(depth, m, sender, token).Done?
    ensures var o, db := Approve(depth, m, sender, token), m.s.db;
            if !(Open(db, token) && MayApprove(RolesOf(db.accounts[db.multisigs[token].account].roles, sender)))
            then o.r.Err? && o.m == m
            else
              var tx := db.multisigs[token];
              if !(tx.info.automatic && |tx.Approvals() + {sender}| >= tx.info.threshold)
              then
                && o.r == Ok(Executed(false)) && token in o.m.s.db.multisigs
                && var tx' := o.m.s.db.multisigs[token];
                && tx' == tx.(info := tx.info.(approvers := tx.info.approvers[sender := true]))
                && tx'.Approvals() == tx.Approvals() + {sender}
                && LogsOne(m.s, o.m.s, db.(multisigs := db.multisigs[token := tx']),
                           ApproveEvent(tx.account, token, sender))
              else
                && IsClosed(o.m.s, token)
                && (o.r.Ok? <==> !Withdraws(Frame(Apply(m.s, Approved(token, sender)), token), token, {}))
                && (o.r.Err? ==> o.r == Err(ExpiredOrWithdrawn) && o.m.s.db.multisigs[token].info.state == Withdrawn)
                && (o.r.Ok? ==> o.r == Ok(Executed(true))
                                && o.m.s.db.multisigs[token].info.state == ExecutedAutomatically)
  {
    hide Apply, ExecuteInternal, Withdraws;
    var db := m.s.db;
    if Open(db, token) && MayApprove(RolesOf(db.accounts[db.multisigs[token].account].roles, sender)) {
      var tx, m1 := db.multisigs[token], Do(m, Approved(token, sender));
      var tx1 := WithApproval(tx, sender, true);
      assert tx1.Approvals() == tx.Approvals() + {sender};
      ApprovedWrites(m.s, token, sender);
      if tx1.info.automatic && tx1.ShouldExecute() {
        ExecutionOutcome(depth, m1, token, true);
        var o := ExecuteInternal(depth, m1, token, tx1, true);
        if o.r.Ok? { LoggedWrites(o.m.s, ExecuteEvent(tx.account, token, None, o.r.value)); }
      }
    }
  }

  /** Revoking takes back an approval that executed nothing: the approvers are those before it
      without the sender, and only the log and the record of that transaction differ. */
  lemma RevokeUndoesApproval(depth: nat, m: Machine, sender: Address, token: nat)
    requires Approve(depth, m, sender, token).Done?
    requires Approve(depth, m, sender, token).r == Ok(Executed(false))
    ensures var m1 := Approve(depth, m, sender, token).m;
            var o := Revoke(m1, sender, token);
            && o.r.Ok? && token in m.s.db.multisigs && token in o.m.s.db.multisigs
            && o.m.s.db.multisigs[token].Approvals() == m.s.db.multisigs[token].Approvals() - {sender}
            && o.m.s.db == m.s.db.(multisigs := m.s.db.multisigs[token := o.m.s.db.multisigs[token]],
                                   events := o.m.s.db.events, eventCount := m.s.db.eventCount + 2)
  {
    hide Approve, Revoke, Apply, MayVote;
    ApproveExact(depth, m, sender, token);
    RevokeExact(Approve(depth, m, sender, token).m, sender, token);
  }
}
