/** The incremental account counters against a full recount. */
module Counters {
  import opened LedgerTypes
  import opened Allocation
  import opened LedgerMachine
  import opened Operations
  import opened Footprints
  import opened Legality
  import opened Replay
  import opened Supply

  /** The counters, once initialised, are what a recount of the balance entries would give. */
  ghost predicate CountsExact(s: State) {
    s.db.counts.Some? ==> s.db.counts.value == Recount(s.db.balances)
  }

  lemma NonZeroPut(balances: Balances, k: Holding, amount: nat)
    ensures NonZeroHoldings(balances[k := amount])
            == if amount != 0 then NonZeroHoldings(balances) + {k} else NonZeroHoldings(balances) - {k}
  {
  }

  lemma RecountPut(balances: Balances, k: Holding, amount: nat)
    ensures |balances[k := amount]| == |balances| + if k in balances then 0 else 1
    ensures |NonZeroHoldings(balances[k := amount])| + (if Held(balances, k) != 0 then 1 else 0)
            == |NonZeroHoldings(balances)| + if amount != 0 then 1 else 0
  {
    var before := NonZeroHoldings(balances);
    NonZeroPut(balances, k, amount);
    assert k in before <==> Held(balances, k) != 0;
    hide NonZeroHoldings;
    PutSize(balances, k, amount);
    OneMoreElement(before, k);
  }

  lemma PutSize(balances: Balances, k: Holding, amount: nat)
    ensures |balances[k := amount]| == |balances| + if k in balances then 0 else 1
  {
    assert balances[k := amount].Keys == balances.Keys + {k};
    MapSize(balances);
    MapSize(balances[k := amount]);
    OneMoreElement(balances.Keys, k);
  }

  lemma OneMoreElement<T>(s: set<T>, x: T)
    ensures |s + {x}| == |s| + if x in s then 0 else 1
    ensures |s - {x}| == |s| - if x in s then 1 else 0
  {
    if x in s {
      assert s == (s - {x}) + {x};
      assert s + {x} == s;
    } else {
      assert s - {x} == s;
    }
  }

  /** A send takes exact counters to exact counters, and does not go below zero. */
  lemma SendRecounts(balances: Balances, from: Address, to: Address, symbol: Symbol, amount: nat)
    requires from != to && from != Anonymous && to != Anonymous
    requires 0 < amount <= BalanceOf(balances, from, symbol)
    ensures SendCounts(Recount(balances), balances, from, to, symbol, amount)
            == Recount(SendBalances(balances, from, to, symbol, amount))
    ensures !CountsUnderflow(Recount(balances), balances, from, to, symbol, amount)
  {
    var k, k' := Holding(from, symbol), Holding(to, symbol);
    var taken := balances[k := BalanceOf(balances, from, symbol) - amount];
    RecountPut(balances, k, BalanceOf(balances, from, symbol) - amount);
    RecountPut(taken, k', BalanceOf(balances, to, symbol) + amount);
    assert Held(taken, k') == Held(balances, k');
    assert k in NonZeroHoldings(balances);
  }

  // Mint, burn and create do not touch the counters; this is when that does no harm.
  predicate CountNeutral(s: State, e: Effect) {
    match e
    case Minted(_, symbol, dist, _) =>
      forall i :: 0 <= i < |dist| ==> Held(s.db.balances, Holding(dist[i].0, symbol)) > 0
    case Burned(_, symbol, dist, _) =>
      forall i :: 0 <= i < |dist| ==> Held(s.db.balances, Holding(dist[i].0, symbol)) > dist[i].1
    case TokenCreated(_, _, args) => args.distribution.GetOr([]) == []
    case _ => true
  }

  lemma SubsetSame<T>(a: set<T>, b: set<T>)
    requires a <= b
    ensures |a| == |b| <==> a == b
  {
    assert b == a + (b - a);
  }

  lemma MapSize<K, V>(m: map<K, V>)
    ensures |m| == |m.Keys|
  {
  }

  lemma MintRecounts(balances: Balances, symbol: Symbol, dist: Distribution)
    requires NoZero(dist)
    ensures Recount(balances + MintUpdates(balances, symbol, dist)) == Recount(balances)
            <==> forall i :: 0 <= i < |dist| ==> Held(balances, Holding(dist[i].0, symbol)) > 0
  {
    var minted, listed := balances + MintUpdates(balances, symbol, dist), Holdings(symbol, dist);
    MintedHoldings(balances, symbol, dist);
    SubsetSame(balances.Keys, minted.Keys);
    SubsetSame(NonZeroHoldings(balances), NonZeroHoldings(minted));
    MapSize(balances);
    MapSize(minted);
    assert NonZeroHoldings(balances) <= balances.Keys;
    hide MintUpdates;
    forall i | 0 <= i < |dist| ensures Holding(dist[i].0, symbol) in listed {
    }
    assert listed <= NonZeroHoldings(balances) <==>
           forall i :: 0 <= i < |dist| ==> Held(balances, Holding(dist[i].0, symbol)) > 0;
  }

  lemma MintedHoldings(balances: Balances, symbol: Symbol, dist: Distribution)
    requires NoZero(dist)
    ensures var minted, listed := balances + MintUpdates(balances, symbol, dist), Holdings(symbol, dist);
            && minted.Keys == balances.Keys + listed
            && NonZeroHoldings(minted) == NonZeroHoldings(balances) + listed
  {
    var minted, listed := balances + MintUpdates(balances, symbol, dist), Holdings(symbol, dist);
    MintUpdatesAre(balances, symbol, dist);
    hide MintUpdates;
    forall k | k in listed ensures minted[k] > 0 {
      var i :| 0 <= i < |dist| && k == Holding(dist[i].0, symbol);
    }
  }

  lemma BurnRecounts(balances: Balances, symbol: Symbol, dist: Distribution)
    requires NoZero(dist)
    requires Covered(balances, symbol, dist)
    ensures Recount(balances + BurnUpdates(balances, symbol, dist)) == Recount(balances)
            <==> forall i :: 0 <= i < |dist| ==> Held(balances, Holding(dist[i].0, symbol)) > dist[i].1
  {
    var burned, listed := balances + BurnUpdates(balances, symbol, dist), Holdings(symbol, dist);
    BurnedHoldings(balances, symbol, dist);
    MapSize(balances);
    MapSize(burned);
    var before, after := NonZeroHoldings(balances), NonZeroHoldings(burned);
    SubsetSame(after, before);
    hide BurnUpdates, NonZeroHoldings;
    if forall i :: 0 <= i < |dist| ==> Held(balances, Holding(dist[i].0, symbol)) > dist[i].1 {
      forall k | k in before ensures k in after {
        if k in listed { var i :| 0 <= i < |dist| && k == Holding(dist[i].0, symbol); }
      }
    } else {
      var i :| 0 <= i < |dist| && Held(balances, Holding(dist[i].0, symbol)) <= dist[i].1;
      assert Holding(dist[i].0, symbol) in listed;
    }
  }

  // A burn adds no entry and no positive holding, and empties exactly those it takes in full.
  lemma BurnedHoldings(balances: Balances, symbol: Symbol, dist: Distribution)
    requires NoZero(dist)
    requires Covered(balances, symbol, dist)
    ensures var burned, listed := balances + BurnUpdates(balances, symbol, dist), Holdings(symbol, dist);
            var before, after := NonZeroHoldings(balances), NonZeroHoldings(burned);
            && burned.Keys == balances.Keys && listed <= before && after <= before && before - listed <= after
            && forall i :: 0 <= i < |dist| ==>
                 (Holding(dist[i].0, symbol) in after <==> Held(balances, Holding(dist[i].0, symbol)) > dist[i].1)
  {
    var burned, listed := balances + BurnUpdates(balances, symbol, dist), Holdings(symbol, dist);
    BurnUpdatesAre(balances, symbol, dist);
    hide BurnUpdates;
    forall k | k in listed ensures k in balances && balances[k] > 0 {
      var i :| 0 <= i < |dist| && k == Holding(dist[i].0, symbol);
    }
    assert burned.Keys == balances.Keys;
    forall i | 0 <= i < |dist| ensures Holding(dist[i].0, symbol) in listed {
    }
  }

  lemma CreateRecounts(balances: Balances, symbol: Symbol, dist: Distribution)
    requires forall k :: k in balances ==> k.symbol != symbol
    ensures Recount(balances + CreateUpdates(symbol, dist)) == Recount(balances) <==> dist == []
  {
    var created := balances + CreateUpdates(symbol, dist);
    CreateUpdatesAre(symbol, dist);
    assert created.Keys == balances.Keys + Holdings(symbol, dist);
    SubsetSame(balances.Keys, created.Keys);
    MapSize(balances);
    MapSize(created);
    if dist != [] {
      assert Holding(dist[0].0, symbol) in Holdings(symbol, dist);
    } else {
      assert created == balances;
    }
  }

  /** Exact counters stay exact under an effect exactly when the effect is neutral: sends always
      are; a mint is when every listed address already holds some of the symbol; a burn is when
      every listed address keeps some; a creation is when it distributes nothing. */
  lemma CountsStepExact(s: State, e: Effect)
    requires CountsExact(s) && s.db.counts.Some? && Enabled(s, e) && HoldingsRegistered(s)
    ensures CountsExact(Apply(s, e)) <==> CountNeutral(s, e)
    ensures Apply(s, e).db.counts.Some?
  {
    hide Authorised, ActsFor, FreshId, InStoreOrder, SubmissionAllowed, MintUpdates, BurnUpdates, CreateUpdates;
    match e {
      case Sent(_, from, to, symbol, amount, _) => SendRecounts(s.db.balances, from, to, symbol, amount);
      case CountsInitialised =>
      case _ =>
        CountsFrame(s, e);
        if TouchesBalances(e) { UncountedStep(s, e); } else { BalancesFrame(s, e); }
    }
  }

  lemma UncountedStep(s: State, e: Effect)
    requires Enabled(s, e) && HoldingsRegistered(s) && (e.Minted? || e.Burned? || e.TokenCreated?)
    ensures Recount(Apply(s, e).db.balances) == Recount(s.db.balances) <==> CountNeutral(s, e)
  {
    hide Recount, MintUpdates, BurnUpdates, CreateUpdates;
    match e {
      case Minted(_, symbol, dist, _) => MintRecounts(s.db.balances, symbol, dist);
      case Burned(_, symbol, dist, _) => BurnRecounts(s.db.balances, symbol, dist);
      case TokenCreated(creator, id, args) =>
        SymbolIsNew(s, creator, id, args);
        CreateRecounts(s.db.balances, Derive(s.db.alloc.TokenIdentity(), id), args.distribution.GetOr([]));
    }
  }

  /** A concrete mint that is not neutral: it gives a second address its first tokens, and the
      counters still say one. */
  lemma MintMiscounts(text: Address -> Bytes)
    ensures var s, symbol := SmallLedger(PublicKey(2), text), Subresource(1, 0);
            var e := Minted(PublicKey(1), symbol, [(PublicKey(3), 1)], None);
            && CountsExact(s) && Enabled(s, e) && !CountsExact(Apply(s, e))
            && Apply(s, e).db.counts == Some(AccountCounts(1, 1)) && |Apply(s, e).db.balances| == 2
  {
    hide Apply, Recount, MintUpdates, SumOf;
    var s, symbol := SmallLedger(PublicKey(2), text), Subresource(1, 0);
    var dist: Distribution := [(PublicKey(3), 1)];
    var e := Minted(PublicKey(1), symbol, dist, None);
    OneRecounted(Holding(PublicKey(2), symbol), 5);
    OneMinted(s.db.balances, symbol);
    MintedWrites(s, PublicKey(1), symbol, dist, None);
    assert Apply(s, e).db.balances == map[Holding(PublicKey(2), symbol) := 5, Holding(PublicKey(3), symbol) := 1];
    assert Holding(dist[0].0, symbol) !in s.db.balances;
    CountsStepExact(s, e);
  }

  lemma OneRecounted(k: Holding, amount: nat)
    requires amount > 0
    ensures Recount(map[k := amount]) == AccountCounts(1, 1)
  {
    assert NonZeroHoldings(map[k := amount]) == {k};
  }

  lemma OneMinted(balances: Balances, symbol: Symbol)
    requires Holding(PublicKey(3), symbol) !in balances
    ensures var dist: Distribution := [(PublicKey(3), 1)];
            SumOf(dist) == 1 && MintUpdates(balances, symbol, dist) == map[Holding(PublicKey(3), symbol) := 1]
  {
    var dist: Distribution := [(PublicKey(3), 1)];
    assert dist[..0] == [];
  }

  /** From the initialising recount on, over any trace whose mints, burns and creations are
      neutral, the incremental counters equal a full recount. */
  lemma {:induction false} CountsAlwaysExact(g: State, es: seq<Effect>)
    requires HoldingsRegistered(g)
    requires Legal(Apply(g, CountsInitialised), es) && Along(Apply(g, CountsInitialised), es, CountNeutral)
    ensures var s := After(Apply(g, CountsInitialised), es);
            s.db.counts == Some(Recount(s.db.balances))
  {
    CountsFrom(Apply(g, CountsInitialised), es);
  }

  lemma {:induction false} CountsFrom(s: State, es: seq<Effect>)
    requires CountsExact(s) && s.db.counts.Some? && HoldingsRegistered(s)
    requires Legal(s, es) && Along(s, es, CountNeutral)
    ensures CountsExact(After(s, es)) && After(s, es).db.counts.Some? && HoldingsRegistered(After(s, es))
    decreases |es|
  {
    if es != [] {
      CountsFrom(s, es[..|es| - 1]);
      CountsStepExact(After(s, es[..|es| - 1]), es[|es| - 1]);
      HoldingsRegisteredStep(After(s, es[..|es| - 1]), es[|es| - 1]);
    }
  }
}
