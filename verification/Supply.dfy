/** Conservation: the balances of a symbol always add up to its recorded supply. */
module Supply {
  import opened LedgerTypes
  import opened Allocation
  import opened LedgerMachine
  import opened Operations
  import opened Footprints
  import opened Legality
  import opened Replay
  import opened Keys

  // ---------------------------------------------------------------- sums

  function Share(k: Holding, amount: nat, symbol: Symbol): nat {
    if k.symbol == symbol then amount else 0
  }

  /** The sum of all balances of a symbol. */
  ghost function Total(balances: Balances, symbol: Symbol): nat
    decreases |balances|
  {
    if balances == map[] then 0
    else
      var k :| k in balances;
      Share(k, balances[k], symbol) + Total(balances - {k}, symbol)
  }

  lemma {:induction false} TotalWithout(balances: Balances, symbol: Symbol, k: Holding)
    requires k in balances
    ensures Total(balances, symbol) == Share(k, balances[k], symbol) + Total(balances - {k}, symbol)
    decreases |balances|
  {
    var picked :| picked in balances
      && Total(balances, symbol) == Share(picked, balances[picked], symbol) + Total(balances - {picked}, symbol);
    if picked != k {
      TotalWithout(balances - {picked}, symbol, k);
      TotalWithout(balances - {k}, symbol, picked);
      assert balances - {picked} - {k} == balances - {k} - {picked};
    }
  }

  lemma TotalPut(balances: Balances, symbol: Symbol, k: Holding, amount: nat)
    ensures Total(balances[k := amount], symbol) + Share(k, Held(balances, k), symbol)
            == Total(balances, symbol) + Share(k, amount, symbol)
  {
    var changed := balances[k := amount];
    TotalWithout(changed, symbol, k);
    if k in balances {
      TotalWithout(balances, symbol, k);
      assert changed - {k} == balances - {k};
    } else {
      assert changed - {k} == balances;
    }
  }

  lemma {:induction false} TotalOfNothing(balances: Balances, symbol: Symbol)
    requires forall k :: k in balances ==> k.symbol != symbol
    ensures Total(balances, symbol) == 0
    decreases |balances|
  {
    if balances != map[] {
      var k :| k in balances;
      TotalWithout(balances, symbol, k);
      TotalOfNothing(balances - {k}, symbol);
    }
  }

  // What a mint forgets: the anonymous holding, when the distribution lists that address.
  function Forgotten(balances: Balances, symbol: Symbol, dist: Distribution): nat {
    if dist == [] then 0
    else if dist[|dist| - 1].0 == Anonymous then Held(balances, Holding(Anonymous, symbol))
    else Forgotten(balances, symbol, dist[..|dist| - 1])
  }

  lemma {:induction false} ForgottenMeans(balances: Balances, symbol: Symbol, dist: Distribution)
    ensures Forgotten(balances, symbol, dist) == 0 <==> MintSafe(balances, symbol, dist)
    decreases |dist|
  {
    if dist != [] {
      var front := dist[..|dist| - 1];
      ForgottenMeans(balances, symbol, front);
      assert forall i :: 0 <= i < |front| ==> dist[i] == front[i];
      if dist[|dist| - 1].0 != Anonymous {
        assert MintSafe(balances, symbol, dist) <==> MintSafe(balances, symbol, front);
      }
    }
  }

  lemma OthersAbsent(updates: Balances, symbol: Symbol, dist: Distribution)
    requires dist != [] && updates.Keys == Holdings(symbol, dist[..|dist| - 1])
    ensures Holding(dist[|dist| - 1].0, symbol) !in updates
  {
    assert forall i :: 0 <= i < |dist| - 1 ==> dist[..|dist| - 1][i] == dist[i];
  }

  lemma {:induction false} NoForgottenBefore(balances: Balances, symbol: Symbol, dist: Distribution, who: Address)
    requires forall i :: 0 <= i < |dist| ==> dist[i].0 != who
    ensures who == Anonymous ==> Forgotten(balances, symbol, dist) == 0
    decreases |dist|
  {
    if dist != [] { NoForgottenBefore(balances, symbol, dist[..|dist| - 1], who); }
  }

  // What the last entry of a mint adds.
  lemma LastMinted(balances: Balances, symbol: Symbol, dist: Distribution)
    requires dist != []
    ensures var front, k := dist[..|dist| - 1], Holding(dist[|dist| - 1].0, symbol);
            var before, value := balances + MintUpdates(balances, symbol, front),
                                 BalanceOf(balances, k.owner, symbol) + dist[|dist| - 1].1;
            && balances + MintUpdates(balances, symbol, dist) == before[k := value]
            && Held(before, k) == Held(balances, k)
            && SumOf(dist) == SumOf(front) + dist[|dist| - 1].1
            && Forgotten(balances, symbol, dist)
               == Forgotten(balances, symbol, front) + if k.owner == Anonymous then Held(balances, k) else 0
  {
    var front, who := dist[..|dist| - 1], dist[|dist| - 1].0;
    MintUpdatesAre(balances, symbol, front);
    OthersAbsent(MintUpdates(balances, symbol, front), symbol, dist);
    NoForgottenBefore(balances, symbol, front, who);
  }

  lemma LastMintedTotal(balances: Balances, symbol: Symbol, dist: Distribution, other: Symbol)
    requires dist != []
    ensures var front, k := dist[..|dist| - 1], Holding(dist[|dist| - 1].0, symbol);
            Total(balances + MintUpdates(balances, symbol, dist), other) + Share(k, Held(balances, k), other)
            == Total(balances + MintUpdates(balances, symbol, front), other)
               + Share(k, BalanceOf(balances, k.owner, symbol) + dist[|dist| - 1].1, other)
  {
    hide MintUpdates, SumOf, Forgotten, Total, Held, BalanceOf, Share;
    var front, k := dist[..|dist| - 1], Holding(dist[|dist| - 1].0, symbol);
    LastMinted(balances, symbol, dist);
    TotalPut(balances + MintUpdates(balances, symbol, front), other, k,
             BalanceOf(balances, k.owner, symbol) + dist[|dist| - 1].1);
  }

  lemma NothingMinted(balances: Balances, symbol: Symbol)
    ensures balances + MintUpdates(balances, symbol, []) == balances
    ensures SumOf([]) == 0 && Forgotten(balances, symbol, []) == 0
  {
  }

  /** A mint adds the whole distribution to the sum of its symbol, less what it forgets, and
      leaves every other symbol alone. */
  lemma {:induction false} MintTotal(balances: Balances, symbol: Symbol, dist: Distribution, other: Symbol)
    ensures Total(balances + MintUpdates(balances, symbol, dist), other)
            + (if other == symbol then Forgotten(balances, symbol, dist) else 0)
            == Total(balances, other) + (if other == symbol then SumOf(dist) else 0)
    decreases |dist|
  {
    if dist == [] {
      NothingMinted(balances, symbol);
    } else {
      hide MintUpdates, SumOf, Forgotten, Total, Held;
      MintTotal(balances, symbol, dist[..|dist| - 1], other);
      LastMinted(balances, symbol, dist);
      LastMintedTotal(balances, symbol, dist, other);
    }
  }

  lemma LastBurned(balances: Balances, symbol: Symbol, dist: Distribution)
    requires dist != []
    requires Covered(balances, symbol, dist)
    ensures var front, k := dist[..|dist| - 1], Holding(dist[|dist| - 1].0, symbol);
            var before, value := balances + BurnUpdates(balances, symbol, front),
                                 BalanceOf(balances, k.owner, symbol) - dist[|dist| - 1].1;
            && balances + BurnUpdates(balances, symbol, dist) == before[k := value]
            && Held(before, k) == Held(balances, k)
            && SumOf(dist) == SumOf(front) + dist[|dist| - 1].1
  {
    var front := dist[..|dist| - 1];
    BurnUpdatesAre(balances, symbol, front);
    OthersAbsent(BurnUpdates(balances, symbol, front), symbol, dist);
  }

  lemma {:induction false} BurnTotal(balances: Balances, symbol: Symbol, dist: Distribution, other: Symbol)
    requires Covered(balances, symbol, dist)
    ensures Total(balances + BurnUpdates(balances, symbol, dist), other) + (if other == symbol then SumOf(dist) else 0)
            == Total(balances, other)
    decreases |dist|
  {
    if dist == [] {
      assert balances + BurnUpdates(balances, symbol, dist) == balances;
    } else {
      hide BurnUpdates, SumOf, Total, Held;
      var front := dist[..|dist| - 1];
      var (who, amount) := dist[|dist| - 1];
      assert forall i :: 0 <= i < |front| ==> front[i] == dist[i];
      BurnTotal(balances, symbol, front, other);
      LastBurned(balances, symbol, dist);
      TotalPut(balances + BurnUpdates(balances, symbol, front), other, Holding(who, symbol),
               BalanceOf(balances, who, symbol) - amount);
    }
  }

  lemma {:induction false} CreateTotal(balances: Balances, symbol: Symbol, dist: Distribution, other: Symbol)
    requires forall k :: k in balances ==> k.symbol != symbol
    ensures Total(balances + CreateUpdates(symbol, dist), other)
            == Total(balances, other) + (if other == symbol then SumOf(dist) else 0)
    decreases |dist|
  {
    if dist == [] {
      assert balances + CreateUpdates(symbol, dist) == balances;
    } else {
      var front := dist[..|dist| - 1];
      var (who, amount) := dist[|dist| - 1];
      var k, updates := Holding(who, symbol), CreateUpdates(symbol, front);
      CreateTotal(balances, symbol, front, other);
      CreateUpdatesAre(symbol, front);
      OthersAbsent(updates, symbol, dist);
      assert CreateUpdates(symbol, dist) == updates[k := amount];
      assert SumOf(dist) == SumOf(front) + amount;
      assert k !in balances + updates;
      hide Total, CreateUpdates, SumOf;
      assert balances + CreateUpdates(symbol, dist) == (balances + updates)[k := amount];
      TotalPut(balances + updates, other, k, amount);
    }
  }

  lemma SendTotal(balances: Balances, from: Address, to: Address, symbol: Symbol, amount: nat, other: Symbol)
    requires from != to && from != Anonymous && to != Anonymous && BalanceOf(balances, from, symbol) >= amount
    ensures Total(SendBalances(balances, from, to, symbol, amount), other) == Total(balances, other)
  {
    var k, k' := Holding(from, symbol), Holding(to, symbol);
    var taken := balances[k := BalanceOf(balances, from, symbol) - amount];
    TotalPut(balances, other, k, BalanceOf(balances, from, symbol) - amount);
    TotalPut(taken, other, k', BalanceOf(balances, to, symbol) + amount);
    assert Held(taken, k') == Held(balances, k');
  }

  // ---------------------------------------------------------------- the invariant

  /** For every registered symbol the sum of the balances is both supplies. */
  ghost predicate Conserved(s: State) {
    && HoldingsRegistered(s)
    && forall symbol :: symbol in s.db.tokens ==>
         s.db.tokens[symbol].total == s.db.tokens[symbol].circulating == Total(s.db.balances, symbol)
  }

  // What an effect makes the balances of a symbol lack of its supply.
  function ForgottenBy(s: State, e: Effect, symbol: Symbol): nat {
    if e.Minted? && e.symbol == symbol then Forgotten(s.db.balances, symbol, e.dist) else 0
  }

  // The supplies of a symbol exceed its balances by `gap`.
  ghost predicate Exceeds(s: State, symbol: Symbol, gap: nat) {
    if symbol in s.db.tokens
    then s.db.tokens[symbol].total == s.db.tokens[symbol].circulating == Total(s.db.balances, symbol) + gap
    else gap == 0
  }

  lemma GapStep(s: State, e: Effect, symbol: Symbol, gap: nat)
    requires HoldingsRegistered(s) && Enabled(s, e) && Exceeds(s, symbol, gap)
    ensures Exceeds(Apply(s, e), symbol, gap + ForgottenBy(s, e, symbol))
  {
    hide Apply, Total, SumOf, MintUpdates, BurnUpdates, CreateUpdates, SendBalances, Forgotten, InStoreOrder,
      CountsUnderflow, Authorised, ActsFor, FreshId, SubmissionAllowed;
    match e {
      case Sent(authority, from, to, sym, amount, memo) =>
        SentWrites(s, authority, from, to, sym, amount, memo);
        SendTotal(s.db.balances, from, to, sym, amount, symbol);
      case Minted(minter, sym, dist, memo) =>
        MintedWrites(s, minter, sym, dist, memo);
        MintTotal(s.db.balances, sym, dist, symbol);
      case Burned(burner, sym, dist, memo) =>
        BurnedWrites(s, burner, sym, dist, memo);
        BurnTotal(s.db.balances, sym, dist, symbol);
      case TokenCreated(creator, id, args) => GapCreate(s, creator, id, args, symbol, gap);
      case _ =>
        BalancesFrame(s, e);
        TokensKept(s, e);
        if symbol in Apply(s, e).db.tokens { TokenUpdateKeepsSupply(s, e, symbol); }
    }
  }

  lemma GapCreate(s: State, creator: Address, id: nat, args: TokenCreateArgs, symbol: Symbol, gap: nat)
    requires HoldingsRegistered(s) && Enabled(s, TokenCreated(creator, id, args)) && Exceeds(s, symbol, gap)
    ensures Exceeds(Apply(s, TokenCreated(creator, id, args)), symbol, gap)
  {
    hide Apply, Total, SumOf, CreateUpdates;
    TokenCreatedWrites(s, creator, id, args);
    var sym := Derive(s.db.alloc.TokenIdentity(), id);
    SymbolIsNew(s, creator, id, args);
    CreateTotal(s.db.balances, sym, args.distribution.GetOr([]), symbol);
    TotalOfNothing(s.db.balances, sym);
  }

  // What all mints of a trace together have forgotten.
  ghost function ForgottenAlong(g: State, es: seq<Effect>, symbol: Symbol): nat {
    if es == [] then 0
    else
      var front := es[..|es| - 1];
      ForgottenAlong(g, front, symbol) + ForgottenBy(After(g, front), es[|es| - 1], symbol)
  }

  /** Over any run from a conserved state the supplies of every symbol exceed the sum of its
      balances by exactly what its mints have forgotten. */
  lemma {:induction false} GapAlong(g: State, es: seq<Effect>, symbol: Symbol)
    requires Conserved(g) && Legal(g, es)
    ensures HoldingsRegistered(After(g, es)) && Exceeds(After(g, es), symbol, ForgottenAlong(g, es, symbol))
    decreases |es|
  {
    hide Exceeds, Apply, Enabled, ForgottenBy;
    if es == [] {
      NoGap(g, symbol);
    } else {
      GapAlong(g, es[..|es| - 1], symbol);
      HoldingsRegisteredStep(After(g, es[..|es| - 1]), es[|es| - 1]);
      GapStep(After(g, es[..|es| - 1]), es[|es| - 1], symbol, ForgottenAlong(g, es[..|es| - 1], symbol));
    }
  }

  lemma NoGap(s: State, symbol: Symbol)
    requires Conserved(s)
    ensures HoldingsRegistered(s) && Exceeds(s, symbol, 0)
  {
  }

  lemma SafeForgetsNothing(s: State, e: Effect)
    ensures MintsSafely(s, e) <==> forall symbol :: ForgottenBy(s, e, symbol) == 0
  {
    hide Forgotten, MintSafe;
    if e.Minted? {
      ForgottenMeans(s.db.balances, e.symbol, e.dist);
      if !MintsSafely(s, e) { assert ForgottenBy(s, e, e.symbol) != 0; }
    }
  }

  ghost predicate NothingForgotten(g: State, es: seq<Effect>, symbol: Symbol) {
    ForgottenAlong(g, es, symbol) == 0
  }

  lemma OneMoreForgets(g: State, es: seq<Effect>, symbol: Symbol)
    requires es != []
    ensures NothingForgotten(g, es, symbol) <==>
            && NothingForgotten(g, es[..|es| - 1], symbol)
            && ForgottenBy(After(g, es[..|es| - 1]), es[|es| - 1], symbol) == 0
  {
  }

  lemma {:induction false} SafeMintsForgetNothing(g: State, es: seq<Effect>)
    ensures Along(g, es, MintsSafely) <==> forall symbol :: NothingForgotten(g, es, symbol)
    decreases |es|
  {
    if es != [] {
      var front, e := es[..|es| - 1], es[|es| - 1];
      assert Along(g, es, MintsSafely) <==> Along(g, front, MintsSafely) && MintsSafely(After(g, front), e);
      SafeMintsForgetNothing(g, front);
      SafeForgetsNothing(After(g, front), e);
      hide NothingForgotten, ForgottenBy, MintsSafely, Along, After;
      forall symbol
        ensures NothingForgotten(g, es, symbol) <==>
                NothingForgotten(g, front, symbol) && ForgottenBy(After(g, front), e, symbol) == 0
      {
        OneMoreForgets(g, es, symbol);
      }
      if Along(g, es, MintsSafely) {
      } else if Along(g, front, MintsSafely) {
        var symbol :| ForgottenBy(After(g, front), e, symbol) != 0;
        assert !NothingForgotten(g, es, symbol);
      } else {
        var symbol :| !NothingForgotten(g, front, symbol);
        assert !NothingForgotten(g, es, symbol);
      }
    }
  }

  lemma TokenUpdateKeepsSupply(s: State, e: Effect, symbol: Symbol)
    requires !TouchesBalances(e) && symbol in Apply(s, e).db.tokens
    ensures symbol in s.db.tokens
    ensures Apply(s, e).db.tokens[symbol].total == s.db.tokens[symbol].total
    ensures Apply(s, e).db.tokens[symbol].circulating == s.db.tokens[symbol].circulating
  {
  }

  lemma {:induction false} ForgottenSymbolExists(g: State, es: seq<Effect>, symbol: Symbol)
    requires Legal(g, es) && ForgottenAlong(g, es, symbol) != 0
    ensures symbol in After(g, es).db.tokens
    decreases |es|
  {
    hide Apply;
    var front, e := es[..|es| - 1], es[|es| - 1];
    TokensKept(After(g, front), e);
    if ForgottenAlong(g, front, symbol) != 0 { ForgottenSymbolExists(g, front, symbol); }
  }

  /** After any operations, nested executions included, the balances of every symbol add up to
      its total and to its circulating supply, and nobody holds an unregistered symbol, exactly
      when no mint on the way listed the anonymous address while it held some of the symbol. */
  lemma ConservedExactly(g: State, es: seq<Effect>)
    requires Conserved(g) && Legal(g, es)
    ensures Conserved(After(g, es)) <==> Along(g, es, MintsSafely)
  {
    hide ForgottenAlong, Along, Legal, After, MintsSafely, Total;
    var s := After(g, es);
    SafeMintsForgetNothing(g, es);
    GapAlong(g, es, Anonymous);
    if Along(g, es, MintsSafely) {
      forall symbol | symbol in s.db.tokens
        ensures s.db.tokens[symbol].total == s.db.tokens[symbol].circulating == Total(s.db.balances, symbol)
      {
        GapAlong(g, es, symbol);
        assert NothingForgotten(g, es, symbol);
      }
    } else {
      var symbol :| !NothingForgotten(g, es, symbol);
      GapAlong(g, es, symbol);
      ForgottenSymbolExists(g, es, symbol);
    }
  }

  /** The supplies of every symbol are equal and at least the sum of its balances. */
  ghost predicate SupplyCovers(s: State) {
    && HoldingsRegistered(s)
    && forall symbol :: symbol in s.db.tokens ==>
         s.db.tokens[symbol].total == s.db.tokens[symbol].circulating >= Total(s.db.balances, symbol)
  }

  /** That much holds after any operations whatever. */
  lemma CoveredAlways(g: State, es: seq<Effect>)
    requires Conserved(g) && Legal(g, es)
    ensures SupplyCovers(After(g, es))
  {
    hide ForgottenAlong, Legal, After, Total;
    var s := After(g, es);
    GapAlong(g, es, Anonymous);
    forall symbol | symbol in s.db.tokens
      ensures s.db.tokens[symbol].total == s.db.tokens[symbol].circulating >= Total(s.db.balances, symbol)
    {
      GapAlong(g, es, symbol);
    }
  }

  /** A mint conserves exactly when it does not list the anonymous address while that address
      holds some of the symbol. */
  lemma MintConservesExactly(s: State, minter: Address, symbol: Symbol, dist: Distribution, memo: Option<Memo>)
    requires Conserved(s) && Enabled(s, Minted(minter, symbol, dist, memo))
    ensures Conserved(Apply(s, Minted(minter, symbol, dist, memo))) <==> MintSafe(s.db.balances, symbol, dist)
  {
    var e := Minted(minter, symbol, dist, memo);
    assert [e][..0] == [];
    ConservedExactly(s, [e]);
    hide MintSafe, Conserved, Apply, Enabled;
  }

  // A small ledger: the token identity is 1, and one address holds all five of its only token.
  function SmallLedger(holder: Address, text: Address -> Bytes): State {
    var symbol := Subresource(1, 0);
    var alloc := Allocator(PublicKey(1), None, None, map[PublicKey(1) := 1], None, true);
    var db := Store(map[Holding(holder, symbol) := 5],
                    map[symbol := TokenInfo("Token", "TOK", 9, 5, 5, None, None)], map[symbol := "TOK"],
                    alloc, map[], map[], map[], 0, 0, Some(AccountCounts(1, 1)));
    State(db, 0, 0, true, text, CommittedOf(db))
  }

  /** The anonymous address holds five of a conserved supply; minting it one more is allowed, and
      leaves it with one of a supply of six. */
  lemma AnonymousMintForgets(text: Address -> Bytes)
    ensures var s, symbol := SmallLedger(Anonymous, text), Subresource(1, 0);
            var e := Minted(PublicKey(1), symbol, [(Anonymous, 1)], None);
            && Conserved(s) && Enabled(s, e) && !Conserved(Apply(s, e))
            && Apply(s, e).db.tokens[symbol].total == 6 && Apply(s, e).db.balances[Holding(Anonymous, symbol)] == 1
  {
    var s, symbol := SmallLedger(Anonymous, text), Subresource(1, 0);
    var k, dist: Distribution := Holding(Anonymous, symbol), [(Anonymous, 1)];
    assert s.db.balances == map[k := 5];
    TotalWithout(s.db.balances, symbol, k);
    assert s.db.balances - {k} == map[];
    assert dist[..0] == [];
    assert SumOf(dist) == 1;
    assert MintUpdates(s.db.balances, symbol, dist) == map[k := 1];
    MintConservesExactly(s, PublicKey(1), symbol, dist, None);
  }

  // ---------------------------------------------------------------- minting and burning as calls

  /** A mint by the token identity of a registered symbol succeeds exactly when the symbol is not
      one of this block, the printed addresses come in order, no amount is zero and, unless nothing
      is distributed, circulating plus the whole sum stays within the maximum; a failing mint writes
      nothing. */
  lemma MintSucceedsExactly(m: Machine, symbol: Symbol, dist: Distribution, memo: Option<Memo>)
    requires symbol in m.s.db.tokens
    ensures var o, info := Mint(m, m.s.db.alloc.TokenIdentity(), symbol, dist, memo), m.s.db.tokens[symbol];
            && (o.r.Ok? <==>
                && symbol in m.s.committed.symbols && InStoreOrder(m.s.text, symbol, dist)
                && (forall i :: 0 <= i < |dist| ==> dist[i].1 > 0)
                && (info.maximum == None || dist == [] || info.circulating + SumOf(dist) <= info.maximum.value))
            && (o.r.Err? ==> o.m == m)
  {
    MintCheckExact(m.s.db.tokens[symbol], dist);
  }

  /** In every reachable state a burn by the token identity succeeds exactly when the symbol is not one
      of this block, the printed addresses come in order, and every listed address is known by name
      and covers its positive amount; the supply never goes below zero, and a failing burn writes
      nothing. */
  lemma BurnSucceedsExactly(m: Machine, symbol: Symbol, dist: Distribution, memo: Option<Memo>, flag: Option<bool>)
    requires SupplyCovers(m.s) && symbol in m.s.db.tokens && flag != Some(false)
    ensures var o := Burn(m, m.s.db.alloc.TokenIdentity(), symbol, dist, memo, flag);
            && o.r != Err(SupplyUnderflow)
            && (o.r.Ok? <==>
                && symbol in m.s.committed.symbols && InStoreOrder(m.s.text, symbol, dist)
                && forall i :: 0 <= i < |dist| ==>
                     dist[i].0 != Anonymous && 0 < dist[i].1 <= BalanceOf(m.s.db.balances, dist[i].0, symbol))
            && (o.r.Err? ==> o.m == m)
  {
    BurnCheckExact(m.s.db.balances, symbol, dist);
    if BurnCheck(m.s.db.balances, symbol, dist).Ok? {
      BurnTotal(m.s.db.balances, symbol, dist, symbol);
    }
  }

  function OneEach(a: Address, b: Address): Distribution
    requires a != b
  {
    [(a, 1), (b, 1)]
  }

  /** Of two addresses, whichever they are, one order is minted and the other is refused: the store
      takes printed addresses in their own order only. */
  lemma UnsortedMintRefused(m: Machine, symbol: Symbol, a: Address, b: Address, memo: Option<Memo>)
    requires PrintsInjectively(m.s.text) && a != b
    requires Listed(m.s, symbol) && m.s.db.tokens[symbol].maximum.None?
    ensures var identity := m.s.db.alloc.TokenIdentity();
            var ab := Mint(m, identity, symbol, OneEach(a, b), memo).r;
            var ba := Mint(m, identity, symbol, OneEach(b, a), memo).r;
            (ab == Ok(Nothing) && ba == Err(BatchRefused)) || (ab == Err(BatchRefused) && ba == Ok(Nothing))
  {
    var ka, kb := BalanceKey(m.s.text, Holding(a, symbol)), BalanceKey(m.s.text, Holding(b, symbol));
    SameSymbolKeysDiffer(m.s.text, a, b, symbol);
    LexTotal(ka, kb);
    MintCheckExact(m.s.db.tokens[symbol], OneEach(a, b));
    MintCheckExact(m.s.db.tokens[symbol], OneEach(b, a));
    hide LexLess, BalanceKey, MintCheck, PrintsInjectively;
    assert InStoreOrder(m.s.text, symbol, OneEach(a, b)) <==> LexLess(ka, kb);
    assert InStoreOrder(m.s.text, symbol, OneEach(b, a)) <==> LexLess(kb, ka);
  }
}
