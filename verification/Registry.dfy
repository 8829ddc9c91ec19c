/** The registers of accounts and tokens: who owns an account, that no record is replaced,
    that a disabled account is frozen, and that both token registers agree. */
module Registry {
  import opened LedgerTypes
  import opened Allocation
  import opened AccountRules
  import opened LedgerMachine
  import opened Footprints
  import opened Legality

  // ---------------------------------------------------------------- accounts

  /** Every account owns itself, and its address lies below the counter of account addresses. */
  ghost predicate AccountsSound(s: State) {
    && (forall id :: id in s.db.accounts ==> s.db.accounts[id].HasRole(id, Owner))
    && AccountsBelow(s.db.alloc, s.db.accounts.Keys)
  }

  lemma CounterOnlyGrows(al: Allocator, identity: Address, id: nat, accounts: set<Address>)
    requires AccountsBelow(al, accounts) && al.Counter(identity) <= id
    ensures AccountsBelow(al.WithCounter(identity, id + 1), accounts)
  {
  }

  /** Creating an account never replaces a stored one. */
  lemma CreationIsFresh(s: State, id: nat, account: Account)
    requires AccountsSound(s) && Enabled(s, AccountCreated(id, account))
    ensures Derive(s.db.alloc.AccountIdentity(), id) !in s.db.accounts
  {
  }

  lemma CreatedFrame(s: State, id: nat, account: Account)
    requires Derivable(s.db.alloc.AccountIdentity())
    ensures var s', identity := Apply(s, AccountCreated(id, account)), s.db.alloc.AccountIdentity();
            && s'.db.accounts == s.db.accounts[Derive(identity, id) := account]
            && s'.db.alloc == s.db.alloc.WithCounter(identity, id + 1)
  {
  }

  lemma ChangedFrame(s: State, changer: Address, target: Address, change: AccountChange)
    requires target in s.db.accounts
    ensures Apply(s, AccountChanged(changer, target, change)).db.accounts
            == s.db.accounts[target := ApplyChange(s.db.accounts[target], change)]
  {
  }

  lemma TokenAllocFrame(s: State, creator: Address, id: nat, args: TokenCreateArgs)
    requires Derivable(s.db.alloc.TokenIdentity())
    ensures Apply(s, TokenCreated(creator, id, args)).db.alloc
            == s.db.alloc.WithCounter(s.db.alloc.TokenIdentity(), id + 1)
  {
  }

  lemma OwnerKept(id: Address, account: Account, change: AccountChange, owner: Address)
    requires account.HasRole(owner, Owner)
    requires change.RemoveRoles? ==> Owner !in RolesOf(change.removed, id)
    ensures owner == id ==> ApplyChange(account, change).HasRole(owner, Owner)
  {
  }

  lemma AccountsSoundStep(s: State, e: Effect)
    requires AccountsSound(s) && Enabled(s, e)
    ensures AccountsSound(Apply(s, e))
  {
    AccountsFrame(s, e);
    AllocFrame(s, e);
    hide Apply, ApplyChange;
    match e {
      case AccountCreated(id, account) =>
        CreatedFrame(s, id, account);
        CounterOnlyGrows(s.db.alloc, s.db.alloc.AccountIdentity(), id, s.db.accounts.Keys);
      case AccountChanged(changer, target, change) =>
        ChangedFrame(s, changer, target, change);
        OwnerKept(target, s.db.accounts[target], change, target);
      case TokenCreated(creator, id, args) =>
        TokenAllocFrame(s, creator, id, args);
        CounterOnlyGrows(s.db.alloc, s.db.alloc.TokenIdentity(), id, s.db.accounts.Keys);
      case _ =>
    }
  }

  lemma {:induction false} AccountsAlwaysSound(g: State, es: seq<Effect>)
    requires AccountsSound(g) && Legal(g, es)
    ensures AccountsSound(After(g, es))
    decreases |es|
  {
    if es != [] {
      AccountsAlwaysSound(g, es[..|es| - 1]);
      AccountsSoundStep(After(g, es[..|es| - 1]), es[|es| - 1]);
    }
  }

  predicate IsDisabled(s: State, id: Address) {
    id in s.db.accounts && !s.db.accounts[id].IsEnabled()
  }

  lemma DisabledStep(s: State, e: Effect, id: Address)
    requires AccountsSound(s) && Enabled(s, e) && IsDisabled(s, id)
    ensures id in Apply(s, e).db.accounts && Apply(s, e).db.accounts[id] == s.db.accounts[id]
  {
    AccountsFrame(s, e);
    hide Apply;
    match e {
      case AccountCreated(k, account) =>
        CreatedFrame(s, k, account);
        CreationIsFresh(s, k, account);
      case AccountChanged(changer, target, change) => ChangedFrame(s, changer, target, change);
      case _ =>
    }
  }

  /** The record of a disabled account never changes again, whatever is executed. */
  lemma {:induction false} DisabledForGood(g: State, es: seq<Effect>, i: nat, id: Address)
    requires AccountsSound(g) && Legal(g, es) && i <= |es| && IsDisabled(After(g, es[..i]), id)
    ensures id in After(g, es).db.accounts
    ensures After(g, es).db.accounts[id] == After(g, es[..i]).db.accounts[id]
    decreases |es|
  {
    if i < |es| {
      var front := es[..|es| - 1];
      assert front[..i] == es[..i];
      DisabledForGood(g, front, i, id);
      AccountsAlwaysSound(g, front);
      DisabledStep(After(g, front), es[|es| - 1], id);
    } else {
      assert es[..i] == es;
    }
  }

  // ---------------------------------------------------------------- tokens

  /** The legacy symbol-to-ticker map and the token records hold the same symbols with the same
      tickers, and no two symbols share a ticker. */
  ghost predicate TickersAgree(s: State) {
    && s.db.tickers.Keys == s.db.tokens.Keys
    && (forall a :: a in s.db.tokens ==> s.db.tickers[a] == s.db.tokens[a].ticker)
    && DistinctTickers(s.db.tickers)
  }

  ghost predicate DistinctTickers(tickers: map<Symbol, string>) {
    forall a, b :: a in tickers && b in tickers && a != b ==> tickers[a] != tickers[b]
  }

  lemma StillDistinct(tickers: map<Symbol, string>, symbol: Symbol, ticker: string)
    requires DistinctTickers(tickers) && forall a :: a in tickers ==> tickers[a] != ticker
    ensures DistinctTickers(tickers[symbol := ticker])
  {
  }

  // The symbol an effect gives a ticker to.
  function TickerGiven(s: State, e: Effect): Option<(Symbol, string)> {
    if !Applicable(s, e) then None else
    match e
    case TokenCreated(_, id, args) => Some((Derive(s.db.alloc.TokenIdentity(), id), args.ticker))
    case TokenUpdated(_, args) => if args.ticker.Some? then Some((args.symbol, args.ticker.value)) else None
    case _ => None
  }

  lemma TickerFrame(s: State, e: Effect)
    ensures var s', given := Apply(s, e), TickerGiven(s, e);
            s'.db.tickers == if given.Some? then s.db.tickers[given.value.0 := given.value.1] else s.db.tickers
  {
  }

  lemma SymbolFrame(s: State, e: Effect)
    ensures Apply(s, e).db.tokens.Keys
            == s.db.tokens.Keys + if TickerGiven(s, e).Some? then {TickerGiven(s, e).value.0} else {}
  {
    hide Apply, SumOf, MintUpdates, BurnUpdates, CreateUpdates;
    if TouchesTokens(e) && Applicable(s, e) {
      match e {
        case Minted(minter, symbol, dist, memo) => MintedWrites(s, minter, symbol, dist, memo);
        case Burned(burner, symbol, dist, memo) => BurnedWrites(s, burner, symbol, dist, memo);
        case TokenCreated(creator, id, args) => TokenCreatedWrites(s, creator, id, args);
        case TokenUpdated(updater, args) => TokenUpdatedWrites(s, updater, args);
      }
    } else {
      QuietSymbols(s, e);
    }
  }

  lemma QuietSymbols(s: State, e: Effect)
    requires !TouchesTokens(e) || !Applicable(s, e)
    ensures Apply(s, e).db.tokens == s.db.tokens && TickerGiven(s, e).None?
  {
    TokensFrame(s, e);
  }

  lemma RecordFrame(s: State, e: Effect, symbol: Symbol)
    requires symbol in Apply(s, e).db.tokens
    ensures var given := TickerGiven(s, e);
            if given.Some? && given.value.0 == symbol then Apply(s, e).db.tokens[symbol].ticker == given.value.1
            else symbol in s.db.tokens && Apply(s, e).db.tokens[symbol].ticker == s.db.tokens[symbol].ticker
  {
  }

  lemma TickersAgreeStep(s: State, e: Effect)
    requires TickersAgree(s) && Enabled(s, e)
    ensures TickersAgree(Apply(s, e))
  {
    hide Apply, Enabled, TickerGiven, DistinctTickers;
    if TickerGiven(s, e).Some? {
      NewTicker(s, e);
      StillDistinct(s.db.tickers, TickerGiven(s, e).value.0, TickerGiven(s, e).value.1);
    }
    TickerFrame(s, e);
    SymbolFrame(s, e);
    forall a | a in Apply(s, e).db.tokens
      ensures Apply(s, e).db.tickers[a] == Apply(s, e).db.tokens[a].ticker
    {
      RecordFrame(s, e, a);
    }
  }

  lemma NewTicker(s: State, e: Effect)
    requires Enabled(s, e) && TickerGiven(s, e).Some?
    ensures forall a :: a in s.db.tickers ==> s.db.tickers[a] != TickerGiven(s, e).value.1
  {
  }

  lemma {:induction false} TickersAlwaysAgree(g: State, es: seq<Effect>)
    requires TickersAgree(g) && Legal(g, es)
    ensures TickersAgree(After(g, es))
    decreases |es|
  {
    if es != [] {
      TickersAlwaysAgree(g, es[..|es| - 1]);
      TickersAgreeStep(After(g, es[..|es| - 1]), es[|es| - 1]);
    }
  }
}
