/** The initial store, and what holds of every run that starts from one. */
module Geneses {
  import opened LedgerTypes
  import opened Allocation
  import opened AccountRules
  import opened LedgerMachine
  import opened Operations
  import opened Legality
  import opened Outcomes
  import opened CallContracts
  import opened EventIds
  import opened Replay
  import opened Supply
  import opened Registry
  import opened TxHistory
  import Sourcing = EventSourcing

  datatype SymbolMeta = SymbolMeta(name: string, decimals: nat, owner: Option<Address>, maximum: Option<nat>)

  datatype Initial = Initial(
    identity: Address, balances: Balances, symbols: map<Symbol, string>, meta: map<Symbol, SymbolMeta>,
    tokenIdentity: Option<Address>, tokenNext: nat, accountIdentity: Option<Address>, accounts: seq<CreateArgs>)

  // Balances name known symbols only, and every symbol has metadata and some balance entry.
  ghost predicate Acceptable(init: Initial) {
    && (forall k :: k in init.balances ==> k.symbol in init.symbols)
    && init.meta.Keys == init.symbols.Keys
    && (forall symbol :: symbol in init.symbols ==> exists k :: k in init.balances && k.symbol == symbol)
  }

  ghost function InitialTokens(init: Initial): map<Symbol, TokenInfo>
    requires init.meta.Keys == init.symbols.Keys
  {
    map symbol | symbol in init.meta ::
      TokenInfo(init.meta[symbol].name, init.symbols[symbol], init.meta[symbol].decimals,
                Total(init.balances, symbol), Total(init.balances, symbol), init.meta[symbol].maximum,
                init.meta[symbol].owner)
  }

  // Initial accounts get their addresses like any other, but no event is logged for them.
  function WithAccounts(db: Store, accounts: seq<CreateArgs>): Result<Store> {
    if accounts == [] then Ok(db)
    else
      match WithAccounts(db, accounts[..|accounts| - 1])
      case Err(e) => Err(e)
      case Ok(before) =>
        match NextSubresource(before.alloc, before.alloc.AccountIdentity(), before.tokens.Keys)
        case Err(e) => Err(e)
        case Ok((alloc, id)) =>
          var account := Finished(Unowned(accounts[|accounts| - 1]), id);
          Ok(before.(alloc := alloc, accounts := before.accounts[id := account]))
  }

  // The record as configured; nobody created it.
  function Unowned(args: CreateArgs): Account { Account(args.description, args.roles, args.features, Unset) }

  // One stored account for each configured one, as its creation would have stored it but for a creator.
  ghost predicate AccountsStored(accounts: seq<CreateArgs>, ids: seq<Address>, stored: map<Address, Account>) {
    && |ids| == |accounts| && (forall i, j :: 0 <= i < j < |ids| ==> ids[i] != ids[j])
    && (forall id :: id in stored <==> id in ids)
    && forall i :: 0 <= i < |ids| ==>
         AccountStored(accounts[i].description, accounts[i].roles, accounts[i].features, {ids[i]}, ids[i],
                       stored[ids[i]])
  }

  // The store before any initial account is added.
  ghost function BaseStore(init: Initial): Store
    requires init.meta.Keys == init.symbols.Keys
  {
    var tokenIdentity := init.tokenIdentity.GetOr(init.identity);
    var alloc := Allocator(init.identity, Some(init.accountIdentity.GetOr(init.identity)), Some(tokenIdentity),
                           map[tokenIdentity := init.tokenNext], None, true);
    Store(init.balances, InitialTokens(init), init.symbols, alloc, map[], map[], map[], 0, 0, None)
  }

  /** The store a new ledger starts from. */
  ghost function InitialStore(init: Initial): Result<Store> {
    if !Acceptable(init) then Err(GenesisRejected) else WithAccounts(BaseStore(init), init.accounts)
  }

  lemma {:induction false} WithAccountsSound(db: Store, accounts: seq<CreateArgs>)
    requires db.accounts == map[] && WithAccounts(db, accounts).Ok?
    ensures var after := WithAccounts(db, accounts).value;
            && AccountsBelow(after.alloc, after.accounts.Keys)
            && (forall id :: id in after.accounts ==> after.accounts[id].HasRole(id, Owner))
            && (exists ids :: AccountsStored(accounts, ids, after.accounts))
            && after == db.(alloc := after.alloc, accounts := after.accounts)
            && after.alloc == db.alloc.(counters := after.alloc.counters, legacyCounter := after.alloc.legacyCounter)
    decreases |accounts|
  {
    if accounts != [] {
      var front, args := accounts[..|accounts| - 1], accounts[|accounts| - 1];
      WithAccountsSound(db, front);
      var before, after := WithAccounts(db, front).value, WithAccounts(db, accounts).value;
      var (alloc, id) := NextSubresource(before.alloc, before.alloc.AccountIdentity(), before.tokens.Keys).value;
      AccountAllocation(before.alloc, before.accounts.Keys, before.tokens.Keys);
      OwnsItself(Unowned(args), id);
      FinishedIs(Unowned(args), id);
      assert after.accounts == before.accounts[id := Finished(Unowned(args), id)];
      assert after.accounts.Keys == before.accounts.Keys + {id};
      var ids :| AccountsStored(front, ids, before.accounts);
      OneMoreStored(accounts, ids, id, before.accounts, Finished(Unowned(args), id));
    } else {
      assert AccountsStored(accounts, [], db.accounts);
    }
    hide *;
  }

  lemma OneMoreStored(accounts: seq<CreateArgs>, ids: seq<Address>, id: Address, before: map<Address, Account>,
                      account: Account)
    requires accounts != [] && AccountsStored(accounts[..|accounts| - 1], ids, before) && id !in before
    requires var args := accounts[|accounts| - 1];
             AccountStored(args.description, args.roles, args.features, {id}, id, account)
    ensures AccountsStored(accounts, ids + [id], before[id := account])
  {
    hide AccountStored;
    var front, all, stored := accounts[..|accounts| - 1], ids + [id], before[id := account];
    assert forall k :: k in all <==> k in ids || k == id;
    assert forall i :: 0 <= i < |ids| ==> all[i] == ids[i] && front[i] == accounts[i] && ids[i] in before;
    assert id !in ids;
  }

  lemma OwnsItself(account: Account, id: Address)
    ensures Finished(account, id).HasRole(id, Owner)
  {
  }

  // Holds in every reachable state.
  ghost predicate Sound(s: State) {
    IdsFresh(s) && SupplyCovers(s) && AccountsSound(s) && TxsSound(s) && CommittedPast(s)
  }

  /** The state a new ledger starts in: its store is built and committed. */
  ghost function Start(init: Initial, now: nat, memoActive: bool, text: Address -> Bytes): State
    requires InitialStore(init).Ok?
  {
    var db := InitialStore(init).value;
    State(db, 0, now, memoActive, text, CommittedOf(db))
  }

  /** An accepted initial state satisfies every invariant; tickers are distinct if the
      configured ones are. */
  lemma GenesisSound(init: Initial, now: nat, memoActive: bool, text: Address -> Bytes)
    requires InitialStore(init).Ok?
    ensures var g := Start(init, now, memoActive, text);
            && Sound(g) && Conserved(g) && Sourcing.Genesis(g)
            && (DistinctTickers(init.symbols) <==> TickersAgree(g))
  {
    hide BaseStore, WithAccounts, AccountsBelow, Sound, Conserved, TickersAgree, Sourcing.Genesis, AccountsStored;
    BaseSound(init);
    WithAccountsSound(BaseStore(init), init.accounts);
    StartSound(init, Start(init, now, memoActive, text));
  }

  /** What the new ledger holds is what was configured: the balances; for each symbol one token, with the
      sum of its balances as both supplies; one account for each configured one, its multisig arguments
      filled in; and the identities addresses are derived from. */
  lemma GenesisExact(init: Initial, now: nat, memoActive: bool, text: Address -> Bytes)
    requires InitialStore(init).Ok?
    ensures var db := Start(init, now, memoActive, text).db;
            && db.balances == init.balances && db.tickers == init.symbols && db.tokens.Keys == init.symbols.Keys
            && (forall symbol :: symbol in db.tokens ==>
                  && symbol in init.meta
                  && var token, meta, sum := db.tokens[symbol], init.meta[symbol], Total(init.balances, symbol);
                  && token.name == meta.name && token.decimals == meta.decimals && token.ticker == init.symbols[symbol]
                  && token.total == sum && token.circulating == sum
                  && token.maximum == meta.maximum && token.owner == meta.owner)
            && (exists ids :: AccountsStored(init.accounts, ids, db.accounts))
            && db.alloc.migrated && db.alloc.root == init.identity
            && db.alloc.TokenIdentity()
               == (if init.tokenIdentity.Some? then init.tokenIdentity.value else init.identity)
            && db.alloc.AccountIdentity()
               == (if init.accountIdentity.Some? then init.accountIdentity.value else init.identity)
            && (db.alloc.TokenIdentity() != db.alloc.AccountIdentity() ==>
                  db.alloc.Counter(db.alloc.TokenIdentity()) == init.tokenNext)
            && db.multisigs == map[] && db.events == map[] && db.height == 0 && db.counts == None
  {
    hide WithAccounts, AccountsStored, AccountsBelow, Total;
    WithAccountsSound(BaseStore(init), init.accounts);
    var al := BaseStore(init).alloc;
    if al.TokenIdentity() != al.AccountIdentity() { OtherCounters(BaseStore(init), init.accounts, al.TokenIdentity()); }
  }

  // Creating accounts moves the counter of the account identity only.
  lemma {:induction false} OtherCounters(db: Store, accounts: seq<CreateArgs>, identity: Address)
    requires WithAccounts(db, accounts).Ok? && db.alloc.migrated && identity != db.alloc.AccountIdentity()
    ensures var al := WithAccounts(db, accounts).value.alloc;
            && al.Counter(identity) == db.alloc.Counter(identity)
            && al.migrated && al.AccountIdentity() == db.alloc.AccountIdentity()
    decreases |accounts|
  {
    if accounts != [] { OtherCounters(db, accounts[..|accounts| - 1], identity); }
  }

  lemma StartSound(init: Initial, g: State)
    requires Acceptable(init) && g.latestTid == 0 && g.committed == CommittedOf(g.db)
    requires g.db.balances == init.balances && g.db.tokens == InitialTokens(init) && g.db.tickers == init.symbols
    requires g.db.multisigs == map[] && g.db.events == map[] && g.db.eventCount == 0
    requires AccountsBelow(g.db.alloc, g.db.accounts.Keys)
    requires forall id :: id in g.db.accounts ==> g.db.accounts[id].HasRole(id, Owner)
    ensures Sound(g) && Conserved(g) && Sourcing.Genesis(g)
    ensures DistinctTickers(init.symbols) <==> TickersAgree(g)
  {
    hide Total, AccountsBelow, DistinctTickers;
  }

  lemma BaseSound(init: Initial)
    requires Acceptable(init)
    ensures var base := BaseStore(init);
            && base.balances == init.balances && base.tokens == InitialTokens(init) && base.tickers == init.symbols
            && base.accounts == map[] && base.multisigs == map[] && base.events == map[]
            && base.eventCount == 0 && base.height == 0
  {
  }

  /** Whatever is called, in whatever order and with whatever payloads: a run that is answered and
      keeps its blocks within bounds ends in a state whose identifiers are fresh, whose supplies
      cover the balances, whose accounts own themselves, whose transactions are sound, and whose
      accounts, terms and open approvals the log accounts for. It accounts for all approvals
      exactly when no sweep took one back; supplies equal the balances exactly when no mint went
      over an anonymous holding; and the log accounts for everything exactly when neither was. */
  lemma EveryRunIsSound(init: Initial, now: nat, memoActive: bool, text: Address -> Bytes, depth: nat,
                        calls: seq<Call>)
    requires InitialStore(init).Ok?
    requires Calls(depth, Machine(Start(init, now, memoActive, text), []), calls).Some?
    requires var g := Start(init, now, memoActive, text);
             Along(g, Calls(depth, Machine(g, []), calls).value.trace, BlocksBounded)
    ensures var g := Start(init, now, memoActive, text);
            var m := Calls(depth, Machine(g, []), calls).value;
            && Reached(g, m) && Sound(m.s) && Sourcing.SubmissionsAgree(m.s)
            && Sourcing.Follows(Sourcing.Replayed(g, m.s), m.s)
            && (Sourcing.RecordsSourced(g, m.s) <==> Along(g, m.trace, SweepsSettled))
            && (Conserved(m.s) <==> Along(g, m.trace, MintsSafely))
            && (Sourcing.Sourced(g, m.s) <==> Along(g, m.trace, MintsSafely) && Along(g, m.trace, SweepsSettled))
            && (TickersAgree(g) ==> TickersAgree(m.s))
  {
    var g := Start(init, now, memoActive, text);
    GenesisSound(init, now, memoActive, text);
    CallsLegal(depth, g, calls);
    var es := Calls(depth, Machine(g, []), calls).value.trace;
    hide Calls, Legal, Along, After, InitialStore, Start, IdsFresh, Conserved, SupplyCovers, AccountsSound, TxsSound,
      CommittedPast;
    CoveredAlways(g, es);
    ConservedExactly(g, es);
    AccountsAlwaysSound(g, es);
    TxsSoundAlways(g, es);
    Registered(g);
    Sourcing.AlwaysFollows(g, es);
    Sourcing.RecordsAlwaysSourced(g, es);
    Sourcing.EventSourced(g, es);
    Sourcing.SubmissionsAlwaysAgree(g, es);
    if TickersAgree(g) { TickersAlwaysAgree(g, es); }
  }

  lemma Registered(g: State)
    requires Conserved(g)
    ensures HoldingsRegistered(g)
  {
  }
}
