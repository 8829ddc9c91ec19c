/** What each effect leaves alone, and which event it logs. */
module Footprints {
  import opened LedgerTypes
  import opened Allocation
  import opened AccountRules
  import opened LedgerMachine

  // The event an effect logs, if any.
  function LoggedContent(s: State, e: Effect): Option<Event> {
    if !Applicable(s, e) then None else
    match e
    case Sent(_, from, to, symbol, amount, memo) => Some(SendEvent(from, to, symbol, amount, memo))
    case Minted(_, symbol, dist, memo) => Some(MintEvent(symbol, dist, memo))
    case Burned(_, symbol, dist, memo) => Some(BurnEvent(symbol, dist, memo))
    case TokenCreated(_, id, args) => Some(TokenCreateEvent(Derive(s.db.alloc.TokenIdentity(), id), args))
    case TokenUpdated(_, args) => Some(TokenUpdateEvent(args))
    case AccountCreated(id, account) =>
      Some(AccountCreateEvent(Derive(s.db.alloc.AccountIdentity(), id), account.description, account.roles,
                              account.features))
    case AccountChanged(_, target, change) => Some(AccountChangeEvent(target, change))
    case Submitted(tx) => Some(SubmitEventOf(s.latestTid + 1, tx))
    case Approved(token, who) => Some(ApproveEvent(s.db.multisigs[token].account, token, who))
    case Revoked(token, who) => Some(RevokeEvent(s.db.multisigs[token].account, token, who))
    case Logged(event) => Some(event)
    case _ => None
  }

  // The identifiers an effect hands out.
  function Issued(s: State, e: Effect): seq<nat> {
    if e.Submitted? then [s.latestTid + 1, s.latestTid + 2]
    else if e.TakeId? || LoggedContent(s, e).Some? then [s.latestTid + 1]
    else []
  }

  /** The event store grows by the logged event, stored under the last identifier issued. */
  lemma EventsLogged(s: State, e: Effect)
    requires LoggedContent(s, e).Some?
    ensures var s' := Apply(s, e);
            && s'.latestTid == Issued(s, e)[|Issued(s, e)| - 1]
            && s'.db.events == s.db.events[s'.latestTid := EventLog(s'.latestTid, s.now, LoggedContent(s, e).value)]
            && s'.db.eventCount == s.db.eventCount + 1
  {
  }

  lemma EventsKept(s: State, e: Effect)
    requires LoggedContent(s, e).None?
    ensures var s' := Apply(s, e);
            && (!e.MemoMigrated? ==> s'.db.events == s.db.events)
            && s'.db.events.Keys == s.db.events.Keys && s'.db.eventCount == s.db.eventCount
            && (forall id :: id in s.db.events ==> s'.db.events[id].id == s.db.events[id].id)
            && s'.latestTid == if e.TakeId? then s.latestTid + 1
                               else if e.NextBlock? then EventBase(s.db.height) else s.latestTid
  {
  }

  lemma EventsFrame(s: State, e: Effect)
    ensures var s' := Apply(s, e);
            match LoggedContent(s, e)
            case None =>
              && (!e.MemoMigrated? ==> s'.db.events == s.db.events)
              && s'.db.events.Keys == s.db.events.Keys && s'.db.eventCount == s.db.eventCount
              && (forall id :: id in s.db.events ==> s'.db.events[id].id == s.db.events[id].id)
              && s'.latestTid == if e.TakeId? then s.latestTid + 1
                               else if e.NextBlock? then EventBase(s.db.height) else s.latestTid
            case Some(content) =>
              && s'.latestTid == Issued(s, e)[|Issued(s, e)| - 1] > s.latestTid
              && s'.db.events == s.db.events[s'.latestTid := EventLog(s'.latestTid, s.now, content)]
              && s'.db.eventCount == s.db.eventCount + 1
  {
    if LoggedContent(s, e).Some? { EventsLogged(s, e); } else { EventsKept(s, e); }
  }

  predicate TouchesTxs(e: Effect) {
    e.Submitted? || e.Approved? || e.Revoked? || e.Ended? || e.ExpirySwept? || e.MemoMigrated?
  }

  predicate Commits(e: Effect) {
    e.ExpirySwept? || e.MemoMigrated? || e.NextBlock?
  }

  predicate TouchesBalances(e: Effect) {
    e.Sent? || e.Minted? || e.Burned? || e.TokenCreated?
  }

  predicate TouchesTokens(e: Effect) {
    e.Minted? || e.Burned? || e.TokenCreated? || e.TokenUpdated?
  }

  lemma TxsFrame(s: State, e: Effect)
    ensures !TouchesTxs(e) ==> Apply(s, e).db.multisigs == s.db.multisigs
  {
  }

  // What an effect does to a transaction that is already stored.
  function TxAfter(s: State, e: Effect, t: nat): Multisig
    requires t in s.db.multisigs
  {
    var tx := s.db.multisigs[t];
    match e
    case Submitted(submitted) => if t == s.latestTid + 1 then submitted else tx
    case Approved(token, who) => if token == t then WithApproval(tx, who, true) else tx
    case Revoked(token, who) => if token == t then WithApproval(tx, who, false) else tx
    case Ended(token, state) => if token == t then Closed(tx, state) else tx
    case ExpirySwept => Swept(s, t)
    case MemoMigrated => MigratedTx(tx)
    case _ => tx
  }

  lemma TxFrame(s: State, e: Effect, t: nat)
    requires t in s.db.multisigs
    ensures t in Apply(s, e).db.multisigs && Apply(s, e).db.multisigs[t] == TxAfter(s, e, t)
  {
    hide Apply;
    match e {
      case Submitted(tx) => NewTxFrame(s, tx);
      case ExpirySwept => SweepWrites(s);
      case MemoMigrated => MigratedFrame(s);
      case Approved(_, _) => ChangedTxFrame(s, e);
      case Revoked(_, _) => ChangedTxFrame(s, e);
      case Ended(_, _) => ChangedTxFrame(s, e);
      case _ => TxsFrame(s, e);
    }
  }

  lemma ChangedTxFrame(s: State, e: Effect)
    requires e.Approved? || e.Revoked? || e.Ended?
    ensures Apply(s, e).db.multisigs
            == if e.token in s.db.multisigs then s.db.multisigs[e.token := TxAfter(s, e, e.token)] else s.db.multisigs
  {
  }

  lemma MigratedFrame(s: State)
    ensures Apply(s, MemoMigrated).db.multisigs == map t | t in s.db.multisigs :: MigratedTx(s.db.multisigs[t])
    ensures Apply(s, MemoMigrated).db.events == map id | id in s.db.events :: MigratedEvent(s.db.events[id])
  {
  }

  lemma NewTxFrame(s: State, tx: Multisig)
    ensures Apply(s, Submitted(tx)).db.multisigs == s.db.multisigs[s.latestTid + 1 := tx]
  {
  }

  lemma TxKeysFrame(s: State, e: Effect)
    ensures Apply(s, e).db.multisigs.Keys == s.db.multisigs.Keys + if e.Submitted? then {s.latestTid + 1} else {}
  {
    hide Apply;
    match e {
      case Submitted(tx) => NewTxFrame(s, tx);
      case ExpirySwept => SweepWrites(s);
      case MemoMigrated => MigratedFrame(s);
      case Approved(_, _) => ChangedTxFrame(s, e);
      case Revoked(_, _) => ChangedTxFrame(s, e);
      case Ended(_, _) => ChangedTxFrame(s, e);
      case _ => TxsFrame(s, e);
    }
  }

  lemma BalancesFrame(s: State, e: Effect)
    ensures !TouchesBalances(e) ==> Apply(s, e).db.balances == s.db.balances
  {
  }

  lemma TokensFrame(s: State, e: Effect)
    ensures !TouchesTokens(e) ==> Apply(s, e).db.tokens == s.db.tokens && Apply(s, e).db.tickers == s.db.tickers
  {
  }

  lemma AccountsFrame(s: State, e: Effect)
    ensures !e.AccountCreated? && !e.AccountChanged? ==> Apply(s, e).db.accounts == s.db.accounts
  {
  }

  lemma AllocFrame(s: State, e: Effect)
    ensures !e.AccountCreated? && !e.TokenCreated? ==> Apply(s, e).db.alloc == s.db.alloc
  {
  }

  lemma CountsFrame(s: State, e: Effect)
    ensures !e.Sent? && !e.CountsInitialised? ==> Apply(s, e).db.counts == s.db.counts
  {
  }

  lemma ClockFrame(s: State, e: Effect)
    ensures !e.TimeSet? ==> Apply(s, e).now == s.now
    ensures !e.MemoMigrated? ==> Apply(s, e).memoActive == s.memoActive
    ensures Apply(s, e).text == s.text
  {
  }

  // What scans see changes only when the store is committed.
  lemma CommittedFrame(s: State, e: Effect)
    ensures var s' := Apply(s, e);
            s'.committed.txs == if Commits(e) then s'.db.multisigs else s.committed.txs
    ensures var s' := Apply(s, e);
            s'.committed.symbols == if Commits(e) then s'.db.tokens.Keys else s.committed.symbols
  {
  }

  // ---------------------------------------------------------------- what an effect writes

  lemma SentWrites(s: State, authority: Authority, from: Address, to: Address, symbol: Symbol, amount: nat,
                   memo: Option<Memo>)
    requires BalanceOf(s.db.balances, from, symbol) >= amount
    ensures Apply(s, Sent(authority, from, to, symbol, amount, memo)) == ApplySent(s, from, to, symbol, amount, memo)
  {
  }

  lemma MintedWrites(s: State, minter: Address, symbol: Symbol, dist: Distribution, memo: Option<Memo>)
    requires symbol in s.db.tokens
    ensures Apply(s, Minted(minter, symbol, dist, memo)) == ApplyMinted(s, symbol, dist, memo)
  {
  }

  lemma BurnedWrites(s: State, burner: Address, symbol: Symbol, dist: Distribution, memo: Option<Memo>)
    requires symbol in s.db.tokens
    requires SumOf(dist) <= s.db.tokens[symbol].circulating && SumOf(dist) <= s.db.tokens[symbol].total
    ensures Apply(s, Burned(burner, symbol, dist, memo)) == ApplyBurned(s, symbol, dist, memo)
  {
  }

  lemma TokenCreatedWrites(s: State, creator: Address, id: nat, args: TokenCreateArgs)
    requires Derivable(s.db.alloc.TokenIdentity())
    ensures Apply(s, TokenCreated(creator, id, args)) == ApplyTokenCreated(s, creator, id, args)
  {
  }

  lemma TokenUpdatedWrites(s: State, updater: Address, args: TokenUpdateArgs)
    requires args.symbol in s.db.tokens
    ensures Apply(s, TokenUpdated(updater, args)) == ApplyTokenUpdated(s, args)
  {
  }

  lemma AccountCreatedWrites(s: State, id: nat, account: Account)
    requires Derivable(s.db.alloc.AccountIdentity())
    ensures Apply(s, AccountCreated(id, account)) == ApplyAccountCreated(s, id, account)
  {
  }

  lemma AccountChangedWrites(s: State, changer: Address, target: Address, change: AccountChange)
    requires target in s.db.accounts
    ensures Apply(s, AccountChanged(changer, target, change))
            == LogEvent(PutAccount(s, target, ApplyChange(s.db.accounts[target], change)),
                        AccountChangeEvent(target, change))
  {
  }

  lemma SubmittedWrites(s: State, tx: Multisig)
    ensures var token := s.latestTid + 1;
            Apply(s, Submitted(tx))
            == LogEvent(PutTx(s.(latestTid := token), token, tx), SubmitEventOf(token, tx))
  {
  }

  lemma ApprovedWrites(s: State, token: nat, who: Address)
    requires token in s.db.multisigs
    ensures var tx := s.db.multisigs[token];
            Apply(s, Approved(token, who))
            == LogEvent(PutTx(s, token, WithApproval(tx, who, true)), ApproveEvent(tx.account, token, who))
  {
  }

  lemma LoggedWrites(s: State, event: Event)
    ensures Apply(s, Logged(event)) == LogEvent(s, event)
  {
  }

  lemma StartedWrites(s: State, token: nat)
    ensures Apply(s, Started(token)) == s
  {
  }

  lemma TakeIdWrites(s: State)
    ensures Apply(s, TakeId) == s.(latestTid := s.latestTid + 1)
  {
  }

  lemma SweepWrites(s: State)
    ensures Apply(s, ExpirySwept) == ApplySwept(s)
  {
  }

  lemma NextBlockWrites(s: State)
    ensures Apply(s, NextBlock) == s.(latestTid := EventBase(s.db.height), db := s.db.(height := s.db.height + 1),
                                      committed := CommittedOf(s.db))
  {
  }
}
