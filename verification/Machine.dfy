/** The ledger's state and the effects its operations are made of. An effect is one
    indivisible change: a store write together with the event that logs it. */
module LedgerMachine {
  import opened LedgerTypes
  import opened Allocation
  import opened AccountRules

  const HEIGHT_EVENTID_SHIFT: nat := 0x1_0000_0000
  const U64: nat := 0x1_0000_0000_0000_0000

  // The two counters of the account-count attribute.
  datatype AccountCounts = AccountCounts(total: nat, nonZero: nat)

  type Balances = map<Holding, nat>

  // The persistent store, one field for each family of keys.
  datatype Store = Store(
    balances: Balances,
    tokens: map<Symbol, TokenInfo>,
    tickers: map<Symbol, string>,
    alloc: Allocator,
    accounts: map<Address, Account>,
    multisigs: map<nat, Multisig>,
    events: map<nat, EventLog>,
    eventCount: nat,
    height: nat,
    counts: Option<AccountCounts>)

  // What a scan of the store sees: a read finds every write, but a scan only what was committed.
  datatype Committed = Committed(txs: map<nat, Multisig>, symbols: set<Symbol>)

  // `text` prints an address as it stands in store keys.
  datatype State = State(
    db: Store, latestTid: nat, now: nat, memoActive: bool, text: Address -> Bytes, committed: Committed)

  function CommittedOf(db: Store): Committed {
    Committed(db.multisigs, db.tokens.Keys)
  }

  // ---------------------------------------------------------------- reading

  function BalanceOf(balances: Balances, who: Address, symbol: Symbol): nat {
    var key := Holding(who, symbol);
    if who == Anonymous || key !in balances then 0 else balances[key]
  }

  function EnabledAccount(db: Store, id: Address): Option<Account> {
    if id in db.accounts && db.accounts[id].IsEnabled() then Some(db.accounts[id]) else None
  }

  predicate PendingTx(db: Store, token: nat) {
    token in db.multisigs && !db.multisigs[token].disabled
  }

  function EventBase(height: nat): nat { (height * HEIGHT_EVENTID_SHIFT) % U64 }

  // ---------------------------------------------------------------- writing balances

  // The entries written by a mint. Every new balance is read from the store as it was,
  // and reading finds nothing for the anonymous address.
  function MintUpdates(balances: Balances, symbol: Symbol, dist: Distribution): Balances {
    if dist == [] then map[]
    else
      var (who, amount) := dist[|dist| - 1];
      var held := BalanceOf(balances, who, symbol);
      MintUpdates(balances, symbol, dist[..|dist| - 1])[Holding(who, symbol) := held + amount]
  }

  function BurnUpdates(balances: Balances, symbol: Symbol, dist: Distribution): Balances {
    if dist == [] then map[]
    else
      var (who, amount) := dist[|dist| - 1];
      var held := BalanceOf(balances, who, symbol);
      BurnUpdates(balances, symbol, dist[..|dist| - 1])
        [Holding(who, symbol) := if held < amount then 0 else held - amount]
  }

  function CreateUpdates(symbol: Symbol, dist: Distribution): Balances {
    if dist == [] then map[]
    else
      var (who, amount) := dist[|dist| - 1];
      CreateUpdates(symbol, dist[..|dist| - 1])[Holding(who, symbol) := amount]
  }

  function SumOf(dist: Distribution): nat {
    if dist == [] then 0 else SumOf(dist[..|dist| - 1]) + dist[|dist| - 1].1
  }

  predicate NoZero(dist: Distribution) {
    forall i :: 0 <= i < |dist| ==> dist[i].1 != 0
  }

  function SendBalances(balances: Balances, from: Address, to: Address, symbol: Symbol, amount: nat): Balances
    requires BalanceOf(balances, from, symbol) >= amount
  {
    balances[Holding(from, symbol) := BalanceOf(balances, from, symbol) - amount]
            [Holding(to, symbol) := BalanceOf(balances, to, symbol) + amount]
  }

  // Every listed address is known by name and holds its amount.
  predicate Covered(balances: Balances, symbol: Symbol, dist: Distribution) {
    forall i :: 0 <= i < |dist| ==> dist[i].0 != Anonymous && BalanceOf(balances, dist[i].0, symbol) >= dist[i].1
  }

  // The counter of non-zero entries is at zero although the send empties an entry: its
  // decrement goes below zero.
  predicate CountsUnderflow(counts: AccountCounts, balances: Balances, from: Address, to: Address, symbol: Symbol,
                            amount: nat)
  {
    counts.nonZero == 0 && BalanceOf(balances, to, symbol) != 0 && BalanceOf(balances, from, symbol) == amount
  }

  // The incremental counters after a send, read from the balances before it.
  function SendCounts(counts: AccountCounts, balances: Balances, from: Address, to: Address, symbol: Symbol,
                      amount: nat): AccountCounts
  {
    var isEmpty := Holding(to, symbol) !in balances;
    var isZero := BalanceOf(balances, to, symbol) == 0;
    var total := if isEmpty then counts.total + 1 else counts.total;
    var raised := if isZero || isEmpty then counts.nonZero + 1 else counts.nonZero;
    AccountCounts(total, if BalanceOf(balances, from, symbol) == amount && raised > 0 then raised - 1 else raised)
  }

  function NonZeroHoldings(balances: Balances): set<Holding> {
    set k | k in balances && balances[k] != 0
  }

  function Recount(balances: Balances): AccountCounts {
    AccountCounts(|balances|, |NonZeroHoldings(balances)|)
  }

  // ---------------------------------------------------------------- memos

  function MergedMemo(memo_: Option<string>, data_: Option<Bytes>): Option<Memo> {
    match (memo_, data_)
    case (Some(m), Some(d)) => Some([Text(m), Data(d)])
    case (Some(m), None) => Some([Text(m)])
    case (None, Some(d)) => Some([Data(d)])
    case (None, None) => None
  }

  function MigratedEvent(log: EventLog): EventLog {
    match log.content
    case SubmitEvent(_, _, memo_, _, _, _, _, _, data_, newMemo) =>
      if newMemo.Some? then log
      else
        var merged := MergedMemo(memo_, data_);
        if merged.Some? then log.(content := log.content.(memo_ := None, data_ := None, newMemo := merged)) else log
    case _ => log
  }

  function MigratedTx(tx: Multisig): Multisig {
    if tx.info.memo.Some? then tx
    else
      var merged := MergedMemo(tx.info.memo_, tx.info.data_);
      if merged.Some? then tx.(info := tx.info.(memo_ := None, data_ := None, memo := merged)) else tx
  }

  // ---------------------------------------------------------------- multisig records

  function Closed(tx: Multisig, state: TxState): Multisig {
    tx.(disabled := true, info := tx.info.(state := state))
  }

  function WithApproval(tx: Multisig, who: Address, approved: bool): Multisig {
    tx.(info := tx.info.(approvers := tx.info.approvers[who := approved]))
  }

  // The sweep finds the committed record of `t` pending and timed out.
  predicate Expires(s: State, t: nat) {
    t in s.committed.txs && !s.committed.txs[t].disabled && s.now >= s.committed.txs[t].info.timeout
  }

  // It closes the committed record, and writes it over the current one.
  function Swept(s: State, t: nat): Multisig
    requires t in s.db.multisigs
  {
    if Expires(s, t) then Closed(s.committed.txs[t], Expired) else s.db.multisigs[t]
  }

  function SubmitEventOf(token: nat, tx: Multisig): Event {
    SubmitEvent(tx.info.submitter, tx.account, tx.info.memo_, tx.info.transaction, token, tx.info.threshold,
                tx.info.timeout, tx.info.automatic, tx.info.data_, tx.info.memo)
  }

  // ---------------------------------------------------------------- tokens

  function NewOwner(sender: Address, owner: Option<OwnerArg>): Option<Address> {
    match owner
    case None => Some(sender)
    case Some(To(a)) => Some(a)
    case Some(Nobody) => None
  }

  function UpdatedInfo(info: TokenInfo, args: TokenUpdateArgs): TokenInfo {
    info.(name := args.name.GetOr(info.name),
          ticker := args.ticker.GetOr(info.ticker),
          decimals := args.decimals.GetOr(info.decimals),
          owner := match args.owner
                   case None => info.owner
                   case Some(To(a)) => Some(a)
                   case Some(Nobody) => None)
  }

  // ---------------------------------------------------------------- effects

  // On whose authority tokens move out of an address.
  datatype Authority = Direct(sender: Address) | ViaMultisig(token: nat)

  datatype Effect =
    | TakeId
    | Sent(authority: Authority, from: Address, to: Address, symbol: Symbol, amount: nat, memo: Option<Memo>)
    | Minted(minter: Address, symbol: Symbol, dist: Distribution, memo: Option<Memo>)
    | Burned(burner: Address, symbol: Symbol, dist: Distribution, memo: Option<Memo>)
    | TokenCreated(creator: Address, id: nat, args: TokenCreateArgs)
    | TokenUpdated(updater: Address, update: TokenUpdateArgs)
    | AccountCreated(id: nat, account: Account)
    | AccountChanged(changer: Address, target: Address, change: AccountChange)
    | Submitted(tx: Multisig)
    | Approved(token: nat, who: Address)
    | Revoked(token: nat, who: Address)
    | Started(token: nat)
    | Ended(token: nat, state: TxState)
    | Logged(event: Event)
    | ExpirySwept
    | MemoMigrated
    | CountsInitialised
    | NextBlock
    | TimeSet(time: nat)

  function LogEvent(s: State, content: Event): State {
    var id := s.latestTid + 1;
    s.(latestTid := id,
       db := s.db.(events := s.db.events[id := EventLog(id, s.now, content)], eventCount := s.db.eventCount + 1))
  }

  function PutTx(s: State, token: nat, tx: Multisig): State {
    s.(db := s.db.(multisigs := s.db.multisigs[token := tx]))
  }

  function PutAccount(s: State, id: Address, account: Account): State {
    s.(db := s.db.(accounts := s.db.accounts[id := account]))
  }

  function ApplySent(s: State, from: Address, to: Address, symbol: Symbol, amount: nat, memo: Option<Memo>): State
    requires BalanceOf(s.db.balances, from, symbol) >= amount
  {
    var counts := match s.db.counts
                  case None => None
                  case Some(c) => Some(SendCounts(c, s.db.balances, from, to, symbol, amount));
    LogEvent(s.(db := s.db.(balances := SendBalances(s.db.balances, from, to, symbol, amount), counts := counts)),
             SendEvent(from, to, symbol, amount, memo))
  }

  function ApplyMinted(s: State, symbol: Symbol, dist: Distribution, memo: Option<Memo>): State
    requires symbol in s.db.tokens
  {
    var info := s.db.tokens[symbol];
    var sum := SumOf(dist);
    LogEvent(s.(db := s.db.(
                  balances := s.db.balances + MintUpdates(s.db.balances, symbol, dist),
                  tokens := s.db.tokens[symbol := info.(circulating := info.circulating + sum,
                                                        total := info.total + sum)])),
             MintEvent(symbol, dist, memo))
  }

  function ApplyBurned(s: State, symbol: Symbol, dist: Distribution, memo: Option<Memo>): State
    requires symbol in s.db.tokens
    requires SumOf(dist) <= s.db.tokens[symbol].circulating && SumOf(dist) <= s.db.tokens[symbol].total
  {
    var info := s.db.tokens[symbol];
    var sum := SumOf(dist);
    LogEvent(s.(db := s.db.(
                  balances := s.db.balances + BurnUpdates(s.db.balances, symbol, dist),
                  tokens := s.db.tokens[symbol := info.(circulating := info.circulating - sum,
                                                        total := info.total - sum)])),
             BurnEvent(symbol, dist, memo))
  }

  function ApplyTokenCreated(s: State, creator: Address, id: nat, args: TokenCreateArgs): State
    requires Derivable(s.db.alloc.TokenIdentity())
  {
    var identity := s.db.alloc.TokenIdentity();
    var symbol := Derive(identity, id);
    var dist := args.distribution.GetOr([]);
    var supply := SumOf(dist);
    var info := TokenInfo(args.name, args.ticker, args.decimals, supply, supply, args.maximum,
                          NewOwner(creator, args.owner));
    LogEvent(s.(db := s.db.(
                  alloc := s.db.alloc.WithCounter(identity, id + 1),
                  tickers := s.db.tickers[symbol := args.ticker],
                  balances := s.db.balances + CreateUpdates(symbol, dist),
                  tokens := s.db.tokens[symbol := info])),
             TokenCreateEvent(symbol, args))
  }

  function ApplyTokenUpdated(s: State, args: TokenUpdateArgs): State
    requires args.symbol in s.db.tokens
  {
    var tickers := match args.ticker
                   case None => s.db.tickers
                   case Some(t) => s.db.tickers[args.symbol := t];
    var info := UpdatedInfo(s.db.tokens[args.symbol], args);
    LogEvent(s.(db := s.db.(tickers := tickers, tokens := s.db.tokens[args.symbol := info])), TokenUpdateEvent(args))
  }

  function ApplyAccountCreated(s: State, id: nat, account: Account): State
    requires Derivable(s.db.alloc.AccountIdentity())
  {
    var identity := s.db.alloc.AccountIdentity();
    var address := Derive(identity, id);
    var moved := s.(db := s.db.(alloc := s.db.alloc.WithCounter(identity, id + 1)));
    PutAccount(LogEvent(moved, AccountCreateEvent(address, account.description, account.roles, account.features)),
               address, account)
  }

  // The sweep of a commit; the store is committed right after it.
  function ApplySwept(s: State): State {
    var db := s.db.(multisigs := map t | t in s.db.multisigs :: Swept(s, t));
    s.(db := db, committed := CommittedOf(db))
  }

  // The migration commits the store itself.
  function ApplyMigratedMemos(s: State): State {
    var db := s.db.(events := map id | id in s.db.events :: MigratedEvent(s.db.events[id]),
                    multisigs := map t | t in s.db.multisigs :: MigratedTx(s.db.multisigs[t]));
    s.(db := db, memoActive := true, committed := CommittedOf(db))
  }

  /** What must hold for an effect to make sense at all; Legality.Enabled says when an effect is allowed. */
  predicate Applicable(s: State, e: Effect) {
    match e
    case Sent(_, from, _, symbol, amount, _) => BalanceOf(s.db.balances, from, symbol) >= amount
    case Minted(_, symbol, _, _) => symbol in s.db.tokens
    case Burned(_, symbol, dist, _) =>
      && symbol in s.db.tokens
      && SumOf(dist) <= s.db.tokens[symbol].circulating && SumOf(dist) <= s.db.tokens[symbol].total
    case TokenCreated(_, _, _) => Derivable(s.db.alloc.TokenIdentity())
    case TokenUpdated(_, args) => args.symbol in s.db.tokens
    case AccountCreated(_, _) => Derivable(s.db.alloc.AccountIdentity())
    case AccountChanged(_, target, _) => target in s.db.accounts
    case Approved(token, _) => token in s.db.multisigs
    case Revoked(token, _) => token in s.db.multisigs
    case Ended(token, _) => token in s.db.multisigs
    case _ => true
  }

  /** The state after an effect; an effect that makes no sense changes nothing. */
  function Apply(s: State, e: Effect): State {
    if !Applicable(s, e) then s else
    match e
    case TakeId => s.(latestTid := s.latestTid + 1)
    case Sent(_, from, to, symbol, amount, memo) => ApplySent(s, from, to, symbol, amount, memo)
    case Minted(_, symbol, dist, memo) => ApplyMinted(s, symbol, dist, memo)
    case Burned(_, symbol, dist, memo) => ApplyBurned(s, symbol, dist, memo)
    case TokenCreated(creator, id, args) => ApplyTokenCreated(s, creator, id, args)
    case TokenUpdated(_, args) => ApplyTokenUpdated(s, args)
    case AccountCreated(id, account) => ApplyAccountCreated(s, id, account)
    case AccountChanged(_, target, change) =>
      LogEvent(PutAccount(s, target, ApplyChange(s.db.accounts[target], change)), AccountChangeEvent(target, change))
    case Submitted(tx) =>
      var token := s.latestTid + 1;
      LogEvent(PutTx(s.(latestTid := token), token, tx), SubmitEventOf(token, tx))
    case Approved(token, who) =>
      var tx := s.db.multisigs[token];
      LogEvent(PutTx(s, token, WithApproval(tx, who, true)), ApproveEvent(tx.account, token, who))
    case Revoked(token, who) =>
      var tx := s.db.multisigs[token];
      LogEvent(PutTx(s, token, WithApproval(tx, who, false)), RevokeEvent(tx.account, token, who))
    case Started(_) => s
    case Ended(token, state) => PutTx(s, token, Closed(s.db.multisigs[token], state))
    case Logged(event) => LogEvent(s, event)
    case ExpirySwept => ApplySwept(s)
    case MemoMigrated => ApplyMigratedMemos(s)
    case CountsInitialised => s.(db := s.db.(counts := Some(Recount(s.db.balances))))
    case NextBlock =>
      s.(latestTid := EventBase(s.db.height), db := s.db.(height := s.db.height + 1), committed := CommittedOf(s.db))
    case TimeSet(time) => s.(now := time)
  }

  // ---------------------------------------------------------------- traces

  function After(s: State, es: seq<Effect>): State {
    if es == [] then s else Apply(After(s, es[..|es| - 1]), es[|es| - 1])
  }

  // A state together with the effects that led to it.
  datatype Machine = Machine(s: State, trace: seq<Effect>)

  function Do(m: Machine, e: Effect): Machine {
    Machine(Apply(m.s, e), m.trace + [e])
  }
}
