/** The ledger's operations: which effects each performs, in which order, and when it refuses.
    Effects performed before a refusal stay performed. */
module Operations {
  import opened LedgerTypes
  import opened Allocation
  import opened AccountRules
  import opened LedgerMachine
  import opened Keys

  // `Overflow` is the abort of the process when nested executions exhaust the call stack.
  datatype Run = Done(m: Machine, r: Result<Value>) | Overflow

  // ---------------------------------------------------------------- sending

  function StorageSend(m: Machine, authority: Authority, from: Address, to: Address, symbol: Symbol, amount: nat,
                       memo: Option<Memo>): (o: Run)
    ensures o.Done?
  {
    if from == to then Done(m, Err(DestinationIsSource))
    else if amount == 0 then Done(m, Err(AmountIsZero))
    else if to == Anonymous || from == Anonymous then Done(m, Err(AnonymousCannotHoldFunds))
    else if amount > BalanceOf(m.s.db.balances, from, symbol) then Done(m, Err(InsufficientFunds))
    else if m.s.db.counts.Some? && CountsUnderflow(m.s.db.counts.value, m.s.db.balances, from, to, symbol, amount)
    then Done(m, Err(CounterUnderflow))
    else Done(Do(m, Sent(authority, from, to, symbol, amount, memo)), Ok(Nothing))
  }

  // An owner passes; anyone else needs the feature and one of the roles.
  function VerifyAccountRole(account: Account, sender: Address, hasFeature: bool, roles: set<Role>): Result<()> {
    if account.HasRole(sender, Owner) then Ok(())
    else if !hasFeature then Err(Unauthorized)
    else if account.HasAnyRole(sender, roles) then Ok(())
    else Err(NeedsRole)
  }

  function VerifyTokenAcl(db: Store, sender: Address, address: Address, role: Role): Result<()> {
    if address == sender then Ok(())
    else
      match EnabledAccount(db, address)
      case None => Err(Unauthorized)
      case Some(account) => VerifyAccountRole(account, sender, account.features.tokens, {role})
  }

  function Send(m: Machine, sender: Address, from: Option<Address>, to: Address, symbol: Symbol, amount: nat,
                memo: Option<Memo>): (o: Run)
    ensures o.Done?
  {
    var source := from.GetOr(sender);
    if source == Illegal then Done(m, Err(Unauthorized))
    else if source == sender then StorageSend(m, Direct(sender), source, to, symbol, amount, memo)
    else
      match EnabledAccount(m.s.db, source)
      case None => Done(m, Err(Unauthorized))
      case Some(account) =>
        match VerifyAccountRole(account, sender, account.features.ledger, {CanLedgerTransact})
        case Err(e) => Done(m, Err(e))
        case Ok(_) => StorageSend(m, Direct(sender), source, to, symbol, amount, memo)
  }

  // ---------------------------------------------------------------- minting and burning

  // The running check of the mint loop, entry by entry.
  function MintCheck(info: TokenInfo, dist: Distribution): Result<()> {
    if dist == [] then Ok(())
    else
      var (_, amount) := dist[|dist| - 1];
      match MintCheck(info, dist[..|dist| - 1])
      case Err(e) => Err(e)
      case Ok(_) =>
        if amount == 0 then Err(ZeroDistributed)
        else if info.maximum.Some? && info.circulating + SumOf(dist) > info.maximum.value then Err(OverMaximum)
        else Ok(())
  }

  // The loop of the burn: every amount must be positive and covered.
  function BurnCheck(balances: Balances, symbol: Symbol, dist: Distribution): (r: Result<()>)
    ensures r.Err? ==> r.error == ZeroDistributed || r.error == MissingFunds
  {
    if dist == [] then Ok(())
    else
      var (who, amount) := dist[|dist| - 1];
      match BurnCheck(balances, symbol, dist[..|dist| - 1])
      case Err(e) => Err(e)
      case Ok(_) =>
        if amount == 0 then Err(ZeroDistributed)
        else if BalanceOf(balances, who, symbol) < amount || who == Anonymous then Err(MissingFunds)
        else Ok(())
  }

  // The store accepts the balances of a distribution only in the order of their printed keys.
  predicate InStoreOrder(text: Address -> Bytes, symbol: Symbol, dist: Distribution) {
    forall i, j :: 0 <= i < j < |dist| ==>
      LexLess(BalanceKey(text, Holding(dist[i].0, symbol)), BalanceKey(text, Holding(dist[j].0, symbol)))
  }

  // Symbols are looked up by a scan: a token created in this block is not found.
  predicate Listed(s: State, symbol: Symbol) {
    symbol in s.committed.symbols && symbol in s.db.tokens
  }

  function Mint(m: Machine, sender: Address, symbol: Symbol, dist: Distribution, memo: Option<Memo>): (o: Run)
    ensures o.Done?
  {
    if sender != m.s.db.alloc.TokenIdentity() then Done(m, Err(InvalidSender))
    else if !Listed(m.s, symbol) then Done(m, Err(SymbolNotFound))
    else
      match MintCheck(m.s.db.tokens[symbol], dist)
      case Err(e) => Done(m, Err(e))
      case Ok(_) =>
        if !InStoreOrder(m.s.text, symbol, dist) then Done(m, Err(BatchRefused))
        else Done(Do(m, Minted(sender, symbol, dist, memo)), Ok(Nothing))
  }

  // The supply subtraction aborts when it would go below zero.
  function Burn(m: Machine, sender: Address, symbol: Symbol, dist: Distribution, memo: Option<Memo>,
                errorOnUnderBurn: Option<bool>): (o: Run)
    ensures o.Done?
  {
    if sender != m.s.db.alloc.TokenIdentity() then Done(m, Err(InvalidSender))
    else if !Listed(m.s, symbol) then Done(m, Err(SymbolNotFound))
    else if errorOnUnderBurn == Some(false) then Done(m, Err(PartialBurnDisabled))
    else
      match BurnCheck(m.s.db.balances, symbol, dist)
      case Err(e) => Done(m, Err(e))
      case Ok(_) =>
        var info := m.s.db.tokens[symbol];
        if info.circulating < SumOf(dist) || info.total < SumOf(dist) then Done(m, Err(SupplyUnderflow))
        else if !InStoreOrder(m.s.text, symbol, dist) then Done(m, Err(BatchRefused))
        else Done(Do(m, Burned(sender, symbol, dist, memo)), Ok(Nothing))
  }

  // ---------------------------------------------------------------- tokens

  function CreateToken(m: Machine, sender: Address, args: TokenCreateArgs): (o: Run)
    ensures o.Done?
  {
    var db := m.s.db;
    var acl := match args.owner
               case Some(To(address)) => VerifyTokenAcl(db, sender, address, CanTokensCreate)
               case _ => Ok(());
    if sender != db.alloc.TokenIdentity() then Done(m, Err(InvalidSender))
    else if acl.Err? then Done(m, Err(acl.error))
    else if args.ticker in db.tickers.Values then Done(m, Err(TickerExists))
    else
      match NextSubresource(db.alloc, db.alloc.TokenIdentity(), m.s.committed.symbols)
      case Err(e) => Done(m, Err(e))
      case Ok((_, symbol)) =>
        Done(Do(m, TokenCreated(sender, if symbol.Subresource? then symbol.id else 0, args)), Ok(NewSymbol(symbol)))
  }

  function UpdateToken(m: Machine, sender: Address, args: TokenUpdateArgs): (o: Run)
    ensures o.Done?
  {
    var db := m.s.db;
    if args.symbol !in db.tokens then Done(m, Err(SymbolNotFound))
    else
      match db.tokens[args.symbol].owner
      case None => Done(m, Err(TokenImmutable))
      case Some(owner) =>
        match VerifyTokenAcl(db, sender, owner, CanTokensUpdate)
        case Err(e) => Done(m, Err(e))
        case Ok(_) =>
          if !Listed(m.s, args.symbol) then Done(m, Err(SymbolNotFound))
          else if args.ticker.Some? && args.ticker.value in db.tickers.Values then Done(m, Err(TickerExists))
          else Done(Do(m, TokenUpdated(sender, args)), Ok(Nothing))
  }

  // ---------------------------------------------------------------- accounts

  function StorageAddAccount(m: Machine, account: Account): (o: Run)
    ensures o.Done?
  {
    var al := m.s.db.alloc;
    match NextSubresource(al, al.AccountIdentity(), m.s.committed.symbols)
    case Err(e) => Done(m, Err(e))
    case Ok((_, id)) =>
      Done(Do(m, AccountCreated(if id.Subresource? then id.id else 0, Finished(account, id))), Ok(NewAccount(id)))
  }

  function AddAccount(m: Machine, creator: Address, args: CreateArgs): (o: Run)
    ensures o.Done?
  {
    if !ValidRoles(Fresh(creator, args)) then Done(m, Err(UnknownRole))
    else StorageAddAccount(m, Fresh(creator, args))
  }

  function CreateAccount(m: Machine, sender: Address, args: CreateArgs): (o: Run)
    ensures o.Done?
  {
    if NoFeatures(args.features) then Done(m, Err(EmptyFeature)) else AddAccount(m, sender, args)
  }

  function StorageChangeAccount(m: Machine, sender: Address, target: Address, change: AccountChange): (o: Run)
    ensures o.Done?
  {
    match EnabledAccount(m.s.db, target)
    case None => Done(m, Err(UnknownAccount))
    case Some(account) =>
      if !account.HasRole(sender, Owner) then Done(m, Err(NeedsRole))
      else
        match TryChange(target, account, change)
        case Refused(e) => Done(m, Err(e))
        case Unchanged => Done(m, Ok(Nothing))
        case Changed(_, logged) => Done(Do(m, AccountChanged(sender, target, logged)), Ok(Nothing))
  }

  function ChangeAccount(m: Machine, sender: Address, target: Address, change: AccountChange): (o: Run)
    ensures o.Done?
  {
    if change.AddFeatures? && NoFeatures(change.features) then Done(m, Err(EmptyFeature))
    else StorageChangeAccount(m, sender, target, change)
  }

  // ---------------------------------------------------------------- multisig transactions

  // Only an owner may override a default of the account.
  function Overridden<T>(given: Option<T>, isOwner: bool, default: T): Result<T> {
    match given
    case None => Ok(default)
    case Some(v) => if isOwner then Ok(v) else Err(NeedsRole)
  }

  function NewTx(s: State, sender: Address, arg: SubmitArgs, threshold: nat, timeout: nat, automatic: bool): Multisig {
    Multisig(
      arg.account,
      TxInfo(if s.memoActive then None else arg.memo_,
             if s.memoActive then arg.memo else None,
             arg.transaction, sender, map[sender := true], threshold, automatic,
             s.now + Min(timeout, MULTISIG_MAXIMUM_TIMEOUT_IN_SECS),
             if s.memoActive then None else arg.data_,
             Pending),
      s.now, false)
  }

  // An identifier is taken before anything is checked.
  function Submit(m: Machine, sender: Address, arg: SubmitArgs): (o: Run)
    ensures o.Done?
  {
    var refused := Do(m, TakeId);
    match EnabledAccount(m.s.db, arg.account)
    case None => Done(refused, Err(UnknownAccount))
    case Some(account) =>
      var isOwner := account.HasRole(sender, Owner);
      if !account.HasAnyRole(sender, {CanMultisigSubmit, Owner}) then Done(refused, Err(NeedsRole))
      else if account.features.multisig.None? then Done(refused, Err(FeatureNotFound))
      else
        var f := account.features.multisig.value;
        var threshold := Overridden(arg.threshold, isOwner, f.threshold.GetOr(MULTISIG_DEFAULT_THRESHOLD));
        var timeout := Overridden(arg.timeout, isOwner, f.timeout.GetOr(MULTISIG_DEFAULT_TIMEOUT_IN_SECS));
        var automatic := Overridden(arg.automatic, isOwner, f.automatic.GetOr(MULTISIG_DEFAULT_EXECUTE_AUTOMATICALLY));
        if threshold.Err? || timeout.Err? || automatic.Err? then Done(refused, Err(NeedsRole))
        else
          Done(Do(m, Submitted(NewTx(m.s, sender, arg, threshold.value, timeout.value, automatic.value))),
               Ok(NewToken(m.s.latestTid + 1)))
  }

  /** The pending transaction at `token` together with its enabled account, or the refusal. */
  function LookUp(db: Store, token: nat): (r: Result<(Multisig, Account)>)
    ensures r.Ok? ==> PendingTx(db, token) && r.value.0 == db.multisigs[token]
    ensures r.Ok? ==> EnabledAccount(db, r.value.0.account) == Some(r.value.1)
  {
    if token !in db.multisigs then Err(TransactionNotFound)
    else if db.multisigs[token].disabled then Err(ExpiredOrWithdrawn)
    else
      match EnabledAccount(db, db.multisigs[token].account)
      case None => Err(UnknownAccount)
      case Some(account) => Ok((db.multisigs[token], account))
  }

  predicate CanApprove(account: Account, who: Address) {
    account.HasRole(who, CanMultisigApprove) || account.HasRole(who, CanMultisigSubmit) || account.HasRole(who, Owner)
  }

  predicate CanExecute(tx: Multisig, account: Account, who: Address) {
    account.HasRole(who, Owner) || tx.info.submitter == who
  }

  function Revoke(m: Machine, sender: Address, token: nat): (o: Run)
    ensures o.Done?
  {
    match LookUp(m.s.db, token)
    case Err(e) => Done(m, Err(e))
    case Ok((tx, account)) =>
      if sender in tx.info.approvers || CanApprove(account, sender)
      then Done(Do(m, Revoked(token, sender)), Ok(Executed(false)))
      else Done(m, Err(CannotApprove))
  }

  function DisableTx(m: Machine, token: nat, state: TxState): (o: Run)
    ensures o.Done?
  {
    if token !in m.s.db.multisigs then Done(m, Err(TransactionNotFound))
    else if m.s.db.multisigs[token].disabled then Done(m, Err(ExpiredOrWithdrawn))
    else Done(Do(m, Ended(token, state)), Ok(Nothing))
  }

  function Withdraw(m: Machine, sender: Address, token: nat): (o: Run)
    ensures o.Done?
  {
    match LookUp(m.s.db, token)
    case Err(e) => Done(m, Err(e))
    case Ok((tx, account)) =>
      if !CanExecute(tx, account, sender) then Done(m, Err(CannotExecute))
      else Done(Do(DisableTx(m, token, Withdrawn).m, Logged(WithdrawEvent(tx.account, token, sender))), Ok(Nothing))
  }

  function Quietly(o: Run): Run {
    match o
    case Overflow => Overflow
    case Done(m, Ok(_)) => Done(m, Ok(Nothing))
    case Done(_, Err(_)) => o
  }

  /** Runs the payload of `tx` in the name of its account. */
  function RunPayload(depth: nat, m: Machine, token: nat, tx: Multisig): Run
    decreases depth, 2
  {
    var sender := tx.account;
    match tx.info.transaction
    case TransferPayload(None, _, _, _, _) => Done(m, Err(InvalidFrom))
    case TransferPayload(Some(from), to, symbol, amount, memo) =>
      (match EnabledAccount(m.s.db, from)
       case None => Done(m, Err(UnknownAccount))
       case Some(account) =>
         if !account.HasAnyRole(sender, {CanLedgerTransact, Owner}) then Done(m, Err(NeedsRole))
         else StorageSend(m, ViaMultisig(token), from, to, symbol, amount, memo))
    case CreateAccountPayload(args) => AddAccount(m, sender, args)
    case ChangeAccountPayload(target, change) => StorageChangeAccount(m, sender, target, change)
    case SubmitPayload(arg) => Submit(m, sender, arg)
    case ApprovePayload(t) => Quietly(Approve(depth, m, sender, t))
    case RevokePayload(t) => Quietly(Revoke(m, sender, t))
    case ExecutePayload(t) => Quietly(Execute(depth, m, sender, t))
    case WithdrawPayload(t) => Withdraw(m, sender, t)
    case UnsupportedPayload => Done(m, Err(Unsupported))
  }

  /** Runs a payload and closes its transaction whatever the payload answered. */
  function ExecuteInternal(depth: nat, m: Machine, token: nat, tx: Multisig, automatically: bool): Run
    decreases depth, 0
  {
    if depth == 0 then Overflow
    else
      match RunPayload(depth - 1, Do(m, Started(token)), token, tx)
      case Overflow => Overflow
      case Done(m1, answer) =>
        match DisableTx(m1, token, if automatically then ExecutedAutomatically else ExecutedManually)
        case Overflow => Overflow
        case Done(m2, Err(e)) => Done(m2, Err(e))
        case Done(m2, Ok(_)) => Done(m2, Ok(Responded(Response(tx.account, answer, m2.s.now))))
  }

  function LogExecution(o: Run, account: Address, token: nat, executer: Option<Address>): Run {
    match o
    case Overflow => Overflow
    case Done(_, Err(_)) => o
    case Done(m, Ok(response)) =>
      Done(Do(m, Logged(ExecuteEvent(account, token, executer, response))),
           Ok(if executer.None? then Executed(true) else response))
  }

  function Approve(depth: nat, m: Machine, sender: Address, token: nat): Run
    decreases depth, 1
  {
    match LookUp(m.s.db, token)
    case Err(e) => Done(m, Err(e))
    case Ok((tx, account)) =>
      if !CanApprove(account, sender) then Done(m, Err(CannotApprove))
      else
        var m1 := Do(m, Approved(token, sender));
        var tx1 := WithApproval(tx, sender, true);
        if tx1.info.automatic && tx1.ShouldExecute()
        then LogExecution(ExecuteInternal(depth, m1, token, tx1, true), tx.account, token, None)
        else Done(m1, Ok(Executed(false)))
  }

  function Execute(depth: nat, m: Machine, sender: Address, token: nat): Run
    decreases depth, 1
  {
    match LookUp(m.s.db, token)
    case Err(e) => Done(m, Err(e))
    case Ok((tx, account)) =>
      if !CanExecute(tx, account, sender) || !tx.ShouldExecute() then Done(m, Err(CannotExecute))
      else LogExecution(ExecuteInternal(depth, m, token, tx, false), tx.account, token, Some(sender))
  }

  // ---------------------------------------------------------------- blocks

  // The migrations that become active at the block being committed are given.
  function Commit(m: Machine, memo: bool, counts: bool): Machine {
    var m1 := Do(m, ExpirySwept);
    var m2 := if memo then Do(m1, MemoMigrated) else m1;
    var m3 := if counts then Do(m2, CountsInitialised) else m2;
    Do(m3, NextBlock)
  }

  // ---------------------------------------------------------------- calls

  datatype Call =
    | SendCall(sender: Address, from: Option<Address>, to: Address, symbol: Symbol, amount: nat, memo: Option<Memo>)
    | MintCall(sender: Address, symbol: Symbol, dist: Distribution, memo: Option<Memo>)
    | BurnCall(sender: Address, symbol: Symbol, dist: Distribution, memo: Option<Memo>, errorOnUnderBurn: Option<bool>)
    | CreateTokenCall(sender: Address, token: TokenCreateArgs)
    | UpdateTokenCall(sender: Address, update: TokenUpdateArgs)
    | CreateAccountCall(sender: Address, create: CreateArgs)
    | ChangeAccountCall(sender: Address, target: Address, change: AccountChange)
    | SubmitCall(sender: Address, submit: SubmitArgs)
    | ApproveCall(sender: Address, id: nat)
    | RevokeCall(sender: Address, id: nat)
    | ExecuteCall(sender: Address, id: nat)
    | WithdrawCall(sender: Address, id: nat)
    | BeginBlockCall(time: Option<nat>)
    | CommitCall(memoMigration: bool, countsMigration: bool)

  function Answer(depth: nat, m: Machine, c: Call): Run {
    match c
    case SendCall(sender, from, to, symbol, amount, memo) => Send(m, sender, from, to, symbol, amount, memo)
    case MintCall(sender, symbol, dist, memo) => Mint(m, sender, symbol, dist, memo)
    case BurnCall(sender, symbol, dist, memo, e) => Burn(m, sender, symbol, dist, memo, e)
    case CreateTokenCall(sender, args) => CreateToken(m, sender, args)
    case UpdateTokenCall(sender, args) => UpdateToken(m, sender, args)
    case CreateAccountCall(sender, args) => CreateAccount(m, sender, args)
    case ChangeAccountCall(sender, target, change) => ChangeAccount(m, sender, target, change)
    case SubmitCall(sender, arg) => Submit(m, sender, arg)
    case ApproveCall(sender, id) => Approve(depth, m, sender, id)
    case RevokeCall(sender, id) => Revoke(m, sender, id)
    case ExecuteCall(sender, id) => Execute(depth, m, sender, id)
    case WithdrawCall(sender, id) => Withdraw(m, sender, id)
    case BeginBlockCall(time) => Done(if time.Some? then Do(m, TimeSet(time.value)) else m, Ok(Nothing))
    case CommitCall(memo, counts) => Done(Commit(m, memo, counts), Ok(Nothing))
  }

  /** A run of calls; it stops for good if one of them exhausts the stack. */
  function Calls(depth: nat, m: Machine, calls: seq<Call>): Option<Machine> {
    if calls == [] then Some(m)
    else
      match Calls(depth, m, calls[..|calls| - 1])
      case None => None
      case Some(m1) =>
        match Answer(depth, m1, calls[|calls| - 1])
        case Overflow => None
        case Done(m2, _) => Some(m2)
  }
}
