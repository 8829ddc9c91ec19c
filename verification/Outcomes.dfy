/** What every call has to answer and to leave behind, as a relation between the state before, the
    answer and the state after. It is spelled out field actor field, refusals included, and uses none of
    the functions that perform an operation or an effect. */
module Outcomes {
  import opened LedgerTypes
  import opened Allocation
  import opened LedgerMachine
  import opened Operations
  import opened Legality

  // The next event is logged and, apart from that, the store is `changed`.
  ghost predicate LogsOne(s: State, s': State, changed: Store, content: Event) {
    s' == s.(latestTid := s.latestTid + 1,
             db := changed.(events := s.db.events[s.latestTid + 1 := EventLog(s.latestTid + 1, s.now, content)],
                            eventCount := s.db.eventCount + 1))
  }

  // ---------------------------------------------------------------- moving tokens

  predicate Movable(balances: Balances, from: Address, to: Address, symbol: Symbol, amount: nat) {
    from != Anonymous && to != Anonymous && from != to && 0 < amount <= BalanceOf(balances, from, symbol)
  }

  // The move empties its source for a receiver that holds some already, while the counter says
  // that nobody does.
  predicate Miscounted(db: Store, from: Address, to: Address, symbol: Symbol, amount: nat) {
    && db.counts.Some? && db.counts.value.nonZero == 0
    && BalanceOf(db.balances, from, symbol) == amount && BalanceOf(db.balances, to, symbol) > 0
  }

  // One address holds the amount less, another one more, and every other entry is as before.
  predicate Shifted(before: Balances, after: Balances, from: Address, to: Address, symbol: Symbol, amount: nat) {
    && BalanceOf(after, from, symbol) + amount == BalanceOf(before, from, symbol)
    && BalanceOf(after, to, symbol) == BalanceOf(before, to, symbol) + amount
    && after.Keys == before.Keys + {Holding(to, symbol)}
    && forall k :: k in before && k != Holding(from, symbol) && k != Holding(to, symbol) ==> after[k] == before[k]
  }

  // One more entry if the receiver had none; one more that is positive if the receiver held
  // nothing, one less if the source is emptied.
  predicate Recounted(before: Option<AccountCounts>, after: Option<AccountCounts>, balances: Balances, from: Address,
                      to: Address, symbol: Symbol, amount: nat)
  {
    match (before, after)
    case (None, None) => true
    case (Some(c), Some(d)) =>
      && d.total == c.total + (if Holding(to, symbol) in balances then 0 else 1)
      && d.nonZero == c.nonZero + (if BalanceOf(balances, to, symbol) == 0 then 1 else 0)
                      - (if BalanceOf(balances, from, symbol) == amount then 1 else 0)
    case _ => false
  }

  // The first of the reasons to refuse, in this order.
  predicate MoveRefused(db: Store, from: Address, to: Address, symbol: Symbol, amount: nat, e: Error) {
    match e
    case DestinationIsSource => from == to
    case AmountIsZero => from != to && amount == 0
    case AnonymousCannotHoldFunds => from != to && amount > 0 && (from == Anonymous || to == Anonymous)
    case InsufficientFunds =>
      && from != to && amount > 0 && from != Anonymous && to != Anonymous
      && amount > BalanceOf(db.balances, from, symbol)
    case CounterUnderflow => Movable(db.balances, from, to, symbol, amount) && Miscounted(db, from, to, symbol, amount)
    case _ => false
  }

  /** Moving tokens out of a source that may be spent. */
  ghost predicate MoveOutcome(s: State, from: Address, to: Address, symbol: Symbol, amount: nat, memo: Option<Memo>,
                              r: Result<Value>, s': State)
  {
    match r
    case Err(e) => s' == s && MoveRefused(s.db, from, to, symbol, amount, e)
    case Ok(value) =>
      && value == Nothing
      && Movable(s.db.balances, from, to, symbol, amount) && !Miscounted(s.db, from, to, symbol, amount)
      && Shifted(s.db.balances, s'.db.balances, from, to, symbol, amount)
      && Recounted(s.db.counts, s'.db.counts, s.db.balances, from, to, symbol, amount)
      && LogsOne(s, s', s.db.(balances := s'.db.balances, counts := s'.db.counts),
                 SendEvent(from, to, symbol, amount, memo))
  }

  /** A send: the source is named or the sender's own, and the sender is it or holds a role there. */
  ghost predicate SendOutcome(s: State, sender: Address, from: Option<Address>, to: Address, symbol: Symbol,
                              amount: nat, memo: Option<Memo>, r: Result<Value>, s': State)
  {
    var source := if from.Some? then from.value else sender;
    if source != Illegal && (source == sender || HoldsTransactRole(s.db, source, sender))
    then MoveOutcome(s, source, to, symbol, amount, memo, r, s')
    else s' == s && (r == Err(Unauthorized) || r == Err(NeedsRole))
  }

  /** A transfer by a multisig account: the source is named, and gives the account a role, whatever
      its features. */
  ghost predicate TransferOutcome(s: State, actor: Address, from: Option<Address>, to: Address, symbol: Symbol,
                                  amount: nat, memo: Option<Memo>, r: Result<Value>, s': State)
  {
    if from.None? then r == Err(InvalidFrom) && s' == s
    else
      match EnabledAccount(s.db, from.value)
      case None => r == Err(UnknownAccount) && s' == s
      case Some(account) =>
        if account.HasRole(actor, Owner) || account.HasRole(actor, CanLedgerTransact)
        then MoveOutcome(s, from.value, to, symbol, amount, memo, r, s')
        else r == Err(NeedsRole) && s' == s
  }

  // ---------------------------------------------------------------- supplies

  predicate AllPositive(dist: Distribution) {
    forall i :: 0 <= i < |dist| ==> dist[i].1 > 0
  }

  predicate IsListed(dist: Distribution, who: Address) {
    exists i :: 0 <= i < |dist| && dist[i].0 == who
  }

  // The entries of the addresses a distribution does not list are as before.
  predicate OthersKept(before: Balances, after: Balances, symbol: Symbol, dist: Distribution) {
    && (forall k :: k in after ==> k in before || (k.symbol == symbol && IsListed(dist, k.owner)))
    && (forall k :: k in before ==>
          k in after && (after[k] == before[k] || (k.symbol == symbol && IsListed(dist, k.owner))))
  }

  /** A mint by the token identity: every listed address holds its amount more, both supplies grow by
      the sum, and nothing else of the token changes. */
  ghost predicate MintOutcome(s: State, sender: Address, symbol: Symbol, dist: Distribution, memo: Option<Memo>,
                              r: Result<Value>, s': State)
  {
    match r
    case Err(e) =>
      && s' == s
      && (match e
          case InvalidSender => sender != s.db.alloc.TokenIdentity()
          case SymbolNotFound => symbol !in s.db.tokens || symbol !in s.committed.symbols
          case ZeroDistributed => !AllPositive(dist)
          case OverMaximum =>
            && symbol in s.db.tokens && s.db.tokens[symbol].maximum.Some? && dist != []
            && s.db.tokens[symbol].circulating + SumOf(dist) > s.db.tokens[symbol].maximum.value
          case BatchRefused => !InStoreOrder(s.text, symbol, dist)
          case _ => false)
    case Ok(value) =>
      && value == Nothing && sender == s.db.alloc.TokenIdentity()
      && symbol in s.db.tokens && symbol in s.committed.symbols
      && var info, after := s.db.tokens[symbol], s'.db.balances;
      && AllPositive(dist) && InStoreOrder(s.text, symbol, dist)
      && (info.maximum == None || dist == [] || info.circulating + SumOf(dist) <= info.maximum.value)
      && (forall i :: 0 <= i < |dist| ==>
            Holding(dist[i].0, symbol) in after
            && after[Holding(dist[i].0, symbol)] == BalanceOf(s.db.balances, dist[i].0, symbol) + dist[i].1)
      && OthersKept(s.db.balances, after, symbol, dist)
      && LogsOne(s, s', s.db.(balances := after, tokens := s.db.tokens[symbol :=
                   TokenInfo(info.name, info.ticker, info.decimals, info.total + SumOf(dist),
                             info.circulating + SumOf(dist), info.maximum, info.owner)]),
                 MintEvent(symbol, dist, memo))
  }

  /** A burn, likewise with amounts less; partial burns are not supported. */
  ghost predicate BurnOutcome(s: State, sender: Address, symbol: Symbol, dist: Distribution, memo: Option<Memo>,
                              errorOnUnderBurn: Option<bool>, r: Result<Value>, s': State)
  {
    match r
    case Err(e) =>
      && s' == s
      && (match e
          case InvalidSender => sender != s.db.alloc.TokenIdentity()
          case SymbolNotFound => symbol !in s.db.tokens || symbol !in s.committed.symbols
          case PartialBurnDisabled => errorOnUnderBurn == Some(false)
          case ZeroDistributed => !AllPositive(dist)
          case MissingFunds => !Covered(s.db.balances, symbol, dist)
          case SupplyUnderflow =>
            && symbol in s.db.tokens
            && (SumOf(dist) > s.db.tokens[symbol].circulating || SumOf(dist) > s.db.tokens[symbol].total)
          case BatchRefused => !InStoreOrder(s.text, symbol, dist)
          case _ => false)
    case Ok(value) =>
      && value == Nothing && sender == s.db.alloc.TokenIdentity()
      && symbol in s.db.tokens && symbol in s.committed.symbols && errorOnUnderBurn != Some(false)
      && var info, after := s.db.tokens[symbol], s'.db.balances;
      && AllPositive(dist) && InStoreOrder(s.text, symbol, dist)
      && SumOf(dist) <= info.circulating && SumOf(dist) <= info.total
      && (forall i :: 0 <= i < |dist| ==>
            && dist[i].0 != Anonymous && Holding(dist[i].0, symbol) in after
            && after[Holding(dist[i].0, symbol)] + dist[i].1 == BalanceOf(s.db.balances, dist[i].0, symbol))
      && OthersKept(s.db.balances, after, symbol, dist)
      && LogsOne(s, s', s.db.(balances := after, tokens := s.db.tokens[symbol :=
                   TokenInfo(info.name, info.ticker, info.decimals, info.total - SumOf(dist),
                             info.circulating - SumOf(dist), info.maximum, info.owner)]),
                 BurnEvent(symbol, dist, memo))
  }

  // ---------------------------------------------------------------- tokens

  // The first identifier from the counter on whose address is no symbol a scan finds.
  ghost predicate FirstFree(al: Allocator, identity: Address, symbols: set<Symbol>, id: nat) {
    && Derivable(identity) && al.Counter(identity) <= id <= 0x7FFF_FFFF
    && Subresource(identity.hash, id) !in symbols
    && forall k: nat :: al.Counter(identity) <= k < id ==> Subresource(identity.hash, k) in symbols
  }

  // The counter is past the last identifier, or every one left is a symbol.
  ghost predicate NoneFree(al: Allocator, identity: Address, symbols: set<Symbol>) {
    || al.Counter(identity) > 0x7FFF_FFFF
    || (&& Derivable(identity)
        && forall k: nat :: al.Counter(identity) <= k <= 0x7FFF_FFFF ==> Subresource(identity.hash, k) in symbols)
  }

  // No address can be derived from the identity.
  predicate NotDerivable(al: Allocator, identity: Address) {
    al.Counter(identity) <= 0x7FFF_FFFF && !Derivable(identity)
  }

  /** A creation by the token identity: the new symbol starts with the listed balances, their sum as
      both supplies, and the owner named, or the sender if none is. */
  ghost predicate CreateTokenOutcome(s: State, sender: Address, args: TokenCreateArgs, r: Result<Value>, s': State) {
    var db, identity := s.db, s.db.alloc.TokenIdentity();
    var actsFor := args.owner.Some? && args.owner.value.To? ==>
                     ActsFor(db, sender, args.owner.value.owner, CanTokensCreate);
    match r
    case Err(e) =>
      && s' == s
      && (match e
          case InvalidSender => sender != identity
          case Unauthorized => !actsFor
          case NeedsRole => !actsFor
          case TickerExists => args.ticker in db.tickers.Values
          case SubresourceExhausted => NoneFree(db.alloc, identity, s.committed.symbols)
          case InvalidIdentity => NotDerivable(db.alloc, identity)
          case _ => false)
    case Ok(value) =>
      && sender == identity && actsFor && args.ticker !in db.tickers.Values
      && value.NewSymbol? && value.symbol.Subresource?
      && FirstFree(db.alloc, identity, s.committed.symbols, value.symbol.id)
      && value.symbol == Subresource(identity.hash, value.symbol.id)
      && var symbol, after := value.symbol, s'.db.balances;
      var dist := args.distribution.GetOr([]);
      && (forall i :: 0 <= i < |dist| ==>
            Holding(dist[i].0, symbol) in after && after[Holding(dist[i].0, symbol)] == dist[i].1)
      && OthersKept(db.balances, after, symbol, dist)
      && LogsOne(s, s', db.(balances := after, tickers := db.tickers[symbol := args.ticker],
                            alloc := db.alloc.WithCounter(identity, symbol.id + 1),
                            tokens := db.tokens[symbol :=
                              TokenInfo(args.name, args.ticker, args.decimals, SumOf(dist), SumOf(dist), args.maximum,
                                        match args.owner
                                        case Some(To(owner)) => Some(owner)
                                        case Some(Nobody) => None
                                        case None => Some(sender))]),
                 TokenCreateEvent(symbol, args))
  }

  // `after` has each field that is given, and the others of `before`; supplies and maximum stay.
  predicate Overwritten(before: TokenInfo, args: TokenUpdateArgs, after: TokenInfo) {
    && after.name == (if args.name.Some? then args.name.value else before.name)
    && after.ticker == (if args.ticker.Some? then args.ticker.value else before.ticker)
    && after.decimals == (if args.decimals.Some? then args.decimals.value else before.decimals)
    && after.total == before.total && after.circulating == before.circulating && after.maximum == before.maximum
    && after.owner == (match args.owner
                       case None => before.owner
                       case Some(Nobody) => None
                       case Some(To(owner)) => Some(owner))
  }

  /** An update by whoever may act for the owner. */
  ghost predicate UpdateTokenOutcome(s: State, sender: Address, args: TokenUpdateArgs, r: Result<Value>, s': State) {
    var db, symbol := s.db, args.symbol;
    match r
    case Err(e) =>
      && s' == s
      && (match e
          case SymbolNotFound => symbol !in db.tokens || symbol !in s.committed.symbols
          case TokenImmutable => symbol in db.tokens && db.tokens[symbol].owner.None?
          case TickerExists => args.ticker.Some? && args.ticker.value in db.tickers.Values
          case Unauthorized =>
            && symbol in db.tokens && db.tokens[symbol].owner.Some?
            && !ActsFor(db, sender, db.tokens[symbol].owner.value, CanTokensUpdate)
          case NeedsRole =>
            && symbol in db.tokens && db.tokens[symbol].owner.Some?
            && !ActsFor(db, sender, db.tokens[symbol].owner.value, CanTokensUpdate)
          case _ => false)
    case Ok(value) =>
      && value == Nothing && symbol in db.tokens && symbol in s.committed.symbols && db.tokens[symbol].owner.Some?
      && ActsFor(db, sender, db.tokens[symbol].owner.value, CanTokensUpdate)
      && (args.ticker.Some? ==> args.ticker.value !in db.tickers.Values)
      && symbol in s'.db.tokens && Overwritten(db.tokens[symbol], args, s'.db.tokens[symbol])
      && LogsOne(s, s', db.(tokens := db.tokens[symbol := s'.db.tokens[symbol]],
                            tickers := if args.ticker.Some? then db.tickers[symbol := args.ticker.value]
                                       else db.tickers),
                 TokenUpdateEvent(args))
  }

  // ---------------------------------------------------------------- accounts

  // The role belongs to one of the features, or is ownership.
  predicate RoleFits(role: Role, multisig: bool, ledger: bool, tokens: bool) {
    match role
    case Owner => true
    case CanMultisigSubmit => multisig
    case CanMultisigApprove => multisig
    case CanLedgerTransact => ledger
    case CanTokensCreate => tokens
    case CanTokensMint => tokens
    case CanTokensBurn => tokens
    case CanTokensUpdate => tokens
    case CanTokensAddExtendedInfo => tokens
    case CanTokensRemoveExtendedInfo => tokens
  }

  predicate Holds(roles: Roles, who: Address, role: Role) {
    who in roles && role in roles[who]
  }

  predicate RolesFit(roles: Roles, multisig: bool, ledger: bool, tokens: bool) {
    forall who, role :: who in roles && role in roles[who] ==> RoleFits(role, multisig, ledger, tokens)
  }

  predicate MayVote(roles: Roles, who: Address) {
    Holds(roles, who, Owner) || Holds(roles, who, CanMultisigApprove) || Holds(roles, who, CanMultisigSubmit)
  }

  // Half a year at most, and a day if none is asked for.
  function Timeout(asked: Option<nat>): nat {
    match asked
    case None => 86400
    case Some(t) => if t > 15984000 then 15984000 else t
  }

  /** The features stored for a new account: those asked for, with the multisig arguments filled in.
      Without a threshold everyone who may vote has to, the account itself apart. */
  predicate FeaturesStored(asked: Features, stored: Features, roles: Roles, id: Address) {
    && stored.ledger == asked.ledger && stored.tokens == asked.tokens
    && (asked.multisig.None? ==> stored.multisig == None)
    && (asked.multisig.Some? ==>
          var others := set who | who in roles && who != id && MayVote(roles, who);
          stored.multisig == Some(MultisigArg(
            Some(if asked.multisig.value.threshold.Some? then asked.multisig.value.threshold.value else |others|),
            Some(Timeout(asked.multisig.value.timeout)),
            Some(asked.multisig.value.automatic.Some? && asked.multisig.value.automatic.value))))
  }

  // A new account as it is stored: enabled, with the roles asked for, and its owners besides.
  ghost predicate AccountStored(description: Option<string>, roles: Roles, features: Features, owners: set<Address>,
                                id: Address, account: Account)
  {
    && account.disabled == Unset && account.description == description
    && account.roles.Keys == roles.Keys + owners
    && (forall who, role :: Holds(account.roles, who, role) <==>
          Holds(roles, who, role) || (role == Owner && who in owners))
    && FeaturesStored(features, account.features, account.roles, id)
  }

  /** The creation of an account: creator and account own it, and it gets the first free address. */
  ghost predicate CreateAccountOutcome(s: State, creator: Address, args: CreateArgs, r: Result<Value>, s': State) {
    var db, identity, f := s.db, s.db.alloc.AccountIdentity(), args.features;
    match r
    case Err(e) =>
      && s' == s
      && (match e
          case UnknownRole => !RolesFit(args.roles, f.multisig.Some?, f.ledger, f.tokens)
          case SubresourceExhausted =>
            && RolesFit(args.roles, f.multisig.Some?, f.ledger, f.tokens)
            && NoneFree(db.alloc, identity, s.committed.symbols)
          case InvalidIdentity =>
            RolesFit(args.roles, f.multisig.Some?, f.ledger, f.tokens) && NotDerivable(db.alloc, identity)
          case _ => false)
    case Ok(value) =>
      && RolesFit(args.roles, f.multisig.Some?, f.ledger, f.tokens)
      && value.NewAccount? && value.id.Subresource?
      && FirstFree(db.alloc, identity, s.committed.symbols, value.id.id)
      && value.id == Subresource(identity.hash, value.id.id)
      && var id := value.id;
      && id in s'.db.accounts && var account := s'.db.accounts[id];
      && AccountStored(args.description, args.roles, f, {creator, id}, id, account)
      && LogsOne(s, s', db.(alloc := db.alloc.WithCounter(identity, id.id + 1),
                            accounts := db.accounts[id := account]),
                 AccountCreateEvent(id, account.description, account.roles, account.features))
  }

  // The roles after listed ones were added; an empty list leaves no entry behind.
  ghost predicate RolesAdded(before: Roles, added: Roles, after: Roles) {
    && (forall who, role :: Holds(after, who, role) <==> Holds(before, who, role) || Holds(added, who, role))
    && (forall who :: who in after <==> who in before || (who in added && added[who] != {}))
  }

  /** What a change makes of a record: the rest of it stays. */
  ghost predicate ChangedTo(before: Account, change: AccountChange, after: Account) {
    match change
    case Disable => after == before.(disabled := Flag(true)) && !after.IsEnabled()
    case Describe(description) => after == before.(description := Some(description))
    case AddRoles(added) => after == before.(roles := after.roles) && RolesAdded(before.roles, added, after.roles)
    case RemoveRoles(removed) =>
      && after == before.(roles := after.roles) && after.roles.Keys == before.roles.Keys
      && (forall who, role :: Holds(after.roles, who, role) <==>
            Holds(before.roles, who, role) && !Holds(removed, who, role))
    case AddFeatures(f, extra) =>
      && after == before.(roles := after.roles, features := after.features)
      && RolesAdded(before.roles, extra, after.roles)
      && after.features.ledger == (before.features.ledger || f.ledger)
      && after.features.tokens == (before.features.tokens || f.tokens)
      && after.features.multisig == (if f.multisig.Some? then f.multisig else before.features.multisig)
    case SetDefaults(threshold, timeout, automatic) =>
      && before.features.multisig.Some? && after.features.multisig.Some?
      && after == before.(features := before.features.(multisig := after.features.multisig))
      && var was, now := before.features.multisig.value, after.features.multisig.value;
      && now.threshold == (if threshold.Some? then threshold else was.threshold)
      && now.timeout == (if timeout.Some? then Some(Timeout(timeout)) else was.timeout)
      && now.automatic == (if automatic.Some? then automatic else was.automatic)
  }

  predicate AddsFeatureAgain(f: Features, added: Features) {
    (f.multisig.Some? && added.multisig.Some?) || (f.ledger && added.ledger) || (f.tokens && added.tokens)
  }

  // The roles there are and those added belong to the features there are and those added.
  predicate AdditionFits(account: Account, f: Features, extra: Roles) {
    var multisig := account.features.multisig.Some? || f.multisig.Some?;
    var ledger, tokens := account.features.ledger || f.ledger, account.features.tokens || f.tokens;
    RolesFit(account.roles, multisig, ledger, tokens) && RolesFit(extra, multisig, ledger, tokens)
  }

  // The change as the event tells it: a timeout is the one that was set.
  function Told(change: AccountChange): AccountChange {
    match change
    case SetDefaults(threshold, Some(timeout), automatic) =>
      SetDefaults(threshold, Some(Timeout(Some(timeout))), automatic)
    case _ => change
  }

  /** A change asked for by an owner of an enabled account. */
  ghost predicate ChangeAccountOutcome(s: State, actor: Address, target: Address, change: AccountChange,
                                       r: Result<Value>, s': State)
  {
    match EnabledAccount(s.db, target)
    case None => r == Err(UnknownAccount) && s' == s
    case Some(account) =>
      if !account.HasRole(actor, Owner) then r == Err(NeedsRole) && s' == s
      else if change.RemoveRoles? && Holds(change.removed, target, Owner)
      then r == Err(AccountMustOwnItself) && s' == s
      else if change.AddFeatures? && AddsFeatureAgain(account.features, change.features)
      then r == Err(FeatureExists) && s' == s
      else if change.AddFeatures? && !AdditionFits(account, change.features, change.extra)
      then r == Err(UnknownRole) && s' == s
      else if change.SetDefaults? && account.features.multisig.None? then r == Ok(Nothing) && s' == s
      else
        && r == Ok(Nothing) && target in s'.db.accounts && ChangedTo(account, change, s'.db.accounts[target])
        && LogsOne(s, s', s.db.(accounts := s.db.accounts[target := s'.db.accounts[target]]),
                   AccountChangeEvent(target, Told(change)))
  }

  // ---------------------------------------------------------------- single steps on transactions

  /** A submission spends an identifier whatever happens; what is stored and logged is what was asked
      for, with the defaults of the account where nothing was. */
  ghost predicate SubmitOutcome(s: State, actor: Address, arg: SubmitArgs, r: Result<Value>, s': State) {
    var token, found := s.latestTid + 1, EnabledAccount(s.db, arg.account);
    match r
    case Err(e) =>
      && s' == s.(latestTid := token)
      && (match e
          case UnknownAccount => found.None?
          case FeatureNotFound =>
            && found.Some? && found.value.features.multisig.None?
            && (found.value.HasRole(actor, Owner) || found.value.HasRole(actor, CanMultisigSubmit))
          case NeedsRole =>
            && found.Some? && !found.value.HasRole(actor, Owner)
            && (|| !found.value.HasRole(actor, CanMultisigSubmit)
                || (&& found.value.features.multisig.Some?
                    && (arg.threshold.Some? || arg.timeout.Some? || arg.automatic.Some?)))
          case _ => false)
    case Ok(value) =>
      && value == NewToken(token) && found.Some? && found.value.features.multisig.Some?
      && (|| found.value.HasRole(actor, Owner)
          || (&& found.value.HasRole(actor, CanMultisigSubmit)
              && arg.threshold.None? && arg.timeout.None? && arg.automatic.None?))
      && token in s'.db.multisigs
      && var tx, f := s'.db.multisigs[token], found.value.features.multisig.value;
      && tx.account == arg.account && tx.creation == s.now && !tx.disabled
      && tx.info.transaction == arg.transaction && tx.info.submitter == actor && tx.info.approvers == map[actor := true]
      && tx.info.threshold == arg.threshold.GetOr(f.threshold.GetOr(1))
      && tx.info.timeout == s.now + Timeout(Some(arg.timeout.GetOr(f.timeout.GetOr(86400))))
      && tx.info.automatic == arg.automatic.GetOr(f.automatic.GetOr(false))
      && tx.info.state == Pending
      && tx.info.memo_ == (if s.memoActive then None else arg.memo_)
      && tx.info.data_ == (if s.memoActive then None else arg.data_)
      && tx.info.memo == (if s.memoActive then arg.memo else None)
      && LogsOne(s.(latestTid := token), s', s.db.(multisigs := s.db.multisigs[token := tx]),
                 SubmitEvent(actor, arg.account, tx.info.memo_, arg.transaction, token, tx.info.threshold,
                             tx.info.timeout, tx.info.automatic, tx.info.data_, tx.info.memo))
  }

  // Why a call on a transaction is refused before the sender is looked at.
  predicate NotOpen(db: Store, token: nat, e: Error) {
    match e
    case TransactionNotFound => token !in db.multisigs
    case ExpiredOrWithdrawn => token in db.multisigs && db.multisigs[token].disabled
    case UnknownAccount => PendingTx(db, token) && EnabledAccount(db, db.multisigs[token].account).None?
    case _ => false
  }

  // A pending transaction of an enabled account, as every call on one demands.
  predicate Open(db: Store, token: nat) {
    PendingTx(db, token) && EnabledAccount(db, db.multisigs[token].account).Some?
  }

  // The record of an open transaction with one approval given or taken back.
  function Voted(tx: Multisig, who: Address, approved: bool): Multisig {
    Multisig(tx.account, tx.info.(approvers := tx.info.approvers[who := approved]), tx.creation, tx.disabled)
  }

  // The next event tells of the approval, and the record holds it.
  function WithVote(s: State, token: nat, who: Address): State
    requires token in s.db.multisigs
  {
    var tx, id := s.db.multisigs[token], s.latestTid + 1;
    s.(latestTid := id,
       db := s.db.(multisigs := s.db.multisigs[token := Voted(tx, who, true)],
                   events := s.db.events[id := EventLog(id, s.now, ApproveEvent(tx.account, token, who))],
                   eventCount := s.db.eventCount + 1))
  }

  // Who has approved.
  function Voters(tx: Multisig): set<Address> {
    set who | who in tx.info.approvers && tx.info.approvers[who]
  }

  ghost predicate RevokeOutcome(s: State, actor: Address, token: nat, r: Result<Value>, s': State) {
    if !Open(s.db, token) then r.Err? && NotOpen(s.db, token, r.error) && s' == s
    else
      var tx := s.db.multisigs[token];
      if actor in tx.info.approvers || MayVote(s.db.accounts[tx.account].roles, actor)
      then
        && r == Ok(Executed(false))
        && LogsOne(s, s', s.db.(multisigs := s.db.multisigs[token := Voted(tx, actor, false)]),
                   RevokeEvent(tx.account, token, actor))
      else r == Err(CannotApprove) && s' == s
  }

  // The closed record: its state says how, and the rest stays.
  function ClosedAs(tx: Multisig, state: TxState): Multisig {
    Multisig(tx.account, tx.info.(state := state), tx.creation, true)
  }

  // Owners and the submitter withdraw and execute.
  predicate Commands(db: Store, tx: Multisig, who: Address)
    requires tx.account in db.accounts
  {
    who == tx.info.submitter || Holds(db.accounts[tx.account].roles, who, Owner)
  }

  ghost predicate WithdrawOutcome(s: State, actor: Address, token: nat, r: Result<Value>, s': State) {
    if !Open(s.db, token) then r.Err? && NotOpen(s.db, token, r.error) && s' == s
    else
      var tx := s.db.multisigs[token];
      if Commands(s.db, tx, actor)
      then
        && r == Ok(Nothing)
        && LogsOne(s, s', s.db.(multisigs := s.db.multisigs[token := ClosedAs(tx, Withdrawn)]),
                   WithdrawEvent(tx.account, token, actor))
      else r == Err(CannotExecute) && s' == s
  }

  // ---------------------------------------------------------------- executions

  // An approval, revocation or execution as a payload answers nothing, or the refusal it met.
  predicate Silenced(met: Result<Value>, r: Result<Value>) {
    if met.Ok? then r == Ok(Nothing) else r == met
  }

  /** What the payload of `tx` does, in the name of its account: the same as a direct call would. */
  ghost predicate PayloadOutcome(depth: nat, s: State, tx: Multisig, r: Result<Value>, s': State)
    decreases depth, 2
  {
    var actor := tx.account;
    match tx.info.transaction
    case TransferPayload(from, to, symbol, amount, memo) =>
      TransferOutcome(s, actor, from, to, symbol, amount, memo, r, s')
    case CreateAccountPayload(args) => CreateAccountOutcome(s, actor, args, r, s')
    case ChangeAccountPayload(target, change) => ChangeAccountOutcome(s, actor, target, change, r, s')
    case SubmitPayload(arg) => SubmitOutcome(s, actor, arg, r, s')
    case ApprovePayload(t) => exists met :: ApproveOutcome(depth, s, actor, t, met, s') && Silenced(met, r)
    case RevokePayload(t) => exists met :: RevokeOutcome(s, actor, t, met, s') && Silenced(met, r)
    case ExecutePayload(t) => exists met :: ExecuteOutcome(depth, s, actor, t, met, s') && Silenced(met, r)
    case WithdrawPayload(t) => WithdrawOutcome(s, actor, t, r, s')
    case UnsupportedPayload => r == Err(Unsupported) && s' == s
  }

  // What follows the payload: the transaction is closed and the answer logged, unless the payload has
  // withdrawn the transaction itself.
  ghost predicate FinishOutcome(p: State, tx: Multisig, token: nat, executer: Option<Address>, answer: Result<Value>,
                                r: Result<Value>, s': State)
  {
    && token in p.db.multisigs
    && if p.db.multisigs[token].disabled then r == Err(ExpiredOrWithdrawn) && s' == p
       else
         var response := Responded(Response(tx.account, answer, p.now));
         var state := if executer.Some? then ExecutedManually else ExecutedAutomatically;
         && r == Ok(if executer.Some? then response else Executed(true))
         && LogsOne(p, s', p.db.(multisigs := p.db.multisigs[token := ClosedAs(p.db.multisigs[token], state)]),
                    ExecuteEvent(tx.account, token, executer, response))
  }

  /** A whole execution of a stored transaction, on request or, without an executer, by an approval. */
  ghost predicate RunOutcome(depth: nat, s: State, token: nat, executer: Option<Address>, r: Result<Value>,
                                   s': State)
    decreases depth, 0
  {
    && depth > 0 && token in s.db.multisigs
    && exists answer, p: State ::
         && PayloadOutcome(depth - 1, s, s.db.multisigs[token], answer, p)
         && FinishOutcome(p, s.db.multisigs[token], token, executer, answer, r, s')
  }

  /** An approval counts at once; it executes an automatic transaction as soon as the approvals reach
      the threshold. */
  ghost predicate ApproveOutcome(depth: nat, s: State, actor: Address, token: nat, r: Result<Value>, s': State)
    decreases depth, 1
  {
    if !Open(s.db, token) then r.Err? && NotOpen(s.db, token, r.error) && s' == s
    else
      var tx := s.db.multisigs[token];
      if !MayVote(s.db.accounts[tx.account].roles, actor) then r == Err(CannotApprove) && s' == s
      else if tx.info.automatic && |Voters(tx) + {actor}| >= tx.info.threshold
      then RunOutcome(depth, WithVote(s, token, actor), token, None, r, s')
      else r == Ok(Executed(false)) && s' == WithVote(s, token, actor)
  }

  /** An execution on request takes an owner or the submitter, and a quorum. */
  ghost predicate ExecuteOutcome(depth: nat, s: State, actor: Address, token: nat, r: Result<Value>, s': State)
    decreases depth, 1
  {
    if !Open(s.db, token) then r.Err? && NotOpen(s.db, token, r.error) && s' == s
    else
      var tx := s.db.multisigs[token];
      if Commands(s.db, tx, actor) && |Voters(tx)| >= tx.info.threshold
      then RunOutcome(depth, s, token, Some(actor), r, s')
      else r == Err(CannotExecute) && s' == s
  }

  // ---------------------------------------------------------------- blocks

  // The memo fields of a record before the migration, as one memo: text comes before data.
  predicate MemoJoined(memo_: Option<string>, data_: Option<Bytes>, memo: Option<Memo>) {
    match (memo_, data_)
    case (Some(t), Some(d)) => memo == Some([Text(t), Data(d)])
    case (Some(t), None) => memo == Some([Text(t)])
    case (None, Some(d)) => memo == Some([Data(d)])
    case (None, None) => memo == None
  }

  // The record with its memo fields joined, unless there is a memo already.
  predicate TxJoined(tx: Multisig, after: Multisig) {
    if tx.info.memo.Some? then after == tx
    else
      && after == tx.(info := tx.info.(memo_ := None, data_ := None, memo := after.info.memo))
      && MemoJoined(tx.info.memo_, tx.info.data_, after.info.memo)
  }

  predicate EventJoined(log: EventLog, after: EventLog) {
    if !log.content.SubmitEvent? || log.content.newMemo.Some? then after == log
    else
      && after.content.SubmitEvent?
      && after == log.(content := log.content.(memo_ := None, data_ := None, newMemo := after.content.newMemo))
      && MemoJoined(log.content.memo_, log.content.data_, after.content.newMemo)
  }

  // The sweep: a record committed as pending whose timeout has come is written back closed.
  predicate TxSwept(s: State, t: nat, after: Multisig)
    requires t in s.db.multisigs
  {
    if t in s.committed.txs && !s.committed.txs[t].disabled && s.committed.txs[t].info.timeout <= s.now
    then after == ClosedAs(s.committed.txs[t], Expired)
    else after == s.db.multisigs[t]
  }

  /** A commit: the sweep, the migrations that become active, the height, and the identifiers of the
      next block, which start from the height before. */
  ghost predicate CommitOutcome(s: State, memo: bool, counts: bool, s': State) {
    && s'.now == s.now && s'.text == s.text && s'.memoActive == (memo || s.memoActive)
    && s'.latestTid == (s.db.height * 0x1_0000_0000) % 0x1_0000_0000_0000_0000
    && s'.committed.txs == s'.db.multisigs && s'.committed.symbols == s'.db.tokens.Keys
    && s'.db == s.db.(multisigs := s'.db.multisigs, events := s'.db.events, height := s.db.height + 1,
                      counts := if counts
                                then Some(AccountCounts(|s.db.balances|,
                                                        |set k | k in s.db.balances && s.db.balances[k] > 0|))
                                else s.db.counts)
    && s'.db.multisigs.Keys == s.db.multisigs.Keys && s'.db.events.Keys == s.db.events.Keys
    && (forall t :: t in s.db.multisigs ==>
          exists tx :: TxSwept(s, t, tx)
                       && if memo then TxJoined(tx, s'.db.multisigs[t]) else s'.db.multisigs[t] == tx)
    && (forall id :: id in s.db.events ==>
          if memo then EventJoined(s.db.events[id], s'.db.events[id]) else s'.db.events[id] == s.db.events[id])
  }

  // ---------------------------------------------------------------- calls

  predicate HasFeature(f: Features) { f.multisig.Some? || f.ledger || f.tokens }

  /** What a call has to answer and to leave behind. */
  ghost predicate CallOutcome(depth: nat, s: State, c: Call, r: Result<Value>, s': State) {
    match c
    case SendCall(sender, from, to, symbol, amount, memo) =>
      SendOutcome(s, sender, from, to, symbol, amount, memo, r, s')
    case MintCall(sender, symbol, dist, memo) => MintOutcome(s, sender, symbol, dist, memo, r, s')
    case BurnCall(sender, symbol, dist, memo, flag) => BurnOutcome(s, sender, symbol, dist, memo, flag, r, s')
    case CreateTokenCall(sender, args) => CreateTokenOutcome(s, sender, args, r, s')
    case UpdateTokenCall(sender, args) => UpdateTokenOutcome(s, sender, args, r, s')
    case CreateAccountCall(sender, args) =>
      if HasFeature(args.features) then CreateAccountOutcome(s, sender, args, r, s')
      else r == Err(EmptyFeature) && s' == s
    case ChangeAccountCall(sender, target, change) =>
      if change.AddFeatures? && !HasFeature(change.features) then r == Err(EmptyFeature) && s' == s
      else ChangeAccountOutcome(s, sender, target, change, r, s')
    case SubmitCall(sender, arg) => SubmitOutcome(s, sender, arg, r, s')
    case ApproveCall(sender, id) => ApproveOutcome(depth, s, sender, id, r, s')
    case RevokeCall(sender, id) => RevokeOutcome(s, sender, id, r, s')
    case ExecuteCall(sender, id) => ExecuteOutcome(depth, s, sender, id, r, s')
    case WithdrawCall(sender, id) => WithdrawOutcome(s, sender, id, r, s')
    case BeginBlockCall(time) => r == Ok(Nothing) && s' == (if time.Some? then s.(now := time.value) else s)
    case CommitCall(memo, counts) => r == Ok(Nothing) && CommitOutcome(s, memo, counts, s')
  }
}
