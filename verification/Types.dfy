/** The values the ledger stores, logs and exchanges. */
module LedgerTypes {

  datatype Option<+T> = None | Some(value: T) {
    function GetOr(default: T): T {
      match this
      case None => default
      case Some(v) => v
    }
  }

  datatype Result<+T> = Ok(value: T) | Err(error: Error)

  datatype Error =
    | DestinationIsSource | AmountIsZero | AnonymousCannotHoldFunds | InsufficientFunds
    | Unauthorized | InvalidSender | InvalidFrom | InvalidIdentity
    | UnknownAccount | NeedsRole | AccountMustOwnItself | FeatureExists | UnknownRole | EmptyFeature
    | FeatureNotFound | TransactionNotFound | ExpiredOrWithdrawn | CannotApprove | CannotExecute | Unsupported
    | SymbolNotFound | ZeroDistributed | OverMaximum | MissingFunds | PartialBurnDisabled | SupplyUnderflow
    | CounterUnderflow | BatchRefused
    | TickerExists | TokenImmutable | SubresourceExhausted | GenesisRejected

  // An address is identified by the hash of its key; a subresource keeps the hash
  // of the identity it was derived from.
  datatype Address = Anonymous | Illegal | PublicKey(hash: nat) | Subresource(hash: nat, id: nat)

  type Symbol = Address

  datatype Holding = Holding(owner: Address, symbol: Symbol)

  type Bytes = seq<nat>

  datatype MemoItem = Text(text: string) | Data(data: Bytes)
  type Memo = seq<MemoItem>

  datatype Role =
    | Owner | CanLedgerTransact | CanMultisigSubmit | CanMultisigApprove
    | CanTokensCreate | CanTokensMint | CanTokensBurn | CanTokensUpdate
    | CanTokensAddExtendedInfo | CanTokensRemoveExtendedInfo

  type Roles = map<Address, set<Role>>

  datatype MultisigArg = MultisigArg(threshold: Option<nat>, timeout: Option<nat>, automatic: Option<bool>)

  datatype Features = Features(multisig: Option<MultisigArg>, ledger: bool, tokens: bool)

  // Unset, a plain flag, or a reason.
  datatype Disabled = Unset | Flag(flag: bool) | Because(reason: string)

  datatype Account = Account(description: Option<string>, roles: Roles, features: Features, disabled: Disabled) {
    predicate IsEnabled() {
      disabled == Unset || disabled == Flag(false)
    }

    predicate HasRole(who: Address, role: Role) {
      who in roles && role in roles[who]
    }

    predicate HasAnyRole(who: Address, wanted: set<Role>) {
      who in roles && roles[who] * wanted != {}
    }
  }

  datatype CreateArgs = CreateArgs(description: Option<string>, roles: Roles, features: Features)

  // A change an owner can ask for on an existing account.
  datatype AccountChange =
    | Disable
    | Describe(description: string)
    | AddRoles(added: Roles)
    | RemoveRoles(removed: Roles)
    | AddFeatures(features: Features, extra: Roles)
    | SetDefaults(threshold: Option<nat>, timeout: Option<nat>, automatic: Option<bool>)

  datatype SubmitArgs = SubmitArgs(
    account: Address, memo_: Option<string>, data_: Option<Bytes>, memo: Option<Memo>, transaction: Payload,
    threshold: Option<nat>, timeout: Option<nat>, automatic: Option<bool>)

  // The transactions a multisig account can hold.
  datatype Payload =
    | TransferPayload(from: Option<Address>, to: Address, symbol: Symbol, amount: nat, memo: Option<Memo>)
    | CreateAccountPayload(create: CreateArgs)
    | ChangeAccountPayload(account: Address, change: AccountChange)
    | SubmitPayload(submit: SubmitArgs)
    | ApprovePayload(token: nat)
    | RevokePayload(token: nat)
    | ExecutePayload(token: nat)
    | WithdrawPayload(token: nat)
    | UnsupportedPayload

  datatype TxState = Pending | ExecutedAutomatically | ExecutedManually | Withdrawn | Expired

  datatype TxInfo = TxInfo(
    memo_: Option<string>, memo: Option<Memo>, transaction: Payload, submitter: Address,
    approvers: map<Address, bool>, threshold: nat, automatic: bool, timeout: nat, data_: Option<Bytes>, state: TxState)

  datatype Multisig = Multisig(account: Address, info: TxInfo, creation: nat, disabled: bool) {
    function Approvals(): set<Address> {
      set a | a in info.approvers && info.approvers[a]
    }

    predicate ShouldExecute() {
      |Approvals()| >= info.threshold
    }
  }

  predicate DistinctOwners(dist: seq<(Address, nat)>) {
    forall i, j :: 0 <= i < j < |dist| ==> dist[i].0 != dist[j].0
  }

  // The entries of an address-to-amount map, in the order the map is iterated.
  type Distribution = dist: seq<(Address, nat)> | DistinctOwners(dist) witness []

  // Who owns a token: an address, or nobody.
  datatype OwnerArg = To(owner: Address) | Nobody

  datatype TokenCreateArgs = TokenCreateArgs(
    name: string, ticker: string, decimals: nat, owner: Option<OwnerArg>,
    distribution: Option<Distribution>, maximum: Option<nat>, memo: Option<Memo>)

  datatype TokenUpdateArgs = TokenUpdateArgs(
    symbol: Symbol, name: Option<string>, ticker: Option<string>, decimals: Option<nat>,
    owner: Option<OwnerArg>, memo: Option<Memo>)

  datatype TokenInfo = TokenInfo(
    name: string, ticker: string, decimals: nat, total: nat, circulating: nat, maximum: Option<nat>,
    owner: Option<Address>)

  datatype Value = Nothing | Executed(automatically: bool) | NewAccount(id: Address) | NewToken(token: nat)
                 | NewSymbol(symbol: Symbol) | Responded(response: Response)

  datatype Response = Response(from: Address, data: Result<Value>, timestamp: nat)

  datatype Event =
    | SendEvent(from: Address, to: Address, symbol: Symbol, amount: nat, memo: Option<Memo>)
    | MintEvent(symbol: Symbol, distribution: Distribution, memo: Option<Memo>)
    | BurnEvent(symbol: Symbol, distribution: Distribution, memo: Option<Memo>)
    | TokenCreateEvent(symbol: Symbol, args: TokenCreateArgs)
    | TokenUpdateEvent(update: TokenUpdateArgs)
    | AccountCreateEvent(account: Address, description: Option<string>, roles: Roles, features: Features)
    | AccountChangeEvent(account: Address, change: AccountChange)
    | SubmitEvent(submitter: Address, account: Address, memo_: Option<string>, transaction: Payload, token: nat,
                  threshold: nat, timeout: nat, automatic: bool, data_: Option<Bytes>, newMemo: Option<Memo>)
    | ApproveEvent(account: Address, token: nat, approver: Address)
    | RevokeEvent(account: Address, token: nat, revoker: Address)
    | ExecuteEvent(account: Address, token: nat, executer: Option<Address>, response: Value)
    | WithdrawEvent(account: Address, token: nat, withdrawer: Address)

  datatype EventLog = EventLog(id: nat, time: nat, content: Event)
}
