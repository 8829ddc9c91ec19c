/** When each effect is allowed, stated without reference to the operations, and the proof
    that operations, however deeply nested, perform allowed effects only. */
module Legality {
  import opened LedgerTypes
  import opened Allocation
  import opened AccountRules
  import opened LedgerMachine
  import opened Operations

  // `sender` may move the tokens of `from` through a role on the account at `from`.
  predicate HoldsTransactRole(db: Store, from: Address, sender: Address) {
    var account := EnabledAccount(db, from);
    && account.Some?
    && (|| account.value.HasRole(sender, Owner)
        || (account.value.features.ledger && account.value.HasRole(sender, CanLedgerTransact)))
  }

  // A pending transaction with enough approvals orders exactly this transfer, and its
  // account holds owner or transact role at `from`.
  predicate OrderedByMultisig(db: Store, token: nat, from: Address, to: Address, symbol: Symbol, amount: nat,
                              memo: Option<Memo>)
  {
    && PendingTx(db, token)
    && var tx := db.multisigs[token];
    && |tx.Approvals()| >= tx.info.threshold
    && tx.info.transaction == TransferPayload(Some(from), to, symbol, amount, memo)
    && var account := EnabledAccount(db, from);
    && account.Some?
    && (account.value.HasRole(tx.account, Owner) || account.value.HasRole(tx.account, CanLedgerTransact))
  }

  predicate Authorised(db: Store, authority: Authority, from: Address, to: Address, symbol: Symbol, amount: nat,
                       memo: Option<Memo>)
  {
    match authority
    case Direct(sender) => sender == from || HoldsTransactRole(db, from, sender)
    case ViaMultisig(token) => OrderedByMultisig(db, token, from, to, symbol, amount, memo)
  }

  // The address acts for itself, or through a role on an enabled token-ledger account.
  predicate ActsFor(db: Store, sender: Address, owner: Address, role: Role) {
    || sender == owner
    || (&& EnabledAccount(db, owner).Some?
        && var account := EnabledAccount(db, owner).value;
        account.HasRole(sender, Owner) || (account.features.tokens && account.HasRole(sender, role)))
  }

  predicate SubmissionAllowed(s: State, tx: Multisig) {
    && EnabledAccount(s.db, tx.account).Some?
    && var account := EnabledAccount(s.db, tx.account).value;
    && (account.HasRole(tx.info.submitter, Owner) || account.HasRole(tx.info.submitter, CanMultisigSubmit))
    && account.features.multisig.Some?
    && (tx.info.threshold == account.features.multisig.value.threshold.GetOr(MULTISIG_DEFAULT_THRESHOLD)
        || account.HasRole(tx.info.submitter, Owner))
    && tx.info.approvers == map[tx.info.submitter := true]
    && tx.info.state == Pending && !tx.disabled
    && tx.creation == s.now && tx.info.timeout <= s.now + MULTISIG_MAXIMUM_TIMEOUT_IN_SECS
    && (if s.memoActive then tx.info.memo_ == None && tx.info.data_ == None else tx.info.memo == None)
  }

  // A new address derived from an identity: not a symbol, not below the counter, and every
  // identifier it skips is a symbol.
  predicate FreshId(al: Allocator, identity: Address, symbols: set<Symbol>, id: nat) {
    && Derivable(identity) && al.Counter(identity) <= id <= MAX_SUBRESOURCE_ID
    && Derive(identity, id) !in symbols
    && forall k: nat :: al.Counter(identity) <= k < id ==> Derive(identity, k) in symbols
  }

  ghost predicate Enabled(s: State, e: Effect) {
    match e
    case TakeId => true
    case Sent(authority, from, to, symbol, amount, memo) =>
      && from != to && amount > 0 && from != Anonymous && to != Anonymous
      && BalanceOf(s.db.balances, from, symbol) >= amount
      && (s.db.counts.Some? ==> !CountsUnderflow(s.db.counts.value, s.db.balances, from, to, symbol, amount))
      && Authorised(s.db, authority, from, to, symbol, amount, memo)
    case Minted(minter, symbol, dist, _) =>
      && minter == s.db.alloc.TokenIdentity() && Listed(s, symbol) && NoZero(dist)
      && InStoreOrder(s.text, symbol, dist)
      && var info := s.db.tokens[symbol];
      (info.maximum.Some? && dist != [] ==> info.circulating + SumOf(dist) <= info.maximum.value)
    case Burned(burner, symbol, dist, _) =>
      && burner == s.db.alloc.TokenIdentity() && Listed(s, symbol) && NoZero(dist)
      && InStoreOrder(s.text, symbol, dist)
      && Covered(s.db.balances, symbol, dist)
      && SumOf(dist) <= s.db.tokens[symbol].circulating && SumOf(dist) <= s.db.tokens[symbol].total
    case TokenCreated(creator, id, args) =>
      && creator == s.db.alloc.TokenIdentity()
      && (args.owner.Some? && args.owner.value.To? ==> ActsFor(s.db, creator, args.owner.value.owner, CanTokensCreate))
      && args.ticker !in s.db.tickers.Values
      && FreshId(s.db.alloc, s.db.alloc.TokenIdentity(), s.committed.symbols, id)
    case TokenUpdated(updater, args) =>
      && Listed(s, args.symbol) && s.db.tokens[args.symbol].owner.Some?
      && ActsFor(s.db, updater, s.db.tokens[args.symbol].owner.value, CanTokensUpdate)
      && (args.ticker.Some? ==> args.ticker.value !in s.db.tickers.Values)
    case AccountCreated(id, account) =>
      var identity := s.db.alloc.AccountIdentity();
      && FreshId(s.db.alloc, identity, s.committed.symbols, id)
      && account.HasRole(Derive(identity, id), Owner) && account.IsEnabled() && account.disabled == Unset
    case AccountChanged(changer, target, change) =>
      && EnabledAccount(s.db, target).Some? && s.db.accounts[target].HasRole(changer, Owner)
      && (change.RemoveRoles? ==> Owner !in RolesOf(change.removed, target))
      && (change.SetDefaults? ==> s.db.accounts[target].features.multisig.Some?)
      && (change.AddFeatures? ==> !Overlap(s.db.accounts[target].features, change.features))
    case Submitted(tx) => SubmissionAllowed(s, tx)
    case Approved(token, who) =>
      && PendingTx(s.db, token)
      && var account := EnabledAccount(s.db, s.db.multisigs[token].account);
      account.Some? && MayApprove(RolesOf(account.value.roles, who))
    case Revoked(token, who) =>
      && PendingTx(s.db, token)
      && var account := EnabledAccount(s.db, s.db.multisigs[token].account);
      account.Some? && (who in s.db.multisigs[token].info.approvers || MayApprove(RolesOf(account.value.roles, who)))
    case Started(token) =>
      && PendingTx(s.db, token)
      && |s.db.multisigs[token].Approvals()| >= s.db.multisigs[token].info.threshold
      && EnabledAccount(s.db, s.db.multisigs[token].account).Some?
    case Ended(token, state) =>
      && PendingTx(s.db, token)
      && (state.Withdrawn? || state.ExecutedManually? || state.ExecutedAutomatically?)
    case Logged(event) => event.ExecuteEvent? || event.WithdrawEvent?
    case _ => true
  }

  /** Every effect of the trace was allowed when it happened. */
  ghost predicate Legal(s: State, es: seq<Effect>) {
    es == [] || (Legal(s, es[..|es| - 1]) && Enabled(After(s, es[..|es| - 1]), es[|es| - 1]))
  }

  /** The machine got from `g` to its state by legal effects. */
  ghost predicate Reached(g: State, m: Machine) {
    m.s == After(g, m.trace) && Legal(g, m.trace)
  }

  /** `p` holds of every effect of the trace and the state it happened in. */
  ghost predicate Along(s: State, es: seq<Effect>, p: (State, Effect) -> bool) {
    es == [] || (Along(s, es[..|es| - 1], p) && p(After(s, es[..|es| - 1]), es[|es| - 1]))
  }

  lemma DoReached(g: State, m: Machine, e: Effect)
    requires Reached(g, m) && Enabled(m.s, e)
    ensures Reached(g, Do(m, e))
  {
    assert (m.trace + [e])[..|m.trace + [e]| - 1] == m.trace;
  }

  // ---------------------------------------------------------------- checks mean what Enabled says

  lemma {:induction false} MintCheckExact(info: TokenInfo, dist: Distribution)
    ensures MintCheck(info, dist).Ok? <==>
            NoZero(dist) && (info.maximum.Some? && dist != [] ==> info.circulating + SumOf(dist) <= info.maximum.value)
  {
    if dist != [] {
      var front := dist[..|dist| - 1];
      MintCheckExact(info, front);
      assert dist == front + [dist[|dist| - 1]];
    }
  }

  lemma {:induction false} BurnCheckExact(balances: Balances, symbol: Symbol, dist: Distribution)
    ensures BurnCheck(balances, symbol, dist).Ok? <==>
            NoZero(dist) && Covered(balances, symbol, dist)
  {
    if dist != [] {
      var front := dist[..|dist| - 1];
      BurnCheckExact(balances, symbol, front);
      assert dist == front + [dist[|dist| - 1]];
    }
  }

  lemma AnyRole(account: Account, who: Address, wanted: set<Role>)
    ensures account.HasAnyRole(who, wanted) <==> exists r :: r in wanted && account.HasRole(who, r)
  {
    if account.HasAnyRole(who, wanted) {
      var r :| r in account.roles[who] * wanted;
    } else if r :| r in wanted && account.HasRole(who, r) {
      assert r in account.roles[who] * wanted;
    }
  }

  lemma TokenAclMeans(db: Store, sender: Address, owner: Address, role: Role)
    ensures VerifyTokenAcl(db, sender, owner, role).Ok? <==> ActsFor(db, sender, owner, role)
  {
    if sender != owner && EnabledAccount(db, owner).Some? {
      AnyRole(EnabledAccount(db, owner).value, sender, {role});
    }
  }

  // ---------------------------------------------------------------- operations are legal

  // `m'` follows from `m` by one allowed effect that starts no execution and ends no block.
  ghost predicate Performs(m: Machine, m': Machine, e: Effect) {
    Enabled(m.s, e) && !e.Started? && !e.NextBlock? && m' == Do(m, e)
  }

  ghost predicate AtMostOne(m: Machine, m': Machine) {
    m' == m || exists e :: Performs(m, m', e)
  }

  lemma AtMostOneReached(g: State, m: Machine, m': Machine)
    requires Reached(g, m) && AtMostOne(m, m')
    ensures Reached(g, m')
  {
    if m' != m {
      var e :| Performs(m, m', e);
      DoReached(g, m, e);
    }
  }

  lemma SendAllowed(m: Machine, sender: Address, from: Option<Address>, to: Address, symbol: Symbol, amount: nat,
                    memo: Option<Memo>)
    ensures AtMostOne(m, Send(m, sender, from, to, symbol, amount, memo).m)
  {
    var source := from.GetOr(sender);
    var account := EnabledAccount(m.s.db, source);
    if account.Some? { AnyRole(account.value, sender, {CanLedgerTransact}); }
    var o := Send(m, sender, from, to, symbol, amount, memo);
    assert o.m != m ==> Performs(m, o.m, Sent(Direct(sender), source, to, symbol, amount, memo));
  }

  lemma TransferAllowed(m: Machine, token: nat, from: Address, to: Address, symbol: Symbol, amount: nat,
                        memo: Option<Memo>)
    requires OrderedByMultisig(m.s.db, token, from, to, symbol, amount, memo)
    ensures AtMostOne(m, StorageSend(m, ViaMultisig(token), from, to, symbol, amount, memo).m)
  {
    var o := StorageSend(m, ViaMultisig(token), from, to, symbol, amount, memo);
    assert o.m != m ==> Performs(m, o.m, Sent(ViaMultisig(token), from, to, symbol, amount, memo));
  }

  lemma MintAllowed(m: Machine, sender: Address, symbol: Symbol, dist: Distribution, memo: Option<Memo>)
    ensures AtMostOne(m, Mint(m, sender, symbol, dist, memo).m)
  {
    if symbol in m.s.db.tokens { MintCheckExact(m.s.db.tokens[symbol], dist); }
    var o := Mint(m, sender, symbol, dist, memo);
    assert o.m != m ==> Performs(m, o.m, Minted(sender, symbol, dist, memo));
  }

  lemma BurnAllowed(m: Machine, sender: Address, symbol: Symbol, dist: Distribution, memo: Option<Memo>,
                    errorOnUnderBurn: Option<bool>)
    ensures AtMostOne(m, Burn(m, sender, symbol, dist, memo, errorOnUnderBurn).m)
  {
    BurnCheckExact(m.s.db.balances, symbol, dist);
    var o := Burn(m, sender, symbol, dist, memo, errorOnUnderBurn);
    assert o.m != m ==> Performs(m, o.m, Burned(sender, symbol, dist, memo));
  }

  lemma CreateTokenAllowed(m: Machine, sender: Address, args: TokenCreateArgs)
    ensures AtMostOne(m, CreateToken(m, sender, args).m)
  {
    if args.owner.Some? && args.owner.value.To? {
      TokenAclMeans(m.s.db, sender, args.owner.value.owner, CanTokensCreate);
    }
    var o := CreateToken(m, sender, args);
    if o.r.Ok? {
      AllocationExact(m.s.db.alloc, m.s.db.alloc.TokenIdentity(), m.s.committed.symbols);
      assert Performs(m, o.m, TokenCreated(sender, o.r.value.symbol.id, args));
    }
  }

  lemma UpdateTokenAllowed(m: Machine, sender: Address, args: TokenUpdateArgs)
    ensures AtMostOne(m, UpdateToken(m, sender, args).m)
  {
    if args.symbol in m.s.db.tokens && m.s.db.tokens[args.symbol].owner.Some? {
      TokenAclMeans(m.s.db, sender, m.s.db.tokens[args.symbol].owner.value, CanTokensUpdate);
    }
    var o := UpdateToken(m, sender, args);
    assert o.m != m ==> Performs(m, o.m, TokenUpdated(sender, args));
  }

  lemma AddAccountAllowed(m: Machine, creator: Address, args: CreateArgs)
    ensures AtMostOne(m, AddAccount(m, creator, args).m)
  {
    var o := AddAccount(m, creator, args);
    if o.r.Ok? {
      AllocationExact(m.s.db.alloc, m.s.db.alloc.AccountIdentity(), m.s.committed.symbols);
      assert Performs(m, o.m, AccountCreated(o.r.value.id.id, Finished(Fresh(creator, args), o.r.value.id)));
    }
  }

  lemma ChangeAccountAllowed(m: Machine, sender: Address, target: Address, change: AccountChange)
    ensures AtMostOne(m, StorageChangeAccount(m, sender, target, change).m)
  {
    var o := StorageChangeAccount(m, sender, target, change);
    if o.m != m {
      var out := TryChange(target, m.s.db.accounts[target], change);
      assert Performs(m, o.m, AccountChanged(sender, target, out.logged));
    }
  }

  lemma SubmitAllowed(m: Machine, sender: Address, arg: SubmitArgs)
    ensures AtMostOne(m, Submit(m, sender, arg).m)
  {
    var o := Submit(m, sender, arg);
    if o.r.Ok? {
      AnyRole(EnabledAccount(m.s.db, arg.account).value, sender, {CanMultisigSubmit, Owner});
      assert Performs(m, o.m, o.m.trace[|m.trace|]);
    } else {
      assert Performs(m, o.m, TakeId);
    }
  }

  lemma RevokeAllowed(m: Machine, sender: Address, token: nat)
    ensures AtMostOne(m, Revoke(m, sender, token).m)
  {
    var o := Revoke(m, sender, token);
    assert o.m != m ==> Performs(m, o.m, Revoked(token, sender));
  }

  lemma DisableAllowed(m: Machine, token: nat, state: TxState)
    requires state.Withdrawn? || state.ExecutedManually? || state.ExecutedAutomatically?
    ensures AtMostOne(m, DisableTx(m, token, state).m)
  {
    var o := DisableTx(m, token, state);
    assert o.m != m ==> Performs(m, o.m, Ended(token, state));
  }

  lemma WithdrawAllowed(m: Machine, sender: Address, token: nat)
    ensures AtMostOne(m, DisableTx(m, token, Withdrawn).m)
    ensures var o := Withdraw(m, sender, token);
            o.m == m || AtMostOne(DisableTx(m, token, Withdrawn).m, o.m)
  {
    DisableAllowed(m, token, Withdrawn);
    var o, m1 := Withdraw(m, sender, token), DisableTx(m, token, Withdrawn).m;
    if o.m != m {
      assert Performs(m1, o.m, Logged(WithdrawEvent(m.s.db.multisigs[token].account, token, sender)));
    }
  }

  lemma LogAllowed(o: Run, account: Address, token: nat, executer: Option<Address>)
    requires o.Done?
    ensures AtMostOne(o.m, LogExecution(o, account, token, executer).m)
  {
    var o' := LogExecution(o, account, token, executer);
    if o'.m != o.m { assert Performs(o.m, o'.m, Logged(ExecuteEvent(account, token, executer, o.r.value))); }
  }

  /** A payload that enters no other transaction performs at most one effect, two for a withdrawal. */
  lemma PlainPayloadAllowed(depth: nat, m: Machine, token: nat, tx: Multisig)
    requires PendingTx(m.s.db, token) && m.s.db.multisigs[token] == tx && tx.ShouldExecute()
    requires !tx.info.transaction.ApprovePayload? && !tx.info.transaction.ExecutePayload?
    requires !tx.info.transaction.WithdrawPayload?
    ensures RunPayload(depth, m, token, tx).Done? && AtMostOne(m, RunPayload(depth, m, token, tx).m)
  {
    match tx.info.transaction
    case TransferPayload(from, to, symbol, amount, memo) =>
      if from.Some? && EnabledAccount(m.s.db, from.value).Some? {
        var account := EnabledAccount(m.s.db, from.value).value;
        AnyRole(account, tx.account, {CanLedgerTransact, Owner});
        if account.HasAnyRole(tx.account, {CanLedgerTransact, Owner}) {
          TransferAllowed(m, token, from.value, to, symbol, amount, memo);
        }
      }
    case CreateAccountPayload(args) => AddAccountAllowed(m, tx.account, args);
    case ChangeAccountPayload(target, change) => ChangeAccountAllowed(m, tx.account, target, change);
    case SubmitPayload(arg) => SubmitAllowed(m, tx.account, arg);
    case RevokePayload(t) => RevokeAllowed(m, tx.account, t);
    case UnsupportedPayload =>
  }

  lemma WithdrawLegal(g: State, m: Machine, sender: Address, token: nat)
    requires Reached(g, m)
    ensures Reached(g, Withdraw(m, sender, token).m)
  {
    WithdrawAllowed(m, sender, token);
    AtMostOneReached(g, m, DisableTx(m, token, Withdrawn).m);
    var o := Withdraw(m, sender, token);
    if o.m != m { AtMostOneReached(g, DisableTx(m, token, Withdrawn).m, o.m); }
  }

  /** Running a payload, including every multisig call nested in it. */
  lemma {:induction false} RunPayloadLegal(depth: nat, g: State, m: Machine, token: nat, tx: Multisig)
    requires Reached(g, m) && PendingTx(m.s.db, token) && m.s.db.multisigs[token] == tx && tx.ShouldExecute()
    requires RunPayload(depth, m, token, tx).Done?
    ensures Reached(g, RunPayload(depth, m, token, tx).m)
    decreases depth, 2
  {
    match tx.info.transaction
    case ApprovePayload(t) => ApproveLegal(depth, g, m, tx.account, t);
    case ExecutePayload(t) => ExecuteLegal(depth, g, m, tx.account, t);
    case WithdrawPayload(t) => WithdrawLegal(g, m, tx.account, t);
    case _ =>
      PlainPayloadAllowed(depth, m, token, tx);
      AtMostOneReached(g, m, RunPayload(depth, m, token, tx).m);
  }

  lemma {:induction false} ExecuteInternalLegal(depth: nat, g: State, m: Machine, token: nat, tx: Multisig,
                                                automatically: bool)
    requires Reached(g, m) && PendingTx(m.s.db, token) && m.s.db.multisigs[token] == tx && tx.ShouldExecute()
    requires EnabledAccount(m.s.db, tx.account).Some?
    requires ExecuteInternal(depth, m, token, tx, automatically).Done?
    ensures Reached(g, ExecuteInternal(depth, m, token, tx, automatically).m)
    decreases depth, 0
  {
    DoReached(g, m, Started(token));
    RunPayloadLegal(depth - 1, g, Do(m, Started(token)), token, tx);
    var m1 := RunPayload(depth - 1, Do(m, Started(token)), token, tx).m;
    var state := if automatically then ExecutedAutomatically else ExecutedManually;
    DisableAllowed(m1, token, state);
    AtMostOneReached(g, m1, DisableTx(m1, token, state).m);
  }

  lemma {:induction false} ApproveLegal(depth: nat, g: State, m: Machine, sender: Address, token: nat)
    requires Reached(g, m)
    requires Approve(depth, m, sender, token).Done?
    ensures Reached(g, Approve(depth, m, sender, token).m)
    decreases depth, 1
  {
    var found := LookUp(m.s.db, token);
    if found.Ok? && CanApprove(found.value.1, sender) {
      var m1 := Do(m, Approved(token, sender));
      DoReached(g, m, Approved(token, sender));
      var tx1 := WithApproval(found.value.0, sender, true);
      if tx1.info.automatic && tx1.ShouldExecute() {
        ExecuteInternalLegal(depth, g, m1, token, tx1, true);
        var o := ExecuteInternal(depth, m1, token, tx1, true);
        LogAllowed(o, tx1.account, token, None);
        AtMostOneReached(g, o.m, LogExecution(o, tx1.account, token, None).m);
      }
    }
  }

  lemma {:induction false} ExecuteLegal(depth: nat, g: State, m: Machine, sender: Address, token: nat)
    requires Reached(g, m)
    requires Execute(depth, m, sender, token).Done?
    ensures Reached(g, Execute(depth, m, sender, token).m)
    decreases depth, 1
  {
    var found := LookUp(m.s.db, token);
    if found.Ok? && CanExecute(found.value.0, found.value.1, sender) && found.value.0.ShouldExecute() {
      var tx := found.value.0;
      ExecuteInternalLegal(depth, g, m, token, tx, false);
      var o := ExecuteInternal(depth, m, token, tx, false);
      LogAllowed(o, tx.account, token, Some(sender));
      AtMostOneReached(g, o.m, LogExecution(o, tx.account, token, Some(sender)).m);
    }
  }

  lemma CommitLegal(g: State, m: Machine, memo: bool, counts: bool)
    requires Reached(g, m)
    ensures Reached(g, Commit(m, memo, counts))
  {
    hide Apply;
    var m1 := Do(m, ExpirySwept);
    DoReached(g, m, ExpirySwept);
    var m2 := if memo then Do(m1, MemoMigrated) else m1;
    DoReached(g, m1, MemoMigrated);
    var m3 := if counts then Do(m2, CountsInitialised) else m2;
    DoReached(g, m2, CountsInitialised);
    DoReached(g, m3, NextBlock);
  }

  /** A call that enters no transaction performs at most one effect. */
  lemma PlainCallAllowed(depth: nat, m: Machine, c: Call)
    requires !c.ApproveCall? && !c.ExecuteCall? && !c.WithdrawCall? && !c.CommitCall?
    ensures Answer(depth, m, c).Done? && AtMostOne(m, Answer(depth, m, c).m)
  {
    match c
    case SendCall(sender, from, to, symbol, amount, memo) => SendAllowed(m, sender, from, to, symbol, amount, memo);
    case MintCall(sender, symbol, dist, memo) => MintAllowed(m, sender, symbol, dist, memo);
    case BurnCall(sender, symbol, dist, memo, e) => BurnAllowed(m, sender, symbol, dist, memo, e);
    case CreateTokenCall(sender, args) => CreateTokenAllowed(m, sender, args);
    case UpdateTokenCall(sender, args) => UpdateTokenAllowed(m, sender, args);
    case CreateAccountCall(sender, args) => AddAccountAllowed(m, sender, args);
    case ChangeAccountCall(sender, target, change) => ChangeAccountAllowed(m, sender, target, change);
    case SubmitCall(sender, arg) => SubmitAllowed(m, sender, arg);
    case RevokeCall(sender, id) => RevokeAllowed(m, sender, id);
    case BeginBlockCall(time) => if time.Some? { assert Performs(m, Do(m, TimeSet(time.value)), TimeSet(time.value)); }
  }

  lemma AnswerLegal(depth: nat, g: State, m: Machine, c: Call)
    requires Reached(g, m)
    requires Answer(depth, m, c).Done?
    ensures Reached(g, Answer(depth, m, c).m)
  {
    hide Approve, Execute, Withdraw, Commit, Reached;
    match c
    case ApproveCall(sender, id) => ApproveLegal(depth, g, m, sender, id);
    case ExecuteCall(sender, id) => ExecuteLegal(depth, g, m, sender, id);
    case WithdrawCall(sender, id) => WithdrawLegal(g, m, sender, id);
    case CommitCall(memo, counts) => CommitLegal(g, m, memo, counts);
    case _ =>
      PlainCallAllowed(depth, m, c);
      AtMostOneReached(g, m, Answer(depth, m, c).m);
  }

  /** Every run of calls, whatever their payloads, is a legal trace of effects. */
  lemma {:induction false} CallsLegal(depth: nat, g: State, calls: seq<Call>)
    requires Calls(depth, Machine(g, []), calls).Some?
    ensures Reached(g, Calls(depth, Machine(g, []), calls).value)
    decreases |calls|
  {
    if calls != [] {
      CallsLegal(depth, g, calls[..|calls| - 1]);
      AnswerLegal(depth, g, Calls(depth, Machine(g, []), calls[..|calls| - 1]).value, calls[|calls| - 1]);
    }
  }
}
