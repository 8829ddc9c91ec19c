/** Every call does what its outcome says, however deep the executions it starts are nested: each
    payload moves, creates, changes or submits what a direct call of its account would. */
module Executions {
  import opened LedgerTypes
  import opened AccountRules
  import opened LedgerMachine
  import opened Operations
  import opened Footprints
  import opened Legality
  import opened Outcomes
  import opened CallContracts

  // ---------------------------------------------------------------- stored transactions stay stored

  lemma {:induction false} PayloadKeepsKeys(depth: nat, s: State, tx: Multisig, r: Result<Value>, s': State)
    requires PayloadOutcome(depth, s, tx, r, s')
    ensures s.db.multisigs.Keys <= s'.db.multisigs.Keys
    decreases depth, 2
  {
    hide ApproveOutcome, ExecuteOutcome;
    match tx.info.transaction {
      case ApprovePayload(t) =>
        var met :| ApproveOutcome(depth, s, tx.account, t, met, s') && Silenced(met, r);
        ApproveKeepsKeys(depth, s, tx.account, t, met, s');
      case ExecutePayload(t) =>
        var met :| ExecuteOutcome(depth, s, tx.account, t, met, s') && Silenced(met, r);
        ExecuteKeepsKeys(depth, s, tx.account, t, met, s');
      case _ => PlainKeepsKeys(depth, s, tx, r, s');
    }
  }

  lemma PlainKeepsKeys(depth: nat, s: State, tx: Multisig, r: Result<Value>, s': State)
    requires PayloadOutcome(depth, s, tx, r, s')
    requires !tx.info.transaction.ApprovePayload? && !tx.info.transaction.ExecutePayload?
    ensures s.db.multisigs.Keys <= s'.db.multisigs.Keys
  {
    hide MoveOutcome, CreateAccountOutcome, ChangeAccountOutcome, SubmitOutcome, RevokeOutcome, WithdrawOutcome,
      EnabledAccount;
    match tx.info.transaction
    case TransferPayload(from, to, symbol, amount, memo) =>
      if from.Some? && MoveOutcome(s, from.value, to, symbol, amount, memo, r, s') {
        MoveKeepsTxs(s, from.value, to, symbol, amount, memo, r, s');
      }
    case CreateAccountPayload(args) => CreationKeepsTxs(s, tx.account, args, r, s');
    case ChangeAccountPayload(target, change) => ChangeKeepsTxs(s, tx.account, target, change, r, s');
    case SubmitPayload(arg) => SubmissionKeepsKeys(s, tx.account, arg, r, s');
    case RevokePayload(t) =>
      var met :| RevokeOutcome(s, tx.account, t, met, s') && Silenced(met, r);
      RevocationKeepsKeys(s, tx.account, t, met, s');
    case WithdrawPayload(t) => WithdrawalKeepsKeys(s, tx.account, t, r, s');
    case UnsupportedPayload =>
  }

  lemma MoveKeepsTxs(s: State, from: Address, to: Address, symbol: Symbol, amount: nat, memo: Option<Memo>,
                     r: Result<Value>, s': State)
    requires MoveOutcome(s, from, to, symbol, amount, memo, r, s')
    ensures s'.db.multisigs == s.db.multisigs
  {
    hide Movable, Miscounted, MoveRefused, Shifted, Recounted;
  }

  lemma CreationKeepsTxs(s: State, creator: Address, args: CreateArgs, r: Result<Value>, s': State)
    requires CreateAccountOutcome(s, creator, args, r, s')
    ensures s'.db.multisigs == s.db.multisigs
  {
    hide RolesFit, FirstFree, NoneFree, AccountStored;
  }

  lemma ChangeKeepsTxs(s: State, actor: Address, target: Address, change: AccountChange, r: Result<Value>, s': State)
    requires ChangeAccountOutcome(s, actor, target, change, r, s')
    ensures s'.db.multisigs == s.db.multisigs
  {
    hide EnabledAccount, AdditionFits, ChangedTo;
  }

  lemma SubmissionKeepsKeys(s: State, actor: Address, arg: SubmitArgs, r: Result<Value>, s': State)
    requires SubmitOutcome(s, actor, arg, r, s')
    ensures s.db.multisigs.Keys <= s'.db.multisigs.Keys
  {
    hide EnabledAccount;
  }

  lemma RevocationKeepsKeys(s: State, actor: Address, token: nat, r: Result<Value>, s': State)
    requires RevokeOutcome(s, actor, token, r, s')
    ensures s.db.multisigs.Keys <= s'.db.multisigs.Keys
  {
    hide MayVote, NotOpen;
  }

  lemma WithdrawalKeepsKeys(s: State, actor: Address, token: nat, r: Result<Value>, s': State)
    requires WithdrawOutcome(s, actor, token, r, s')
    ensures s.db.multisigs.Keys <= s'.db.multisigs.Keys
  {
    hide NotOpen;
  }

  lemma {:induction false} RunKeepsKeys(depth: nat, s: State, token: nat, executer: Option<Address>, r: Result<Value>,
                                        s': State)
    requires RunOutcome(depth, s, token, executer, r, s')
    ensures s.db.multisigs.Keys <= s'.db.multisigs.Keys
    decreases depth, 0
  {
    hide PayloadOutcome;
    var tx := s.db.multisigs[token];
    var answer, p: State :| PayloadOutcome(depth - 1, s, tx, answer, p)
                            && FinishOutcome(p, tx, token, executer, answer, r, s');
    PayloadKeepsKeys(depth - 1, s, tx, answer, p);
  }

  lemma {:induction false} ApproveKeepsKeys(depth: nat, s: State, actor: Address, token: nat, r: Result<Value>,
                                            s': State)
    requires ApproveOutcome(depth, s, actor, token, r, s')
    ensures s.db.multisigs.Keys <= s'.db.multisigs.Keys
    decreases depth, 1
  {
    hide RunOutcome, MayVote, Voters;
    if Open(s.db, token) && MayVote(s.db.accounts[s.db.multisigs[token].account].roles, actor) {
      var a := WithVote(s, token, actor);
      if RunOutcome(depth, a, token, None, r, s') { RunKeepsKeys(depth, a, token, None, r, s'); }
    }
  }

  lemma {:induction false} ExecuteKeepsKeys(depth: nat, s: State, actor: Address, token: nat, r: Result<Value>,
                                            s': State)
    requires ExecuteOutcome(depth, s, actor, token, r, s')
    ensures s.db.multisigs.Keys <= s'.db.multisigs.Keys
    decreases depth, 1
  {
    hide RunOutcome;
    if RunOutcome(depth, s, token, Some(actor), r, s') { RunKeepsKeys(depth, s, token, Some(actor), r, s'); }
  }

  // ---------------------------------------------------------------- nested executions

  /** Whatever the payload of a transaction, it does what a direct call of its account would do. */
  lemma {:induction false} PayloadExact(depth: nat, m: Machine, token: nat, tx: Multisig)
    requires RunPayload(depth, m, token, tx).Done?
    ensures var o := RunPayload(depth, m, token, tx); PayloadOutcome(depth, m.s, tx, o.r, o.m.s)
    decreases depth, 2
  {
    hide Apply, Approve, Execute, Revoke, Withdraw, Submit, AddAccount, StorageChangeAccount, StorageSend, MoveOutcome,
      CreateAccountOutcome, ChangeAccountOutcome, SubmitOutcome, RevokeOutcome, WithdrawOutcome, ApproveOutcome,
      ExecuteOutcome;
    match tx.info.transaction {
      case TransferPayload(from, to, symbol, amount, memo) => TransferExact(depth, m, token, tx);
      case CreateAccountPayload(args) => CreateAccountExact(m, tx.account, args);
      case ChangeAccountPayload(target, change) => ChangeAccountExact(m, tx.account, target, change);
      case SubmitPayload(arg) => SubmitExact(m, tx.account, arg);
      case ApprovePayload(t) =>
        ApproveMeets(depth, m, tx.account, t);
        assert Silenced(Approve(depth, m, tx.account, t).r, RunPayload(depth, m, token, tx).r);
      case RevokePayload(t) =>
        RevokeExact(m, tx.account, t);
        assert Silenced(Revoke(m, tx.account, t).r, RunPayload(depth, m, token, tx).r);
      case ExecutePayload(t) =>
        ExecuteMeets(depth, m, tx.account, t);
        assert Silenced(Execute(depth, m, tx.account, t).r, RunPayload(depth, m, token, tx).r);
      case WithdrawPayload(t) => WithdrawExact(m, tx.account, t);
      case UnsupportedPayload =>
    }
  }

  lemma TransferExact(depth: nat, m: Machine, token: nat, tx: Multisig)
    requires tx.info.transaction.TransferPayload?
    ensures var o, p := RunPayload(depth, m, token, tx), tx.info.transaction;
            o.Done? && TransferOutcome(m.s, tx.account, p.from, p.to, p.symbol, p.amount, p.memo, o.r, o.m.s)
  {
    hide StorageSend, MoveOutcome;
    var p := tx.info.transaction;
    if p.from.Some? {
      MoveExact(m, ViaMultisig(token), p.from.value, p.to, p.symbol, p.amount, p.memo);
      var found := EnabledAccount(m.s.db, p.from.value);
      if found.Some? { AnyRole(found.value, tx.account, {CanLedgerTransact, Owner}); }
    }
  }

  lemma {:induction false} RunExact(depth: nat, m: Machine, token: nat, executer: Option<Address>)
    requires token in m.s.db.multisigs
    requires ExecuteInternal(depth, m, token, m.s.db.multisigs[token], executer.None?).Done?
    ensures var tx := m.s.db.multisigs[token];
            var o := LogExecution(ExecuteInternal(depth, m, token, tx, executer.None?), tx.account, token, executer);
            RunOutcome(depth, m.s, token, executer, o.r, o.m.s)
    decreases depth, 0
  {
    hide Apply, RunPayload, PayloadOutcome, DisableTx, FinishOutcome, LogExecution;
    var tx, m0 := m.s.db.multisigs[token], Do(m, Started(token));
    StartedWrites(m.s, token);
    PayloadExact(depth - 1, m0, token, tx);
    var p := RunPayload(depth - 1, m0, token, tx);
    PayloadKeepsKeys(depth - 1, m.s, tx, p.r, p.m.s);
    FinishExact(p, tx, token, executer);
    DisableDone(p.m, token, if executer.None? then ExecutedAutomatically else ExecutedManually);
  }

  lemma DisableDone(m: Machine, token: nat, state: TxState)
    ensures DisableTx(m, token, state).Done?
  {
  }

  // Closing a transaction after its payload, and logging the answer.
  lemma FinishExact(p: Run, tx: Multisig, token: nat, executer: Option<Address>)
    requires p.Done? && token in p.m.s.db.multisigs
    ensures var closed := DisableTx(p.m, token, if executer.None? then ExecutedAutomatically else ExecutedManually);
            var run := match closed
                       case Done(m, Ok(_)) => Done(m, Ok(Responded(Response(tx.account, p.r, m.s.now))))
                       case _ => closed;
            var o := LogExecution(run, tx.account, token, executer);
            o.Done? && FinishOutcome(p.m.s, tx, token, executer, p.r, o.r, o.m.s)
  {
    var state := if executer.None? then ExecutedAutomatically else ExecutedManually;
    if !p.m.s.db.multisigs[token].disabled {
      EndedIs(p.m.s, token, state);
      var s1 := Apply(p.m.s, Ended(token, state));
      var response := Responded(Response(tx.account, p.r, s1.now));
      LoggedWrites(s1, ExecuteEvent(tx.account, token, executer, response));
    }
    hide Apply;
  }

  lemma EndedIs(s: State, token: nat, state: TxState)
    requires token in s.db.multisigs
    ensures Apply(s, Ended(token, state))
            == s.(db := s.db.(multisigs := s.db.multisigs[token := ClosedAs(s.db.multisigs[token], state)]))
  {
  }

  /** An approval, by a call or by a payload, with the execution it starts. */
  lemma {:induction false} ApproveMeets(depth: nat, m: Machine, sender: Address, token: nat)
    requires Approve(depth, m, sender, token).Done?
    ensures var o := Approve(depth, m, sender, token); ApproveOutcome(depth, m.s, sender, token, o.r, o.m.s)
    decreases depth, 1
  {
    hide Apply, ExecuteInternal, RunOutcome, CanApprove, MayVote;
    LookUpMeans(m.s.db, token);
    if Open(m.s.db, token) {
      var tx, account := LookUp(m.s.db, token).value.0, LookUp(m.s.db, token).value.1;
      VotesMean(account, sender);
      if MayVote(account.roles, sender) {
        var m1 := Do(m, Approved(token, sender));
        VoteCounts(m.s, token, sender);
        if tx.info.automatic && |Voters(tx) + {sender}| >= tx.info.threshold { RunExact(depth, m1, token, None); }
      }
    }
  }

  lemma VoteCounts(s: State, token: nat, who: Address)
    requires token in s.db.multisigs
    ensures var tx := s.db.multisigs[token];
            && Apply(s, Approved(token, who)) == WithVote(s, token, who)
            && WithApproval(tx, who, true) == Voted(tx, who, true) == WithVote(s, token, who).db.multisigs[token]
            && Voted(tx, who, true).Approvals() == Voters(tx) + {who}
  {
    ApprovedWrites(s, token, who);
    hide Apply;
  }

  /** An execution on request, by a call or by a payload. */
  lemma {:induction false} ExecuteMeets(depth: nat, m: Machine, sender: Address, token: nat)
    requires Execute(depth, m, sender, token).Done?
    ensures var o := Execute(depth, m, sender, token); ExecuteOutcome(depth, m.s, sender, token, o.r, o.m.s)
    decreases depth, 1
  {
    hide Apply, ExecuteInternal, RunOutcome;
    LookUpMeans(m.s.db, token);
    if Open(m.s.db, token) {
      var tx := m.s.db.multisigs[token];
      assert Voters(tx) == tx.Approvals();
      if Commands(m.s.db, tx, sender) && |Voters(tx)| >= tx.info.threshold { RunExact(depth, m, token, Some(sender)); }
    }
  }

  // ---------------------------------------------------------------- blocks

  lemma CommitMeets(m: Machine, memo: bool, counts: bool)
    ensures CommitOutcome(m.s, memo, counts, Commit(m, memo, counts).s)
  {
    hide Apply, CommitOutcome;
    var s1 := Apply(m.s, ExpirySwept);
    var s2 := if memo then Apply(s1, MemoMigrated) else s1;
    var s3 := if counts then Apply(s2, CountsInitialised) else s2;
    SweepWrites(m.s);
    CountsWrite(s2);
    NextBlockWrites(s3);
    CommitParts(m.s, s1, s2, s3, memo, counts);
  }

  lemma CountsWrite(s: State)
    ensures Apply(s, CountsInitialised)
            == s.(db := s.db.(counts := Some(AccountCounts(|s.db.balances|,
                                                           |set k | k in s.db.balances && s.db.balances[k] > 0|))))
  {
    assert NonZeroHoldings(s.db.balances) == set k | k in s.db.balances && s.db.balances[k] > 0;
  }

  lemma CommitParts(s: State, s1: State, s2: State, s3: State, memo: bool, counts: bool)
    requires s1 == ApplySwept(s) && s2 == (if memo then Apply(s1, MemoMigrated) else s1)
    requires s3 == if counts then Apply(s2, CountsInitialised) else s2
    ensures CommitOutcome(s, memo, counts, Apply(s3, NextBlock))
  {
    CountsWrite(s2);
    NextBlockWrites(s3);
    if memo { MigrationIs(s1); }
    hide Apply, Swept, MigratedTx, MigratedEvent, TxJoined, EventJoined, TxSwept;
    var s' := Apply(s3, NextBlock);
    forall t | t in s.db.multisigs
      ensures t in s'.db.multisigs
      ensures exists tx :: TxSwept(s, t, tx)
                           && if memo then TxJoined(tx, s'.db.multisigs[t]) else s'.db.multisigs[t] == tx
    {
      SweptIs(s, t);
      assert TxSwept(s, t, Swept(s, t));
    }
  }

  lemma SweptIs(s: State, t: nat)
    requires t in s.db.multisigs
    ensures TxSwept(s, t, Swept(s, t))
  {
  }

  lemma MigrationIs(s: State)
    ensures var s' := Apply(s, MemoMigrated);
            && s' == s.(db := s'.db, memoActive := true, committed := Committed(s'.db.multisigs, s'.db.tokens.Keys))
            && s'.db == s.db.(multisigs := s'.db.multisigs, events := s'.db.events)
            && s'.db.multisigs.Keys == s.db.multisigs.Keys && s'.db.events.Keys == s.db.events.Keys
            && (forall t :: t in s.db.multisigs ==> TxJoined(s.db.multisigs[t], s'.db.multisigs[t]))
            && (forall id :: id in s.db.events ==> EventJoined(s.db.events[id], s'.db.events[id]))
  {
    hide MigratedTx, MigratedEvent, TxJoined, EventJoined;
    assert Apply(s, MemoMigrated) == ApplyMigratedMemos(s);
    hide Apply;
    forall t | t in s.db.multisigs ensures TxJoined(s.db.multisigs[t], MigratedTx(s.db.multisigs[t])) {
      TxJoins(s.db.multisigs[t]);
    }
    forall id | id in s.db.events ensures EventJoined(s.db.events[id], MigratedEvent(s.db.events[id])) {
      EventJoins(s.db.events[id]);
    }
  }

  lemma TxJoins(tx: Multisig)
    ensures TxJoined(tx, MigratedTx(tx))
  {
  }

  lemma EventJoins(log: EventLog)
    ensures EventJoined(log, MigratedEvent(log))
  {
  }

  // ---------------------------------------------------------------- every call

  /** Every call that is answered at all answers and leaves behind what its outcome says, through all
      executions nested in it. */
  lemma CallExact(depth: nat, m: Machine, c: Call)
    requires Answer(depth, m, c).Done?
    ensures var o := Answer(depth, m, c); CallOutcome(depth, m.s, c, o.r, o.m.s)
  {
    hide Apply, Send, Mint, Burn, CreateToken, UpdateToken, AddAccount, StorageChangeAccount, Submit, Approve, Revoke,
      Execute, Withdraw, Commit, SendOutcome, MintOutcome, BurnOutcome, CreateTokenOutcome, UpdateTokenOutcome,
      CreateAccountOutcome, ChangeAccountOutcome, SubmitOutcome, ApproveOutcome, RevokeOutcome, ExecuteOutcome,
      WithdrawOutcome, CommitOutcome;
    match c
    case SendCall(sender, from, to, symbol, amount, memo) => SendExact(m, sender, from, to, symbol, amount, memo);
    case MintCall(sender, symbol, dist, memo) => MintExact(m, sender, symbol, dist, memo);
    case BurnCall(sender, symbol, dist, memo, flag) => BurnExact(m, sender, symbol, dist, memo, flag);
    case CreateTokenCall(sender, args) => CreateTokenExact(m, sender, args);
    case UpdateTokenCall(sender, args) => UpdateTokenExact(m, sender, args);
    case CreateAccountCall(sender, args) => CreateAccountExact(m, sender, args);
    case ChangeAccountCall(sender, target, change) => ChangeAccountExact(m, sender, target, change);
    case SubmitCall(sender, arg) => SubmitExact(m, sender, arg);
    case ApproveCall(sender, id) => ApproveMeets(depth, m, sender, id);
    case RevokeCall(sender, id) => RevokeExact(m, sender, id);
    case ExecuteCall(sender, id) => ExecuteMeets(depth, m, sender, id);
    case WithdrawCall(sender, id) => WithdrawExact(m, sender, id);
    case BeginBlockCall(time) => if time.Some? { TimeIs(m.s, time.value); }
    case CommitCall(memo, counts) => CommitMeets(m, memo, counts);
  }

  lemma TimeIs(s: State, time: nat)
    ensures Apply(s, TimeSet(time)) == s.(now := time)
  {
  }

  // ---------------------------------------------------------------- executed transfers

  // The account at `from` lets `actor` transfer, whatever its features, and the amount can be moved.
  predicate MayTransfer(db: Store, actor: Address, from: Address, to: Address, symbol: Symbol, amount: nat) {
    && EnabledAccount(db, from).Some?
    && var account := EnabledAccount(db, from).value;
    && (account.HasRole(actor, Owner) || account.HasRole(actor, CanLedgerTransact))
    && Movable(db.balances, from, to, symbol, amount) && !Miscounted(db, from, to, symbol, amount)
  }

  /** What executing a transfer leaves, seen from the state it starts in: the tokens are moved and one
      send is logged if they may be, and otherwise no balance changes; then the execution is logged
      with that answer, and the transaction is closed. */
  ghost predicate TransferDone(s: State, token: nat, executer: Option<Address>, data: Result<Value>, s': State)
    requires token in s.db.multisigs && s.db.multisigs[token].info.transaction.TransferPayload?
    requires s.db.multisigs[token].info.transaction.from.Some?
  {
    var tx, p, next := s.db.multisigs[token], s.db.multisigs[token].info.transaction, s.latestTid + 1;
    var execution := ExecuteEvent(tx.account, token, executer, Responded(Response(tx.account, data, s.now)));
    && s'.db.multisigs == s.db.multisigs[token :=
         ClosedAs(tx, if executer.Some? then ExecutedManually else ExecutedAutomatically)]
    && s'.db.accounts == s.db.accounts && s'.db.tokens == s.db.tokens
    && if MayTransfer(s.db, tx.account, p.from.value, p.to, p.symbol, p.amount)
       then
         && data == Ok(Nothing) && s'.latestTid == next + 1
         && Shifted(s.db.balances, s'.db.balances, p.from.value, p.to, p.symbol, p.amount)
         && s'.db.events == s.db.events
              [next := EventLog(next, s.now, SendEvent(p.from.value, p.to, p.symbol, p.amount, p.memo))]
              [next + 1 := EventLog(next + 1, s.now, execution)]
       else
         && data.Err? && s'.latestTid == next && s'.db.balances == s.db.balances
         && s'.db.events == s.db.events[next := EventLog(next, s.now, execution)]
  }

  lemma TransferRuns(depth: nat, s: State, token: nat, executer: Option<Address>, r: Result<Value>, s': State)
    requires RunOutcome(depth, s, token, executer, r, s') && PendingTx(s.db, token)
    requires s.db.multisigs[token].info.transaction.TransferPayload?
    requires s.db.multisigs[token].info.transaction.from.Some?
    ensures exists data :: TransferDone(s, token, executer, data, s')
                           && r == Ok(if executer.None? then Executed(true)
                                      else Responded(Response(s.db.multisigs[token].account, data, s.now)))
  {
    var tx := s.db.multisigs[token];
    var t := tx.info.transaction;
    var answer, p: State :| PayloadOutcome(depth - 1, s, tx, answer, p)
                            && FinishOutcome(p, tx, token, executer, answer, r, s');
    hide TransferOutcome, FinishOutcome, TransferDone;
    TransferDecided(s, tx, answer, p);
    TransferFinished(s, token, executer, answer, p, r, s');
  }

  lemma TransferFinished(s: State, token: nat, executer: Option<Address>, answer: Result<Value>, p: State,
                         r: Result<Value>, s': State)
    requires PendingTx(s.db, token) && s.db.multisigs[token].info.transaction.TransferPayload?
    requires s.db.multisigs[token].info.transaction.from.Some?
    requires var tx := s.db.multisigs[token];
             TransferPaid(s, tx, answer, p) && FinishOutcome(p, tx, token, executer, answer, r, s')
    ensures TransferDone(s, token, executer, answer, s')
    ensures r == Ok(if executer.None? then Executed(true)
                    else Responded(Response(s.db.multisigs[token].account, answer, s.now)))
  {
    hide MayTransfer, Shifted;
  }

  // The payload alone.
  ghost predicate TransferPaid(s: State, tx: Multisig, answer: Result<Value>, p: State)
    requires tx.info.transaction.TransferPayload? && tx.info.transaction.from.Some?
  {
    var t := tx.info.transaction;
    if MayTransfer(s.db, tx.account, t.from.value, t.to, t.symbol, t.amount)
    then
      && answer == Ok(Nothing)
      && Shifted(s.db.balances, p.db.balances, t.from.value, t.to, t.symbol, t.amount)
      && LogsOne(s, p, s.db.(balances := p.db.balances, counts := p.db.counts),
                 SendEvent(t.from.value, t.to, t.symbol, t.amount, t.memo))
    else answer.Err? && p == s
  }

  lemma TransferDecided(s: State, tx: Multisig, answer: Result<Value>, p: State)
    requires tx.info.transaction.TransferPayload? && tx.info.transaction.from.Some?
    requires var t := tx.info.transaction;
             TransferOutcome(s, tx.account, t.from, t.to, t.symbol, t.amount, t.memo, answer, p)
    ensures TransferPaid(s, tx, answer, p)
  {
    hide EnabledAccount, BalanceOf, Shifted, Recounted, Miscounted, LogsOne;
  }

  /** An execution on request of a ready transfer: the response says Ok exactly when the account at the
      source is enabled and gives the multisig account owner or transact role, the positive amount is
      covered between different named addresses, and no counter would fall below zero; the tokens
      move exactly then. */
  lemma ExecutedTransfer(depth: nat, m: Machine, sender: Address, token: nat)
    requires depth > 0 && Executable(m.s.db, token, sender)
    requires var t := m.s.db.multisigs[token].info.transaction; t.TransferPayload? && t.from.Some?
    ensures var o, tx := Answer(depth, m, ExecuteCall(sender, token)), m.s.db.multisigs[token];
            && o.Done? && o.r.Ok? && o.r.value.Responded?
            && o.r.value.response.from == tx.account && o.r.value.response.timestamp == m.s.now
            && TransferDone(m.s, token, Some(sender), o.r.value.response.data, o.m.s)
  {
    assert token in m.s.db.multisigs;
    hide Execute, ExecuteInternal, ExecuteOutcome, TransferDone, RunOutcome, Apply, Executable;
    TransferEnds(depth, m, token, false);
    ExecutionEnds(depth, m, token, sender);
    ExecuteAnswers(depth, m, sender, token);
    hide Answer;
    ExecuteMeets(depth, m, sender, token);
    var o := Execute(depth, m, sender, token);
    ReadyRuns(depth, m.s, token, sender, o.r, o.m.s);
    TransferRuns(depth, m.s, token, Some(sender), o.r, o.m.s);
  }

  lemma ExecuteAnswers(depth: nat, m: Machine, sender: Address, token: nat)
    ensures Answer(depth, m, ExecuteCall(sender, token)) == Execute(depth, m, sender, token)
  {
    hide Execute;
  }

  lemma ReadyRuns(depth: nat, s: State, token: nat, sender: Address, r: Result<Value>, s': State)
    requires Executable(s.db, token, sender) && ExecuteOutcome(depth, s, sender, token, r, s')
    ensures PendingTx(s.db, token) && RunOutcome(depth, s, token, Some(sender), r, s')
  {
    hide RunOutcome;
    assert Voters(s.db.multisigs[token]) == s.db.multisigs[token].Approvals();
  }

  lemma TransferEnds(depth: nat, m: Machine, token: nat, automatically: bool)
    requires depth > 0 && token in m.s.db.multisigs && m.s.db.multisigs[token].info.transaction.TransferPayload?
    ensures ExecuteInternal(depth, m, token, m.s.db.multisigs[token], automatically).Done?
  {
    hide Apply, StorageSend;
  }

  lemma ExecutionEnds(depth: nat, m: Machine, token: nat, sender: Address)
    requires token in m.s.db.multisigs
    requires ExecuteInternal(depth, m, token, m.s.db.multisigs[token], false).Done?
    ensures Execute(depth, m, sender, token).Done?
  {
    hide ExecuteInternal, Apply;
  }

  /** An approval that completes the quorum of an automatic transfer does the same, from the state
      with the approval. */
  lemma ApprovedTransfer(depth: nat, m: Machine, sender: Address, token: nat)
    requires depth > 0 && Open(m.s.db, token)
    requires var tx, t := m.s.db.multisigs[token], m.s.db.multisigs[token].info.transaction;
             && t.TransferPayload? && t.from.Some? && MayVote(m.s.db.accounts[tx.account].roles, sender)
             && tx.info.automatic && |Voters(tx) + {sender}| >= tx.info.threshold
    ensures var o := Answer(depth, m, ApproveCall(sender, token));
            && o.Done? && o.r == Ok(Executed(true))
            && exists data :: TransferDone(WithVote(m.s, token, sender), token, None, data, o.m.s)
  {
    hide Approve, ExecuteInternal, TransferDone, RunOutcome, MayVote, Voters, Apply, EnabledAccount;
    VoteCounts(m.s, token, sender);
    var m1 := Do(m, Approved(token, sender));
    TransferEnds(depth, m1, token, true);
    ApprovalEnds(depth, m, token, sender);
    ApproveMeets(depth, m, sender, token);
    var o := Approve(depth, m, sender, token);
    TransferRuns(depth, WithVote(m.s, token, sender), token, None, o.r, o.m.s);
  }

  lemma ApprovalEnds(depth: nat, m: Machine, token: nat, sender: Address)
    requires token in m.s.db.multisigs
    requires var m1, tx := Do(m, Approved(token, sender)), WithApproval(m.s.db.multisigs[token], sender, true);
             ExecuteInternal(depth, m1, token, tx, true).Done?
    ensures Approve(depth, m, sender, token).Done?
  {
    hide ExecuteInternal, Apply;
  }
}
