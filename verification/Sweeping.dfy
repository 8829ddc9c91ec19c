/** What reads see and scans do not: the sweep at the end of a block, and the symbols of its new
    tokens, come from the store as it was committed when the block before ended. */
module Sweeping {
  import opened LedgerTypes
  import opened Allocation
  import opened AccountRules
  import opened LedgerMachine
  import opened Operations
  import opened Footprints
  import opened Legality
  import opened Outcomes
  import opened EventIds
  import opened Replay
  import opened TxHistory
  import opened Termination
  import opened SelfWithdrawal
  import opened CallContracts
  import opened Reloading

  // ---------------------------------------------------------------- the end of a block

  lemma CommitOf(m: Machine)
    ensures Commit(m, false, false).s == Apply(Apply(m.s, ExpirySwept), NextBlock)
  {
    hide Apply;
  }

  /** What a commit without migrations leaves of a stored transaction; afterwards scans find it so. */
  lemma CommitSweeps(m: Machine, t: nat)
    requires t in m.s.db.multisigs
    ensures var s' := Commit(m, false, false).s;
            && t in s'.db.multisigs && s'.db.multisigs[t] == Swept(m.s, t) && s'.committed == CommittedOf(s'.db)
            && s'.db.accounts == m.s.db.accounts && s'.now == m.s.now && s'.db.tokens == m.s.db.tokens
  {
    CommitOf(m);
    SweepWrites(m.s);
    NextBlockWrites(Apply(m.s, ExpirySwept));
    hide Apply, Commit;
  }

  // ---------------------------------------------------------------- closed, and expired all the same

  /** Whatever execution on request closes in the block in which its timeout has come, from a record
      committed open, is expired by the end of that block, with the approvals of the block before. */
  lemma ExecutedThenExpired(depth: nat, s: State, sender: Address, t: nat)
    requires Expires(s, t) && Execute(depth, Machine(s, []), sender, t).Done?
    requires Execute(depth, Machine(s, []), sender, t).r.Ok?
    ensures var m := Execute(depth, Machine(s, []), sender, t).m;
            && t in m.s.db.multisigs && m.s.db.multisigs[t].info.state == ExecutedManually
            && Commit(m, false, false).s.db.multisigs.Keys >= {t}
            && Commit(m, false, false).s.db.multisigs[t] == Closed(s.committed.txs[t], Expired)
  {
    var m := Execute(depth, Machine(s, []), sender, t).m;
    ExecuteExact(depth, Machine(s, []), sender, t);
    ExecuteIsCall(depth, s, sender, t);
    CallKeeps(depth, s, ExecuteCall(sender, t));
    hide Execute, Commit, Answer;
    CommitSweeps(m, t);
  }

  lemma ExecuteIsCall(depth: nat, s: State, sender: Address, t: nat)
    ensures Answer(depth, Machine(s, []), ExecuteCall(sender, t)) == Execute(depth, Machine(s, []), sender, t)
  {
    hide Execute;
  }

  /** An approval given in that block, if it executes nothing, is gone with it. */
  lemma ApprovalTakenBack(depth: nat, m: Machine, sender: Address, t: nat)
    requires Expires(m.s, t) && sender !in m.s.committed.txs[t].info.approvers
    requires Approve(depth, m, sender, t).Done? && Approve(depth, m, sender, t).r == Ok(Executed(false))
    ensures var m' := Approve(depth, m, sender, t).m;
            && t in m'.s.db.multisigs && sender in m'.s.db.multisigs[t].Approvals()
            && TakesBack(m'.s, ExpirySwept, t)
            && Commit(m', false, false).s.db.multisigs.Keys >= {t}
            && sender !in Commit(m', false, false).s.db.multisigs[t].Approvals()
  {
    var m' := Approve(depth, m, sender, t).m;
    ApproveExact(depth, m, sender, t);
    hide Approve, Commit;
    CommitSweeps(m', t);
  }

  // ---------------------------------------------------------------- one owner's transaction

  // `sender` owns the enabled account, which has the multisig feature.
  predicate OwnsMultisig(db: Store, account: Address, sender: Address) {
    && EnabledAccount(db, account).Some? && EnabledAccount(db, account).value.HasRole(sender, Owner)
    && EnabledAccount(db, account).value.features.multisig.Some?
  }

  // A submission its owner can execute alone.
  function Alone(account: Address, timeout: nat): SubmitArgs {
    SubmitArgs(account, None, None, None, UnsupportedPayload, Some(1), Some(timeout), Some(false))
  }

  // The transaction is pending, and its submitter may execute it.
  ghost predicate Ready(s: State, t: nat, account: Address, sender: Address) {
    && PendingTx(s.db, t) && OwnsMultisig(s.db, account, sender)
    && var tx := s.db.multisigs[t];
    && tx.account == account && tx.info.transaction == UnsupportedPayload && tx.ShouldExecute()
  }

  lemma SubmittedAlone(m: Machine, account: Address, sender: Address, timeout: nat)
    requires OwnsMultisig(m.s.db, account, sender)
    ensures var o, t := Submit(m, sender, Alone(account, timeout)), m.s.latestTid + 1;
            && o.r == Ok(NewToken(t)) && Ready(o.m.s, t, account, sender) && o.m.s.committed == m.s.committed
            && o.m.s.now == m.s.now
            && o.m.s.db.multisigs[t].info.timeout == m.s.now + Timeout(Some(timeout))
  {
    SubmitExact(m, sender, Alone(account, timeout));
    hide Submit, Timeout;
    assert |{sender}| == 1;
  }

  // A transaction submitted in the block that ends stays, whatever its timeout.
  lemma CommittedAlone(m: Machine, t: nat, account: Address, sender: Address)
    requires Ready(m.s, t, account, sender) && t !in m.s.committed.txs
    ensures var s' := Commit(m, false, false).s;
            && Ready(s', t, account, sender) && s'.db.multisigs[t] == m.s.db.multisigs[t]
            && t in s'.committed.txs && s'.committed.txs[t] == m.s.db.multisigs[t] && s'.now == m.s.now
  {
    CommitSweeps(m, t);
    hide Commit;
  }

  lemma ExecutedAlone(depth: nat, s: State, t: nat, account: Address, sender: Address)
    requires depth > 0 && Ready(s, t, account, sender)
    ensures var o := Execute(depth, Machine(s, []), sender, t);
            && o.Done? && o.r.Ok? && t in o.m.s.db.multisigs && o.m.s.db.multisigs[t].info.state == ExecutedManually
  {
    UnsupportedEnds(depth, s, t);
    ExecutionEnds(depth, s, t, sender);
    ExecuteExact(depth, Machine(s, []), sender, t);
    hide Execute;
  }

  lemma UnsupportedEnds(depth: nat, s: State, t: nat)
    requires depth > 0 && PendingTx(s.db, t) && s.db.multisigs[t].info.transaction == UnsupportedPayload
    ensures ExecuteInternal(depth, Machine(s, []), t, s.db.multisigs[t], false).Done?
    ensures !Withdraws(Frame(s, t), t, {})
  {
    hide Apply;
  }

  lemma ExecutionEnds(depth: nat, s: State, t: nat, sender: Address)
    requires PendingTx(s.db, t) && ExecuteInternal(depth, Machine(s, []), t, s.db.multisigs[t], false).Done?
    ensures Execute(depth, Machine(s, []), sender, t).Done?
  {
    hide ExecuteInternal;
  }

  /** A case for any owner of an account with the multisig feature: a transaction submitted in one
      block and executed in a later one, when its timeout has come, was executed, and its record
      says that it expired. */
  lemma ExpiredThoughExecuted(depth: nat, m: Machine, account: Address, sender: Address, timeout: nat, time: nat)
    requires depth > 0 && OwnsMultisig(m.s.db, account, sender) && IdsFresh(m.s) && CommittedPast(m.s)
    requires time >= m.s.now + timeout
    ensures var m1, t := Submit(m, sender, Alone(account, timeout)).m, m.s.latestTid + 1;
            var s2 := Apply(Commit(m1, false, false).s, TimeSet(time));
            var o := Execute(depth, Machine(s2, []), sender, t);
            && o.Done? && o.r.Ok?
            && t in o.m.s.db.multisigs && o.m.s.db.multisigs[t].info.state == ExecutedManually
            && Commit(o.m, false, false).s.db.multisigs.Keys >= {t}
            && Commit(o.m, false, false).s.db.multisigs[t].info.state == Expired
  {
    var m1, t := Submit(m, sender, Alone(account, timeout)).m, m.s.latestTid + 1;
    NewIdNotCommitted(m.s);
    SubmittedAlone(m, account, sender, timeout);
    CommittedAlone(m1, t, account, sender);
    var s1 := Commit(m1, false, false).s;
    TimeKeeps(s1, time);
    hide Submit, Commit, Execute, Apply, IdsFresh, CommittedPast;
    ExecutedAlone(depth, s1.(now := time), t, account, sender);
    ExecutedThenExpired(depth, s1.(now := time), sender, t);
  }

  lemma NewIdNotCommitted(s: State)
    requires IdsFresh(s) && CommittedPast(s)
    ensures s.latestTid + 1 !in s.committed.txs
  {
  }

  /** Another case: submitted with a timeout of zero, a transaction outlives the sweep of its block,
      and is executed in the next one, whatever the time then is. */
  lemma ExecutedAfterTimeout(depth: nat, m: Machine, account: Address, sender: Address, time: nat)
    requires depth > 0 && OwnsMultisig(m.s.db, account, sender) && IdsFresh(m.s) && CommittedPast(m.s)
    ensures var m1, t := Submit(m, sender, Alone(account, 0)).m, m.s.latestTid + 1;
            var s2 := Apply(Commit(m1, false, false).s, TimeSet(time));
            var o := Execute(depth, Machine(s2, []), sender, t);
            && t in s2.db.multisigs && s2.db.multisigs[t].info.timeout == m.s.now
            && o.Done? && o.r.Ok?
            && t in o.m.s.db.multisigs && o.m.s.db.multisigs[t].info.state == ExecutedManually
  {
    var m1, t := Submit(m, sender, Alone(account, 0)).m, m.s.latestTid + 1;
    NewIdNotCommitted(m.s);
    SubmittedAlone(m, account, sender, 0);
    CommittedAlone(m1, t, account, sender);
    TimeKeeps(Commit(m1, false, false).s, time);
    hide Submit, Commit, Execute, Apply, IdsFresh, CommittedPast;
    ExecutedAlone(depth, Commit(m1, false, false).s.(now := time), t, account, sender);
  }

  // ---------------------------------------------------------------- tokens of this block

  /** A new token is minted, burned and updated from the next block on: in its own, its symbol is not
      found; a commit lists it. */
  lemma NewTokenNotYetListed(m: Machine, sender: Address, args: TokenCreateArgs, dist: Distribution, memo: Option<Memo>,
                             update: TokenUpdateArgs)
    requires SymbolsPast(m.s) && CreateToken(m, sender, args).r.Ok?
    requires update.symbol == CreateToken(m, sender, args).r.value.symbol
    ensures var m1, symbol := CreateToken(m, sender, args).m, CreateToken(m, sender, args).r.value.symbol;
            && symbol in m1.s.db.tokens
            && Mint(m1, sender, symbol, dist, memo) == Done(m1, Err(SymbolNotFound))
            && Burn(m1, sender, symbol, dist, memo, None) == Done(m1, Err(SymbolNotFound))
            && UpdateToken(m1, sender, update).r.Err? && UpdateToken(m1, sender, update).m == m1
            && Listed(Commit(m1, false, false).s, symbol)
  {
    var m1, symbol := CreateToken(m, sender, args).m, CreateToken(m, sender, args).r.value.symbol;
    NewSymbolOf(m, sender, args);
    UpdateTokenExact(m1, sender, update);
    CommitOf(m1);
    SweepWrites(m1.s);
    NextBlockWrites(Apply(m1.s, ExpirySwept));
    hide CreateToken, Apply, UpdateToken, Commit;
  }

  lemma NewSymbolOf(m: Machine, sender: Address, args: TokenCreateArgs)
    requires SymbolsPast(m.s) && CreateToken(m, sender, args).r.Ok?
    ensures var m1, symbol := CreateToken(m, sender, args).m, CreateToken(m, sender, args).r.value.symbol;
            && symbol in m1.s.db.tokens && symbol !in m1.s.committed.symbols
            && sender == m1.s.db.alloc.TokenIdentity()
  {
    CreateTokenExact(m, sender, args);
    var o := CreateToken(m, sender, args);
    var e := TokenCreated(sender, o.r.value.symbol.id, args);
    assert o.m == Do(m, e);
    hide CreateToken, Apply;
    CommittedFrame(m.s, e);
    TokenCreatedWrites(m.s, sender, o.r.value.symbol.id, args);
  }
}
