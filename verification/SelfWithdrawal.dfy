/** When an execution fails: exactly when the chain of executions it starts ends in a payload
    that may, and does, withdraw the transaction being executed. */
module SelfWithdrawal {
  import opened LedgerTypes
  import opened AccountRules
  import opened LedgerMachine
  import opened Operations
  import opened Footprints
  import opened Legality
  import opened Termination
  import opened TxHistory

  /** The payload about to run withdraws `target`, and its account may. */
  predicate WithdrawsHere(f: Frame, target: nat) {
    && f.token in f.s.db.multisigs
    && f.s.db.multisigs[f.token].info.transaction == WithdrawPayload(target)
    && LookUp(f.s.db, target).Ok?
    && var (tx, account) := LookUp(f.s.db, target).value;
    CanExecute(tx, account, f.s.db.multisigs[f.token].account)
  }

  /** The chain of executions from `f`, followed until it meets a token in `met` or one it has
      met itself, ends in the withdrawal of `target`. */
  predicate Withdraws(f: Frame, target: nat, met: set<nat>)
    decreases |f.s.db.multisigs.Keys - met|
  {
    && f.token !in met && f.token in f.s.db.multisigs
    && (|| WithdrawsHere(f, target)
        || match Enter(f)
           case None => false
           case Some(next) =>
             EnterKeepsKeys(f);
             assert f.s.db.multisigs.Keys - met == (f.s.db.multisigs.Keys - (met + {f.token})) + {f.token};
             Withdraws(next, target, met + {f.token}))
  }

  // ---------------------------------------------------------------- what leaves a transaction pending

  lemma FlagKept(s: State, e: Effect, t: nat)
    requires PendingTx(s.db, t) && !e.ExpirySwept? && (e.Ended? ==> e.token != t) && (e.Submitted? ==> !e.tx.disabled)
    ensures PendingTx(Apply(s, e).db, t)
  {
    hide Apply;
    TxFrame(s, e, t);
  }

  // The record of `t` is open after exactly when it was before, and closed in the same way.
  predicate SameFlag(s: State, s': State, t: nat) {
    && t in s.db.multisigs && t in s'.db.multisigs
    && s'.db.multisigs[t].disabled == s.db.multisigs[t].disabled
    && s'.db.multisigs[t].info.state == s.db.multisigs[t].info.state
  }

  // The record of `t` is closed exactly when `closed`, and then as withdrawn.
  predicate WithdrawnIff(s: State, t: nat, closed: bool) {
    && t in s.db.multisigs && s.db.multisigs[t].disabled == closed
    && (closed ==> s.db.multisigs[t].info.state == Withdrawn)
  }

  lemma FlagOfOthers(s: State, token: nat, state: TxState, t: nat)
    requires t in s.db.multisigs && token != t
    ensures SameFlag(s, Apply(s, Ended(token, state)), t)
  {
    hide Apply;
    TxFrame(s, Ended(token, state), t);
  }

  lemma FlagLogged(s: State, event: Event, t: nat)
    requires t in s.db.multisigs
    ensures SameFlag(s, Apply(s, Logged(event)), t)
  {
    hide Apply;
    TxFrame(s, Logged(event), t);
  }

  lemma FlagAfterDisable(m: Machine, token: nat, state: TxState, t: nat)
    requires t in m.s.db.multisigs && token != t
    ensures SameFlag(m.s, DisableTx(m, token, state).m.s, t)
  {
    hide Apply;
    FlagOfOthers(m.s, token, state, t);
  }

  lemma FlagAfterLog(o: Run, account: Address, token: nat, executer: Option<Address>, t: nat)
    requires o.Done? && t in o.m.s.db.multisigs
    ensures SameFlag(o.m.s, LogExecution(o, account, token, executer).m.s, t)
  {
    hide Apply;
    if o.r.Ok? { FlagLogged(o.m.s, ExecuteEvent(account, token, executer, o.r.value), t); }
  }

  lemma WithdrawalCloses(m: Machine, sender: Address, token: nat, t: nat)
    requires PendingTx(m.s.db, t)
    ensures var o := Withdraw(m, sender, token);
            WithdrawnIff(o.m.s, t, && token == t && LookUp(m.s.db, t).Ok?
                                   && CanExecute(LookUp(m.s.db, t).value.0, LookUp(m.s.db, t).value.1, sender))
  {
    hide Apply;
    var o := Withdraw(m, sender, token);
    if o.r.Ok? {
      var m1 := DisableTx(m, token, Withdrawn).m;
      TxFrame(m.s, Ended(token, Withdrawn), t);
      FlagLogged(m1.s, WithdrawEvent(m.s.db.multisigs[token].account, token, sender), t);
    }
  }

  lemma PlainLeavesOpen(depth: nat, m: Machine, token: nat, tx: Multisig, t: nat)
    requires PendingTx(m.s.db, t)
    requires !tx.info.transaction.ApprovePayload? && !tx.info.transaction.ExecutePayload?
    requires !tx.info.transaction.WithdrawPayload?
    ensures RunPayload(depth, m, token, tx).Done? && PendingTx(RunPayload(depth, m, token, tx).m.s.db, t)
  {
    var o := RunPayload(depth, m, token, tx);
    hide Apply;
    if o.m != m {
      var e := o.m.trace[|m.trace|];
      assert o.m == Do(m, e) && !e.ExpirySwept? && !e.Ended? && (e.Submitted? ==> !e.tx.disabled);
      hide RunPayload;
      FlagKept(m.s, e, t);
    }
  }

  // ---------------------------------------------------------------- running a payload

  /** Running a payload, with everything nested in it, closes a pending transaction that is being
      run exactly when its chain ends in the withdrawal of that transaction. */
  lemma {:induction false} PayloadCloses(depth: nat, m: Machine, token: nat, target: nat, met: set<nat>)
    requires token in m.s.db.multisigs && PendingTx(m.s.db, target) && target in met + {token}
    requires !Reenters(Frame(m.s, token), met)
    requires RunPayload(depth, m, token, m.s.db.multisigs[token]).Done?
    ensures var s' := RunPayload(depth, m, token, m.s.db.multisigs[token]).m.s;
            WithdrawnIff(s', target, Withdraws(Frame(m.s, token), target, met))
    decreases depth, 2
  {
    hide Apply, Approve, Execute, Withdraw, EnterByApproval, EnterByExecution;
    var f, tx := Frame(m.s, token), m.s.db.multisigs[token];
    match tx.info.transaction {
      case ApprovePayload(t) => ApprovalCloses(depth, m, token, target, met);
      case ExecutePayload(t) => ExecutionCloses(depth, m, token, target, met);
      case WithdrawPayload(t) => WithdrawalCloses(m, tx.account, t, target);
      case _ => PlainLeavesOpen(depth, m, token, tx, target);
    }
  }

  lemma {:induction false} ApprovalCloses(depth: nat, m: Machine, token: nat, target: nat, met: set<nat>)
    requires token in m.s.db.multisigs && PendingTx(m.s.db, target) && target in met + {token}
    requires m.s.db.multisigs[token].info.transaction.ApprovePayload?
    requires !Reenters(Frame(m.s, token), met)
    requires var tx := m.s.db.multisigs[token]; Approve(depth, m, tx.account, tx.info.transaction.token).Done?
    ensures var tx := m.s.db.multisigs[token];
            var s' := Approve(depth, m, tx.account, tx.info.transaction.token).m.s;
            WithdrawnIff(s', target, Withdraws(Frame(m.s, token), target, met))
    decreases depth, 1
  {
    hide Apply, ExecuteInternal, LookUp, CanApprove;
    var f, tx := Frame(m.s, token), m.s.db.multisigs[token];
    var t, sender := tx.info.transaction.token, tx.account;
    var found := LookUp(m.s.db, t);
    if found.Ok? && CanApprove(found.value.1, sender) {
      var m1, tx1 := Do(m, Approved(t, sender)), WithApproval(found.value.0, sender, true);
      FlagKept(m.s, Approved(t, sender), target);
      ApprovalState(m.s, t, sender);
      if tx1.info.automatic && tx1.ShouldExecute() {
        assert Enter(f) == Some(Frame(m1.s, t));
        NestedCloses(depth, m1, t, target, met + {token}, true);
        var o := ExecuteInternal(depth, m1, t, tx1, true);
        FlagAfterLog(o, tx1.account, t, None, target);
      }
    }
  }

  lemma {:induction false} ExecutionCloses(depth: nat, m: Machine, token: nat, target: nat, met: set<nat>)
    requires token in m.s.db.multisigs && PendingTx(m.s.db, target) && target in met + {token}
    requires m.s.db.multisigs[token].info.transaction.ExecutePayload?
    requires !Reenters(Frame(m.s, token), met)
    requires var tx := m.s.db.multisigs[token]; Execute(depth, m, tx.account, tx.info.transaction.token).Done?
    ensures var tx := m.s.db.multisigs[token];
            var s' := Execute(depth, m, tx.account, tx.info.transaction.token).m.s;
            WithdrawnIff(s', target, Withdraws(Frame(m.s, token), target, met))
    decreases depth, 1
  {
    hide Apply, ExecuteInternal, LookUp, CanExecute;
    var f, tx := Frame(m.s, token), m.s.db.multisigs[token];
    var t, sender := tx.info.transaction.token, tx.account;
    var found := LookUp(m.s.db, t);
    if found.Ok? && CanExecute(found.value.0, found.value.1, sender) && found.value.0.ShouldExecute() {
      assert Enter(f) == Some(Frame(m.s, t));
      NestedCloses(depth, m, t, target, met + {token}, false);
      var o := ExecuteInternal(depth, m, t, found.value.0, false);
      FlagAfterLog(o, found.value.0.account, t, Some(sender), target);
    }
  }

  // A nested execution of another transaction.
  lemma {:induction false} NestedCloses(depth: nat, m: Machine, t: nat, target: nat, met: set<nat>, automatically: bool)
    requires t in m.s.db.multisigs && PendingTx(m.s.db, target) && target in met
    requires !Reenters(Frame(m.s, t), met)
    requires ExecuteInternal(depth, m, t, m.s.db.multisigs[t], automatically).Done?
    ensures var s' := ExecuteInternal(depth, m, t, m.s.db.multisigs[t], automatically).m.s;
            WithdrawnIff(s', target, Withdraws(Frame(m.s, t), target, met))
    decreases depth, 0
  {
    hide Apply, RunPayload, Withdraws, DisableTx;
    var m0 := Do(m, Started(t));
    StartedWrites(m.s, t);
    assert t !in met;
    PayloadCloses(depth - 1, m0, t, target, met);
    var m1 := RunPayload(depth - 1, m0, t, m.s.db.multisigs[t]).m;
    FlagAfterDisable(m1, t, if automatically then ExecutedAutomatically else ExecutedManually, target);
  }

  // ---------------------------------------------------------------- the execution of one transaction

  // The state and the answer the payload of `token` leaves.
  function AfterPayload(depth: nat, m: Machine, token: nat): Run
    requires token in m.s.db.multisigs && depth > 0
  {
    RunPayload(depth - 1, Do(m, Started(token)), token, m.s.db.multisigs[token])
  }

  /** An execution that ends at all leaves its transaction closed. It answers with whatever the
      payload answered, a refusal included, unless its chain of executions ends in the withdrawal
      of the transaction itself: then, and only then, the execution fails, as can be told before
      it starts. */
  lemma ExecutionOutcome(depth: nat, m: Machine, token: nat, automatically: bool)
    requires PendingTx(m.s.db, token)
    requires ExecuteInternal(depth, m, token, m.s.db.multisigs[token], automatically).Done?
    ensures depth > 0 && AfterPayload(depth, m, token).Done?
    ensures var o := ExecuteInternal(depth, m, token, m.s.db.multisigs[token], automatically);
            var p := AfterPayload(depth, m, token);
            && IsClosed(o.m.s, token)
            && (o.r.Err? <==> Withdraws(Frame(m.s, token), token, {}))
            && (o.r.Err? ==> o.r == Err(ExpiredOrWithdrawn) && o.m == p.m
                             && o.m.s.db.multisigs[token].info.state == Withdrawn)
            && (o.r.Ok? ==>
                  && o.r.value == Responded(Response(m.s.db.multisigs[token].account, p.r, p.m.s.now))
                  && o.m.s.db.multisigs[token].info.state
                     == if automatically then ExecutedAutomatically else ExecutedManually)
  {
    hide Apply, RunPayload, Withdraws, DisableTx;
    TerminationExact(m, token, automatically);
    assert !Reenters(Frame(m.s, token), {});
    hide Reenters;
    StartedWrites(m.s, token);
    PayloadCloses(depth - 1, Do(m, Started(token)), token, token, {});
    DisableOutcome(AfterPayload(depth, m, token).m, token,
                   if automatically then ExecutedAutomatically else ExecutedManually);
  }

  lemma DisableOutcome(m: Machine, token: nat, state: TxState)
    requires token in m.s.db.multisigs
    ensures var o := DisableTx(m, token, state);
            && IsClosed(o.m.s, token) && o.m.s.now == m.s.now
            && (o.r.Err? <==> m.s.db.multisigs[token].disabled)
            && (if o.r.Err? then o.m == m && o.r == Err(ExpiredOrWithdrawn)
                else o.m.s.db.multisigs[token].info.state == state && o.r == Ok(Nothing))
  {
    hide Apply;
    EndedWrites(m.s, token, state);
  }

  lemma EndedWrites(s: State, token: nat, state: TxState)
    requires token in s.db.multisigs
    ensures var s' := Apply(s, Ended(token, state));
            && s'.now == s.now && IsClosed(s', token) && s'.db.multisigs[token].info.state == state
  {
  }

  /** The shortest such chain: a ready transaction whose payload withdraws itself is executed in
      vain, although its submitter may execute it. */
  lemma SelfWithdrawalFails(depth: nat, m: Machine, token: nat)
    requires depth > 0 && PendingTx(m.s.db, token)
    requires var tx := m.s.db.multisigs[token];
             && tx.info.transaction == WithdrawPayload(token) && tx.ShouldExecute()
             && EnabledAccount(m.s.db, tx.account).Some?
             && EnabledAccount(m.s.db, tx.account).value.HasRole(tx.account, Owner)
    ensures var o := Answer(depth, m, ExecuteCall(m.s.db.multisigs[token].info.submitter, token));
            o.Done? && o.r == Err(ExpiredOrWithdrawn)
  {
    hide ExecuteInternal, Apply;
    SelfWithdrawalEnds(depth, m, token);
    OverflowIsLongChain(depth, m, token, false);
    ExecutionOutcome(depth, m, token, false);
    hide Chain, Withdraws;
  }

  lemma SelfWithdrawalEnds(depth: nat, m: Machine, token: nat)
    requires depth > 0 && PendingTx(m.s.db, token)
    requires var tx := m.s.db.multisigs[token];
             && tx.info.transaction == WithdrawPayload(token)
             && EnabledAccount(m.s.db, tx.account).Some?
             && EnabledAccount(m.s.db, tx.account).value.HasRole(tx.account, Owner)
    ensures Chain(Frame(m.s, token), depth).None? && Withdraws(Frame(m.s, token), token, {})
  {
    assert WithdrawsHere(Frame(m.s, token), token);
    assert Enter(Frame(m.s, token)).None?;
  }
}
