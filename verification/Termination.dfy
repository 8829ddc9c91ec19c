/** Nested executions: exactly when they come to an end, and how often a payload runs.
    A payload is one operation, so running it enters at most one further transaction. */
module Termination {
  import opened LedgerTypes
  import opened AccountRules
  import opened LedgerMachine
  import opened Operations
  import opened Footprints
  import opened Legality
  import opened EventIds

  // ---------------------------------------------------------------- the chain of executions

  // An execution about to start: the state it starts in and the token it runs.
  datatype Frame = Frame(s: State, token: nat)

  // The execution an approval of `token` leads to, if it leads to one.
  function EnterByApproval(s: State, sender: Address, token: nat): (r: Option<Frame>)
    ensures r.Some? ==> r.value.token == token && PendingTx(s.db, token)
    ensures r.Some? ==> r.value.s == Apply(s, Approved(token, sender))
  {
    match LookUp(s.db, token)
    case Err(_) => None
    case Ok((tx, account)) =>
      var tx1 := WithApproval(tx, sender, true);
      if CanApprove(account, sender) && tx1.info.automatic && tx1.ShouldExecute()
      then Some(Frame(Apply(s, Approved(token, sender)), token))
      else None
  }

  function EnterByExecution(s: State, sender: Address, token: nat): (r: Option<Frame>)
    ensures r.Some? ==> r.value == Frame(s, token) && PendingTx(s.db, token)
  {
    match LookUp(s.db, token)
    case Err(_) => None
    case Ok((tx, account)) =>
      if CanExecute(tx, account, sender) && tx.ShouldExecute() then Some(Frame(s, token)) else None
  }

  /** The execution that running the payload of `token` leads to, if any. */
  function Enter(f: Frame): (r: Option<Frame>) {
    if f.token !in f.s.db.multisigs then None
    else
      var tx := f.s.db.multisigs[f.token];
      match tx.info.transaction
      case ApprovePayload(t) => EnterByApproval(f.s, tx.account, t)
      case ExecutePayload(t) => EnterByExecution(f.s, tx.account, t)
      case _ => None
  }

  /** The execution reached after `n` nested ones. */
  function Chain(f: Frame, n: nat): Option<Frame>
    decreases n
  {
    if n == 0 then Some(f)
    else
      match Enter(f)
      case None => None
      case Some(next) => Chain(next, n - 1)
  }

  lemma ApproveOverflows(depth: nat, m: Machine, sender: Address, id: nat)
    ensures Approve(depth, m, sender, id).Overflow? <==>
            && EnterByApproval(m.s, sender, id).Some?
            && var m1 := Do(m, Approved(id, sender));
            ExecuteInternal(depth, m1, id, m1.s.db.multisigs[id], true).Overflow?
  {
  }

  lemma ExecuteOverflows(depth: nat, m: Machine, sender: Address, id: nat)
    ensures Execute(depth, m, sender, id).Overflow? <==>
            && EnterByExecution(m.s, sender, id).Some?
            && ExecuteInternal(depth, m, id, m.s.db.multisigs[id], false).Overflow?
  {
  }

  /** An execution overflows a stack of `depth` frames exactly when its chain is that long. */
  lemma {:induction false} OverflowIsLongChain(depth: nat, m: Machine, token: nat, automatically: bool)
    requires token in m.s.db.multisigs
    ensures ExecuteInternal(depth, m, token, m.s.db.multisigs[token], automatically).Overflow?
            <==> Chain(Frame(m.s, token), depth).Some?
    decreases depth
  {
    hide Apply, Approve, Execute, EnterByApproval, EnterByExecution;
    if depth > 0 {
      var tx := m.s.db.multisigs[token];
      var m0 := Do(m, Started(token));
      StartedWrites(m.s, token);
      match tx.info.transaction {
        case ApprovePayload(t) =>
          ApproveOverflows(depth - 1, m0, tx.account, t);
          if EnterByApproval(m.s, tx.account, t).Some? {
            var m1 := Do(m0, Approved(t, tx.account));
            ApprovalState(m0.s, t, tx.account);
            OverflowIsLongChain(depth - 1, m1, t, true);
          }
        case ExecutePayload(t) =>
          ExecuteOverflows(depth - 1, m0, tx.account, t);
          if EnterByExecution(m.s, tx.account, t).Some? { OverflowIsLongChain(depth - 1, m0, t, false); }
        case _ =>
      }
    }
  }

  // ---------------------------------------------------------------- more approvals, same chain

  // `b` is `a` with possibly more approvals.
  ghost predicate MoreApproved(a: Multisig, b: Multisig) {
    b == a.(info := a.info.(approvers := b.info.approvers)) && a.Approvals() <= b.Approvals()
  }

  ghost predicate Grown(s: State, s': State) {
    && s.db.accounts == s'.db.accounts && s.db.multisigs.Keys == s'.db.multisigs.Keys
    && forall t :: t in s.db.multisigs ==> MoreApproved(s.db.multisigs[t], s'.db.multisigs[t])
  }

  lemma SubsetCount<T>(a: set<T>, b: set<T>)
    requires a <= b
    ensures |a| <= |b|
  {
    assert b == a + (b - a);
  }

  lemma ApprovalState(s: State, token: nat, who: Address)
    requires token in s.db.multisigs
    ensures var s' := Apply(s, Approved(token, who));
            && s'.db.multisigs == s.db.multisigs[token := WithApproval(s.db.multisigs[token], who, true)]
            && s'.db.accounts == s.db.accounts
    ensures WithApproval(s.db.multisigs[token], who, true).Approvals() == s.db.multisigs[token].Approvals() + {who}
  {
  }

  lemma ApprovalGrows(s: State, token: nat, who: Address)
    requires token in s.db.multisigs
    ensures Grown(s, Apply(s, Approved(token, who)))
  {
    ApprovalState(s, token, who);
  }

  lemma ApprovalKeepsGrown(s: State, s': State, token: nat, who: Address)
    requires Grown(s, s') && token in s.db.multisigs
    ensures Grown(Apply(s, Approved(token, who)), Apply(s', Approved(token, who)))
  {
    hide Apply;
    ApprovalState(s, token, who);
    ApprovalState(s', token, who);
    assert MoreApproved(s.db.multisigs[token], s'.db.multisigs[token]);
  }

  lemma EnterGrows(f: Frame)
    requires Enter(f).Some?
    ensures Grown(f.s, Enter(f).value.s)
  {
    var next := Enter(f).value;
    if f.s.db.multisigs[f.token].info.transaction.ApprovePayload? {
      ApprovalGrows(f.s, next.token, f.s.db.multisigs[f.token].account);
    }
  }

  lemma EnterInGrown(f: Frame, s': State)
    requires Grown(f.s, s') && Enter(f).Some?
    ensures Enter(Frame(s', f.token)).Some? && Enter(Frame(s', f.token)).value.token == Enter(f).value.token
    ensures Grown(Enter(f).value.s, Enter(Frame(s', f.token)).value.s)
  {
    var tx, t := f.s.db.multisigs[f.token], Enter(f).value.token;
    hide Apply;
    assert MoreApproved(tx, s'.db.multisigs[f.token]);
    var a, b := f.s.db.multisigs[t], s'.db.multisigs[t];
    assert MoreApproved(a, b);
    if tx.info.transaction.ApprovePayload? {
      ApprovalKeepsGrown(f.s, s', t, tx.account);
      ApprovalState(f.s, t, tx.account);
      ApprovalState(s', t, tx.account);
      SubsetCount(a.Approvals() + {tx.account}, b.Approvals() + {tx.account});
    } else {
      SubsetCount(a.Approvals(), b.Approvals());
    }
  }

  lemma {:induction false} GrownTransitive(s: State, s': State, s'': State)
    requires Grown(s, s') && Grown(s', s'')
    ensures Grown(s, s'')
  {
    forall t | t in s.db.multisigs
      ensures MoreApproved(s.db.multisigs[t], s''.db.multisigs[t])
    {
      assert MoreApproved(s.db.multisigs[t], s'.db.multisigs[t]);
      assert MoreApproved(s'.db.multisigs[t], s''.db.multisigs[t]);
    }
  }

  lemma {:induction false} ChainGrows(f: Frame, n: nat)
    requires Chain(f, n).Some?
    ensures Grown(f.s, Chain(f, n).value.s)
    decreases n
  {
    hide Enter;
    if n > 0 {
      EnterGrows(f);
      ChainGrows(Enter(f).value, n - 1);
      GrownTransitive(f.s, Enter(f).value.s, Chain(f, n).value.s);
    }
  }

  lemma {:induction false} ChainInGrown(f: Frame, s': State, n: nat)
    requires Grown(f.s, s') && Chain(f, n).Some?
    ensures Chain(Frame(s', f.token), n).Some?
    decreases n
  {
    hide Enter;
    if n > 0 {
      EnterInGrown(f, s');
      var next := Enter(Frame(s', f.token)).value;
      ChainInGrown(Enter(f).value, next.s, n - 1);
      assert next == Frame(next.s, Enter(f).value.token);
    }
  }

  lemma {:induction false} ChainAdds(f: Frame, n: nat, k: nat)
    requires Chain(f, n).Some?
    ensures Chain(f, n + k) == Chain(Chain(f, n).value, k)
    decreases n
  {
    hide Enter;
    if n > 0 { ChainAdds(Enter(f).value, n - 1, k); }
  }

  lemma {:induction false} ChainPrefix(f: Frame, n: nat, k: nat)
    requires Chain(f, n).Some? && k <= n
    ensures Chain(f, k).Some?
    decreases n
  {
    hide Enter;
    if k > 0 { ChainPrefix(Enter(f).value, n - 1, k - 1); }
  }

  // ---------------------------------------------------------------- coming back

  /** A chain that comes back to its own token never ends. */
  lemma {:induction false} ReturnIsEndless(f: Frame, k: nat, n: nat)
    requires k > 0 && Chain(f, k).Some? && Chain(f, k).value.token == f.token
    ensures Chain(f, n).Some?
    decreases n
  {
    hide Enter;
    if n <= k {
      ChainPrefix(f, k, n);
    } else {
      ReturnIsEndless(f, k, n - k);
      var back := Chain(f, k).value;
      ChainGrows(f, k);
      ChainInGrown(f, back.s, n - k);
      ChainAdds(f, k, n - k);
      assert back == Frame(back.s, f.token);
    }
  }

  lemma EnterKeepsKeys(f: Frame)
    requires Enter(f).Some?
    ensures Enter(f).value.s.db.multisigs.Keys == f.s.db.multisigs.Keys
    ensures Enter(f).value.token in f.s.db.multisigs
  {
    EnterGrows(f);
  }

  /** Whether the chain from `f` meets a token it has already met. Follows the chain for at
      most as many steps as there are stored transactions. */
  function Reenters(f: Frame, met: set<nat>): bool
    decreases |f.s.db.multisigs.Keys - met|
  {
    if f.token in met then true
    else if f.token !in f.s.db.multisigs then false
    else
      match Enter(f)
      case None => false
      case Some(next) =>
        EnterKeepsKeys(f);
        assert f.s.db.multisigs.Keys - met == (f.s.db.multisigs.Keys - (met + {f.token})) + {f.token};
        Reenters(next, met + {f.token})
  }

  // Every frame of the past reaches `f`, the later ones in fewer steps.
  ghost predicate LeadsTo(past: seq<Frame>, f: Frame) {
    forall i :: 0 <= i < |past| ==> Chain(past[i], |past| - i) == Some(f)
  }

  lemma OneStep(past: seq<Frame>, f: Frame)
    requires LeadsTo(past, f) && Enter(f).Some?
    ensures LeadsTo(past + [f], Enter(f).value)
  {
    hide Enter;
    var past', next := past + [f], Enter(f).value;
    assert Chain(next, 0) == Some(next);
    assert Chain(f, 1) == Some(next);
    forall i | 0 <= i < |past'|
      ensures Chain(past'[i], |past'| - i) == Some(next)
    {
      if i < |past| { ChainAdds(past[i], |past| - i, 1); }
    }
  }

  function Tokens(past: seq<Frame>): set<nat> {
    set i | 0 <= i < |past| :: past[i].token
  }

  lemma TokensGrow(past: seq<Frame>, f: Frame)
    ensures Tokens(past + [f]) == Tokens(past) + {f.token}
  {
    var past' := past + [f];
    assert past'[|past|] == f;
    assert forall i :: 0 <= i < |past| ==> past'[i] == past[i];
  }

  lemma {:induction false} ReentryIsEndless(past: seq<Frame>, f: Frame, n: nat)
    requires LeadsTo(past, f) && Reenters(f, Tokens(past))
    ensures Chain(f, n).Some?
    decreases n
  {
    hide Enter;
    if f.token in Tokens(past) {
      var i :| 0 <= i < |past| && past[i].token == f.token;
      ReturnIsEndless(past[i], |past| - i, n + (|past| - i));
      ChainAdds(past[i], |past| - i, n);
    } else if n > 0 {
      OneStep(past, f);
      TokensGrow(past, f);
      ReentryIsEndless(past + [f], Enter(f).value, n - 1);
    }
  }

  lemma {:induction false} NoReentryIsShort(f: Frame, met: set<nat>, n: nat)
    requires !Reenters(f, met) && f.token in f.s.db.multisigs
    requires n >= |f.s.db.multisigs.Keys - met|
    ensures Chain(f, n).None?
    decreases |f.s.db.multisigs.Keys - met|
  {
    hide Enter;
    var keys := f.s.db.multisigs.Keys;
    assert keys - met == (keys - (met + {f.token})) + {f.token};
    if Enter(f).Some? {
      EnterKeepsKeys(f);
      NoReentryIsShort(Enter(f).value, met + {f.token}, n - 1);
    }
  }

  /** Executing a stored transaction never ends, however deep the stack, exactly when its
      chain comes back to a transaction already being run; otherwise a stack as deep as the
      number of stored transactions is enough. */
  lemma TerminationExact(m: Machine, token: nat, automatically: bool)
    requires token in m.s.db.multisigs
    ensures var tx := m.s.db.multisigs[token];
            (forall depth: nat :: ExecuteInternal(depth, m, token, tx, automatically).Overflow?)
            <==> Reenters(Frame(m.s, token), {})
    ensures var tx := m.s.db.multisigs[token];
            !Reenters(Frame(m.s, token), {}) ==>
              forall depth: nat :: depth >= |m.s.db.multisigs| ==>
                ExecuteInternal(depth, m, token, tx, automatically).Done?
  {
    var f, tx := Frame(m.s, token), m.s.db.multisigs[token];
    if Reenters(f, {}) {
      forall depth: nat
        ensures ExecuteInternal(depth, m, token, tx, automatically).Overflow?
      {
        assert Tokens([]) == {};
        ReentryIsEndless([], f, depth);
        OverflowIsLongChain(depth, m, token, automatically);
      }
    } else {
      forall depth: nat | depth >= |m.s.db.multisigs|
        ensures ExecuteInternal(depth, m, token, tx, automatically).Done?
      {
        assert m.s.db.multisigs.Keys - {} == m.s.db.multisigs.Keys;
        assert |m.s.db.multisigs.Keys| == |m.s.db.multisigs|;
        NoReentryIsShort(f, {}, depth);
        OverflowIsLongChain(depth, m, token, automatically);
      }
      assert !ExecuteInternal(|m.s.db.multisigs|, m, token, tx, automatically).Overflow?;
    }
  }

  // The execution a call starts, if it starts one.
  function EnterByCall(s: State, c: Call): Option<Frame> {
    match c
    case ApproveCall(sender, id) => EnterByApproval(s, sender, id)
    case ExecuteCall(sender, id) => EnterByExecution(s, sender, id)
    case _ => None
  }

  /** A call aborts the node at every stack depth exactly when it starts an execution whose
      chain comes back; any other call is answered once the stack is as deep as the number
      of stored transactions. */
  lemma CallTerminationExact(m: Machine, c: Call)
    ensures (forall depth: nat :: Answer(depth, m, c).Overflow?)
            <==> EnterByCall(m.s, c).Some? && Reenters(EnterByCall(m.s, c).value, {})
    ensures EnterByCall(m.s, c).None? || !Reenters(EnterByCall(m.s, c).value, {}) ==>
              forall depth: nat :: depth >= |m.s.db.multisigs| ==> Answer(depth, m, c).Done?
  {
    hide Answer, EnterByCall, Reenters;
    var entered, n := EnterByCall(m.s, c), |m.s.db.multisigs|;
    if entered.Some? && Reenters(entered.value, {}) {
      forall depth: nat
        ensures Answer(depth, m, c).Overflow?
      {
        CallOverflows(depth, m, c);
      }
    } else {
      forall depth: nat | depth >= n
        ensures Answer(depth, m, c).Done?
      {
        CallOverflows(depth, m, c);
      }
      assert !Answer(n, m, c).Overflow?;
    }
  }

  lemma CallOverflows(depth: nat, m: Machine, c: Call)
    ensures var entered := EnterByCall(m.s, c);
            && (entered.Some? && Reenters(entered.value, {}) ==> Answer(depth, m, c).Overflow?)
            && ((entered.None? || !Reenters(entered.value, {})) && depth >= |m.s.db.multisigs| ==>
                  Answer(depth, m, c).Done?)
  {
    hide Approve, Execute, ExecuteInternal, EnterByApproval, EnterByExecution, Reenters, Apply;
    match c {
      case ApproveCall(sender, id) =>
        ApproveOverflows(depth, m, sender, id);
        if EnterByApproval(m.s, sender, id).Some? {
          ApprovalState(m.s, id, sender);
          SizeByKeys(Apply(m.s, Approved(id, sender)).db.multisigs, m.s.db.multisigs);
          TerminationExact(Do(m, Approved(id, sender)), id, true);
        }
      case ExecuteCall(sender, id) =>
        ExecuteOverflows(depth, m, sender, id);
        if EnterByExecution(m.s, sender, id).Some? { TerminationExact(m, id, false); }
      case _ =>
    }
  }

  /** A ready transaction that orders its own execution never ends. */
  lemma SelfExecutionIsEndless(m: Machine, token: nat, depth: nat)
    requires PendingTx(m.s.db, token)
    requires var tx := m.s.db.multisigs[token];
             && tx.info.transaction == ExecutePayload(token) && tx.ShouldExecute()
             && EnabledAccount(m.s.db, tx.account).Some?
             && EnabledAccount(m.s.db, tx.account).value.HasRole(tx.account, Owner)
    ensures Answer(depth, m, ExecuteCall(m.s.db.multisigs[token].info.submitter, token)).Overflow?
  {
    var f := Frame(m.s, token);
    var sender := m.s.db.multisigs[token].info.submitter;
    assert Enter(f) == Some(f);
    assert Chain(f, 0) == Some(f);
    assert Chain(f, 1) == Some(f);
    ReturnIsEndless(f, 1, depth);
    OverflowIsLongChain(depth, m, token, false);
  }

  // ---------------------------------------------------------------- payloads naming smaller tokens

  // The token a payload executes or approves.
  function Names(p: Payload): Option<nat> {
    match p
    case ApprovePayload(t) => Some(t)
    case ExecutePayload(t) => Some(t)
    case _ => None
  }

  predicate NamesBelow(tx: Multisig, t: nat) {
    var named := Names(tx.info.transaction);
    named.Some? ==> named.value < t
  }

  ghost predicate TxsNameSmaller(s: State) {
    forall t :: t in s.db.multisigs ==> NamesBelow(s.db.multisigs[t], t)
  }

  ghost predicate NamesSmaller(s: State) {
    && TxsNameSmaller(s)
    && (forall t :: t in s.committed.txs ==> NamesBelow(s.committed.txs[t], t))
  }

  predicate SubmitsSmaller(s: State, e: Effect) {
    e.Submitted? ==>
      var named := Names(e.tx.info.transaction);
      named.Some? ==> named.value <= s.latestTid
  }

  lemma GrownNamesSmaller(s: State, s': State)
    requires TxsNameSmaller(s) && Grown(s, s')
    ensures TxsNameSmaller(s')
  {
    forall t | t in s'.db.multisigs
      ensures NamesBelow(s'.db.multisigs[t], t)
    {
      assert MoreApproved(s.db.multisigs[t], s'.db.multisigs[t]);
    }
  }

  lemma EntersSmaller(f: Frame)
    requires TxsNameSmaller(f.s) && f.token in f.s.db.multisigs && Enter(f).Some?
    ensures Enter(f).value.token < f.token
  {
    hide Apply;
    assert NamesBelow(f.s.db.multisigs[f.token], f.token);
  }

  lemma {:induction false} SmallerNeverReenters(f: Frame, met: set<nat>)
    requires TxsNameSmaller(f.s) && forall t :: t in met ==> t > f.token
    ensures !Reenters(f, met)
    decreases |f.s.db.multisigs.Keys - met|
  {
    hide Enter, TxsNameSmaller, Grown;
    if f.token in f.s.db.multisigs && Enter(f).Some? {
      var next := Enter(f).value;
      EnterKeepsKeys(f);
      EnterGrows(f);
      EntersSmaller(f);
      GrownNamesSmaller(f.s, next.s);
      var keys := f.s.db.multisigs.Keys;
      assert keys - met == (keys - (met + {f.token})) + {f.token};
      SmallerNeverReenters(next, met + {f.token});
    }
  }

  lemma NamesSmallerStep(s: State, e: Effect)
    requires NamesSmaller(s) && SubmitsSmaller(s, e)
    ensures NamesSmaller(Apply(s, e))
  {
    hide Apply;
    TxKeysFrame(s, e);
    CommittedFrame(s, e);
    forall t | t in Apply(s, e).db.multisigs
      ensures NamesBelow(Apply(s, e).db.multisigs[t], t)
    {
      if e.Submitted? && t == s.latestTid + 1 {
        NewTxFrame(s, e.tx);
      } else {
        TxFrame(s, e, t);
      }
    }
  }

  lemma {:induction false} NamesSmallerAlways(g: State, es: seq<Effect>)
    requires NamesSmaller(g) && Along(g, es, SubmitsSmaller)
    ensures NamesSmaller(After(g, es))
    decreases |es|
  {
    if es != [] {
      NamesSmallerAlways(g, es[..|es| - 1]);
      NamesSmallerStep(After(g, es[..|es| - 1]), es[|es| - 1]);
    }
  }

  /** If every submitted payload, nested submissions included, executes or approves only
      tokens smaller than its own, every call is answered: nested execution always ends. */
  lemma SmallerTokensTerminate(g: State, m: Machine, c: Call, depth: nat)
    requires NamesSmaller(g) && Reached(g, m) && Along(g, m.trace, SubmitsSmaller)
    requires depth >= |m.s.db.multisigs|
    ensures Answer(depth, m, c).Done?
  {
    hide Apply, Answer, EnterByApproval, EnterByExecution, Reenters, TxsNameSmaller, Grown, Along, Reached;
    NamesSmallerReached(g, m);
    CallTerminationExact(m, c);
    if EnterByCall(m.s, c).Some? {
      var f := EnterByCall(m.s, c).value;
      if c.ApproveCall? {
        ApprovalGrows(m.s, c.id, c.sender);
        GrownNamesSmaller(m.s, f.s);
      }
      SmallerNeverReenters(f, {});
    }
  }

  lemma NamesSmallerReached(g: State, m: Machine)
    requires NamesSmaller(g) && Reached(g, m) && Along(g, m.trace, SubmitsSmaller)
    ensures TxsNameSmaller(m.s)
  {
    NamesSmallerAlways(g, m.trace);
  }
}
