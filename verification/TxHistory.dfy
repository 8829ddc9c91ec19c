/** The life of a multisig transaction: what its record always satisfies, that it is closed
    for good, that its payload runs at most once, and when expiry closes it. */
module TxHistory {
  import opened LedgerTypes
  import opened AccountRules
  import opened LedgerMachine
  import opened Operations
  import opened Footprints
  import opened Legality
  import opened EventIds
  import opened Termination

  // ---------------------------------------------------------------- the record

  predicate TxSound(tx: Multisig, memoActive: bool) {
    && (tx.disabled <==> !tx.info.state.Pending?)
    && tx.info.timeout <= tx.creation + MULTISIG_MAXIMUM_TIMEOUT_IN_SECS
    && (tx.info.memo.Some? ==> tx.info.memo_ == None && tx.info.data_ == None)
    && (memoActive ==> tx.info.memo_ == None && tx.info.data_ == None)
  }

  ghost predicate TxsSound(s: State) {
    && (forall t :: t in s.db.multisigs ==> TxSound(s.db.multisigs[t], s.memoActive))
    && (forall t :: t in s.committed.txs ==> t in s.db.multisigs && TxSound(s.committed.txs[t], s.memoActive))
  }

  lemma TxsSoundStep(s: State, e: Effect)
    requires TxsSound(s) && Enabled(s, e)
    ensures TxsSound(Apply(s, e))
  {
    hide Apply, Enabled, TxSound;
    TxKeysFrame(s, e);
    CommittedFrame(s, e);
    forall t | t in Apply(s, e).db.multisigs
      ensures TxSound(Apply(s, e).db.multisigs[t], Apply(s, e).memoActive)
      ensures t in Apply(s, e).committed.txs ==> TxSound(Apply(s, e).committed.txs[t], Apply(s, e).memoActive)
    {
      TxSoundAt(s, e, t);
    }
  }

  lemma TxSoundAt(s: State, e: Effect, t: nat)
    requires TxsSound(s) && Enabled(s, e) && t in Apply(s, e).db.multisigs
    ensures TxSound(Apply(s, e).db.multisigs[t], Apply(s, e).memoActive)
    ensures t in Apply(s, e).committed.txs ==> TxSound(Apply(s, e).committed.txs[t], Apply(s, e).memoActive)
  {
    hide Apply, Enabled, TxSound;
    ClockFrame(s, e);
    CommittedFrame(s, e);
    if e.MemoMigrated? { MemoFlag(s); }
    if e.Submitted? && t == s.latestTid + 1 {
      NewTxFrame(s, e.tx);
      NewTxSound(s, e.tx);
    } else {
      TxKeysFrame(s, e);
      TxFrame(s, e, t);
      TxStaysSound(s, e, t);
    }
  }

  lemma NewTxSound(s: State, tx: Multisig)
    requires Enabled(s, Submitted(tx))
    ensures TxSound(tx, s.memoActive)
  {
  }

  lemma TxStaysSound(s: State, e: Effect, t: nat)
    requires TxsSound(s) && Enabled(s, e) && t in s.db.multisigs && !(e.Submitted? && t == s.latestTid + 1)
    ensures TxSound(TxAfter(s, e, t), e.MemoMigrated? || s.memoActive)
  {
    assert TxSound(s.db.multisigs[t], s.memoActive);
    assert t in s.committed.txs ==> TxSound(s.committed.txs[t], s.memoActive);
    if e.Ended? { EndedClosed(s, e); }
    hide TxsSound, Enabled;
  }

  lemma EndedClosed(s: State, e: Effect)
    requires Enabled(s, e) && e.Ended?
    ensures !e.state.Pending?
  {
  }

  lemma MemoFlag(s: State)
    ensures Apply(s, MemoMigrated).memoActive
  {
  }

  /** In every reachable state a transaction is disabled exactly when it is not pending, its
      timeout is at most the maximum after its creation, and once the memo migration ran no
      legacy memo is left. */
  lemma {:induction false} TxsSoundAlways(g: State, es: seq<Effect>)
    requires TxsSound(g) && Legal(g, es)
    ensures TxsSound(After(g, es))
    decreases |es|
  {
    if es != [] {
      TxsSoundAlways(g, es[..|es| - 1]);
      TxsSoundStep(After(g, es[..|es| - 1]), es[|es| - 1]);
    }
  }

  // ---------------------------------------------------------------- what scans see

  // `d` is the record `c` with, possibly, other approvals and another state.
  predicate LaterRecord(c: Multisig, d: Multisig) {
    && d == c.(info := c.info.(approvers := d.info.approvers, state := d.info.state), disabled := d.disabled)
    && (c.disabled ==> d == c)
  }

  /** A scan finds earlier versions of records still stored, closed ones as they are; and a record
      is expired only if it was committed as expired. */
  ghost predicate CommittedPast(s: State) {
    && (forall t :: t in s.committed.txs ==> t in s.db.multisigs && LaterRecord(s.committed.txs[t], s.db.multisigs[t]))
    && (forall t :: t in s.db.multisigs && s.db.multisigs[t].info.state.Expired? ==>
          t in s.committed.txs && s.committed.txs[t] == s.db.multisigs[t])
    && (forall t :: t in s.db.multisigs ==> (s.db.multisigs[t].disabled <==> !s.db.multisigs[t].info.state.Pending?))
  }

  lemma StillStored(s: State, e: Effect)
    requires CommittedPast(s)
    ensures Apply(s, e).committed.txs.Keys <= Apply(s, e).db.multisigs.Keys
  {
    hide Apply;
    TxKeysFrame(s, e);
    CommittedFrame(s, e);
  }

  lemma CommittedPastStep(s: State, e: Effect)
    requires CommittedPast(s) && IdsFresh(s) && Enabled(s, e)
    ensures CommittedPast(Apply(s, e))
  {
    StillStored(s, e);
    hide Apply, IdsFresh, Enabled, LaterRecord;
    var s' := Apply(s, e);
    forall t | t in s'.db.multisigs
      ensures s'.db.multisigs[t].disabled <==> !s'.db.multisigs[t].info.state.Pending?
      ensures t in s'.committed.txs ==> LaterRecord(s'.committed.txs[t], s'.db.multisigs[t])
      ensures s'.db.multisigs[t].info.state.Expired? ==>
                t in s'.committed.txs && s'.committed.txs[t] == s'.db.multisigs[t]
    {
      CommittedPastAt(s, e, t);
    }
  }

  lemma CommittedPastAt(s: State, e: Effect, t: nat)
    requires CommittedPast(s) && IdsFresh(s) && Enabled(s, e) && t in Apply(s, e).db.multisigs
    ensures var s' := Apply(s, e);
            && (s'.db.multisigs[t].disabled <==> !s'.db.multisigs[t].info.state.Pending?)
            && (t in s'.committed.txs ==> LaterRecord(s'.committed.txs[t], s'.db.multisigs[t]))
            && (s'.db.multisigs[t].info.state.Expired? ==>
                  t in s'.committed.txs && s'.committed.txs[t] == s'.db.multisigs[t])
  {
    hide Apply;
    CommittedFrame(s, e);
    if e.Submitted? && t == s.latestTid + 1 {
      NewTxFrame(s, e.tx);
    } else {
      TxKeysFrame(s, e);
      TxFrame(s, e, t);
    }
  }

  lemma {:induction false} CommittedPastAlways(g: State, es: seq<Effect>)
    requires CommittedPast(g) && IdsFresh(g) && Legal(g, es) && Along(g, es, BlocksBounded)
    ensures CommittedPast(After(g, es)) && IdsFresh(After(g, es))
    decreases |es|
  {
    hide CommittedPast, IdsFresh, Enabled, Apply;
    if es != [] {
      CommittedPastAlways(g, es[..|es| - 1]);
      IdsStep(After(g, es[..|es| - 1]), es[|es| - 1]);
      CommittedPastStep(After(g, es[..|es| - 1]), es[|es| - 1]);
    }
  }

  // ---------------------------------------------------------------- closed for good

  predicate IsClosed(s: State, t: nat) {
    t in s.db.multisigs && s.db.multisigs[t].disabled
  }

  // The records agree on everything but the memo fields the migration rewrites.
  predicate SameButMemo(a: Multisig, b: Multisig) {
    b == a.(info := a.info.(memo_ := b.info.memo_, data_ := b.info.data_, memo := b.info.memo))
  }

  // The sweep writes an expired version of its committed record over the one stored for `t`.
  predicate Overwrites(s: State, e: Effect, t: nat) {
    e.ExpirySwept? && Expires(s, t)
  }

  lemma ClosedStep(s: State, e: Effect, t: nat)
    requires IdsFresh(s) && Enabled(s, e) && IsClosed(s, t)
    ensures IsClosed(Apply(s, e), t)
    ensures if Overwrites(s, e, t) then Apply(s, e).db.multisigs[t] == Closed(s.committed.txs[t], Expired)
            else SameButMemo(s.db.multisigs[t], Apply(s, e).db.multisigs[t])
    ensures !e.MemoMigrated? && !e.ExpirySwept? ==> Apply(s, e).db.multisigs[t] == s.db.multisigs[t]
  {
    hide Apply;
    TxFrame(s, e, t);
  }

  lemma {:induction false} StaysClosed(g: State, es: seq<Effect>, i: nat, t: nat)
    requires IdsFresh(g) && Legal(g, es) && Along(g, es, BlocksBounded)
    requires i <= |es| && IsClosed(After(g, es[..i]), t)
    ensures IsClosed(After(g, es), t)
    decreases |es|
  {
    hide IdsFresh, Enabled, Apply;
    if i < |es| {
      var front := es[..|es| - 1];
      assert front[..i] == es[..i];
      StaysClosed(g, front, i, t);
      IdsAlways(g, front);
      ClosedStep(After(g, front), es[|es| - 1], t);
    } else {
      assert es[..i] == es;
    }
  }

  // Some sweep from position `i` on writes over the record of `t`.
  ghost predicate OverwrittenFrom(g: State, es: seq<Effect>, i: nat, t: nat) {
    exists j :: i <= j < |es| && Overwrites(After(g, es[..j]), es[j], t)
  }

  /** Once closed, a transaction stays closed. It keeps its state, approvers and every other field,
      its memo up to the migration, exactly unless a sweep finds its committed record still pending
      and timed out, which only the sweep of the block it was closed in can; then it becomes
      expired. */
  lemma {:induction false} ClosedForGood(g: State, es: seq<Effect>, i: nat, t: nat)
    requires CommittedPast(g) && IdsFresh(g) && Legal(g, es) && Along(g, es, BlocksBounded)
    requires i <= |es| && IsClosed(After(g, es[..i]), t)
    ensures IsClosed(After(g, es), t)
    ensures SameButMemo(After(g, es[..i]).db.multisigs[t], After(g, es).db.multisigs[t])
            <==> !OverwrittenFrom(g, es, i, t)
    ensures OverwrittenFrom(g, es, i, t) ==>
              && After(g, es).db.multisigs[t].info.state == Expired
              && After(g, es[..i]).db.multisigs[t].info.state != Expired
    decreases |es|
  {
    hide CommittedPast, IdsFresh, Enabled, Apply, Legal, Along, Overwrites, SameButMemo;
    if i < |es| {
      var front, e := es[..|es| - 1], es[|es| - 1];
      assert front[..i] == es[..i];
      LegalFront(g, es);
      ClosedForGood(g, front, i, t);
      CommittedPastAlways(g, front);
      ClosedStep(After(g, front), e, t);
      OverwrittenOneMore(g, es, i, t);
      KeptOrExpired(After(g, es[..i]).db.multisigs[t], After(g, front), e, t);
    } else {
      assert es[..i] == es;
      SameRecord(After(g, es).db.multisigs[t]);
    }
  }

  lemma LegalFront(g: State, es: seq<Effect>)
    requires Legal(g, es) && Along(g, es, BlocksBounded) && es != []
    ensures Legal(g, es[..|es| - 1]) && Along(g, es[..|es| - 1], BlocksBounded)
    ensures Enabled(After(g, es[..|es| - 1]), es[|es| - 1]) && BlocksBounded(After(g, es[..|es| - 1]), es[|es| - 1])
    ensures After(g, es) == Apply(After(g, es[..|es| - 1]), es[|es| - 1])
  {
  }

  lemma SameRecord(a: Multisig)
    ensures SameButMemo(a, a)
  {
  }

  lemma OverwrittenOneMore(g: State, es: seq<Effect>, i: nat, t: nat)
    requires i < |es|
    ensures OverwrittenFrom(g, es, i, t) <==>
            OverwrittenFrom(g, es[..|es| - 1], i, t) || Overwrites(After(g, es[..|es| - 1]), es[|es| - 1], t)
  {
    hide Overwrites, After;
    var front := es[..|es| - 1];
    assert forall j :: i <= j < |front| ==> front[..j] == es[..j] && front[j] == es[j];
    if OverwrittenFrom(g, front, i, t) {
      var j :| i <= j < |front| && Overwrites(After(g, front[..j]), front[j], t);
      assert Overwrites(After(g, es[..j]), es[j], t);
    }
    if Overwrites(After(g, front), es[|es| - 1], t) {
      assert Overwrites(After(g, es[..|es| - 1]), es[|es| - 1], t);
    }
  }

  // The last step of ClosedForGood: `a` is the record at closing.
  lemma KeptOrExpired(a: Multisig, s: State, e: Effect, t: nat)
    requires CommittedPast(s) && IdsFresh(s) && Enabled(s, e) && IsClosed(s, t)
    requires SameButMemo(a, s.db.multisigs[t]) || (s.db.multisigs[t].info.state == Expired && a.info.state != Expired)
    ensures t in Apply(s, e).db.multisigs
    ensures Overwrites(s, e, t) ==>
              && SameButMemo(a, s.db.multisigs[t]) && Apply(s, e).db.multisigs[t].info.state == Expired
              && a.info.state != Expired
    ensures !Overwrites(s, e, t) && SameButMemo(a, s.db.multisigs[t]) ==> SameButMemo(a, Apply(s, e).db.multisigs[t])
    ensures s.db.multisigs[t].info.state == Expired ==> Apply(s, e).db.multisigs[t].info.state == Expired
    ensures Apply(s, e).db.multisigs[t].info.state == Expired && a.info.state != Expired ==>
              !SameButMemo(a, Apply(s, e).db.multisigs[t])
  {
    ClosedStep(s, e, t);
    hide Apply;
  }

  /** A transaction in use is found again later with the same account, payload, threshold,
      timeout and submitter. */
  predicate SameTerms(a: Multisig, b: Multisig) {
    && a.account == b.account && a.info.transaction == b.info.transaction && a.info.threshold == b.info.threshold
    && a.info.timeout == b.info.timeout && a.info.submitter == b.info.submitter
    && a.info.automatic == b.info.automatic && a.creation == b.creation
  }

  lemma TermsStep(s: State, e: Effect, t: nat)
    requires CommittedPast(s) && IdsFresh(s) && t in s.db.multisigs
    ensures t in Apply(s, e).db.multisigs && SameTerms(s.db.multisigs[t], Apply(s, e).db.multisigs[t])
  {
    hide Apply, CommittedPast, IdsFresh;
    TxFrame(s, e, t);
    StoredBefore(s, t);
  }

  lemma StoredBefore(s: State, t: nat)
    requires CommittedPast(s) && IdsFresh(s) && t in s.db.multisigs
    ensures t != s.latestTid + 1
    ensures t in s.committed.txs ==> LaterRecord(s.committed.txs[t], s.db.multisigs[t])
  {
  }

  lemma {:induction false} TermsKept(g: State, es: seq<Effect>, i: nat, t: nat)
    requires CommittedPast(g) && IdsFresh(g) && Legal(g, es) && Along(g, es, BlocksBounded)
    requires i <= |es| && t in After(g, es[..i]).db.multisigs
    ensures t in After(g, es).db.multisigs
    ensures SameTerms(After(g, es[..i]).db.multisigs[t], After(g, es).db.multisigs[t])
    decreases |es|
  {
    hide CommittedPast, IdsFresh, Enabled, Apply;
    if i < |es| {
      var front := es[..|es| - 1];
      assert front[..i] == es[..i];
      TermsKept(g, front, i, t);
      CommittedPastAlways(g, front);
      TermsStep(After(g, front), es[|es| - 1], t);
    } else {
      assert es[..i] == es;
    }
  }

  // ---------------------------------------------------------------- expiry

  /** What a sweep does to an open transaction: it stays open, and as it is, exactly when it was
      submitted in the block that ends or its timeout lies later; otherwise it is closed as expired,
      with the approvals of the previous block. */
  lemma SweepExact(s: State, t: nat)
    requires CommittedPast(s) && PendingTx(s.db, t)
    ensures var s' := Apply(s, ExpirySwept);
            && (PendingTx(s'.db, t) <==> t !in s.committed.txs || s.db.multisigs[t].info.timeout > s.now)
            && (PendingTx(s'.db, t) ==> s'.db.multisigs[t] == s.db.multisigs[t])
            && (!PendingTx(s'.db, t) ==> s'.db.multisigs[t] == Closed(s.committed.txs[t], Expired))
  {
    SweepWrites(s);
    hide Apply;
    if t in s.committed.txs { assert LaterRecord(s.committed.txs[t], s.db.multisigs[t]); }
  }

  lemma StartNeedsPending(g: State, es: seq<Effect>, t: nat)
    requires Legal(g, es) && es != [] && es[|es| - 1] == Started(t)
    ensures PendingTx(After(g, es[..|es| - 1]).db, t)
  {
  }

  /** A transaction stored when a block ends can be executed after that block only if it was
      submitted in it or its timeout lies after its time. */
  lemma ExecutionAfterSweep(g: State, es: seq<Effect>, i: nat, j: nat, t: nat)
    requires CommittedPast(g) && IdsFresh(g) && Legal(g, es) && Along(g, es, BlocksBounded)
    requires i < j < |es| && es[i].ExpirySwept? && es[j] == Started(t)
    requires t in After(g, es[..i]).db.multisigs
    ensures var s := After(g, es[..i]); t !in s.committed.txs || s.db.multisigs[t].info.timeout > s.now
    ensures t in After(g, es[..j]).db.multisigs
    ensures SameTerms(After(g, es[..i]).db.multisigs[t], After(g, es[..j]).db.multisigs[t])
  {
    hide Apply, Enabled, IdsFresh, CommittedPast, Legal, Along, After;
    var s := After(g, es[..i]);
    PrefixLegal(g, es, i);
    PrefixLegal(g, es, j);
    CommittedPastAlways(g, es[..i]);
    OpenUntilStart(g, es, i, j, t);
    SweepExact(s, t);
    NextAfter(g, es, i);
    TxKeysFrame(s, ExpirySwept);
    OpenUntilStart(g, es, i + 1, j, t);
    assert es[..j][..i] == es[..i];
    TermsKept(g, es[..j], i, t);
  }

  lemma NextAfter(g: State, es: seq<Effect>, i: nat)
    requires i < |es|
    ensures After(g, es[..i + 1]) == Apply(After(g, es[..i]), es[i])
  {
    hide Apply;
    assert es[..i + 1][..i] == es[..i];
  }

  lemma OpenUntilStart(g: State, es: seq<Effect>, k: nat, j: nat, t: nat)
    requires IdsFresh(g) && Legal(g, es) && Along(g, es, BlocksBounded)
    requires k <= j < |es| && es[j] == Started(t) && t in After(g, es[..k]).db.multisigs
    ensures PendingTx(After(g, es[..k]).db, t)
  {
    hide Apply, Enabled, IdsFresh, Legal, Along, After;
    PrefixLegal(g, es, j + 1);
    PrefixLegal(g, es, j);
    assert es[..j + 1][..j] == es[..j] && es[..j][..k] == es[..k];
    StartNeedsPending(g, es[..j + 1], t);
    if IsClosed(After(g, es[..k]), t) { StaysClosed(g, es[..j], k, t); }
  }

  lemma {:induction false} PrefixLegal(g: State, es: seq<Effect>, k: nat)
    requires k <= |es| && Legal(g, es) && Along(g, es, BlocksBounded)
    ensures Legal(g, es[..k]) && Along(g, es[..k], BlocksBounded)
    decreases |es|
  {
    if k < |es| {
      PrefixLegal(g, es[..|es| - 1], k);
      assert es[..|es| - 1][..k] == es[..k];
    } else {
      assert es[..k] == es;
    }
  }

  // ---------------------------------------------------------------- payloads run at most once

  ghost predicate OncePerToken(trace: seq<Effect>) {
    forall i, j :: 0 <= i < j < |trace| && trace[i].Started? && trace[j].Started? ==> trace[i].token != trace[j].token
  }

  /** No payload ran twice, and every payload that ran belongs to a closed transaction or to
      one of the executions still open. */
  ghost predicate Once(m: Machine, open: set<nat>) {
    && OncePerToken(m.trace)
    && forall i :: 0 <= i < |m.trace| && m.trace[i].Started? ==>
         m.trace[i].token in open || IsClosed(m.s, m.trace[i].token)
  }

  // `m'` follows from `m`, keeps every stored transaction and has run no payload twice.
  ghost predicate OnceFrom(m: Machine, m': Machine, open: set<nat>) {
    Once(m', open) && IdsFresh(m'.s) && m.s.db.multisigs.Keys <= m'.s.db.multisigs.Keys
  }

  lemma OnceDo(m: Machine, e: Effect, open: set<nat>)
    requires Once(m, open) && IdsFresh(m.s) && Enabled(m.s, e) && !e.Started? && BlocksBounded(m.s, e)
    ensures OnceFrom(m, Do(m, e), open)
  {
    IdsStep(m.s, e);
    TxKeysFrame(m.s, e);
    var m' := Do(m, e);
    assert forall i :: 0 <= i < |m'.trace| && m'.trace[i].Started? ==> i < |m.trace| && m'.trace[i] == m.trace[i];
    forall i | 0 <= i < |m.trace| && m.trace[i].Started?
      ensures m.trace[i].token in open || IsClosed(m'.s, m.trace[i].token)
    {
      if m.trace[i].token !in open { ClosedStep(m.s, e, m.trace[i].token); }
    }
  }

  lemma OnceAtMostOne(m: Machine, m': Machine, open: set<nat>)
    requires Once(m, open) && IdsFresh(m.s) && AtMostOne(m, m')
    ensures OnceFrom(m, m', open)
  {
    if m' != m {
      var e :| Performs(m, m', e);
      OnceDo(m, e, open);
    }
  }

  lemma OnceStart(m: Machine, token: nat, open: set<nat>)
    requires Once(m, open) && PendingTx(m.s.db, token) && token !in open
    ensures Once(Do(m, Started(token)), open + {token}) && Do(m, Started(token)).s == m.s
  {
    var m' := Do(m, Started(token));
    assert forall i :: 0 <= i < |m.trace| ==> m'.trace[i] == m.trace[i];
  }

  lemma OnceDisable(m: Machine, token: nat, state: TxState, open: set<nat>)
    requires state.ExecutedManually? || state.ExecutedAutomatically?
    requires Once(m, open + {token}) && IdsFresh(m.s) && token in m.s.db.multisigs
    ensures OnceFrom(m, DisableTx(m, token, state).m, open)
  {
    DisableAllowed(m, token, state);
    DisableCloses(m, token, state);
    hide DisableTx;
    OnceAtMostOne(m, DisableTx(m, token, state).m, open + {token});
  }

  lemma DisableCloses(m: Machine, token: nat, state: TxState)
    requires token in m.s.db.multisigs
    ensures IsClosed(DisableTx(m, token, state).m.s, token)
  {
  }

  lemma OnceWithdraw(m: Machine, sender: Address, token: nat, open: set<nat>)
    requires Once(m, open) && IdsFresh(m.s)
    ensures OnceFrom(m, Withdraw(m, sender, token).m, open)
  {
    WithdrawAllowed(m, sender, token);
    var m1, o := DisableTx(m, token, Withdrawn).m, Withdraw(m, sender, token);
    OnceAtMostOne(m, m1, open);
    if o.m != m { OnceAtMostOne(m1, o.m, open); }
  }

  /** An execution whose chain avoids the open ones runs no payload a second time. */
  lemma {:induction false} ExecuteInternalOnce(depth: nat, m: Machine, token: nat, automatically: bool, open: set<nat>)
    requires Once(m, open) && IdsFresh(m.s) && PendingTx(m.s.db, token) && m.s.db.multisigs[token].ShouldExecute()
    requires !Reenters(Frame(m.s, token), open)
    requires ExecuteInternal(depth, m, token, m.s.db.multisigs[token], automatically).Done?
    ensures OnceFrom(m, ExecuteInternal(depth, m, token, m.s.db.multisigs[token], automatically).m, open)
    decreases depth, 0
  {
    hide Apply, Approve, Execute, Withdraw, Once, IdsFresh, EnterByApproval, EnterByExecution, DisableTx;
    var tx, m0 := m.s.db.multisigs[token], Do(m, Started(token));
    OnceStart(m, token, open);
    var o := RunPayload(depth - 1, m0, token, tx);
    match tx.info.transaction {
      case ApprovePayload(t) => ApproveOnce(depth - 1, m0, tx.account, t, open + {token});
      case ExecutePayload(t) => ExecuteOnce(depth - 1, m0, tx.account, t, open + {token});
      case WithdrawPayload(t) => OnceWithdraw(m0, tx.account, t, open + {token});
      case _ =>
        PlainPayloadAllowed(depth - 1, m0, token, tx);
        OnceAtMostOne(m0, o.m, open + {token});
    }
    assert OnceFrom(m0, o.m, open + {token});
    OnceDisable(o.m, token, if automatically then ExecutedAutomatically else ExecutedManually, open);
  }

  lemma {:induction false} ApproveOnce(depth: nat, m: Machine, sender: Address, t: nat, open: set<nat>)
    requires Once(m, open) && IdsFresh(m.s)
    requires EnterByApproval(m.s, sender, t).Some? ==> !Reenters(EnterByApproval(m.s, sender, t).value, open)
    requires Approve(depth, m, sender, t).Done?
    ensures OnceFrom(m, Approve(depth, m, sender, t).m, open)
    decreases depth, 1
  {
    hide Apply, ExecuteInternal, Once, IdsFresh, Reenters;
    var found := LookUp(m.s.db, t);
    if found.Ok? && CanApprove(found.value.1, sender) {
      var m1, tx1 := Do(m, Approved(t, sender)), WithApproval(found.value.0, sender, true);
      assert Performs(m, m1, Approved(t, sender));
      OnceAtMostOne(m, m1, open);
      if tx1.info.automatic && tx1.ShouldExecute() {
        ApprovalState(m.s, t, sender);
        ExecuteInternalOnce(depth, m1, t, true, open);
        var o := ExecuteInternal(depth, m1, t, tx1, true);
        LogAllowed(o, tx1.account, t, None);
        OnceAtMostOne(o.m, LogExecution(o, tx1.account, t, None).m, open);
      }
    }
  }

  lemma {:induction false} ExecuteOnce(depth: nat, m: Machine, sender: Address, t: nat, open: set<nat>)
    requires Once(m, open) && IdsFresh(m.s)
    requires EnterByExecution(m.s, sender, t).Some? ==> !Reenters(EnterByExecution(m.s, sender, t).value, open)
    requires Execute(depth, m, sender, t).Done?
    ensures OnceFrom(m, Execute(depth, m, sender, t).m, open)
    decreases depth, 1
  {
    hide Apply, ExecuteInternal, Once, IdsFresh, Reenters;
    var found := LookUp(m.s.db, t);
    if found.Ok? && CanExecute(found.value.0, found.value.1, sender) && found.value.0.ShouldExecute() {
      ExecuteInternalOnce(depth, m, t, false, open);
      var o := ExecuteInternal(depth, m, t, found.value.0, false);
      LogAllowed(o, found.value.0.account, t, Some(sender));
      OnceAtMostOne(o.m, LogExecution(o, found.value.0.account, t, Some(sender)).m, open);
    }
  }

  // The commits of a run stay within their blocks.
  ghost predicate CommitsBounded(depth: nat, m: Machine, calls: seq<Call>) {
    forall i :: 0 <= i < |calls| && calls[i].CommitCall? && Calls(depth, m, calls[..i]).Some? ==>
      CommitSafe(Calls(depth, m, calls[..i]).value.s)
  }

  lemma CommitOnce(m: Machine, memo: bool, counts: bool)
    requires Once(m, {}) && IdsFresh(m.s) && CommitSafe(m.s)
    ensures Once(Commit(m, memo, counts), {}) && IdsFresh(Commit(m, memo, counts).s)
  {
    hide Apply, Once, IdsFresh;
    var m1 := Do(m, ExpirySwept);
    OnceDo(m, ExpirySwept, {});
    EventsFrame(m.s, ExpirySwept);
    SweepKeepsHeight(m.s);
    var m2 := if memo then Do(m1, MemoMigrated) else m1;
    OnceDo(m1, MemoMigrated, {});
    var m3 := if counts then Do(m2, CountsInitialised) else m2;
    OnceDo(m2, CountsInitialised, {});
    MigrationsKeepHeight(m1.s);
    MigrationsKeepHeight(m2.s);
    OnceDo(m3, NextBlock, {});
  }

  lemma SweepKeepsHeight(s: State)
    ensures Apply(s, ExpirySwept).db.height == s.db.height && Apply(s, ExpirySwept).latestTid == s.latestTid
  {
  }

  lemma MigrationsKeepHeight(s: State)
    ensures Apply(s, MemoMigrated).db.height == s.db.height && Apply(s, MemoMigrated).latestTid == s.latestTid
    ensures Apply(s, CountsInitialised).db.height == s.db.height && Apply(s, CountsInitialised).latestTid == s.latestTid
  {
  }

  lemma AnswerOnce(depth: nat, m: Machine, c: Call)
    requires Once(m, {}) && IdsFresh(m.s) && (c.CommitCall? ==> CommitSafe(m.s))
    requires Answer(depth, m, c).Done?
    ensures Once(Answer(depth, m, c).m, {}) && IdsFresh(Answer(depth, m, c).m.s)
  {
    hide Apply, Once, IdsFresh, Reenters, Approve, Execute, Withdraw, Commit, EnterByApproval, EnterByExecution;
    CallOverflows(depth, m, c);
    match c
    case ApproveCall(sender, id) => ApproveOnce(depth, m, sender, id, {});
    case ExecuteCall(sender, id) => ExecuteOnce(depth, m, sender, id, {});
    case WithdrawCall(sender, id) => OnceWithdraw(m, sender, id, {});
    case CommitCall(memo, counts) => CommitOnce(m, memo, counts);
    case _ =>
      PlainCallAllowed(depth, m, c);
      OnceAtMostOne(m, Answer(depth, m, c).m, {});
  }

  /** Over any run that is answered, for any payloads whatever, each transaction's payload
      runs at most once, and every transaction whose payload ran is closed. */
  lemma {:induction false} PayloadsRunOnce(depth: nat, g: State, calls: seq<Call>)
    requires IdsFresh(g) && CommitsBounded(depth, Machine(g, []), calls)
    requires Calls(depth, Machine(g, []), calls).Some?
    ensures Once(Calls(depth, Machine(g, []), calls).value, {})
    ensures IdsFresh(Calls(depth, Machine(g, []), calls).value.s)
    decreases |calls|
  {
    if calls != [] {
      var front := calls[..|calls| - 1];
      assert forall i :: 0 <= i < |front| ==> front[i] == calls[i] && front[..i] == calls[..i];
      PayloadsRunOnce(depth, g, front);
      AnswerOnce(depth, Calls(depth, Machine(g, []), front).value, calls[|calls| - 1]);
    }
  }
}
