/** The log accounts for the ledger in every reachable state, before, across and after the
    memo migration. */
module EventSourcing {
  import opened LedgerTypes
  import opened Allocation
  import opened AccountRules
  import opened LedgerMachine
  import opened Footprints
  import opened Legality
  import opened EventIds
  import opened TxHistory
  import opened Replay
  import opened Supply

  // ---------------------------------------------------------------- the memo migration

  function MigratedTxView(v: TxView): TxView {
    if v.memo.Some? then v
    else
      var merged := MergedMemo(v.memo_, v.data_);
      if merged.Some? then v.(memo_ := None, data_ := None, memo := merged) else v
  }

  function MigratedView(v: View): View {
    v.(txs := map t | t in v.txs :: MigratedTxView(v.txs[t]))
  }

  function MigratedLog(events: map<nat, EventLog>): map<nat, EventLog> {
    map id | id in events :: MigratedEvent(events[id])
  }

  lemma ApprovalMigrates(v: View, token: nat, who: Address, approved: bool)
    ensures ReplayApproval(MigratedView(v), token, who, approved)
            == MigratedView(ReplayApproval(v, token, who, approved))
  {
    var a := ReplayApproval(MigratedView(v), token, who, approved);
    var b := MigratedView(ReplayApproval(v, token, who, approved));
    assert a.txs.Keys == b.txs.Keys;
    assert a.txs == b.txs;
  }

  lemma SubmitMigrates(v: View, log: EventLog)
    requires log.content.SubmitEvent?
    ensures ReplayEvent(MigratedView(v), MigratedEvent(log).content) == MigratedView(ReplayEvent(v, log.content))
  {
    var a, b := ReplayEvent(MigratedView(v), MigratedEvent(log).content), MigratedView(ReplayEvent(v, log.content));
    assert a.txs.Keys == b.txs.Keys;
    assert a.txs == b.txs;
  }

  lemma EventMigrates(v: View, log: EventLog)
    ensures ReplayEvent(MigratedView(v), MigratedEvent(log).content) == MigratedView(ReplayEvent(v, log.content))
  {
    hide Credited, Debited, Moved, ApplyChange, MigratedTxView, ReplayApproval;
    if log.content.SubmitEvent? {
      SubmitMigrates(v, log);
    } else {
      assert MigratedEvent(log) == log;
      match log.content {
        case ApproveEvent(_, token, who) => ApprovalMigrates(v, token, who, true);
        case RevokeEvent(_, token, who) => ApprovalMigrates(v, token, who, false);
        case _ =>
      }
    }
  }

  /** Replaying the rewritten log gives the rewritten view. */
  lemma {:induction false} LogMigrates(v: View, events: map<nat, EventLog>, n: nat)
    ensures ReplayLog(MigratedView(v), MigratedLog(events), n) == MigratedView(ReplayLog(v, events, n))
  {
    if n > 0 {
      LogMigrates(v, events, n - 1);
      if n in events { EventMigrates(ReplayLog(v, events, n - 1), events[n]); }
    }
  }

  lemma MigrationKeepsRest(s: State)
    ensures Apply(s, MemoMigrated).db.balances == s.db.balances && Apply(s, MemoMigrated).db.accounts == s.db.accounts
  {
  }

  lemma ViewMigrates(s: State)
    ensures ViewOf(Apply(s, MemoMigrated)) == MigratedView(ViewOf(s))
    ensures Apply(s, MemoMigrated).db.events == MigratedLog(s.db.events)
  {
    MigratedFrame(s);
    MigrationKeepsRest(s);
    hide Apply, MigratedTx, MigratedTxView, TxViewOf, MigratedEvent;
    var s' := Apply(s, MemoMigrated);
    assert ViewOf(s').txs.Keys == s.db.multisigs.Keys;
    forall t | t in s.db.multisigs
      ensures ViewOf(s').txs[t] == MigratedView(ViewOf(s)).txs[t]
    {
      TxViewMigrates(s.db.multisigs[t]);
    }
  }

  lemma TxViewMigrates(tx: Multisig)
    ensures TxViewOf(MigratedTx(tx)) == MigratedTxView(TxViewOf(tx))
  {
  }

  /** Migrating twice is migrating once; no transaction or submission keeps a legacy memo it
      had no new one beside, and text comes before data. */
  lemma MigrationIdempotent(s: State)
    ensures Apply(Apply(s, MemoMigrated), MemoMigrated) == Apply(s, MemoMigrated)
    ensures forall t :: t in s.db.multisigs && s.db.multisigs[t].info.memo.None? ==>
              var before, after := s.db.multisigs[t].info, Apply(s, MemoMigrated).db.multisigs[t].info;
              && after.memo_ == None && after.data_ == None
              && after.memo == (match (before.memo_, before.data_)
                                case (Some(m), Some(d)) => Some([Text(m), Data(d)])
                                case (Some(m), None) => Some([Text(m)])
                                case (None, Some(d)) => Some([Data(d)])
                                case (None, None) => None)
  {
    MigrationWrites(s);
    MigrationWrites(Apply(s, MemoMigrated));
    hide Apply, MigratedEvent;
    var s1 := ApplyMigratedMemos(s);
    var s2 := ApplyMigratedMemos(s1);
    forall id | id in s.db.events ensures s2.db.events[id] == s1.db.events[id] {
      EventMigratesOnce(s.db.events[id]);
    }
    assert forall t :: t in s.db.multisigs ==> s1.db.multisigs[t] == MigratedTx(s.db.multisigs[t]);
    assert s2.db.events == s1.db.events;
    assert s2.db.multisigs == s1.db.multisigs;
  }

  lemma MigrationWrites(s: State)
    ensures Apply(s, MemoMigrated) == ApplyMigratedMemos(s)
  {
  }

  lemma EventMigratesOnce(log: EventLog)
    ensures MigratedEvent(MigratedEvent(log)) == MigratedEvent(log)
  {
  }

  // ---------------------------------------------------------------- the log accounts for the state

  /** Nothing logged or submitted yet. */
  ghost predicate Genesis(g: State) {
    g.db.events == map[] && g.db.multisigs == map[] && g.db.eventCount == 0 && g.committed.txs == map[]
  }

  // The log of `s` replayed over the state `g`.
  function Replayed(g: State, s: State): View {
    ReplayLog(ViewOf(g), s.db.events, s.latestTid)
  }

  /** Balances, accounts and transactions are what the log says. */
  ghost predicate Sourced(g: State, s: State) {
    ViewOf(s) == Replayed(g, s)
  }

  predicate SameRecords(v: View, w: View) {
    v.accounts == w.accounts && v.txs == w.txs
  }

  /** Accounts and transactions are what the log says. */
  ghost predicate RecordsSourced(g: State, s: State) {
    SameRecords(ViewOf(s), Replayed(g, s))
  }

  /** Events added after every one in `events`, and not yet reached, do not change a replay. */
  lemma {:induction false} ReplayExtends(v: View, events: map<nat, EventLog>, events': map<nat, EventLog>, n: nat,
                                         k: nat)
    requires n <= k
    requires forall id :: id in events ==> id <= n
    requires forall id :: id <= k ==> (id in events <==> id in events')
    requires forall id :: id <= k && id in events ==> events'[id] == events[id]
    ensures ReplayLog(v, events', k) == ReplayLog(v, events, n)
    decreases k
  {
    if n < k {
      ReplayExtends(v, events, events', n, k - 1);
    } else if n > 0 {
      ReplaySame(v, events, events', n);
    }
  }

  lemma {:induction false} ReplaySame(v: View, events: map<nat, EventLog>, events': map<nat, EventLog>, n: nat)
    requires forall id :: id <= n ==> (id in events <==> id in events')
    requires forall id :: id <= n && id in events ==> events'[id] == events[id]
    ensures ReplayLog(v, events', n) == ReplayLog(v, events, n)
    decreases n
  {
    hide ReplayEvent;
    if n > 0 { ReplaySame(v, events, events', n - 1); }
  }

  // What an effect does to the replay of the log.
  function ReplayedNext(s: State, e: Effect, v: View): View {
    if e.MemoMigrated? then MigratedView(v)
    else if LoggedContent(s, e).Some? then ReplayEvent(v, LoggedContent(s, e).value)
    else v
  }

  lemma ReplayedStep(g: State, s: State, e: Effect)
    requires Genesis(g) && IdsFresh(s) && BlocksBounded(s, e)
    ensures Replayed(g, Apply(s, e)) == ReplayedNext(s, e, Replayed(g, s))
  {
    hide Apply, LoggedContent, Issued, ViewOf, ReplayEvent;
    var s' := Apply(s, e);
    EventsFrame(s, e);
    IdsStep(s, e);
    if e.MemoMigrated? {
      MigrationLogs(s);
      ViewMigrates(s);
      LogMigrates(ViewOf(g), s.db.events, s.latestTid);
      GenesisMigrates(g);
    } else if LoggedContent(s, e).Some? {
      ReplayExtends(ViewOf(g), s.db.events, s'.db.events, s.latestTid, s'.latestTid - 1);
    } else {
      ReplayExtends(ViewOf(g), s.db.events, s'.db.events, s.latestTid, s'.latestTid);
    }
  }

  // ---------------------------------------------------------------- accounts and transactions

  /** What the log says of a transaction is what is stored but, possibly, for the approvers, and for
      those too while the committed record is not closed. */
  predicate FollowsAt(v: TxView, s: State, t: nat)
    requires t in s.db.multisigs
  {
    && v.(approvers := s.db.multisigs[t].info.approvers) == TxViewOf(s.db.multisigs[t])
    && (v.approvers != s.db.multisigs[t].info.approvers ==> t in s.committed.txs && s.committed.txs[t].disabled)
  }

  ghost predicate Follows(v: View, s: State) {
    && v.accounts == s.db.accounts && v.txs.Keys == s.db.multisigs.Keys
    && forall t :: t in s.db.multisigs ==> FollowsAt(v.txs[t], s, t)
  }

  predicate SameApprovers(v: View, s: State, t: nat) {
    t in v.txs && t in s.db.multisigs && v.txs[t].approvers == s.db.multisigs[t].info.approvers
  }

  // What an effect makes of the view of a transaction the log tells of already.
  function ReplayedTx(e: Effect, t: nat, v: TxView): TxView {
    match e
    case Approved(token, who) => if token == t then v.(approvers := v.approvers[who := true]) else v
    case Revoked(token, who) => if token == t then v.(approvers := v.approvers[who := false]) else v
    case MemoMigrated => MigratedTxView(v)
    case _ => v
  }

  // The replayed transactions are those of before, each as the effect makes it, and the new one.
  ghost predicate TxsReplayed(s: State, e: Effect, v: View, txs: map<nat, TxView>) {
    && txs.Keys == v.txs.Keys + (if e.Submitted? then {s.latestTid + 1} else {})
    && (forall t :: t in v.txs ==> txs[t] == ReplayedTx(e, t, v.txs[t]))
    && (e.Submitted? ==> txs[s.latestTid + 1] == TxViewOf(e.tx))
  }

  lemma ReplayedTxs(s: State, e: Effect, v: View)
    requires Enabled(s, e) && v.txs.Keys == s.db.multisigs.Keys && s.latestTid + 1 !in v.txs
    ensures TxsReplayed(s, e, v, ReplayedNext(s, e, v).txs)
  {
    hide ReplayedNext, Enabled, TxsReplayed;
    match e {
      case Submitted(tx) => SubmissionReplayed(s, tx, v);
      case Approved(token, who) => ApprovalReplayed(s, e, v);
      case Revoked(token, who) => ApprovalReplayed(s, e, v);
      case MemoMigrated => MigrationReplayed(s, v);
      case _ => TxsUntold(s, e, v);
    }
  }

  lemma SubmissionReplayed(s: State, tx: Multisig, v: View)
    requires Enabled(s, Submitted(tx)) && s.latestTid + 1 !in v.txs
    ensures TxsReplayed(s, Submitted(tx), v, ReplayedNext(s, Submitted(tx), v).txs)
  {
    assert ReplayedNext(s, Submitted(tx), v).txs == v.txs[s.latestTid + 1 := TxViewOf(tx)];
    hide Enabled, ReplayedNext;
  }

  lemma ApprovalReplayed(s: State, e: Effect, v: View)
    requires Enabled(s, e) && (e.Approved? || e.Revoked?) && v.txs.Keys == s.db.multisigs.Keys
    ensures TxsReplayed(s, e, v, ReplayedNext(s, e, v).txs)
  {
    StoredAndOpen(s, e, e.token);
    hide Enabled;
    assert ReplayedNext(s, e, v) == ReplayApproval(v, e.token, e.who, e.Approved?) by { hide ReplayApproval; }
    hide ReplayedNext;
  }

  lemma MigrationReplayed(s: State, v: View)
    ensures TxsReplayed(s, MemoMigrated, v, ReplayedNext(s, MemoMigrated, v).txs)
  {
    hide MigratedTxView;
    assert ReplayedNext(s, MemoMigrated, v) == MigratedView(v);
  }

  lemma TxsUntold(s: State, e: Effect, v: View)
    requires Enabled(s, e) && !e.Submitted? && !e.Approved? && !e.Revoked? && !e.MemoMigrated?
    ensures TxsReplayed(s, e, v, ReplayedNext(s, e, v).txs)
  {
    hide Credited, Debited, Moved, ApplyChange, Authorised, ActsFor, FreshId;
  }

  lemma AccountsFollow(s: State, e: Effect, v: View)
    requires Enabled(s, e) && v.accounts == s.db.accounts
    ensures ReplayedNext(s, e, v).accounts == Apply(s, e).db.accounts
  {
    if e.AccountCreated? || e.AccountChanged? {
      ViewAccounts(s, e);
      SameAccounts(ViewOf(s), v, LoggedContent(s, e).value);
    } else {
      AccountsFrame(s, e);
      AccountsUntold(s, e, v);
    }
    hide *;
  }

  lemma SameAccounts(v: View, w: View, event: Event)
    requires v.accounts == w.accounts
    ensures ReplayEvent(v, event).accounts == ReplayEvent(w, event).accounts
  {
    hide Credited, Debited, Moved, ApplyChange;
  }

  lemma AccountsUntold(s: State, e: Effect, v: View)
    requires Enabled(s, e) && !e.AccountCreated? && !e.AccountChanged?
    ensures ReplayedNext(s, e, v).accounts == v.accounts
  {
    hide Credited, Debited, Moved, ApplyChange, MigratedTxView, Authorised, ActsFor, FreshId;
  }

  // One transaction already stored: the log follows, and disagrees on its approvers exactly when it
  // did before or the sweep takes some back.
  lemma FollowsStepAt(s: State, e: Effect, v: TxView, t: nat)
    requires Enabled(s, e) && CommittedPast(s) && IdsFresh(s) && t in s.db.multisigs && FollowsAt(v, s, t)
    ensures t in Apply(s, e).db.multisigs && FollowsAt(ReplayedTx(e, t, v), Apply(s, e), t)
    ensures ReplayedTx(e, t, v).approvers == Apply(s, e).db.multisigs[t].info.approvers
            <==> v.approvers == s.db.multisigs[t].info.approvers && !TakesBack(s, e, t)
  {
    hide Apply, Enabled, CommittedPast, IdsFresh;
    TxFrame(s, e, t);
    CommittedFrame(s, e);
    StoredAndOpen(s, e, t);
    if t in s.committed.txs && s.committed.txs[t].disabled { OpenRecord(s, t); }
    match e {
      case ExpirySwept => SweepFollows(s, v, t);
      case MemoMigrated => MigrationFollows(s.db.multisigs[t], v);
      case _ =>
    }
  }

  lemma StoredAndOpen(s: State, e: Effect, t: nat)
    requires Enabled(s, e)
    ensures IdsFresh(s) && t in s.db.multisigs && e.Submitted? ==> t != s.latestTid + 1
    ensures e.Approved? || e.Revoked? || e.Ended? ==> PendingTx(s.db, e.token)
  {
  }

  lemma OpenRecord(s: State, t: nat)
    requires CommittedPast(s) && t in s.committed.txs && s.committed.txs[t].disabled
    ensures !PendingTx(s.db, t)
  {
    assert LaterRecord(s.committed.txs[t], s.db.multisigs[t]);
  }

  lemma SweepFollows(s: State, v: TxView, t: nat)
    requires CommittedPast(s) && t in s.db.multisigs && FollowsAt(v, s, t)
    ensures v.(approvers := Swept(s, t).info.approvers) == TxViewOf(Swept(s, t))
    ensures v.approvers == Swept(s, t).info.approvers
            <==> v.approvers == s.db.multisigs[t].info.approvers && !TakesBack(s, ExpirySwept, t)
    ensures v.approvers != Swept(s, t).info.approvers ==> Swept(s, t).disabled
  {
    if t in s.committed.txs { assert LaterRecord(s.committed.txs[t], s.db.multisigs[t]); }
  }

  lemma MigrationFollows(tx: Multisig, v: TxView)
    requires v.(approvers := tx.info.approvers) == TxViewOf(tx)
    ensures MigratedTxView(v).(approvers := tx.info.approvers) == TxViewOf(MigratedTx(tx))
    ensures MigratedTxView(v).approvers == v.approvers && MigratedTx(tx).info.approvers == tx.info.approvers
    ensures MigratedTx(tx).disabled == tx.disabled
  {
  }

  // One transaction, stored already or submitted now.
  lemma FollowsOne(s: State, e: Effect, v: View, t: nat)
    requires Enabled(s, e) && CommittedPast(s) && IdsFresh(s) && Follows(v, s) && s.latestTid + 1 !in s.db.multisigs
    requires TxsReplayed(s, e, v, ReplayedNext(s, e, v).txs)
    requires t in s.db.multisigs || (e.Submitted? && t == s.latestTid + 1)
    ensures var v', s' := ReplayedNext(s, e, v), Apply(s, e);
            && t in v'.txs && t in s'.db.multisigs && FollowsAt(v'.txs[t], s', t)
            && (SameApprovers(v', s', t) <==> t !in s.db.multisigs || (SameApprovers(v, s, t) && !TakesBack(s, e, t)))
  {
    hide Apply, ReplayedNext, Enabled, CommittedPast, IdsFresh, FollowsAt, TakesBack, ReplayedTx;
    if t in s.db.multisigs {
      FollowsStepAt(s, e, v.txs[t], t);
    } else {
      SubmissionFollows(s, e.tx);
    }
  }

  lemma TxsOf(s: State, e: Effect, v: View)
    requires v.txs.Keys == s.db.multisigs.Keys && TxsReplayed(s, e, v, ReplayedNext(s, e, v).txs)
    ensures Apply(s, e).db.multisigs.Keys == ReplayedNext(s, e, v).txs.Keys
    ensures forall t :: t in Apply(s, e).db.multisigs ==>
              t in s.db.multisigs || (e.Submitted? && t == s.latestTid + 1)
  {
    hide Apply, ReplayedNext;
    TxKeysFrame(s, e);
  }

  lemma FollowsStep(s: State, e: Effect, v: View)
    requires Enabled(s, e) && CommittedPast(s) && IdsFresh(s) && Follows(v, s)
    ensures Follows(ReplayedNext(s, e, v), Apply(s, e))
    ensures forall t :: t in s.db.multisigs ==>
              (SameApprovers(ReplayedNext(s, e, v), Apply(s, e), t) <==> SameApprovers(v, s, t) && !TakesBack(s, e, t))
    ensures forall t :: t in Apply(s, e).db.multisigs && t !in s.db.multisigs ==>
              SameApprovers(ReplayedNext(s, e, v), Apply(s, e), t)
  {
    assert s.latestTid + 1 !in s.db.multisigs;
    hide Apply, ReplayedNext, Enabled, CommittedPast, IdsFresh, FollowsAt, TakesBack, TxsReplayed, SameApprovers;
    AccountsFollow(s, e, v);
    ReplayedTxs(s, e, v);
    TxsOf(s, e, v);
    var v', s' := ReplayedNext(s, e, v), Apply(s, e);
    forall t | t in s'.db.multisigs
      ensures FollowsAt(v'.txs[t], s', t)
      ensures SameApprovers(v', s', t) <==> t !in s.db.multisigs || (SameApprovers(v, s, t) && !TakesBack(s, e, t))
    {
      FollowsOne(s, e, v, t);
    }
    forall t | t in s.db.multisigs ensures t in s'.db.multisigs {
      FollowsOne(s, e, v, t);
    }
  }

  lemma SubmissionFollows(s: State, tx: Multisig)
    ensures var s', t := Apply(s, Submitted(tx)), s.latestTid + 1;
            && t in s'.db.multisigs && s'.db.multisigs[t] == tx && FollowsAt(TxViewOf(tx), s', t)
            && TxViewOf(tx).approvers == s'.db.multisigs[t].info.approvers
  {
    hide Apply;
    NewTxFrame(s, tx);
  }

  /** In every reachable state, nested executions and the memo migration included, the account
      records and the terms of every transaction are exactly what replaying the log in identifier
      order over the genesis state gives, and so are the approvals of every open one. */
  lemma {:induction false} AlwaysFollows(g: State, es: seq<Effect>)
    requires Genesis(g) && IdsFresh(g) && Legal(g, es) && Along(g, es, BlocksBounded)
    ensures Follows(Replayed(g, After(g, es)), After(g, es))
    ensures CommittedPast(After(g, es)) && IdsFresh(After(g, es))
    decreases |es|
  {
    GenesisPast(g);
    hide Apply, Enabled, IdsFresh, CommittedPast, Replayed, ReplayedNext, Genesis, Follows, TakesBack, SameApprovers;
    CommittedPastAlways(g, es);
    if es == [] {
      ReplayOfGenesis(g);
      GenesisFollows(g);
    } else {
      var front, e := es[..|es| - 1], es[|es| - 1];
      AlwaysFollows(g, front);
      ReplayedStep(g, After(g, front), e);
      FollowsStep(After(g, front), e, Replayed(g, After(g, front)));
    }
  }

  lemma GenesisPast(g: State)
    requires Genesis(g)
    ensures CommittedPast(g)
  {
  }

  lemma GenesisFollows(g: State)
    requires Genesis(g)
    ensures Follows(ViewOf(g), g)
  {
  }

  // No sweep takes approvals of `t` back.
  function Keeps(t: nat): (State, Effect) -> bool {
    (s, e) => !TakesBack(s, e, t)
  }

  /** What the log says of the approvers of a transaction is what is stored exactly when no sweep took
      some of them back; none did while the transaction is open. */
  lemma {:induction false} ApproversFollow(g: State, es: seq<Effect>, t: nat)
    requires Genesis(g) && IdsFresh(g) && Legal(g, es) && Along(g, es, BlocksBounded)
    requires t in After(g, es).db.multisigs
    ensures SameApprovers(Replayed(g, After(g, es)), After(g, es), t) <==> Along(g, es, Keeps(t))
    decreases |es|
  {
    hide Apply, Enabled, IdsFresh, CommittedPast, Replayed, ReplayedNext, Follows, TakesBack, SameApprovers;
    if es == [] {
      assert false;
    } else {
      var front, e := es[..|es| - 1], es[|es| - 1];
      var s := After(g, front);
      AlwaysFollows(g, front);
      ReplayedStep(g, s, e);
      FollowsStep(s, e, Replayed(g, s));
      if t in s.db.multisigs {
        ApproversFollow(g, front, t);
      } else {
        KeptWhileAbsent(g, front, t);
        assert !TakesBack(s, e, t) by { AbsentNotTaken(s, e, t); }
      }
    }
  }

  lemma AbsentNotTaken(s: State, e: Effect, t: nat)
    requires t !in s.db.multisigs
    ensures !TakesBack(s, e, t)
  {
  }

  lemma {:induction false} KeptWhileAbsent(g: State, es: seq<Effect>, t: nat)
    requires t !in After(g, es).db.multisigs
    ensures Along(g, es, Keeps(t))
    decreases |es|
  {
    hide Apply, TakesBack;
    if es != [] {
      var front, e := es[..|es| - 1], es[|es| - 1];
      TxKeysFrame(After(g, front), e);
      KeptWhileAbsent(g, front, t);
      AbsentNotTaken(After(g, front), e, t);
    }
  }

  /** Account records, approvals and terms are all what the log says exactly when no sweep on the way
      took approvals of its block back. */
  lemma {:induction false} RecordsAlwaysSourced(g: State, es: seq<Effect>)
    requires Genesis(g) && IdsFresh(g) && Legal(g, es) && Along(g, es, BlocksBounded)
    ensures RecordsSourced(g, After(g, es)) <==> Along(g, es, SweepsSettled)
    decreases |es|
  {
    hide Apply, Enabled, IdsFresh, CommittedPast, Replayed, ReplayedNext, Genesis, Follows, TakesBack, SameApprovers,
      RecordsSourced;
    AlwaysFollows(g, es);
    SourcedMeans(g, After(g, es));
    if es != [] {
      var front, e := es[..|es| - 1], es[|es| - 1];
      var s := After(g, front);
      RecordsAlwaysSourced(g, front);
      AlwaysFollows(g, front);
      SourcedMeans(g, s);
      ReplayedStep(g, s, e);
      FollowsStep(s, e, Replayed(g, s));
      TxKeysFrame(s, e);
    } else {
      NoTxs(g);
    }
  }

  lemma NoTxs(g: State)
    requires Genesis(g)
    ensures g.db.multisigs == map[]
  {
  }

  lemma SourcedMeans(g: State, s: State)
    requires Follows(Replayed(g, s), s)
    ensures RecordsSourced(g, s) <==> forall t :: t in s.db.multisigs ==> SameApprovers(Replayed(g, s), s, t)
  {
    hide Replayed;
    var v, w := Replayed(g, s), ViewOf(s);
    if forall t :: t in s.db.multisigs ==> SameApprovers(v, s, t) {
      forall t | t in w.txs ensures v.txs[t] == w.txs[t] {
        assert FollowsAt(v.txs[t], s, t) && SameApprovers(v, s, t);
      }
      assert v.txs == w.txs;
    } else {
      var t :| t in s.db.multisigs && !SameApprovers(v, s, t);
      assert v.txs[t] != w.txs[t];
    }
  }

  lemma ReplayOfGenesis(g: State)
    requires Genesis(g)
    ensures Replayed(g, g) == ViewOf(g)
  {
    ReplayExtends(ViewOf(g), map[], map[], 0, g.latestTid);
  }

  // ---------------------------------------------------------------- balances

  // What the log says is held exceeds what is held by the given gaps, for the anonymous address,
  // and is the same for everyone else.
  ghost predicate Apart(said: Balances, held: Balances, gaps: Symbol -> nat) {
    && said.Keys == held.Keys
    && (forall k :: k in held ==> said[k] == held[k] + if k.owner == Anonymous then gaps(k.symbol) else 0)
    && (forall symbol :: gaps(symbol) != 0 ==> Holding(Anonymous, symbol) in held)
  }

  lemma {:induction false} ForgottenIs(balances: Balances, symbol: Symbol, dist: Distribution)
    ensures Forgotten(balances, symbol, dist)
            == if exists i :: 0 <= i < |dist| && dist[i].0 == Anonymous
               then Held(balances, Holding(Anonymous, symbol)) else 0
    decreases |dist|
  {
    if dist != [] {
      var front := dist[..|dist| - 1];
      ForgottenIs(balances, symbol, front);
      if dist[|dist| - 1].0 != Anonymous && exists i :: 0 <= i < |dist| && dist[i].0 == Anonymous {
        var i :| 0 <= i < |dist| && dist[i].0 == Anonymous;
        assert front[i].0 == Anonymous;
      }
    }
  }

  lemma ApartMint(said: Balances, held: Balances, symbol: Symbol, dist: Distribution, gaps: Symbol -> nat,
                  gaps': Symbol -> nat)
    requires Apart(said, held, gaps)
    requires forall sym :: gaps'(sym) == gaps(sym) + if sym == symbol then Forgotten(held, symbol, dist) else 0
    ensures Apart(Credited(said, symbol, dist), held + MintUpdates(held, symbol, dist), gaps')
  {
    var said', held' := Credited(said, symbol, dist), held + MintUpdates(held, symbol, dist);
    MintUpdatesAre(held, symbol, dist);
    ForgottenIs(held, symbol, dist);
    hide MintUpdates, Forgotten, AmountFor;
    assert said'.Keys == held'.Keys;
    forall k | k in held'
      ensures said'[k] == held'[k] + if k.owner == Anonymous then gaps'(k.symbol) else 0
    {
      if k in Holdings(symbol, dist) {
        var i :| 0 <= i < |dist| && k == Holding(dist[i].0, symbol);
        AmountForEntry(dist, i);
      } else {
        NotHolding(k, symbol, dist);
        forall i | 0 <= i < |dist| ensures k.symbol == symbol ==> dist[i].0 != k.owner {
          assert Holding(dist[i].0, symbol) in Holdings(symbol, dist);
        }
      }
    }
  }

  lemma ApartSend(said: Balances, held: Balances, from: Address, to: Address, symbol: Symbol, amount: nat,
                  gaps: Symbol -> nat, gaps': Symbol -> nat)
    requires Apart(said, held, gaps) && from != to && from != Anonymous && to != Anonymous
    requires 0 < amount <= BalanceOf(held, from, symbol)
    requires forall sym :: gaps'(sym) == gaps(sym)
    ensures Apart(Moved(said, from, to, symbol, amount), SendBalances(held, from, to, symbol, amount), gaps')
  {
    SendIsMove(held, from, to, symbol, amount);
    hide SendBalances;
  }

  lemma ApartBurn(said: Balances, held: Balances, symbol: Symbol, dist: Distribution, gaps: Symbol -> nat,
                  gaps': Symbol -> nat)
    requires Apart(said, held, gaps) && NoZero(dist) && Covered(held, symbol, dist)
    requires forall sym :: gaps'(sym) == gaps(sym)
    ensures Apart(Debited(said, symbol, dist), held + BurnUpdates(held, symbol, dist), gaps')
  {
    BurnIsDebit(held, symbol, dist);
    AmountForStranger(dist, Anonymous);
    hide BurnUpdates, AmountFor;
  }

  lemma ApartCreate(said: Balances, held: Balances, symbol: Symbol, dist: Distribution, gaps: Symbol -> nat,
                    gaps': Symbol -> nat)
    requires Apart(said, held, gaps) && forall k :: k in held ==> k.symbol != symbol
    requires forall sym :: gaps'(sym) == gaps(sym)
    ensures Apart(Credited(said, symbol, dist), held + CreateUpdates(symbol, dist), gaps')
  {
    CreateIsCredit(held, symbol, dist);
    hide CreateUpdates, AmountFor;
    assert gaps(symbol) == 0;
  }

  // The replayed balances after an effect that touches balances.
  lemma ReplayedBalances(s: State, e: Effect, v: View)
    requires Enabled(s, e) && TouchesBalances(e)
    ensures ReplayedNext(s, e, v).balances ==
            match e
            case Sent(_, from, to, symbol, amount, _) => Moved(v.balances, from, to, symbol, amount)
            case Minted(_, symbol, dist, _) => Credited(v.balances, symbol, dist)
            case Burned(_, symbol, dist, _) => Debited(v.balances, symbol, dist)
            case TokenCreated(_, id, args) =>
              Credited(v.balances, Derive(s.db.alloc.TokenIdentity(), id), args.distribution.GetOr([]))
            case _ => v.balances
  {
    hide Moved, Credited, Debited, ApplyChange, ReplayApproval, Authorised;
  }

  lemma ApartStep(s: State, e: Effect, v: View, gaps: Symbol -> nat, gaps': Symbol -> nat)
    requires HoldingsRegistered(s) && Enabled(s, e) && Apart(v.balances, s.db.balances, gaps)
    requires forall sym :: gaps'(sym) == gaps(sym) + ForgottenBy(s, e, sym)
    ensures Apart(ReplayedNext(s, e, v).balances, Apply(s, e).db.balances, gaps')
  {
    hide Apply, Apart, ReplayedNext, SendBalances, Moved, Credited, Debited, MintUpdates, BurnUpdates, CreateUpdates,
      Forgotten, SumOf, Authorised;
    if TouchesBalances(e) {
      ReplayedBalances(s, e, v);
      match e {
        case Sent(authority, from, to, symbol, amount, memo) =>
          SentWrites(s, authority, from, to, symbol, amount, memo);
          ApartSend(v.balances, s.db.balances, from, to, symbol, amount, gaps, gaps');
        case Minted(minter, symbol, dist, memo) =>
          MintedWrites(s, minter, symbol, dist, memo);
          ApartMint(v.balances, s.db.balances, symbol, dist, gaps, gaps');
        case Burned(burner, symbol, dist, memo) =>
          BurnedWrites(s, burner, symbol, dist, memo);
          ApartBurn(v.balances, s.db.balances, symbol, dist, gaps, gaps');
        case TokenCreated(creator, id, args) =>
          TokenCreatedWrites(s, creator, id, args);
          ApartCreate(v.balances, s.db.balances, Derive(s.db.alloc.TokenIdentity(), id), args.distribution.GetOr([]),
                      gaps, gaps');
      }
    } else {
      BalancesFrame(s, e);
      ReplayKeepsBalances(s, e, v);
      SameGaps(v.balances, s.db.balances, gaps, gaps');
    }
  }

  lemma SameGaps(said: Balances, held: Balances, gaps: Symbol -> nat, gaps': Symbol -> nat)
    requires Apart(said, held, gaps) && forall sym :: gaps'(sym) == gaps(sym)
    ensures Apart(said, held, gaps')
  {
  }

  lemma ReplayKeepsBalances(s: State, e: Effect, v: View)
    requires Enabled(s, e) && !TouchesBalances(e)
    ensures ReplayedNext(s, e, v).balances == v.balances
  {
    hide Moved, Credited, Debited, ApplyChange, MigratedTxView;
  }

  /** Over any run the balances the log says exceed those held by what the mints have forgotten, for
      the anonymous address, and are the same for every other address. */
  lemma {:induction false} BalancesApart(g: State, es: seq<Effect>)
    requires Genesis(g) && IdsFresh(g) && HoldingsRegistered(g) && Legal(g, es) && Along(g, es, BlocksBounded)
    ensures HoldingsRegistered(After(g, es))
    ensures Apart(Replayed(g, After(g, es)).balances, After(g, es).db.balances,
                  symbol => ForgottenAlong(g, es, symbol))
    decreases |es|
  {
    hide Apply, Enabled, IdsFresh, Replayed, ReplayedNext, Genesis, HoldingsRegistered, ForgottenBy;
    if es == [] {
      ReplayOfGenesis(g);
    } else {
      var front, e := es[..|es| - 1], es[|es| - 1];
      var s := After(g, front);
      BalancesApart(g, front);
      IdsAlways(g, front);
      HoldingsRegisteredStep(s, e);
      ReplayedStep(g, s, e);
      ApartStep(s, e, Replayed(g, s), symbol => ForgottenAlong(g, front, symbol),
                symbol => ForgottenAlong(g, es, symbol));
    }
  }

  lemma NotApart(said: Balances, held: Balances, gaps: Symbol -> nat)
    requires Apart(said, held, gaps)
    ensures said == held <==> forall symbol :: gaps(symbol) == 0
  {
    if exists symbol :: gaps(symbol) != 0 {
      var symbol :| gaps(symbol) != 0;
      assert said[Holding(Anonymous, symbol)] != held[Holding(Anonymous, symbol)];
    }
  }

  /** Balances, account records, approvals and terms are all exactly what replaying the log gives, in
      a reachable state, if and only if no mint on the way there listed the anonymous address while
      it held some of the symbol, and no sweep took approvals of its block back. */
  lemma EventSourced(g: State, es: seq<Effect>)
    requires Genesis(g) && IdsFresh(g) && HoldingsRegistered(g) && Legal(g, es) && Along(g, es, BlocksBounded)
    ensures Sourced(g, After(g, es)) <==> Along(g, es, MintsSafely) && Along(g, es, SweepsSettled)
  {
    hide Replayed, Along, After, Legal, ForgottenAlong, Apart, Genesis, IdsFresh, HoldingsRegistered;
    var gaps := symbol => ForgottenAlong(g, es, symbol);
    RecordsAlwaysSourced(g, es);
    BalancesApart(g, es);
    SafeMintsForgetNothing(g, es);
    NotApart(Replayed(g, After(g, es)).balances, After(g, es).db.balances, gaps);
    if forall symbol :: gaps(symbol) == 0 {
      forall symbol ensures NothingForgotten(g, es, symbol) {
        assert gaps(symbol) == 0;
      }
    } else {
      var symbol :| gaps(symbol) != 0;
      assert !NothingForgotten(g, es, symbol);
    }
  }

  lemma MigrationLogs(s: State)
    ensures LoggedContent(s, MemoMigrated).None?
  {
  }

  lemma GenesisMigrates(g: State)
    requires Genesis(g)
    ensures MigratedView(ViewOf(g)) == ViewOf(g)
  {
    assert ViewOf(g).txs == map[];
  }

  // ---------------------------------------------------------------- submissions

  /** The log holds one submission for each stored transaction, right behind its token, and it
      agrees with the stored record on every field, memo fields included. */
  ghost predicate SubmissionsAgree(s: State) {
    && (forall id :: id in s.db.events && s.db.events[id].content.SubmitEvent? ==>
          && id > 0 && s.db.events[id].content.token == id - 1 && id - 1 in s.db.multisigs
          && s.db.events[id].content == SubmitEventOf(id - 1, s.db.multisigs[id - 1]))
    && (forall t :: t in s.db.multisigs ==> t + 1 in s.db.events && s.db.events[t + 1].content.SubmitEvent?)
  }

  lemma SubmitTermsKept(s: State, e: Effect, t: nat)
    requires CommittedPast(s) && IdsFresh(s) && t in s.db.multisigs
    ensures t in Apply(s, e).db.multisigs
    ensures SubmitEventOf(t, Apply(s, e).db.multisigs[t])
            == if e.MemoMigrated? then MigratedEvent(EventLog(0, 0, SubmitEventOf(t, s.db.multisigs[t]))).content
               else SubmitEventOf(t, s.db.multisigs[t])
  {
    hide Apply;
    TxFrame(s, e, t);
  }

  lemma MigratedContent(log: EventLog)
    ensures MigratedEvent(log).content == MigratedEvent(EventLog(0, 0, log.content)).content
    ensures MigratedEvent(log).content.SubmitEvent? <==> log.content.SubmitEvent?
    ensures log.content.SubmitEvent? ==> MigratedEvent(log).content.token == log.content.token
  {
  }

  lemma SubmitLogged(s: State, e: Effect)
    requires LoggedContent(s, e).Some?
    requires Enabled(s, e)
    ensures LoggedContent(s, e).value.SubmitEvent? <==> e.Submitted?
    ensures e.Submitted? ==> LoggedContent(s, e).value == SubmitEventOf(s.latestTid + 1, e.tx)
    ensures e.Submitted? ==> Apply(s, e).latestTid == s.latestTid + 2
  {
  }

  // The submission at `id` agrees with the stored transaction.
  ghost predicate AgreesAt(s: State, id: nat) {
    && id > 0 && id in s.db.events && id - 1 in s.db.multisigs
    && s.db.events[id].content.SubmitEvent? && s.db.events[id].content.token == id - 1
    && s.db.events[id].content == SubmitEventOf(id - 1, s.db.multisigs[id - 1])
  }

  lemma OldSubmissionAgrees(s: State, e: Effect, id: nat)
    requires AgreesAt(s, id) && CommittedPast(s) && IdsFresh(s)
    ensures AgreesAt(Apply(s, e), id)
  {
    hide Apply, CommittedPast, LoggedContent, Issued, MigratedEvent, SubmitEventOf;
    EventsFrame(s, e);
    if e.MemoMigrated? { ViewMigrates(s); }
    MigratedContent(s.db.events[id]);
    SubmitTermsKept(s, e, id - 1);
  }

  lemma NewSubmissionAgrees(s: State, e: Effect, id: nat)
    requires Enabled(s, e) && id in Apply(s, e).db.events && id !in s.db.events
    requires Apply(s, e).db.events[id].content.SubmitEvent?
    ensures AgreesAt(Apply(s, e), id)
  {
    hide Apply, LoggedContent, Issued, Enabled, MigratedEvent, SubmitEventOf;
    EventsFrame(s, e);
    SubmitLogged(s, e);
    NewTxFrame(s, e.tx);
    SubmitFields(s.latestTid + 1, e.tx);
  }

  lemma SubmissionsLogged(s: State, e: Effect, t: nat)
    requires SubmissionsAgree(s) && IdsFresh(s) && Enabled(s, e) && t in Apply(s, e).db.multisigs
    ensures t + 1 in Apply(s, e).db.events && Apply(s, e).db.events[t + 1].content.SubmitEvent?
  {
    if t in s.db.multisigs { assert t + 1 in s.db.events && s.db.events[t + 1].content.SubmitEvent?; }
    hide Apply, Enabled, SubmissionsAgree, IdsFresh;
    TxKeysFrame(s, e);
    if t in s.db.multisigs {
      OtherEventsStay(s, e, t + 1);
    } else {
      NewSubmissionLogged(s, e.tx);
    }
  }

  lemma NewSubmissionLogged(s: State, tx: Multisig)
    ensures var s', t := Apply(s, Submitted(tx)), s.latestTid + 1;
            t + 1 in s'.db.events && s'.db.events[t + 1].content.SubmitEvent?
  {
    SubmittedWrites(s, tx);
    hide Apply;
  }

  lemma OtherEventsStay(s: State, e: Effect, id: nat)
    requires IdsFresh(s) && id in s.db.events
    ensures id in Apply(s, e).db.events
    ensures Apply(s, e).db.events[id].content.SubmitEvent? <==> s.db.events[id].content.SubmitEvent?
  {
    hide Apply, LoggedContent, Issued, MigratedEvent;
    EventsFrame(s, e);
    if e.MemoMigrated? { ViewMigrates(s); }
    MigratedContent(s.db.events[id]);
  }

  lemma SubmissionsAgreeStep(s: State, e: Effect)
    requires SubmissionsAgree(s) && CommittedPast(s) && IdsFresh(s) && Enabled(s, e)
    ensures SubmissionsAgree(Apply(s, e))
  {
    hide Apply, CommittedPast, IdsFresh, Enabled, LoggedContent, Issued, SubmitEventOf;
    EventsFrame(s, e);
    forall id | id in Apply(s, e).db.events && Apply(s, e).db.events[id].content.SubmitEvent?
      ensures AgreesAt(Apply(s, e), id)
    {
      if id !in s.db.events {
        NewSubmissionAgrees(s, e, id);
      } else if s.db.events[id].content.SubmitEvent? {
        OldSubmissionAgrees(s, e, id);
      } else {
        OtherEventsStay(s, e, id);
      }
    }
    forall t | t in Apply(s, e).db.multisigs {
      SubmissionsLogged(s, e, t);
    }
  }

  lemma SubmitFields(token: nat, tx: Multisig)
    ensures SubmitEventOf(token, tx).SubmitEvent? && SubmitEventOf(token, tx).token == token
  {
  }

  /** Every submission in the log and the stored transaction of its token agree in every
      reachable state: through approvals, revocations, terminal steps and the migration. */
  lemma {:induction false} SubmissionsAlwaysAgree(g: State, es: seq<Effect>)
    requires Genesis(g) && IdsFresh(g) && Legal(g, es) && Along(g, es, BlocksBounded)
    ensures SubmissionsAgree(After(g, es))
    decreases |es|
  {
    GenesisPast(g);
    hide Apply, CommittedPast, IdsFresh, Enabled;
    if es != [] {
      SubmissionsAlwaysAgree(g, es[..|es| - 1]);
      CommittedPastAlways(g, es[..|es| - 1]);
      SubmissionsAgreeStep(After(g, es[..|es| - 1]), es[|es| - 1]);
    }
  }

  // ---------------------------------------------------------------- approvals

  // What an event says about the approval of `who` on `token`, given what earlier ones say.
  function Says(earlier: Option<bool>, e: Event, token: nat, who: Address): Option<bool> {
    match e
    case SubmitEvent(submitter, _, _, _, t, _, _, _, _, _) =>
      if t != token then earlier else if submitter == who then Some(true) else None
    case ApproveEvent(_, t, a) => if t == token && a == who then Some(true) else earlier
    case RevokeEvent(_, t, a) => if t == token && a == who then Some(false) else earlier
    case _ => earlier
  }

  /** What the latest submit, approve or revoke of `who` on `token` among events 1 to n says. */
  function LatestSays(events: map<nat, EventLog>, token: nat, who: Address, n: nat): Option<bool> {
    if n == 0 then None
    else
      var earlier := LatestSays(events, token, who, n - 1);
      if n in events then Says(earlier, events[n].content, token, who) else earlier
  }

  function ApprovalIn(v: View, token: nat, who: Address): Option<bool>
    requires token in v.txs
  {
    if who in v.txs[token].approvers then Some(v.txs[token].approvers[who]) else None
  }

  lemma ApprovalStep(v: View, e: Event, token: nat, who: Address)
    requires token in ReplayEvent(v, e).txs
    ensures token in v.txs ==>
              ApprovalIn(ReplayEvent(v, e), token, who) == Says(ApprovalIn(v, token, who), e, token, who)
    ensures token !in v.txs ==> e.SubmitEvent? && e.token == token
                                && ApprovalIn(ReplayEvent(v, e), token, who) == Says(None, e, token, who)
  {
    hide Credited, Debited, Moved, ApplyChange;
  }

  lemma {:induction false} ReplayedApprovals(v: View, events: map<nat, EventLog>, token: nat, who: Address, n: nat)
    requires token !in v.txs
    ensures token in ReplayLog(v, events, n).txs ==>
              LatestSays(events, token, who, n) == ApprovalIn(ReplayLog(v, events, n), token, who)
    decreases n
  {
    if n > 0 {
      ReplayedApprovals(v, events, token, who, n - 1);
      if n in events && token in ReplayLog(v, events, n).txs {
        ApprovalStep(ReplayLog(v, events, n - 1), events[n].content, token, who);
        hide ReplayEvent;
      }
    }
  }

  // Whether the record says `who` approved, revoked, or nothing.
  function Recorded(tx: Multisig, who: Address): Option<bool> {
    if who in tx.info.approvers then Some(tx.info.approvers[who]) else None
  }

  /** What the record of a transaction says of everyone's approval is their latest submit, approve or
      revoke on it, direct or nested, exactly when no sweep took approvals of it back; and none did
      while it is open. */
  lemma ApprovalsAreLatest(g: State, es: seq<Effect>, t: nat)
    requires Genesis(g) && IdsFresh(g) && Legal(g, es) && Along(g, es, BlocksBounded)
    requires t in After(g, es).db.multisigs
    ensures var s := After(g, es);
            && ((forall who :: Recorded(s.db.multisigs[t], who) == LatestSays(s.db.events, t, who, s.latestTid))
                <==> Along(g, es, Keeps(t)))
            && (PendingTx(s.db, t) ==> Along(g, es, Keeps(t)))
  {
    hide After, Legal, Along, IdsFresh, CommittedPast, LatestSays;
    var s := After(g, es);
    var v := Replayed(g, s);
    AlwaysFollows(g, es);
    ApproversFollow(g, es, t);
    assert t !in ViewOf(g).txs;
    assert v == ReplayLog(ViewOf(g), s.db.events, s.latestTid);
    hide Replayed, ReplayLog, ViewOf;
    forall who ensures LatestSays(s.db.events, t, who, s.latestTid) == ApprovalIn(v, t, who) {
      ReplayedApprovals(ViewOf(g), s.db.events, t, who, s.latestTid);
    }
    SameEverywhere(v, s, t);
    hide ApprovalIn, Recorded, SameApprovers;
    if PendingTx(s.db, t) { OpenFollows(v, s, t); }
  }

  lemma SameEverywhere(v: View, s: State, t: nat)
    requires t in v.txs && t in s.db.multisigs
    ensures SameApprovers(v, s, t) <==> forall who :: Recorded(s.db.multisigs[t], who) == ApprovalIn(v, t, who)
  {
    var a, b := v.txs[t].approvers, s.db.multisigs[t].info.approvers;
    if a != b {
      if who :| who in a && (who !in b || a[who] != b[who]) {
        assert Recorded(s.db.multisigs[t], who) != ApprovalIn(v, t, who);
      } else {
        var who :| who in b && who !in a;
        assert Recorded(s.db.multisigs[t], who) != ApprovalIn(v, t, who);
      }
    }
  }

  lemma OpenFollows(v: View, s: State, t: nat)
    requires Follows(v, s) && CommittedPast(s) && PendingTx(s.db, t)
    ensures SameApprovers(v, s, t)
  {
    assert FollowsAt(v.txs[t], s, t);
    if t in s.committed.txs && s.committed.txs[t].disabled { OpenRecord(s, t); }
  }

  /** Every execution starts with at least as many distinct addresses whose latest word is an
      approval as the transaction's threshold demands. */
  lemma ExecutionHasQuorum(g: State, es: seq<Effect>, t: nat)
    requires Genesis(g) && IdsFresh(g) && Legal(g, es) && Along(g, es, BlocksBounded)
    requires es != [] && es[|es| - 1] == Started(t)
    ensures var s := After(g, es[..|es| - 1]);
            && PendingTx(s.db, t)
            && exists quorum: set<Address> ::
                 && |quorum| >= s.db.multisigs[t].info.threshold
                 && forall who :: who in quorum ==> LatestSays(s.db.events, t, who, s.latestTid) == Some(true)
  {
    var front := es[..|es| - 1];
    var s := After(g, front);
    var quorum := s.db.multisigs[t].Approvals();
    ApprovalsAreLatest(g, front, t);
    assert forall who :: who in quorum ==> Recorded(s.db.multisigs[t], who) == Some(true);
    assert |quorum| >= s.db.multisigs[t].info.threshold;
  }
}
