/** Event sourcing: balances, account records, approvals and submissions are what replaying
    the event log over the genesis state gives. */
module Replay {
  import opened LedgerTypes
  import opened Allocation
  import opened AccountRules
  import opened LedgerMachine
  import opened Footprints
  import opened Legality
  import opened EventIds
  import opened Registry
  import opened TxHistory

  // What the log tells about a transaction.
  datatype TxView = TxView(
    account: Address, submitter: Address, transaction: Payload, threshold: nat, timeout: nat, automatic: bool,
    memo_: Option<string>, data_: Option<Bytes>, memo: Option<Memo>, approvers: map<Address, bool>)

  datatype View = View(balances: Balances, accounts: map<Address, Account>, txs: map<nat, TxView>)

  function TxViewOf(tx: Multisig): TxView {
    TxView(tx.account, tx.info.submitter, tx.info.transaction, tx.info.threshold, tx.info.timeout, tx.info.automatic,
           tx.info.memo_, tx.info.data_, tx.info.memo, tx.info.approvers)
  }

  /** The part of the stored state the log accounts for. */
  function ViewOf(s: State): View {
    View(s.db.balances, s.db.accounts, map t | t in s.db.multisigs :: TxViewOf(s.db.multisigs[t]))
  }

  // ---------------------------------------------------------------- the meaning of an event

  function Held(balances: Balances, k: Holding): nat {
    if k in balances then balances[k] else 0
  }

  function AmountFor(dist: Distribution, who: Address): nat {
    if dist == [] then 0
    else if dist[|dist| - 1].0 == who then dist[|dist| - 1].1
    else AmountFor(dist[..|dist| - 1], who)
  }

  function Holdings(symbol: Symbol, dist: Distribution): set<Holding> {
    set i | 0 <= i < |dist| :: Holding(dist[i].0, symbol)
  }

  // Every listed address holds its amount more.
  function Credited(balances: Balances, symbol: Symbol, dist: Distribution): Balances {
    map k | k in balances.Keys + Holdings(symbol, dist) ::
      Held(balances, k) + (if k.symbol == symbol then AmountFor(dist, k.owner) else 0)
  }

  function Debited(balances: Balances, symbol: Symbol, dist: Distribution): Balances {
    map k | k in balances ::
      if k.symbol != symbol || AmountFor(dist, k.owner) > balances[k] then balances[k]
      else balances[k] - AmountFor(dist, k.owner)
  }

  // One address holds the amount less, another one more.
  function Moved(balances: Balances, from: Address, to: Address, symbol: Symbol, amount: nat): Balances {
    map k | k in balances.Keys + {Holding(to, symbol)} ::
      if k == Holding(to, symbol) then Held(balances, k) + amount
      else if k == Holding(from, symbol) && Held(balances, k) >= amount then Held(balances, k) - amount
      else Held(balances, k)
  }

  function ReplayApproval(v: View, token: nat, who: Address, approved: bool): View {
    if token !in v.txs then v
    else v.(txs := v.txs[token := v.txs[token].(approvers := v.txs[token].approvers[who := approved])])
  }

  function ReplayEvent(v: View, e: Event): View {
    match e
    case SendEvent(from, to, symbol, amount, _) => v.(balances := Moved(v.balances, from, to, symbol, amount))
    case MintEvent(symbol, dist, _) => v.(balances := Credited(v.balances, symbol, dist))
    case BurnEvent(symbol, dist, _) => v.(balances := Debited(v.balances, symbol, dist))
    case TokenCreateEvent(symbol, args) =>
      v.(balances := Credited(v.balances, symbol, args.distribution.GetOr([])))
    case TokenUpdateEvent(_) => v
    case AccountCreateEvent(id, description, roles, features) =>
      v.(accounts := v.accounts[id := Account(description, roles, features, Unset)])
    case AccountChangeEvent(id, change) =>
      if id in v.accounts then v.(accounts := v.accounts[id := ApplyChange(v.accounts[id], change)]) else v
    case SubmitEvent(submitter, account, memo_, transaction, token, threshold, timeout, automatic, data_, newMemo) =>
      v.(txs := v.txs[token := TxView(account, submitter, transaction, threshold, timeout, automatic,
                                      memo_, data_, newMemo, map[submitter := true])])
    case ApproveEvent(_, token, who) => ReplayApproval(v, token, who, true)
    case RevokeEvent(_, token, who) => ReplayApproval(v, token, who, false)
    case ExecuteEvent(_, _, _, _) => v
    case WithdrawEvent(_, _, _) => v
  }

  /** Replays the events with identifiers 1 to n, in order. */
  function ReplayLog(v: View, events: map<nat, EventLog>, n: nat): View {
    if n == 0 then v
    else
      var before := ReplayLog(v, events, n - 1);
      if n in events then ReplayEvent(before, events[n].content) else before
  }

  // ---------------------------------------------------------------- distributions

  lemma {:induction false} AmountForEntry(dist: Distribution, i: nat)
    requires i < |dist|
    ensures AmountFor(dist, dist[i].0) == dist[i].1
    decreases |dist|
  {
    if i < |dist| - 1 { AmountForEntry(dist[..|dist| - 1], i); }
  }

  lemma {:induction false} AmountForStranger(dist: Distribution, who: Address)
    requires forall i :: 0 <= i < |dist| ==> dist[i].0 != who
    ensures AmountFor(dist, who) == 0
    decreases |dist|
  {
    if dist != [] { AmountForStranger(dist[..|dist| - 1], who); }
  }

  lemma {:induction false} MintUpdatesAre(balances: Balances, symbol: Symbol, dist: Distribution)
    ensures MintUpdates(balances, symbol, dist).Keys == Holdings(symbol, dist)
    ensures forall i :: 0 <= i < |dist| ==>
              MintUpdates(balances, symbol, dist)[Holding(dist[i].0, symbol)]
              == BalanceOf(balances, dist[i].0, symbol) + dist[i].1
    decreases |dist|
  {
    hide BalanceOf;
    if dist != [] {
      var front := dist[..|dist| - 1];
      MintUpdatesAre(balances, symbol, front);
      HoldingsGrow(symbol, dist);
      forall i | 0 <= i < |dist|
        ensures Holding(dist[i].0, symbol) in MintUpdates(balances, symbol, dist)
        ensures MintUpdates(balances, symbol, dist)[Holding(dist[i].0, symbol)]
                == BalanceOf(balances, dist[i].0, symbol) + dist[i].1
      {
        if i < |front| { assert front[i] == dist[i] && Holding(front[i].0, symbol) in Holdings(symbol, front); }
      }
    }
  }

  lemma {:induction false} BurnUpdatesAre(balances: Balances, symbol: Symbol, dist: Distribution)
    ensures BurnUpdates(balances, symbol, dist).Keys == Holdings(symbol, dist)
    ensures forall i :: 0 <= i < |dist| && BalanceOf(balances, dist[i].0, symbol) >= dist[i].1 ==>
              BurnUpdates(balances, symbol, dist)[Holding(dist[i].0, symbol)]
              == BalanceOf(balances, dist[i].0, symbol) - dist[i].1
    decreases |dist|
  {
    hide BalanceOf;
    if dist != [] {
      var front := dist[..|dist| - 1];
      BurnUpdatesAre(balances, symbol, front);
      HoldingsGrow(symbol, dist);
      forall i | 0 <= i < |dist| && BalanceOf(balances, dist[i].0, symbol) >= dist[i].1
        ensures Holding(dist[i].0, symbol) in BurnUpdates(balances, symbol, dist)
        ensures BurnUpdates(balances, symbol, dist)[Holding(dist[i].0, symbol)]
                == BalanceOf(balances, dist[i].0, symbol) - dist[i].1
      {
        if i < |front| { assert front[i] == dist[i] && Holding(front[i].0, symbol) in Holdings(symbol, front); }
      }
    }
  }

  lemma {:induction false} CreateUpdatesAre(symbol: Symbol, dist: Distribution)
    ensures CreateUpdates(symbol, dist).Keys == Holdings(symbol, dist)
    ensures forall i :: 0 <= i < |dist| ==> CreateUpdates(symbol, dist)[Holding(dist[i].0, symbol)] == dist[i].1
    decreases |dist|
  {
    if dist != [] {
      var front := dist[..|dist| - 1];
      CreateUpdatesAre(symbol, front);
      HoldingsGrow(symbol, dist);
      forall i | 0 <= i < |dist|
        ensures Holding(dist[i].0, symbol) in CreateUpdates(symbol, dist)
        ensures CreateUpdates(symbol, dist)[Holding(dist[i].0, symbol)] == dist[i].1
      {
        if i < |front| { assert front[i] == dist[i] && Holding(front[i].0, symbol) in Holdings(symbol, front); }
      }
    }
  }

  lemma HoldingsGrow(symbol: Symbol, dist: Distribution)
    requires dist != []
    ensures Holdings(symbol, dist) == Holdings(symbol, dist[..|dist| - 1]) + {Holding(dist[|dist| - 1].0, symbol)}
  {
    var front := dist[..|dist| - 1];
    forall k | k in Holdings(symbol, dist)
      ensures k in Holdings(symbol, front) + {Holding(dist[|dist| - 1].0, symbol)}
    {
      var i :| 0 <= i < |dist| && k == Holding(dist[i].0, symbol);
      if i < |dist| - 1 { assert front[i] == dist[i]; }
    }
    forall k | k in Holdings(symbol, front)
      ensures k in Holdings(symbol, dist)
    {
      var i :| 0 <= i < |front| && k == Holding(front[i].0, symbol);
      assert dist[i] == front[i];
    }
  }

  // No holding of the anonymous address is overwritten: it is not listed, or holds nothing.
  predicate MintSafe(balances: Balances, symbol: Symbol, dist: Distribution) {
    forall i :: 0 <= i < |dist| && dist[i].0 == Anonymous ==> Held(balances, Holding(Anonymous, symbol)) == 0
  }

  /** The entries a mint writes credit the listed addresses exactly when none of them is the
      anonymous address with a positive holding, which the mint forgets. */
  lemma MintIsCredit(balances: Balances, symbol: Symbol, dist: Distribution)
    ensures balances + MintUpdates(balances, symbol, dist) == Credited(balances, symbol, dist)
            <==> MintSafe(balances, symbol, dist)
  {
    MintUpdatesAre(balances, symbol, dist);
    hide MintUpdates, AmountFor;
    var minted, credited := balances + MintUpdates(balances, symbol, dist), Credited(balances, symbol, dist);
    forall i | 0 <= i < |dist|
      ensures Holding(dist[i].0, symbol) in Holdings(symbol, dist)
      ensures credited[Holding(dist[i].0, symbol)] == Held(balances, Holding(dist[i].0, symbol)) + dist[i].1
    {
      AmountForEntry(dist, i);
    }
    if MintSafe(balances, symbol, dist) {
      forall k | k in minted
        ensures minted[k] == credited[k]
      {
        if k in Holdings(symbol, dist) {
          var i :| 0 <= i < |dist| && k == Holding(dist[i].0, symbol);
        } else {
          NotHolding(k, symbol, dist);
        }
      }
      assert minted.Keys == credited.Keys;
    } else {
      var i :| 0 <= i < |dist| && dist[i].0 == Anonymous && Held(balances, Holding(Anonymous, symbol)) != 0;
      assert minted[Holding(dist[i].0, symbol)] == dist[i].1;
      assert minted[Holding(dist[i].0, symbol)] != credited[Holding(dist[i].0, symbol)];
    }
  }

  lemma NotHolding(k: Holding, symbol: Symbol, dist: Distribution)
    requires k !in Holdings(symbol, dist)
    ensures k.symbol == symbol ==> AmountFor(dist, k.owner) == 0
  {
    if k.symbol == symbol {
      forall i | 0 <= i < |dist| ensures dist[i].0 != k.owner {
        assert Holding(dist[i].0, symbol) in Holdings(symbol, dist);
      }
      AmountForStranger(dist, k.owner);
    }
  }

  lemma BurnIsDebit(balances: Balances, symbol: Symbol, dist: Distribution)
    requires NoZero(dist)
    requires Covered(balances, symbol, dist)
    ensures balances + BurnUpdates(balances, symbol, dist) == Debited(balances, symbol, dist)
  {
    BurnUpdatesAre(balances, symbol, dist);
    var burned, debited := balances + BurnUpdates(balances, symbol, dist), Debited(balances, symbol, dist);
    assert forall i :: 0 <= i < |dist| ==> Holding(dist[i].0, symbol) in balances;
    forall k | k in burned
      ensures k in balances && burned[k] == debited[k]
    {
      if k in Holdings(symbol, dist) {
        var i :| 0 <= i < |dist| && k == Holding(dist[i].0, symbol);
        AmountForEntry(dist, i);
      } else {
        NotHolding(k, symbol, dist);
      }
    }
    assert burned.Keys == debited.Keys;
  }

  lemma CreateIsCredit(balances: Balances, symbol: Symbol, dist: Distribution)
    requires forall k :: k in balances ==> k.symbol != symbol
    ensures balances + CreateUpdates(symbol, dist) == Credited(balances, symbol, dist)
  {
    CreateUpdatesAre(symbol, dist);
    var created, credited := balances + CreateUpdates(symbol, dist), Credited(balances, symbol, dist);
    forall k | k in created
      ensures created[k] == credited[k]
    {
      if k in Holdings(symbol, dist) {
        var i :| 0 <= i < |dist| && k == Holding(dist[i].0, symbol);
        AmountForEntry(dist, i);
      } else {
        NotHolding(k, symbol, dist);
      }
    }
    assert created.Keys == credited.Keys;
  }

  // ---------------------------------------------------------------- one effect

  // Symbols registered since the last commit lie below the counter new symbols come from.
  ghost predicate SymbolsPast(s: State) {
    && s.committed.symbols <= s.db.tokens.Keys
    && forall x :: x in s.db.tokens && x !in s.committed.symbols ==>
         var identity := s.db.alloc.TokenIdentity();
         Derivable(identity) && x.Subresource? && x.hash == identity.hash && x.id < s.db.alloc.Counter(identity)
  }

  /** Nobody holds tokens of a symbol that is not registered. */
  ghost predicate HoldingsRegistered(s: State) {
    && SymbolsPast(s)
    && forall k :: k in s.db.balances ==> k.symbol in s.db.tokens
  }

  /** Although symbols are skipped as a scan finds them, a new one was never registered before. */
  lemma SymbolIsNew(s: State, creator: Address, id: nat, args: TokenCreateArgs)
    requires SymbolsPast(s) && Enabled(s, TokenCreated(creator, id, args))
    ensures Derive(s.db.alloc.TokenIdentity(), id) !in s.db.tokens
  {
  }

  lemma SymbolsPastStep(s: State, e: Effect)
    requires SymbolsPast(s) && Enabled(s, e)
    ensures SymbolsPast(Apply(s, e))
  {
    hide Apply, Enabled, SymbolsPast;
    match e {
      case AccountCreated(id, account) => PastAccount(s, id, account);
      case TokenCreated(creator, id, args) => PastToken(s, creator, id, args);
      case _ => PastOther(s, e);
    }
  }

  lemma PastAccount(s: State, id: nat, account: Account)
    requires SymbolsPast(s) && Enabled(s, AccountCreated(id, account))
    ensures SymbolsPast(Apply(s, AccountCreated(id, account)))
  {
    hide Apply;
    AccountCreatedWrites(s, id, account);
  }

  lemma PastToken(s: State, creator: Address, id: nat, args: TokenCreateArgs)
    requires SymbolsPast(s) && Enabled(s, TokenCreated(creator, id, args))
    ensures SymbolsPast(Apply(s, TokenCreated(creator, id, args)))
  {
    hide Apply, ActsFor, SumOf, CreateUpdates, NewOwner;
    TokenCreatedWrites(s, creator, id, args);
  }

  lemma PastOther(s: State, e: Effect)
    requires SymbolsPast(s) && Enabled(s, e) && !e.AccountCreated? && !e.TokenCreated?
    ensures SymbolsPast(Apply(s, e))
  {
    SameSymbols(s, e);
    hide Apply, Enabled;
    CommittedFrame(s, e);
    AllocFrame(s, e);
  }

  lemma SameSymbols(s: State, e: Effect)
    requires Enabled(s, e) && !e.TokenCreated?
    ensures Apply(s, e).db.tokens.Keys == s.db.tokens.Keys
  {
    hide Apply;
    SymbolFrame(s, e);
  }

  predicate MintsSafely(s: State, e: Effect) {
    e.Minted? ==> MintSafe(s.db.balances, e.symbol, e.dist)
  }

  lemma HoldingsRegisteredStep(s: State, e: Effect)
    requires HoldingsRegistered(s) && Enabled(s, e)
    ensures HoldingsRegistered(Apply(s, e))
  {
    SymbolsPastStep(s, e);
    hide SymbolsPast, Apply, MintUpdates, BurnUpdates, CreateUpdates, SumOf;
    match e {
      case Sent(authority, from, to, symbol, amount, memo) =>
        SentWrites(s, authority, from, to, symbol, amount, memo);
        assert Holding(from, symbol) in s.db.balances;
      case Minted(minter, symbol, dist, memo) =>
        MintedWrites(s, minter, symbol, dist, memo);
        MintUpdatesAre(s.db.balances, symbol, dist);
      case Burned(burner, symbol, dist, memo) =>
        BurnedWrites(s, burner, symbol, dist, memo);
        BurnUpdatesAre(s.db.balances, symbol, dist);
      case TokenCreated(creator, id, args) =>
        TokenCreatedWrites(s, creator, id, args);
        CreateUpdatesAre(Derive(s.db.alloc.TokenIdentity(), id), args.distribution.GetOr([]));
      case _ =>
        BalancesFrame(s, e);
        TokensKept(s, e);
    }
  }

  lemma TokensKept(s: State, e: Effect)
    ensures s.db.tokens.Keys <= Apply(s, e).db.tokens.Keys
  {
  }

  lemma SendIsMove(balances: Balances, from: Address, to: Address, symbol: Symbol, amount: nat)
    requires from != to && from != Anonymous && to != Anonymous && 0 < amount <= BalanceOf(balances, from, symbol)
    ensures SendBalances(balances, from, to, symbol, amount) == Moved(balances, from, to, symbol, amount)
  {
    var sent, moved := SendBalances(balances, from, to, symbol, amount), Moved(balances, from, to, symbol, amount);
    assert Holding(from, symbol) in balances;
    assert sent.Keys == moved.Keys;
    assert forall k :: k in sent ==> sent[k] == moved[k];
  }

  lemma ViewBalances(s: State, e: Effect)
    requires Enabled(s, e) && HoldingsRegistered(s) && MintsSafely(s, e) && TouchesBalances(e)
    ensures LoggedContent(s, e).Some?
    ensures Apply(s, e).db.balances == ReplayEvent(ViewOf(s), LoggedContent(s, e).value).balances
  {
    hide Apply, SendBalances, Moved, Credited, Debited, MintUpdates, BurnUpdates, CreateUpdates;
    match e
    case Sent(authority, from, to, symbol, amount, memo) =>
      SentWrites(s, authority, from, to, symbol, amount, memo);
      SendIsMove(s.db.balances, from, to, symbol, amount);
    case Minted(minter, symbol, dist, memo) =>
      MintedWrites(s, minter, symbol, dist, memo);
      MintIsCredit(s.db.balances, symbol, dist);
    case Burned(burner, symbol, dist, memo) =>
      BurnedWrites(s, burner, symbol, dist, memo);
      BurnIsDebit(s.db.balances, symbol, dist);
    case TokenCreated(creator, id, args) =>
      TokenCreatedWrites(s, creator, id, args);
      SymbolIsNew(s, creator, id, args);
      CreateIsCredit(s.db.balances, Derive(s.db.alloc.TokenIdentity(), id), args.distribution.GetOr([]));
  }

  lemma ViewAccounts(s: State, e: Effect)
    requires Enabled(s, e) && (e.AccountCreated? || e.AccountChanged?)
    ensures LoggedContent(s, e).Some?
    ensures Apply(s, e).db.accounts == ReplayEvent(ViewOf(s), LoggedContent(s, e).value).accounts
  {
  }

  lemma ViewSubmitted(s: State, tx: Multisig)
    requires Enabled(s, Submitted(tx))
    ensures ViewOf(Apply(s, Submitted(tx))).txs
            == ReplayEvent(ViewOf(s), SubmitEventOf(s.latestTid + 1, tx)).txs
  {
    hide Apply;
    NewTxFrame(s, tx);
  }

  lemma ViewApproval(s: State, e: Effect)
    requires (e.Approved? || e.Revoked?) && e.token in s.db.multisigs
    ensures ViewOf(Apply(s, e)).txs == ReplayApproval(ViewOf(s), e.token, e.who, e.Approved?).txs
  {
    hide Apply;
    ChangedTxFrame(s, e);
  }

  lemma ViewTxs(s: State, e: Effect)
    requires Enabled(s, e) && (e.Submitted? || e.Approved? || e.Revoked?)
    ensures LoggedContent(s, e).Some?
    ensures ViewOf(Apply(s, e)).txs == ReplayEvent(ViewOf(s), LoggedContent(s, e).value).txs
  {
    hide Apply, ViewOf, ReplayApproval;
    if e.Submitted? { ViewSubmitted(s, e.tx); } else { ViewApproval(s, e); }
  }

  lemma ViewQuiet(s: State, e: Effect)
    requires e.Ended? || !TouchesTxs(e)
    ensures ViewOf(Apply(s, e)).txs == ViewOf(s).txs
  {
    hide Apply;
    TxKeysFrame(s, e);
    forall t | t in s.db.multisigs
      ensures TxViewOf(Apply(s, e).db.multisigs[t]) == TxViewOf(s.db.multisigs[t])
    {
      TxFrame(s, e, t);
    }
  }

  lemma LogsAboutOneThing(s: State, e: Effect)
    requires Enabled(s, e) && LoggedContent(s, e).Some?
    ensures var v, v' := ViewOf(s), ReplayEvent(ViewOf(s), LoggedContent(s, e).value);
            && (!TouchesBalances(e) ==> v'.balances == v.balances)
            && (!e.AccountCreated? && !e.AccountChanged? ==> v'.accounts == v.accounts)
            && (!e.Submitted? && !e.Approved? && !e.Revoked? ==> v'.txs == v.txs)
  {
    hide ViewOf, Moved, Credited, Debited, ApplyChange, Authorised, SubmissionAllowed, ActsFor, FreshId;
  }

  // The sweep closes the record of `t` with other approvers than it has now: approvals of the
  // block that ends are taken back.
  predicate TakesBack(s: State, e: Effect, t: nat) {
    && e.ExpirySwept? && t in s.db.multisigs && Expires(s, t)
    && s.committed.txs[t].info.approvers != s.db.multisigs[t].info.approvers
  }

  predicate SweepsSettled(s: State, e: Effect) {
    forall t :: t in s.db.multisigs ==> !TakesBack(s, e, t)
  }

  lemma SweptView(s: State, t: nat)
    requires CommittedPast(s) && t in s.db.multisigs
    ensures TxViewOf(Swept(s, t)) == TxViewOf(s.db.multisigs[t]) <==> !TakesBack(s, ExpirySwept, t)
  {
    if t in s.committed.txs { assert LaterRecord(s.committed.txs[t], s.db.multisigs[t]); }
  }

  lemma ViewSweep(s: State)
    requires CommittedPast(s)
    ensures ViewOf(Apply(s, ExpirySwept)).txs == ViewOf(s).txs <==> SweepsSettled(s, ExpirySwept)
  {
    hide Apply, CommittedPast, TxViewOf, Swept, TakesBack;
    SweepWrites(s);
    var txs, txs' := ViewOf(s).txs, ViewOf(Apply(s, ExpirySwept)).txs;
    forall t | t in s.db.multisigs
      ensures t in txs' && txs'[t] == TxViewOf(Swept(s, t))
      ensures txs'[t] == txs[t] <==> !TakesBack(s, ExpirySwept, t)
    {
      SweptView(s, t);
    }
    if SweepsSettled(s, ExpirySwept) {
      assert forall t :: t in txs ==> txs'[t] == txs[t];
      assert txs'.Keys == txs.Keys;
    } else {
      var t :| t in s.db.multisigs && TakesBack(s, ExpirySwept, t);
      assert txs'[t] != txs[t];
    }
  }

  /** Every effect but the memo migration changes the view exactly as the event it logs says, and
      not at all when it logs none, except for two that do not: a mint over an anonymous holding,
      and a sweep that takes approvals of its block back. */
  lemma ViewStep(s: State, e: Effect)
    requires Enabled(s, e) && HoldingsRegistered(s) && CommittedPast(s) && !e.MemoMigrated?
    ensures var v := ViewOf(s);
            ViewOf(Apply(s, e)) ==
              (if LoggedContent(s, e).Some? then ReplayEvent(v, LoggedContent(s, e).value) else v)
            <==> MintsSafely(s, e) && SweepsSettled(s, e)
  {
    if e.ExpirySwept? {
      SilentAboutView(s, e);
      ViewSweep(s);
      BalancesFrame(s, e);
      AccountsFrame(s, e);
    } else if MintsSafely(s, e) {
      ViewFollows(s, e);
    } else {
      ViewFallsBehind(s, e);
    }
    hide *;
  }

  lemma ViewFallsBehind(s: State, e: Effect)
    requires Enabled(s, e) && !MintsSafely(s, e)
    ensures LoggedContent(s, e).Some? && ViewOf(Apply(s, e)) != ReplayEvent(ViewOf(s), LoggedContent(s, e).value)
  {
    hide Apply, Credited, MintUpdates;
    MintedWrites(s, e.minter, e.symbol, e.dist, e.memo);
    MintIsCredit(s.db.balances, e.symbol, e.dist);
  }

  lemma ViewFollows(s: State, e: Effect)
    requires Enabled(s, e) && HoldingsRegistered(s) && MintsSafely(s, e) && !e.MemoMigrated? && !e.ExpirySwept?
    ensures var v := ViewOf(s);
            ViewOf(Apply(s, e)) ==
            if LoggedContent(s, e).Some? then ReplayEvent(v, LoggedContent(s, e).value) else v
  {
    BalancesFrame(s, e);
    AccountsFrame(s, e);
    if TouchesBalances(e) { ViewBalances(s, e); }
    if e.AccountCreated? || e.AccountChanged? { ViewAccounts(s, e); }
    if e.Submitted? || e.Approved? || e.Revoked? { ViewTxs(s, e); } else { ViewQuiet(s, e); }
    if LoggedContent(s, e).Some? { LogsAboutOneThing(s, e); } else { SilentAboutView(s, e); }
    hide *;
  }

  lemma SilentAboutView(s: State, e: Effect)
    requires Enabled(s, e) && LoggedContent(s, e).None?
    ensures !TouchesBalances(e) && !e.AccountCreated? && !e.AccountChanged?
    ensures !e.Submitted? && !e.Approved? && !e.Revoked?
  {
  }
}
