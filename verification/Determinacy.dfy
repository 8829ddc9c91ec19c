/** The outcomes leave no choice: of one call from one state there is only one state after. */
module Determinacy {
  import opened LedgerTypes
  import opened AccountRules
  import opened Allocation
  import opened LedgerMachine
  import opened Operations
  import opened Legality
  import opened Outcomes

  // Two outcomes, as far as what is refused may be refused for either of two true reasons: both are
  // accepted or both refused, and they leave the same state.
  ghost predicate Same(r: Result<Value>, a: State, r': Result<Value>, b: State) {
    (r.Ok? <==> r'.Ok?) && (r.Ok? ==> r == r') && a == b
  }

  lemma SameEntries<K, V>(a: map<K, V>, b: map<K, V>)
    requires a.Keys == b.Keys && forall k :: k in a ==> a[k] == b[k]
    ensures a == b
  {
  }

  // ---------------------------------------------------------------- tokens

  lemma ShiftedOnce(before: Balances, a: Balances, b: Balances, from: Address, to: Address, symbol: Symbol, amount: nat)
    requires Movable(before, from, to, symbol, amount)
    requires Shifted(before, a, from, to, symbol, amount) && Shifted(before, b, from, to, symbol, amount)
    ensures a == b
  {
    assert Holding(from, symbol) in before;
    SameEntries(a, b);
  }

  lemma MoveOnce(s: State, from: Address, to: Address, symbol: Symbol, amount: nat, memo: Option<Memo>,
                 r: Result<Value>, a: State, r': Result<Value>, b: State)
    requires MoveOutcome(s, from, to, symbol, amount, memo, r, a)
    requires MoveOutcome(s, from, to, symbol, amount, memo, r', b)
    ensures r == r' && a == b
  {
    hide Shifted, Recounted, LogsOne, BalanceOf, Miscounted;
    if r.Ok? && r'.Ok? { MovedOnce(s, from, to, symbol, amount, memo, a, b); }
  }

  lemma MovedOnce(s: State, from: Address, to: Address, symbol: Symbol, amount: nat, memo: Option<Memo>, a: State,
                  b: State)
    requires MoveOutcome(s, from, to, symbol, amount, memo, Ok(Nothing), a)
    requires MoveOutcome(s, from, to, symbol, amount, memo, Ok(Nothing), b)
    ensures a == b
  {
    hide Shifted, BalanceOf, Miscounted;
    ShiftedOnce(s.db.balances, a.db.balances, b.db.balances, from, to, symbol, amount);
    RecountedOnce(s.db.counts, a.db.counts, b.db.counts, s.db.balances, from, to, symbol, amount);
    hide Recounted, Movable;
  }

  lemma RecountedOnce(before: Option<AccountCounts>, a: Option<AccountCounts>, b: Option<AccountCounts>,
                      balances: Balances, from: Address, to: Address, symbol: Symbol, amount: nat)
    requires Recounted(before, a, balances, from, to, symbol, amount)
    requires Recounted(before, b, balances, from, to, symbol, amount)
    ensures a == b
  {
  }

  lemma KeptOnce(before: Balances, a: Balances, b: Balances, symbol: Symbol, dist: Distribution)
    requires OthersKept(before, a, symbol, dist) && OthersKept(before, b, symbol, dist)
    requires forall i :: 0 <= i < |dist| ==>
               && Holding(dist[i].0, symbol) in a && Holding(dist[i].0, symbol) in b
               && a[Holding(dist[i].0, symbol)] == b[Holding(dist[i].0, symbol)]
    ensures a == b
  {
    forall k: Holding | k.symbol == symbol && IsListed(dist, k.owner)
      ensures k in a && k in b && a[k] == b[k]
    {
      var i :| 0 <= i < |dist| && dist[i].0 == k.owner;
      assert k == Holding(dist[i].0, symbol);
    }
    hide IsListed;
    SameEntries(a, b);
  }

  lemma MintOnce(s: State, sender: Address, symbol: Symbol, dist: Distribution, memo: Option<Memo>,
                 r: Result<Value>, a: State, r': Result<Value>, b: State)
    requires MintOutcome(s, sender, symbol, dist, memo, r, a) && MintOutcome(s, sender, symbol, dist, memo, r', b)
    ensures Same(r, a, r', b)
  {
    hide OthersKept, SumOf, InStoreOrder, BalanceOf, AllPositive;
    if r.Ok? && r'.Ok? { KeptOnce(s.db.balances, a.db.balances, b.db.balances, symbol, dist); }
  }

  lemma BurnOnce(s: State, sender: Address, symbol: Symbol, dist: Distribution, memo: Option<Memo>,
                 flag: Option<bool>, r: Result<Value>, a: State, r': Result<Value>, b: State)
    requires BurnOutcome(s, sender, symbol, dist, memo, flag, r, a)
    requires BurnOutcome(s, sender, symbol, dist, memo, flag, r', b)
    ensures Same(r, a, r', b)
  {
    hide OthersKept, SumOf, InStoreOrder, BalanceOf, AllPositive;
    if r.Ok? && r'.Ok? { KeptOnce(s.db.balances, a.db.balances, b.db.balances, symbol, dist); }
  }

  lemma FreeOnce(al: Allocator, identity: Address, symbols: set<Symbol>, id: nat, id': nat)
    requires FirstFree(al, identity, symbols, id) && FirstFree(al, identity, symbols, id')
    ensures id == id'
  {
  }

  lemma FreeOrNot(al: Allocator, identity: Address, symbols: set<Symbol>, id: nat)
    requires FirstFree(al, identity, symbols, id)
    ensures !NoneFree(al, identity, symbols) && !NotDerivable(al, identity) && Derivable(identity)
  {
  }

  lemma NotBoth(al: Allocator, identity: Address, symbols: set<Symbol>)
    ensures !(NoneFree(al, identity, symbols) && NotDerivable(al, identity))
  {
  }

  lemma CreateTokenOnce(s: State, sender: Address, args: TokenCreateArgs, r: Result<Value>, a: State,
                        r': Result<Value>, b: State)
    requires CreateTokenOutcome(s, sender, args, r, a) && CreateTokenOutcome(s, sender, args, r', b)
    ensures Same(r, a, r', b)
  {
    hide OthersKept, SumOf, FirstFree, NoneFree, ActsFor;
    var al, identity, symbols := s.db.alloc, s.db.alloc.TokenIdentity(), s.committed.symbols;
    if r.Ok? { FreeOrNot(al, identity, symbols, r.value.symbol.id); }
    if r'.Ok? { FreeOrNot(al, identity, symbols, r'.value.symbol.id); }
    if r.Ok? && r'.Ok? {
      FreeOnce(al, identity, symbols, r.value.symbol.id, r'.value.symbol.id);
      var symbol, dist := r.value.symbol, args.distribution.GetOr([]);
      assert r'.value.symbol == symbol;
      KeptOnce(s.db.balances, a.db.balances, b.db.balances, symbol, dist);
    }
  }

  lemma UpdateTokenOnce(s: State, sender: Address, args: TokenUpdateArgs, r: Result<Value>, a: State,
                        r': Result<Value>, b: State)
    requires UpdateTokenOutcome(s, sender, args, r, a) && UpdateTokenOutcome(s, sender, args, r', b)
    ensures Same(r, a, r', b)
  {
    hide ActsFor;
  }

  // ---------------------------------------------------------------- accounts

  lemma RolesOnce(a: Roles, b: Roles)
    requires a.Keys == b.Keys && forall who, role :: Holds(a, who, role) <==> Holds(b, who, role)
    ensures a == b
  {
    forall who | who in a ensures a[who] == b[who] {
      forall role ensures role in a[who] <==> role in b[who] {
        assert Holds(a, who, role) <==> Holds(b, who, role);
      }
    }
  }

  lemma AccountOnce(description: Option<string>, roles: Roles, features: Features, owners: set<Address>, id: Address,
                    a: Account, b: Account)
    requires AccountStored(description, roles, features, owners, id, a)
    requires AccountStored(description, roles, features, owners, id, b)
    ensures a == b
  {
    assert a.roles == b.roles by {
      hide Holds;
      RolesOnce(a.roles, b.roles);
    }
    hide Holds, MayVote;
  }

  lemma CreateAccountOnce(s: State, creator: Address, args: CreateArgs, r: Result<Value>, a: State,
                          r': Result<Value>, b: State)
    requires CreateAccountOutcome(s, creator, args, r, a) && CreateAccountOutcome(s, creator, args, r', b)
    ensures r == r' && a == b
  {
    hide FirstFree, NoneFree, RolesFit, AccountStored;
    var al, identity, symbols := s.db.alloc, s.db.alloc.AccountIdentity(), s.committed.symbols;
    NotBoth(al, identity, symbols);
    if r.Ok? { FreeOrNot(al, identity, symbols, r.value.id.id); }
    if r'.Ok? { FreeOrNot(al, identity, symbols, r'.value.id.id); }
    if r.Ok? && r'.Ok? {
      var id := r.value.id;
      FreeOnce(al, identity, symbols, id.id, r'.value.id.id);
      assert r'.value.id == id;
      AccountOnce(args.description, args.roles, args.features, {creator, id}, id, a.db.accounts[id], b.db.accounts[id]);
    }
  }

  lemma AddedOnce(before: Roles, added: Roles, a: Roles, b: Roles)
    requires RolesAdded(before, added, a) && RolesAdded(before, added, b)
    ensures a == b
  {
    assert forall who, role :: Holds(a, who, role) <==> Holds(before, who, role) || Holds(added, who, role);
    assert forall who :: who in a <==> who in b;
    hide Holds;
    RolesOnce(a, b);
  }

  lemma ChangedOnce(before: Account, change: AccountChange, a: Account, b: Account)
    requires ChangedTo(before, change, a) && ChangedTo(before, change, b)
    ensures a == b
  {
    match change
    case AddRoles(added) => AddedOnce(before.roles, added, a.roles, b.roles);
    case AddFeatures(f, extra) => AddedOnce(before.roles, extra, a.roles, b.roles);
    case RemoveRoles(removed) => RolesOnce(a.roles, b.roles);
    case _ =>
  }

  lemma ChangeAccountOnce(s: State, actor: Address, target: Address, change: AccountChange, r: Result<Value>, a: State,
                          r': Result<Value>, b: State)
    requires ChangeAccountOutcome(s, actor, target, change, r, a)
    requires ChangeAccountOutcome(s, actor, target, change, r', b)
    ensures r == r' && a == b
  {
    hide EnabledAccount, AdditionFits, ChangedTo, Holds;
    var found := EnabledAccount(s.db, target);
    if found.Some? && target in a.db.accounts && target in b.db.accounts
       && ChangedTo(found.value, change, a.db.accounts[target]) && ChangedTo(found.value, change, b.db.accounts[target])
    {
      ChangedOnce(found.value, change, a.db.accounts[target], b.db.accounts[target]);
    }
  }

  // ---------------------------------------------------------------- transactions

  lemma SubmitOnce(s: State, actor: Address, arg: SubmitArgs, r: Result<Value>, a: State, r': Result<Value>, b: State)
    requires SubmitOutcome(s, actor, arg, r, a) && SubmitOutcome(s, actor, arg, r', b)
    ensures r == r' && a == b
  {
    hide EnabledAccount, Timeout;
  }

  lemma RevokeOnce(s: State, actor: Address, token: nat, r: Result<Value>, a: State, r': Result<Value>, b: State)
    requires RevokeOutcome(s, actor, token, r, a) && RevokeOutcome(s, actor, token, r', b)
    ensures r == r' && a == b
  {
    hide MayVote, EnabledAccount;
  }

  lemma WithdrawOnce(s: State, actor: Address, token: nat, r: Result<Value>, a: State, r': Result<Value>, b: State)
    requires WithdrawOutcome(s, actor, token, r, a) && WithdrawOutcome(s, actor, token, r', b)
    ensures r == r' && a == b
  {
    hide EnabledAccount;
  }

  // ---------------------------------------------------------------- executions

  lemma TransferOnce(s: State, actor: Address, p: Payload, r: Result<Value>, a: State, r': Result<Value>, b: State)
    requires p.TransferPayload?
    requires TransferOutcome(s, actor, p.from, p.to, p.symbol, p.amount, p.memo, r, a)
    requires TransferOutcome(s, actor, p.from, p.to, p.symbol, p.amount, p.memo, r', b)
    ensures r == r' && a == b
  {
    hide MoveOutcome, EnabledAccount;
    if p.from.Some? && MoveOutcome(s, p.from.value, p.to, p.symbol, p.amount, p.memo, r, a)
       && MoveOutcome(s, p.from.value, p.to, p.symbol, p.amount, p.memo, r', b)
    {
      MoveOnce(s, p.from.value, p.to, p.symbol, p.amount, p.memo, r, a, r', b);
    }
  }

  lemma {:induction false} PayloadOnce(depth: nat, s: State, tx: Multisig, r: Result<Value>, a: State,
                                       r': Result<Value>, b: State)
    requires PayloadOutcome(depth, s, tx, r, a) && PayloadOutcome(depth, s, tx, r', b)
    ensures r == r' && a == b
    decreases depth, 2
  {
    hide TransferOutcome, CreateAccountOutcome, ChangeAccountOutcome, SubmitOutcome, RevokeOutcome, WithdrawOutcome,
      ApproveOutcome, ExecuteOutcome;
    var actor := tx.account;
    match tx.info.transaction {
      case TransferPayload(_, _, _, _, _) => TransferOnce(s, actor, tx.info.transaction, r, a, r', b);
      case CreateAccountPayload(args) => CreateAccountOnce(s, actor, args, r, a, r', b);
      case ChangeAccountPayload(target, change) => ChangeAccountOnce(s, actor, target, change, r, a, r', b);
      case SubmitPayload(arg) => SubmitOnce(s, actor, arg, r, a, r', b);
      case ApprovePayload(t) =>
        var met :| ApproveOutcome(depth, s, actor, t, met, a) && Silenced(met, r);
        var met' :| ApproveOutcome(depth, s, actor, t, met', b) && Silenced(met', r');
        ApproveOnce(depth, s, actor, t, met, a, met', b);
      case RevokePayload(t) =>
        var met :| RevokeOutcome(s, actor, t, met, a) && Silenced(met, r);
        var met' :| RevokeOutcome(s, actor, t, met', b) && Silenced(met', r');
        RevokeOnce(s, actor, t, met, a, met', b);
      case ExecutePayload(t) =>
        var met :| ExecuteOutcome(depth, s, actor, t, met, a) && Silenced(met, r);
        var met' :| ExecuteOutcome(depth, s, actor, t, met', b) && Silenced(met', r');
        ExecuteOnce(depth, s, actor, t, met, a, met', b);
      case WithdrawPayload(t) => WithdrawOnce(s, actor, t, r, a, r', b);
      case UnsupportedPayload =>
    }
  }

  lemma {:induction false} RunOnce(depth: nat, s: State, token: nat, executer: Option<Address>, r: Result<Value>,
                                   a: State, r': Result<Value>, b: State)
    requires RunOutcome(depth, s, token, executer, r, a) && RunOutcome(depth, s, token, executer, r', b)
    ensures r == r' && a == b
    decreases depth, 0
  {
    hide PayloadOutcome, FinishOutcome;
    var tx := s.db.multisigs[token];
    var answer, p: State :| PayloadOutcome(depth - 1, s, tx, answer, p)
                            && FinishOutcome(p, tx, token, executer, answer, r, a);
    var answer', p': State :| PayloadOutcome(depth - 1, s, tx, answer', p')
                              && FinishOutcome(p', tx, token, executer, answer', r', b);
    PayloadOnce(depth - 1, s, tx, answer, p, answer', p');
    FinishOnce(p, tx, token, executer, answer, r, a, r', b);
  }

  lemma FinishOnce(p: State, tx: Multisig, token: nat, executer: Option<Address>, answer: Result<Value>,
                   r: Result<Value>, a: State, r': Result<Value>, b: State)
    requires FinishOutcome(p, tx, token, executer, answer, r, a)
    requires FinishOutcome(p, tx, token, executer, answer, r', b)
    ensures r == r' && a == b
  {
  }

  lemma {:induction false} ApproveOnce(depth: nat, s: State, actor: Address, token: nat, r: Result<Value>, a: State,
                                       r': Result<Value>, b: State)
    requires ApproveOutcome(depth, s, actor, token, r, a) && ApproveOutcome(depth, s, actor, token, r', b)
    ensures r == r' && a == b
    decreases depth, 1
  {
    hide RunOutcome, MayVote, Voters, EnabledAccount;
    if Open(s.db, token) {
      var voted := WithVote(s, token, actor);
      if RunOutcome(depth, voted, token, None, r, a) && RunOutcome(depth, voted, token, None, r', b) {
        RunOnce(depth, voted, token, None, r, a, r', b);
      }
    }
  }

  lemma {:induction false} ExecuteOnce(depth: nat, s: State, actor: Address, token: nat, r: Result<Value>, a: State,
                                       r': Result<Value>, b: State)
    requires ExecuteOutcome(depth, s, actor, token, r, a) && ExecuteOutcome(depth, s, actor, token, r', b)
    ensures r == r' && a == b
    decreases depth, 1
  {
    hide RunOutcome, Voters, EnabledAccount;
    if RunOutcome(depth, s, token, Some(actor), r, a) && RunOutcome(depth, s, token, Some(actor), r', b) {
      RunOnce(depth, s, token, Some(actor), r, a, r', b);
    }
  }

  // ---------------------------------------------------------------- blocks

  lemma CommitOnce(s: State, memo: bool, counts: bool, a: State, b: State)
    requires CommitOutcome(s, memo, counts, a) && CommitOutcome(s, memo, counts, b)
    ensures a == b
  {
    forall t | t in s.db.multisigs ensures a.db.multisigs[t] == b.db.multisigs[t] {
      var tx :| TxSwept(s, t, tx) && if memo then TxJoined(tx, a.db.multisigs[t]) else a.db.multisigs[t] == tx;
      var tx' :| TxSwept(s, t, tx') && if memo then TxJoined(tx', b.db.multisigs[t]) else b.db.multisigs[t] == tx';
      SweptOnce(s, t, tx, tx');
      hide TxSwept, TxJoined;
      if memo { JoinedOnce(tx, a.db.multisigs[t], b.db.multisigs[t]); }
    }
    forall id | id in s.db.events ensures a.db.events[id] == b.db.events[id] {
      hide EventJoined;
      if memo { EventOnce(s.db.events[id], a.db.events[id], b.db.events[id]); }
    }
    hide TxSwept, TxJoined, EventJoined;
    SameEntries(a.db.multisigs, b.db.multisigs);
    SameEntries(a.db.events, b.db.events);
  }

  lemma SweptOnce(s: State, t: nat, a: Multisig, b: Multisig)
    requires t in s.db.multisigs && TxSwept(s, t, a) && TxSwept(s, t, b)
    ensures a == b
  {
  }

  lemma JoinedOnce(tx: Multisig, a: Multisig, b: Multisig)
    requires TxJoined(tx, a) && TxJoined(tx, b)
    ensures a == b
  {
  }

  lemma EventOnce(log: EventLog, a: EventLog, b: EventLog)
    requires EventJoined(log, a) && EventJoined(log, b)
    ensures a == b
  {
  }

  // ---------------------------------------------------------------- calls

  /** Whatever outcomes two answers to the same call have, with all executions nested in it: both accept
      or both refuse it, with the same value if they accept, and leave the same state, in every field. */
  lemma OutcomesDetermined(depth: nat, s: State, c: Call, r: Result<Value>, a: State, r': Result<Value>, b: State)
    requires CallOutcome(depth, s, c, r, a) && CallOutcome(depth, s, c, r', b)
    ensures Same(r, a, r', b)
  {
    hide MoveOutcome, MintOutcome, BurnOutcome, CreateTokenOutcome, UpdateTokenOutcome, CreateAccountOutcome,
      ChangeAccountOutcome, SubmitOutcome, CommitOutcome, HoldsTransactRole, ApproveOutcome, RevokeOutcome,
      ExecuteOutcome, WithdrawOutcome;
    match c
    case SendCall(sender, from, to, symbol, amount, memo) =>
      var source := if from.Some? then from.value else sender;
      if MoveOutcome(s, source, to, symbol, amount, memo, r, a)
         && MoveOutcome(s, source, to, symbol, amount, memo, r', b)
      {
        MoveOnce(s, source, to, symbol, amount, memo, r, a, r', b);
      }
    case MintCall(sender, symbol, dist, memo) => MintOnce(s, sender, symbol, dist, memo, r, a, r', b);
    case BurnCall(sender, symbol, dist, memo, flag) => BurnOnce(s, sender, symbol, dist, memo, flag, r, a, r', b);
    case CreateTokenCall(sender, args) => CreateTokenOnce(s, sender, args, r, a, r', b);
    case UpdateTokenCall(sender, args) => UpdateTokenOnce(s, sender, args, r, a, r', b);
    case CreateAccountCall(sender, args) =>
      if HasFeature(args.features) { CreateAccountOnce(s, sender, args, r, a, r', b); }
    case ChangeAccountCall(sender, target, change) =>
      if !(change.AddFeatures? && !HasFeature(change.features)) {
        ChangeAccountOnce(s, sender, target, change, r, a, r', b);
      }
    case SubmitCall(sender, arg) => SubmitOnce(s, sender, arg, r, a, r', b);
    case ApproveCall(sender, id) => ApproveOnce(depth, s, sender, id, r, a, r', b);
    case RevokeCall(sender, id) => RevokeOnce(s, sender, id, r, a, r', b);
    case ExecuteCall(sender, id) => ExecuteOnce(depth, s, sender, id, r, a, r', b);
    case WithdrawCall(sender, id) => WithdrawOnce(s, sender, id, r, a, r', b);
    case CommitCall(memo, counts) => CommitOnce(s, memo, counts, a, b);
    case _ =>
  }
}
