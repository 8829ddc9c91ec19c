/** Who can make a balance go down. */
module Authorisation {
  import opened LedgerTypes
  import opened Allocation
  import opened AccountRules
  import opened LedgerMachine
  import opened Operations
  import opened Footprints
  import opened Legality
  import opened Replay

  // The effect takes tokens from `who` on proper authority.
  predicate TakesFrom(s: State, e: Effect, who: Address, symbol: Symbol) {
    match e
    case Sent(Direct(sender), from, _, sym, _, _) =>
      from == who && sym == symbol && (sender == who || HoldsTransactRole(s.db, who, sender))
    case Sent(ViaMultisig(token), from, to, sym, amount, memo) =>
      from == who && sym == symbol && OrderedByMultisig(s.db, token, who, to, symbol, amount, memo)
    case Burned(burner, sym, dist, _) =>
      sym == symbol && burner == s.db.alloc.TokenIdentity() && exists i :: 0 <= i < |dist| && dist[i].0 == who
    case _ => false
  }

  /** A balance goes down only through a send out of it by its address or by someone with
      owner or feature-backed transact role on its account, a transfer ordered by a pending
      multisig transaction with a quorum whose account holds owner or transact role there, or
      a burn by the token identity that lists the address. */
  lemma BalanceDropNeedsAuthority(s: State, e: Effect, who: Address, symbol: Symbol)
    requires HoldingsRegistered(s) && Enabled(s, e)
    requires BalanceOf(Apply(s, e).db.balances, who, symbol) < BalanceOf(s.db.balances, who, symbol)
    ensures TakesFrom(s, e, who, symbol)
  {
    BalancesFrame(s, e);
    if e.Minted? {
      MintNeverTakes(s, e, who, symbol);
    } else if TouchesBalances(e) && !e.Sent? {
      ViewBalances(s, e);
      CreditsAndDebits(s.db.balances, who, symbol, e);
    }
  }

  lemma MintNeverTakes(s: State, e: Effect, who: Address, symbol: Symbol)
    requires e.Minted? && Enabled(s, e)
    ensures BalanceOf(Apply(s, e).db.balances, who, symbol) >= BalanceOf(s.db.balances, who, symbol)
  {
    hide Apply, MintUpdates;
    MintedWrites(s, e.minter, e.symbol, e.dist, e.memo);
    MintUpdatesAre(s.db.balances, e.symbol, e.dist);
    if Holding(who, symbol) in Holdings(e.symbol, e.dist) {
      var i :| 0 <= i < |e.dist| && Holding(who, symbol) == Holding(e.dist[i].0, e.symbol);
    }
  }

  // What replaying the event of a mint, a creation or a burn does to one balance.
  lemma CreditsAndDebits(balances: Balances, who: Address, symbol: Symbol, e: Effect)
    ensures forall sym, dist: Distribution ::
              BalanceOf(Credited(balances, sym, dist), who, symbol) >= BalanceOf(balances, who, symbol)
    ensures e.Burned?
            && BalanceOf(Debited(balances, e.symbol, e.dist), who, symbol) < BalanceOf(balances, who, symbol) ==>
              e.symbol == symbol && exists i :: 0 <= i < |e.dist| && e.dist[i].0 == who
  {
    if e.Burned? && forall i :: 0 <= i < |e.dist| ==> e.dist[i].0 != who { AmountForStranger(e.dist, who); }
  }

  // ---------------------------------------------------------------- from effects back to calls

  // Not part of beginning or ending a block.
  predicate InsideBlock(e: Effect) {
    !e.TimeSet? && !e.ExpirySwept? && !e.MemoMigrated? && !e.CountsInitialised? && !e.NextBlock?
  }

  // Moves tokens, if at all, by multisig order: sends nothing directly, mints and burns nothing.
  predicate MovesByOrder(e: Effect) {
    InsideBlock(e) && !e.Minted? && !e.Burned? && (e.Sent? ==> e.authority.ViaMultisig?)
  }

  predicate OnlyMultisigMoves(trace: seq<Effect>, k: nat) {
    forall i :: k <= i < |trace| ==> MovesByOrder(trace[i])
  }

  // `m'` extends the trace of `m` by multisig-ordered moves only.
  predicate MultisigMoves(m: Machine, m': Machine) {
    |m.trace| <= |m'.trace| && m'.trace[..|m.trace|] == m.trace && OnlyMultisigMoves(m'.trace, |m.trace|)
  }

  lemma MovesTransitive(m: Machine, m': Machine, m'': Machine)
    requires MultisigMoves(m, m') && MultisigMoves(m', m'')
    ensures MultisigMoves(m, m'')
  {
    assert m''.trace[..|m.trace|] == m''.trace[..|m'.trace|][..|m.trace|];
    forall i | |m.trace| <= i < |m'.trace| ensures m''.trace[i] == m'.trace[i] {
      assert m''.trace[i] == m''.trace[..|m'.trace|][i];
    }
  }

  lemma MovesDo(m: Machine, e: Effect)
    requires MovesByOrder(e)
    ensures MultisigMoves(m, Do(m, e))
  {
  }

  lemma MovesDisable(m: Machine, token: nat, state: TxState)
    ensures MultisigMoves(m, DisableTx(m, token, state).m)
  {
    MovesDo(m, Ended(token, state));
  }

  lemma MovesWithdraw(m: Machine, sender: Address, token: nat)
    ensures MultisigMoves(m, Withdraw(m, sender, token).m)
  {
    MovesDisable(m, token, Withdrawn);
    var m1, o := DisableTx(m, token, Withdrawn).m, Withdraw(m, sender, token);
    if o.m != m {
      var e := Logged(WithdrawEvent(m.s.db.multisigs[token].account, token, sender));
      MovesDo(m1, e);
      MovesTransitive(m, m1, Do(m1, e));
    }
  }

  lemma MovesLog(o: Run, account: Address, token: nat, executer: Option<Address>)
    requires o.Done?
    ensures MultisigMoves(o.m, LogExecution(o, account, token, executer).m)
  {
    if o.r.Ok? { MovesDo(o.m, Logged(ExecuteEvent(account, token, executer, o.r.value))); }
  }

  lemma {:induction false} MovesExecute(depth: nat, m: Machine, token: nat, tx: Multisig, automatically: bool)
    requires ExecuteInternal(depth, m, token, tx, automatically).Done?
    ensures MultisigMoves(m, ExecuteInternal(depth, m, token, tx, automatically).m)
    decreases depth, 0
  {
    hide Apply, Approve, Execute, Withdraw, DisableTx, OnlyMultisigMoves;
    var m0 := Do(m, Started(token));
    MovesDo(m, Started(token));
    var o := RunPayload(depth - 1, m0, token, tx);
    match tx.info.transaction {
      case ApprovePayload(t) => MovesApproval(depth - 1, m0, tx.account, t);
      case ExecutePayload(t) => MovesExecution(depth - 1, m0, tx.account, t);
      case WithdrawPayload(t) => MovesWithdraw(m0, tx.account, t);
      case _ => MovesPlain(depth - 1, m0, token, tx);
    }
    MovesTransitive(m, m0, o.m);
    var state := if automatically then ExecutedAutomatically else ExecutedManually;
    MovesDisable(o.m, token, state);
    MovesTransitive(m, o.m, DisableTx(o.m, token, state).m);
  }

  lemma MovesPlain(depth: nat, m: Machine, token: nat, tx: Multisig)
    requires !tx.info.transaction.ApprovePayload? && !tx.info.transaction.ExecutePayload?
    requires !tx.info.transaction.WithdrawPayload?
    ensures RunPayload(depth, m, token, tx).Done? && MultisigMoves(m, RunPayload(depth, m, token, tx).m)
  {
    hide Apply, EnabledAccount, BalanceOf, CountsUnderflow, NextSubresource, TryChange, ValidRoles, Finished, NewTx,
      Overridden, LookUp, CanApprove;
  }

  lemma {:induction false} MovesApproval(depth: nat, m: Machine, sender: Address, t: nat)
    requires Approve(depth, m, sender, t).Done?
    ensures MultisigMoves(m, Approve(depth, m, sender, t).m)
    decreases depth, 1
  {
    hide Apply, ExecuteInternal, OnlyMultisigMoves;
    var found := LookUp(m.s.db, t);
    MovesDo(m, Approved(t, sender));
    if found.Ok? && CanApprove(found.value.1, sender) {
      var m1, tx1 := Do(m, Approved(t, sender)), WithApproval(found.value.0, sender, true);
      if tx1.info.automatic && tx1.ShouldExecute() {
        MovesExecute(depth, m1, t, tx1, true);
        var o := ExecuteInternal(depth, m1, t, tx1, true);
        MovesTransitive(m, m1, o.m);
        MovesLog(o, tx1.account, t, None);
        MovesTransitive(m, o.m, LogExecution(o, tx1.account, t, None).m);
      }
    } else {
      assert Approve(depth, m, sender, t).m == m;
      SameMoves(m);
    }
  }

  lemma SameMoves(m: Machine)
    ensures MultisigMoves(m, m)
  {
  }

  lemma {:induction false} MovesExecution(depth: nat, m: Machine, sender: Address, t: nat)
    requires Execute(depth, m, sender, t).Done?
    ensures MultisigMoves(m, Execute(depth, m, sender, t).m)
    decreases depth, 1
  {
    hide Apply, ExecuteInternal, OnlyMultisigMoves;
    var found := LookUp(m.s.db, t);
    if found.Ok? && CanExecute(found.value.0, found.value.1, sender) && found.value.0.ShouldExecute() {
      MovesExecute(depth, m, t, found.value.0, false);
      var o := ExecuteInternal(depth, m, t, found.value.0, false);
      MovesLog(o, found.value.0.account, t, Some(sender));
      MovesTransitive(m, o.m, LogExecution(o, found.value.0.account, t, Some(sender)).m);
    } else {
      assert Execute(depth, m, sender, t).m == m;
      SameMoves(m);
    }
  }

  // `m'` extends the trace of `m` without sending, minting or burning.
  predicate MovesNothing(m: Machine, m': Machine) {
    && |m.trace| <= |m'.trace| && m'.trace[..|m.trace|] == m.trace
    && forall i :: |m.trace| <= i < |m'.trace| ==> !m'.trace[i].Sent? && !m'.trace[i].Minted? && !m'.trace[i].Burned?
  }

  /** Which calls take tokens: a direct send acts in the name of the caller and is the only
      effect of its call, so is a burn; every other call moves tokens by multisig order only. */
  lemma CallsMoveTokensAsNamed(depth: nat, m: Machine, c: Call)
    requires Answer(depth, m, c).Done?
    ensures var m' := Answer(depth, m, c).m;
            match c
            case SendCall(sender, from, to, symbol, amount, memo) =>
              m' == m || m' == Do(m, Sent(Direct(sender), from.GetOr(sender), to, symbol, amount, memo))
            case MintCall(sender, symbol, dist, memo) => m' == m || m' == Do(m, Minted(sender, symbol, dist, memo))
            case BurnCall(sender, symbol, dist, memo, _) => m' == m || m' == Do(m, Burned(sender, symbol, dist, memo))
            case BeginBlockCall(_) => MovesNothing(m, m')
            case CommitCall(_, _) => MovesNothing(m, m')
            case _ => MultisigMoves(m, m')
  {
    hide Apply, Approve, Execute, Withdraw, Commit, CreateToken, UpdateToken, CreateAccount, ChangeAccount, Submit,
      Revoke;
    match c
    case ApproveCall(sender, id) => MovesApproval(depth, m, sender, id);
    case ExecuteCall(sender, id) => MovesExecution(depth, m, sender, id);
    case WithdrawCall(sender, id) => MovesWithdraw(m, sender, id);
    case CommitCall(memo, counts) => CommitMovesNothing(m, memo, counts);
    case CreateTokenCall(sender, args) => RegistrationMoves(depth, m, c);
    case UpdateTokenCall(sender, args) => RegistrationMoves(depth, m, c);
    case CreateAccountCall(sender, args) => RegistrationMoves(depth, m, c);
    case ChangeAccountCall(sender, target, change) => RegistrationMoves(depth, m, c);
    case SubmitCall(sender, arg) => RegistrationMoves(depth, m, c);
    case RevokeCall(sender, id) => RegistrationMoves(depth, m, c);
    case _ =>
  }

  lemma RegistrationMoves(depth: nat, m: Machine, c: Call)
    requires c.CreateTokenCall? || c.UpdateTokenCall? || c.CreateAccountCall? || c.ChangeAccountCall?
             || c.SubmitCall? || c.RevokeCall?
    ensures Answer(depth, m, c).Done? && MultisigMoves(m, Answer(depth, m, c).m)
  {
    hide Apply;
  }

  lemma CommitMovesNothing(m: Machine, memo: bool, counts: bool)
    ensures MovesNothing(m, Commit(m, memo, counts))
  {
    hide Apply;
  }

  // ---------------------------------------------------------------- over whole runs

  /** Whatever lies between two states of a legal trace: a balance that is lower in the later one
      was taken from by one of the effects between, on proper authority when it happened. */
  lemma {:induction false} DropNeedsEffect(g: State, es: seq<Effect>, i: nat, who: Address, symbol: Symbol)
    requires HoldingsRegistered(g) && Legal(g, es) && i <= |es|
    requires BalanceOf(After(g, es).db.balances, who, symbol) < BalanceOf(After(g, es[..i]).db.balances, who, symbol)
    ensures exists j :: i <= j < |es| && TakesFrom(After(g, es[..j]), es[j], who, symbol)
    decreases |es|
  {
    hide TakesFrom, HoldingsRegistered, Enabled, Apply, BalanceOf;
    assert es[..|es|] == es;
    if i < |es| {
      var front, e := es[..|es| - 1], es[|es| - 1];
      assert front[..i] == es[..i];
      assert es[..|es| - 1] == front;
      RegisteredAlong(g, front);
      if BalanceOf(After(g, es).db.balances, who, symbol) < BalanceOf(After(g, front).db.balances, who, symbol) {
        BalanceDropNeedsAuthority(After(g, front), e, who, symbol);
        assert TakesFrom(After(g, es[..|es| - 1]), es[|es| - 1], who, symbol);
      } else {
        DropNeedsEffect(g, front, i, who, symbol);
        var j :| i <= j < |front| && TakesFrom(After(g, front[..j]), front[j], who, symbol);
        assert front[..j] == es[..j] && front[j] == es[j];
      }
    }
  }

  lemma {:induction false} RegisteredAlong(g: State, es: seq<Effect>)
    requires HoldingsRegistered(g) && Legal(g, es)
    ensures HoldingsRegistered(After(g, es))
    decreases |es|
  {
    hide HoldingsRegistered, Enabled, Apply;
    if es != [] {
      RegisteredAlong(g, es[..|es| - 1]);
      HoldingsRegisteredStep(After(g, es[..|es| - 1]), es[|es| - 1]);
    }
  }

  // A transfer out of `who`, ordered by a pending transaction with a quorum, happens as effect `j`.
  predicate OrderedTransfer(g: State, trace: seq<Effect>, j: nat, who: Address, symbol: Symbol) {
    && j < |trace| && trace[j].Sent? && trace[j].authority.ViaMultisig?
    && trace[j].from == who && trace[j].symbol == symbol
    && OrderedByMultisig(After(g, trace[..j]).db, trace[j].authority.token, who, trace[j].to, symbol, trace[j].amount,
                         trace[j].memo)
  }

  lemma NothingMoves(depth: nat, m: Machine, c: Call)
    requires !c.SendCall? && !c.MintCall? && !c.BurnCall? && !c.ApproveCall? && !c.ExecuteCall?
    requires Answer(depth, m, c).Done?
    ensures MovesNothing(m, Answer(depth, m, c).m)
  {
    hide Apply;
  }

  // The call that led from `before` to `after` took tokens of `who` on proper authority.
  predicate TookByCall(g: State, before: Machine, after: Machine, c: Call, who: Address, symbol: Symbol) {
    match c
    case SendCall(sender, from, _, sym, _, _) =>
      && from.GetOr(sender) == who && sym == symbol
      && (sender == who || HoldsTransactRole(before.s.db, who, sender))
    case BurnCall(sender, sym, dist, _, _) =>
      && sender == before.s.db.alloc.TokenIdentity() && sym == symbol
      && exists i :: 0 <= i < |dist| && dist[i].0 == who
    case ApproveCall(_, _) =>
      exists j :: |before.trace| <= j < |after.trace| && OrderedTransfer(g, after.trace, j, who, symbol)
    case ExecuteCall(_, _) =>
      exists j :: |before.trace| <= j < |after.trace| && OrderedTransfer(g, after.trace, j, who, symbol)
    case _ => false
  }

  /** Which call took it: over any run of calls, a balance that the last call lowered was lowered
      by a send call from that address by itself or by a holder of owner or feature-backed
      transact role on its account; by a burn call of the token identity that lists it; or by an
      approval or an execution, in which some effect is a transfer out of that address ordered by
      a then pending transaction with a quorum. Every prefix of a run is a run, so this holds of
      every call of every run. */
  lemma RunDropNeedsAuthority(depth: nat, g: State, calls: seq<Call>, who: Address, symbol: Symbol)
    requires HoldingsRegistered(g) && calls != [] && Calls(depth, Machine(g, []), calls).Some?
    ensures Calls(depth, Machine(g, []), calls[..|calls| - 1]).Some?
    ensures var before := Calls(depth, Machine(g, []), calls[..|calls| - 1]).value;
            var after := Calls(depth, Machine(g, []), calls).value;
            BalanceOf(after.s.db.balances, who, symbol) < BalanceOf(before.s.db.balances, who, symbol) ==>
              TookByCall(g, before, after, calls[|calls| - 1], who, symbol)
  {
    var front, c := calls[..|calls| - 1], calls[|calls| - 1];
    var before, after := Calls(depth, Machine(g, []), front).value, Calls(depth, Machine(g, []), calls).value;
    assert after == Answer(depth, before, c).m;
    CallsLegal(depth, g, front);
    AnswerLegal(depth, g, before, c);
    hide Calls, Answer;
    if BalanceOf(after.s.db.balances, who, symbol) < BalanceOf(before.s.db.balances, who, symbol) {
      CallNames(depth, before, c);
      DropInCall(g, before, after, c, who, symbol);
    }
  }

  // What the call may have done, as far as moving tokens goes.
  ghost predicate MovesAsNamed(m: Machine, m': Machine, c: Call) {
    match c
    case SendCall(sender, from, to, symbol, amount, memo) =>
      m' == m || m' == Do(m, Sent(Direct(sender), from.GetOr(sender), to, symbol, amount, memo))
    case MintCall(sender, symbol, dist, memo) => m' == m || m' == Do(m, Minted(sender, symbol, dist, memo))
    case BurnCall(sender, symbol, dist, memo, _) => m' == m || m' == Do(m, Burned(sender, symbol, dist, memo))
    case ApproveCall(_, _) => MultisigMoves(m, m')
    case ExecuteCall(_, _) => MultisigMoves(m, m')
    case _ => MovesNothing(m, m')
  }

  lemma CallNames(depth: nat, m: Machine, c: Call)
    requires Answer(depth, m, c).Done?
    ensures MovesAsNamed(m, Answer(depth, m, c).m, c)
  {
    CallsMoveTokensAsNamed(depth, m, c);
    if !c.SendCall? && !c.MintCall? && !c.BurnCall? && !c.ApproveCall? && !c.ExecuteCall? { NothingMoves(depth, m, c); }
    hide Answer, Apply, MultisigMoves, MovesNothing;
  }

  lemma DropInCall(g: State, before: Machine, after: Machine, c: Call, who: Address, symbol: Symbol)
    requires HoldingsRegistered(g) && Reached(g, before) && Reached(g, after) && MovesAsNamed(before, after, c)
    requires BalanceOf(after.s.db.balances, who, symbol) < BalanceOf(before.s.db.balances, who, symbol)
    ensures TookByCall(g, before, after, c, who, symbol)
  {
    hide HoldingsRegistered, Reached, BalanceOf, MultisigMoves, MovesNothing, TakesFrom, Do;
    match c {
      case SendCall(sender, from, to, sym, amount, memo) =>
        var e := Sent(Direct(sender), from.GetOr(sender), to, sym, amount, memo);
        DropInOneEffect(g, before, after, e, who, symbol);
        NamedTake(g, before, after, c, e, who, symbol);
      case MintCall(sender, sym, dist, memo) =>
        DropInOneEffect(g, before, after, Minted(sender, sym, dist, memo), who, symbol);
        NamedTake(g, before, after, c, Minted(sender, sym, dist, memo), who, symbol);
      case BurnCall(sender, sym, dist, memo, _) =>
        DropInOneEffect(g, before, after, Burned(sender, sym, dist, memo), who, symbol);
        NamedTake(g, before, after, c, Burned(sender, sym, dist, memo), who, symbol);
      case ApproveCall(_, _) => OrderedDrop(g, before, after, who, symbol);
      case ExecuteCall(_, _) => OrderedDrop(g, before, after, who, symbol);
      case _ => NothingTaken(g, before, after, who, symbol);
    }
  }

  lemma DropInOneEffect(g: State, before: Machine, after: Machine, e: Effect, who: Address, symbol: Symbol)
    requires HoldingsRegistered(g) && Reached(g, before) && Reached(g, after) && after == Do(before, e)
    requires BalanceOf(after.s.db.balances, who, symbol) < BalanceOf(before.s.db.balances, who, symbol)
    ensures TakesFrom(before.s, e, who, symbol)
  {
    hide HoldingsRegistered, Enabled, Apply, BalanceOf, TakesFrom;
    assert after.trace[..|after.trace| - 1] == before.trace;
    LastEnabled(g, after.trace);
    RegisteredAlong(g, before.trace);
    BalanceDropNeedsAuthority(before.s, e, who, symbol);
  }

  lemma LastEnabled(g: State, es: seq<Effect>)
    requires Legal(g, es) && es != []
    ensures Legal(g, es[..|es| - 1]) && Enabled(After(g, es[..|es| - 1]), es[|es| - 1])
  {
  }

  lemma NamedTake(g: State, before: Machine, after: Machine, c: Call, e: Effect, who: Address, symbol: Symbol)
    requires TakesFrom(before.s, e, who, symbol)
    requires match c
             case SendCall(sender, from, to, sym, amount, memo) =>
               e == Sent(Direct(sender), from.GetOr(sender), to, sym, amount, memo)
             case MintCall(sender, sym, dist, memo) => e == Minted(sender, sym, dist, memo)
             case BurnCall(sender, sym, dist, memo, _) => e == Burned(sender, sym, dist, memo)
             case _ => false
    ensures TookByCall(g, before, after, c, who, symbol)
  {
  }

  lemma NothingTaken(g: State, before: Machine, after: Machine, who: Address, symbol: Symbol)
    requires HoldingsRegistered(g) && Reached(g, before) && Reached(g, after) && MovesNothing(before, after)
    ensures BalanceOf(after.s.db.balances, who, symbol) >= BalanceOf(before.s.db.balances, who, symbol)
  {
    hide Apply, BalanceOf, HoldingsRegistered;
    var k := |before.trace|;
    if BalanceOf(after.s.db.balances, who, symbol) < BalanceOf(before.s.db.balances, who, symbol) {
      DropNeedsEffect(g, after.trace, k, who, symbol);
    }
  }

  lemma OrderedDrop(g: State, before: Machine, after: Machine, who: Address, symbol: Symbol)
    requires HoldingsRegistered(g) && Reached(g, before) && Reached(g, after) && MultisigMoves(before, after)
    requires BalanceOf(after.s.db.balances, who, symbol) < BalanceOf(before.s.db.balances, who, symbol)
    ensures exists j :: |before.trace| <= j < |after.trace| && OrderedTransfer(g, after.trace, j, who, symbol)
  {
    hide Apply, BalanceOf, HoldingsRegistered;
    var k := |before.trace|;
    DropNeedsEffect(g, after.trace, k, who, symbol);
    var j :| k <= j < |after.trace| && TakesFrom(After(g, after.trace[..j]), after.trace[j], who, symbol);
    assert after.trace[j].Sent? && after.trace[j].authority.ViaMultisig?;
    assert OrderedTransfer(g, after.trace, j, who, symbol);
  }
}
