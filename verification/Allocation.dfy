/** Subresource identifiers: how account addresses and token symbols are derived from
    an identity and a counter, before and after the token migration. */
module Allocation {
  import opened LedgerTypes

  const MAX_SUBRESOURCE_ID: nat := 0x7FFF_FFFF

  // `legacyCounter` is the only counter before the token migration, `counters` replaces it.
  datatype Allocator = Allocator(
    root: Address, accountIdentity: Option<Address>, tokenIdentity: Option<Address>,
    counters: map<Address, nat>, legacyCounter: Option<nat>, migrated: bool)
  {
    function AccountIdentity(): Address { accountIdentity.GetOr(root) }

    function TokenIdentity(): Address { tokenIdentity.GetOr(root) }

    function Counter(identity: Address): nat {
      if !migrated then legacyCounter.GetOr(0)
      else if identity in counters then counters[identity] else 0
    }

    function WithCounter(identity: Address, next: nat): Allocator {
      if migrated then this.(counters := counters[identity := next]) else this.(legacyCounter := Some(next))
    }
  }

  predicate Derivable(identity: Address) {
    identity.PublicKey? || identity.Subresource?
  }

  function Derive(identity: Address, id: nat): Address
    requires Derivable(identity)
  {
    Subresource(identity.hash, id)
  }

  /** The least identifier from `from` on whose address is not a symbol. */
  function NextFree(identity: Address, symbols: set<Symbol>, from: nat): (r: Option<nat>)
    requires Derivable(identity)
    ensures r.Some? ==> from <= r.value <= MAX_SUBRESOURCE_ID && Derive(identity, r.value) !in symbols
    ensures r.Some? ==> forall k: nat :: from <= k < r.value ==> Derive(identity, k) in symbols
    ensures r.None? <==> forall k: nat :: from <= k <= MAX_SUBRESOURCE_ID ==> Derive(identity, k) in symbols
    decreases MAX_SUBRESOURCE_ID + 1 - from
  {
    if from > MAX_SUBRESOURCE_ID then None
    else if Derive(identity, from) !in symbols then Some(from)
    else NextFree(identity, symbols, from + 1)
  }

  /** The next address derived from `identity`, and the allocator that has moved past it. */
  function NextSubresource(al: Allocator, identity: Address, symbols: set<Symbol>): Result<(Allocator, Address)> {
    if al.Counter(identity) > MAX_SUBRESOURCE_ID then Err(SubresourceExhausted)
    else if !Derivable(identity) then Err(InvalidIdentity)
    else
      match NextFree(identity, symbols, al.Counter(identity))
      case None => Err(SubresourceExhausted)
      case Some(k) => Ok((al.WithCounter(identity, k + 1), Derive(identity, k)))
  }

  /** For an identity addresses can be derived from, allocation fails exactly when every
      identifier left is a symbol; otherwise it skips symbols only and the counter grows. */
  lemma AllocationExact(al: Allocator, identity: Address, symbols: set<Symbol>)
    requires Derivable(identity)
    ensures NextSubresource(al, identity, symbols).Err? <==>
            forall k: nat :: al.Counter(identity) <= k <= MAX_SUBRESOURCE_ID ==> Derive(identity, k) in symbols
    ensures NextSubresource(al, identity, symbols).Ok? ==>
              var (al', id) := NextSubresource(al, identity, symbols).value;
              && id.Subresource? && id.hash == identity.hash && id !in symbols
              && al.Counter(identity) <= id.id < al'.Counter(identity) <= MAX_SUBRESOURCE_ID + 1
              && (forall k: nat :: al.Counter(identity) <= k < id.id ==> Derive(identity, k) in symbols)
  {
    if al.Counter(identity) <= MAX_SUBRESOURCE_ID {
      var r := NextFree(identity, symbols, al.Counter(identity));
    }
  }

  /** Every account address lies below the counter new account addresses come from. */
  ghost predicate AccountsBelow(al: Allocator, accounts: set<Address>) {
    forall a :: a in accounts ==>
      && a.Subresource? && Derivable(al.AccountIdentity()) && a.hash == al.AccountIdentity().hash
      && a.id < al.Counter(al.AccountIdentity())
  }

  lemma AccountAllocation(al: Allocator, accounts: set<Address>, symbols: set<Symbol>)
    requires AccountsBelow(al, accounts)
    requires NextSubresource(al, al.AccountIdentity(), symbols).Ok?
    ensures var (al', id) := NextSubresource(al, al.AccountIdentity(), symbols).value;
            id !in accounts && AccountsBelow(al', accounts + {id})
  {
    AllocationExact(al, al.AccountIdentity(), symbols);
  }

  lemma TokenAllocation(al: Allocator, accounts: set<Address>, symbols: set<Symbol>)
    requires AccountsBelow(al, accounts)
    requires NextSubresource(al, al.TokenIdentity(), symbols).Ok?
    ensures AccountsBelow(NextSubresource(al, al.TokenIdentity(), symbols).value.0, accounts)
  {
    AllocationExact(al, al.TokenIdentity(), symbols);
  }

  /** The token migration: the legacy counter is handed to the root identity, which becomes
      the account identity, and the configured token identity gets its own counter. */
  function MigrateTokens(al: Allocator, tokenIdentity: Address, next: nat): Allocator {
    al.(legacyCounter := None, accountIdentity := Some(al.root), tokenIdentity := Some(tokenIdentity), migrated := true,
        counters := al.counters[al.root := al.legacyCounter.GetOr(0)][tokenIdentity := next])
  }

  /** What the migration hands over: accounts are derived from the root identity, whose counter goes on
      where the legacy one stood, unless it is the token identity as well; that one is as configured
      and so is its counter, and every other counter is as it was. */
  lemma MigrationHandsOver(al: Allocator, tokenIdentity: Address, next: nat)
    requires !al.migrated
    ensures var al' := MigrateTokens(al, tokenIdentity, next);
            && al'.migrated && al'.root == al.root && al'.AccountIdentity() == al.root
            && al'.TokenIdentity() == tokenIdentity && al'.Counter(tokenIdentity) == next
            && (tokenIdentity != al.root ==> al'.Counter(al.root) == al.Counter(al.root))
            && forall identity :: identity != al.root && identity != tokenIdentity ==>
                 al'.Counter(identity) == if identity in al.counters then al.counters[identity] else 0
  {
  }

  /** The migration keeps account addresses below their counter exactly when the token
      identity is not the root identity, or the configured counter lies above every account. */
  lemma MigrationKeepsBelow(al: Allocator, accounts: set<Address>, tokenIdentity: Address, next: nat)
    requires !al.migrated && al.accountIdentity == None
    requires AccountsBelow(al, accounts)
    ensures AccountsBelow(MigrateTokens(al, tokenIdentity, next), accounts) <==>
            tokenIdentity != al.root || forall a :: a in accounts && a.Subresource? ==> a.id < next
  {
    var al' := MigrateTokens(al, tokenIdentity, next);
    assert al'.AccountIdentity() == al.root;
    if tokenIdentity == al.root {
      assert al'.Counter(al.root) == next;
    } else {
      assert al'.Counter(al.root) == al.Counter(al.root);
    }
  }

  // Runs of the allocator across the migration.

  datatype AllocStep =
    | NewAccountStep
    | NewTokenStep
    | CommitStep
    | MigrateStep(tokenIdentity: Address, next: nat, symbol: Symbol)

  // `created` lists the account addresses in the order they were handed out; `symbols` are the
  // symbols that are looked up: before the migration all there are, and none is created; after it the
  // one migrated and those that were `pending` when a block was committed.
  datatype AllocState = AllocState(al: Allocator, symbols: set<Symbol>, pending: set<Symbol>, created: seq<Address>)

  function TakeStep(st: AllocState, step: AllocStep): AllocState {
    match step
    case NewAccountStep =>
      (match NextSubresource(st.al, st.al.AccountIdentity(), st.symbols)
       case Err(_) => st
       case Ok((al', id)) => st.(al := al', created := st.created + [id]))
    case NewTokenStep =>
      if !st.al.migrated then st
      else
        (match NextSubresource(st.al, st.al.TokenIdentity(), st.symbols)
         case Err(_) => st
         case Ok((al', id)) => st.(al := al', pending := st.pending + {id}))
    case CommitStep => st.(symbols := st.symbols + st.pending, pending := {})
    case MigrateStep(tokenIdentity, next, symbol) =>
      if st.al.migrated || symbol !in st.symbols then st
      else st.(al := MigrateTokens(st.al, tokenIdentity, next), symbols := {symbol})
  }

  function TakeSteps(st: AllocState, steps: seq<AllocStep>): AllocState
    decreases |steps|
  {
    if steps == [] then st else TakeSteps(TakeStep(st, steps[0]), steps[1..])
  }

  /** No account address was handed out twice. */
  predicate NoneTwice(st: AllocState) {
    forall i, j :: 0 <= i < j < |st.created| ==> st.created[i] != st.created[j]
  }

  ghost predicate AllocInv(st: AllocState) {
    && AccountsBelow(st.al, set a | a in st.created)
    && NoneTwice(st)
    && (forall a :: a in st.created ==> a.Subresource? && a.id <= MAX_SUBRESOURCE_ID)
    && (!st.al.migrated ==>
          st.al.accountIdentity == None && st.pending == {} && forall a :: a in st.created ==> a !in st.symbols)
  }

  // The token identity is not the root identity, or its counter starts above every account.
  predicate SafeMigration(st: AllocState, tokenIdentity: Address, next: nat) {
    tokenIdentity != st.al.root || forall a :: a in st.created && a.Subresource? ==> a.id < next
  }

  predicate SafeStep(st: AllocState, step: AllocStep) {
    step.MigrateStep? && !st.al.migrated ==> SafeMigration(st, step.tokenIdentity, step.next)
  }

  predicate SafeSteps(st: AllocState, steps: seq<AllocStep>)
    decreases |steps|
  {
    steps == [] || (SafeStep(st, steps[0]) && SafeSteps(TakeStep(st, steps[0]), steps[1..]))
  }

  lemma AllocStepKeeps(st: AllocState, step: AllocStep)
    requires AllocInv(st) && SafeStep(st, step)
    ensures AllocInv(TakeStep(st, step))
    ensures st.created <= TakeStep(st, step).created
  {
    var accounts := set a | a in st.created;
    match step {
      case NewAccountStep =>
        var r := NextSubresource(st.al, st.al.AccountIdentity(), st.symbols);
        if r.Ok? {
          AccountAllocation(st.al, accounts, st.symbols);
          AllocationExact(st.al, st.al.AccountIdentity(), st.symbols);
          assert (set a | a in st.created + [r.value.1]) == accounts + {r.value.1};
        }
      case NewTokenStep =>
        if st.al.migrated && NextSubresource(st.al, st.al.TokenIdentity(), st.symbols).Ok? {
          TokenAllocation(st.al, accounts, st.symbols);
          AllocationExact(st.al, st.al.TokenIdentity(), st.symbols);
        }
      case CommitStep =>
      case MigrateStep(tokenIdentity, next, symbol) =>
        if !st.al.migrated {
          MigrationKeepsBelow(st.al, accounts, tokenIdentity, next);
        }
    }
  }

  /** Over any run whose migration, if it has one, is safe when it happens, no account address is
      ever handed out twice. */
  lemma {:induction false} AccountsNeverReplaced(st: AllocState, steps: seq<AllocStep>)
    requires AllocInv(st) && SafeSteps(st, steps)
    ensures AllocInv(TakeSteps(st, steps)) && NoneTwice(TakeSteps(st, steps))
    ensures st.created <= TakeSteps(st, steps).created
    decreases |steps|
  {
    if steps != [] {
      AllocStepKeeps(st, steps[0]);
      AccountsNeverReplaced(TakeStep(st, steps[0]), steps[1..]);
    }
  }

  /** After the migration no run of creations, of accounts and tokens in any order, hands out an
      account address twice, exactly when the token identity is not the root identity or its
      configured counter lies above every account created so far. */
  lemma MigrationExact(st: AllocState, tokenIdentity: Address, next: nat, symbol: Symbol)
    requires AllocInv(st) && !st.al.migrated && symbol in st.symbols
    ensures (forall steps :: NoneTwice(TakeSteps(TakeStep(st, MigrateStep(tokenIdentity, next, symbol)), steps)))
            <==> SafeMigration(st, tokenIdentity, next)
  {
    var st' := TakeStep(st, MigrateStep(tokenIdentity, next, symbol));
    if SafeMigration(st, tokenIdentity, next) {
      AllocStepKeeps(st, MigrateStep(tokenIdentity, next, symbol));
      forall steps ensures NoneTwice(TakeSteps(st', steps)) {
        MigratedStaysSafe(st', steps);
        AccountsNeverReplaced(st', steps);
      }
    } else {
      var a :| a in st.created && a.Subresource? && a.id >= next;
      var i :| 0 <= i < |st.created| && st.created[i] == a;
      assert a in set x | x in st.created;
      assert st'.al.Counter(st'.al.AccountIdentity()) == next;
      var steps := AddressRepeats(st', a, i);
    }
  }

  lemma {:induction false} MigratedStaysSafe(st: AllocState, steps: seq<AllocStep>)
    requires st.al.migrated
    ensures SafeSteps(st, steps)
    decreases |steps|
  {
    if steps != [] { MigratedStaysSafe(TakeStep(st, steps[0]), steps[1..]); }
  }

  // Enough account creations come round to any address above the counter that is no symbol.
  lemma {:induction false} AddressRepeats(st: AllocState, a: Address, i: nat) returns (steps: seq<AllocStep>)
    requires i < |st.created| && st.created[i] == a && a !in st.symbols && st.al.migrated
    requires Derivable(st.al.AccountIdentity()) && a.Subresource? && a.hash == st.al.AccountIdentity().hash
    requires st.al.Counter(st.al.AccountIdentity()) <= a.id <= MAX_SUBRESOURCE_ID
    ensures !NoneTwice(TakeSteps(st, steps))
    decreases a.id - st.al.Counter(st.al.AccountIdentity())
  {
    var identity, st' := st.al.AccountIdentity(), TakeStep(st, NewAccountStep);
    AllocationExact(st.al, identity, st.symbols);
    assert Derive(identity, a.id) == a;
    var (al, id) := NextSubresource(st.al, identity, st.symbols).value;
    assert st'.created == st.created + [id] && id == Derive(identity, id.id);
    if id == a {
      steps := [NewAccountStep];
      assert TakeSteps(st, steps) == TakeSteps(st', []);
      assert st'.created[i] == st'.created[|st.created|];
    } else {
      var rest := AddressRepeats(st', a, i);
      steps := [NewAccountStep] + rest;
      assert steps[1..] == rest;
    }
  }

  /** With the root identity as token identity and a low configured counter, the first
      account created after the migration gets the address of an existing one. */
  lemma MigrationCanReplace()
    ensures var st := AllocState(Allocator(PublicKey(1), None, None, map[], None, false), {PublicKey(2)}, {}, []);
            var steps := [NewAccountStep, MigrateStep(PublicKey(1), 0, PublicKey(2)), NewAccountStep];
            AllocInv(st) && TakeSteps(st, steps).created == [Subresource(1, 0), Subresource(1, 0)]
  {
    var st := AllocState(Allocator(PublicKey(1), None, None, map[], None, false), {PublicKey(2)}, {}, []);
    var steps := [NewAccountStep, MigrateStep(PublicKey(1), 0, PublicKey(2)), NewAccountStep];
    var st1 := TakeStep(st, steps[0]);
    assert NextFree(PublicKey(1), {PublicKey(2)}, 0) == Some(0);
    assert st1.created == [Subresource(1, 0)];
    var st2 := TakeStep(st1, steps[1]);
    assert steps[1..][0] == steps[1] && steps[1..][1..] == [NewAccountStep];
    assert st2.al.Counter(PublicKey(1)) == 0;
    var st3 := TakeStep(st2, NewAccountStep);
    assert st3.created == [Subresource(1, 0), Subresource(1, 0)];
    assert TakeSteps(st3, []) == st3;
    assert TakeSteps(st2, [NewAccountStep]) == st3;
  }
}
