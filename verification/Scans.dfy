/** Iterating a range of the store in key order, batches, and the loops that run over them. */
module Scans {
  import opened LedgerTypes
  import opened Allocation
  import opened AccountRules
  import opened LedgerMachine
  import opened Supply

  // ---------------------------------------------------------------- key order

  lemma {:induction false} FindLeast(ks: set<nat>) returns (m: nat)
    requires ks != {}
    ensures m in ks && forall x :: x in ks ==> m <= x
    decreases |ks|
  {
    var a :| a in ks;
    if ks == {a} {
      m := a;
    } else {
      var rest := FindLeast(ks - {a});
      m := if a < rest then a else rest;
      assert forall x :: x in ks ==> x == a || x in ks - {a};
    }
  }

  lemma LeastExists(ks: set<nat>)
    requires ks != {}
    ensures exists m :: m in ks && forall x :: x in ks ==> m <= x
  {
    var m := FindLeast(ks);
  }

  function Least(ks: set<nat>): (m: nat)
    requires ks != {}
    ensures m in ks && forall x :: x in ks ==> m <= x
  {
    LeastExists(ks);
    var m :| m in ks && forall x :: x in ks ==> m <= x;
    m
  }

  /** The keys of a range as an ascending scan visits them. */
  function Ascending(ks: set<nat>): (r: seq<nat>)
    ensures forall i, j :: 0 <= i < j < |r| ==> r[i] < r[j]
    ensures forall k :: k in r <==> k in ks
    ensures Ordered(true, r)
  {
    if ks == {} then []
    else
      var m := Least(ks);
      [m] + Ascending(ks - {m})
  }

  function Reversed<T>(s: seq<T>): (r: seq<T>)
    ensures |r| == |s| && forall i :: 0 <= i < |s| ==> r[i] == s[|s| - 1 - i]
  {
    if s == [] then [] else [s[|s| - 1]] + Reversed(s[..|s| - 1])
  }

  function Descending(ks: set<nat>): (r: seq<nat>)
    ensures forall i, j :: 0 <= i < j < |r| ==> r[i] > r[j]
    ensures forall k :: k in r <==> k in ks
    ensures Ordered(false, r)
  {
    var up := Ascending(ks);
    var r := Reversed(up);
    assert forall i :: 0 <= i < |up| ==> up[i] == r[|up| - 1 - i];
    r
  }

  // ---------------------------------------------------------------- batches under numeric keys

  predicate Increasing<V>(batch: seq<(nat, V)>) {
    forall i, j :: 0 <= i < j < |batch| ==> batch[i].0 < batch[j].0
  }

  function PutAll<V>(m: map<nat, V>, batch: seq<(nat, V)>): map<nat, V> {
    if batch == [] then m
    else PutAll(m, batch[..|batch| - 1])[batch[|batch| - 1].0 := batch[|batch| - 1].1]
  }

  lemma {:induction false} PutAllMeans<V>(m: map<nat, V>, batch: seq<(nat, V)>)
    requires Increasing(batch)
    ensures forall k :: k in PutAll(m, batch) <==> k in m || exists i :: 0 <= i < |batch| && batch[i].0 == k
    ensures forall i :: 0 <= i < |batch| ==> PutAll(m, batch)[batch[i].0] == batch[i].1
    ensures forall k :: k in m && (forall i :: 0 <= i < |batch| ==> batch[i].0 != k) ==> PutAll(m, batch)[k] == m[k]
    decreases |batch|
  {
    if batch != [] {
      var front := batch[..|batch| - 1];
      PutAllMeans(m, front);
      assert forall i :: 0 <= i < |front| ==> front[i] == batch[i];
    }
  }

  /** A batch that rewrites exactly the records a map changes turns the store into that map. */
  lemma PutAllIs<V>(m: map<nat, V>, batch: seq<(nat, V)>, target: map<nat, V>)
    requires Increasing(batch) && target.Keys == m.Keys
    requires forall i :: 0 <= i < |batch| ==> batch[i].0 in target && batch[i].1 == target[batch[i].0]
    requires forall k :: k in m ==> target[k] == m[k] || exists i :: 0 <= i < |batch| && batch[i].0 == k
    ensures PutAll(m, batch) == target
  {
    PutAllMeans(m, batch);
    var r := PutAll(m, batch);
    assert forall k :: k in r <==> k in target;
    forall k | k in r ensures r[k] == target[k] {
      if i :| 0 <= i < |batch| && batch[i].0 == k {
      } else {
        assert r[k] == m[k];
      }
    }
  }

  // ---------------------------------------------------------------- collecting a batch

  predicate Before(up: bool, a: nat, b: nat) { if up then a < b else a > b }

  predicate Ordered(up: bool, ks: seq<nat>) {
    forall i, j :: 0 <= i < j < |ks| ==> Before(up, ks[i], ks[j])
  }

  /** After `i` keys of a scan in the given direction, the batch holds, in scan order, the new
      record of exactly the keys whose record changes. */
  ghost predicate Collected<V>(m: map<nat, V>, target: map<nat, V>, up: bool, keys: seq<nat>, i: nat,
                               batch: seq<(nat, V)>)
  {
    && i <= |keys| && Ordered(up, keys) && target.Keys == m.Keys
    && (forall x, y :: 0 <= x < y < |batch| ==> Before(up, batch[x].0, batch[y].0))
    && (forall x, j :: 0 <= x < |batch| && i <= j < |keys| ==> Before(up, batch[x].0, keys[j]))
    && (forall x :: 0 <= x < |batch| ==> batch[x].0 in m && batch[x].1 == target[batch[x].0])
    && (forall j :: 0 <= j < i ==>
          keys[j] in m && (target[keys[j]] == m[keys[j]] || exists x :: 0 <= x < |batch| && batch[x].0 == keys[j]))
  }

  lemma CollectStart<V>(m: map<nat, V>, target: map<nat, V>, up: bool, keys: seq<nat>)
    requires Ordered(up, keys) && target.Keys == m.Keys
    ensures Collected(m, target, up, keys, 0, [])
  {
  }

  lemma CollectSkip<V>(m: map<nat, V>, target: map<nat, V>, up: bool, keys: seq<nat>, i: nat, batch: seq<(nat, V)>)
    requires Collected(m, target, up, keys, i, batch) && i < |keys| && keys[i] in m
    requires target[keys[i]] == m[keys[i]]
    ensures Collected(m, target, up, keys, i + 1, batch)
  {
  }

  lemma CollectPush<V>(m: map<nat, V>, target: map<nat, V>, up: bool, keys: seq<nat>, i: nat, batch: seq<(nat, V)>)
    requires Collected(m, target, up, keys, i, batch) && i < |keys| && keys[i] in m
    ensures Collected(m, target, up, keys, i + 1, batch + [(keys[i], target[keys[i]])])
  {
    var more := batch + [(keys[i], target[keys[i]])];
    assert more[|batch|].0 == keys[i];
    assert forall x :: 0 <= x < |batch| ==> more[x] == batch[x];
  }

  // The batch as it is applied.
  function InKeyOrder<V>(up: bool, batch: seq<(nat, V)>): seq<(nat, V)> {
    if up then batch else Reversed(batch)
  }

  lemma CollectedSorted<V>(m: map<nat, V>, target: map<nat, V>, up: bool, keys: seq<nat>, i: nat, batch: seq<(nat, V)>)
    requires Collected(m, target, up, keys, i, batch)
    ensures |InKeyOrder(up, batch)| == |batch| && Increasing(InKeyOrder(up, batch))
    ensures forall x :: 0 <= x < |batch| ==> InKeyOrder(up, batch)[x] == batch[if up then x else |batch| - 1 - x]
    ensures forall x :: 0 <= x < |batch| ==> batch[x] == InKeyOrder(up, batch)[if up then x else |batch| - 1 - x]
  {
    if !up { ReversedIncreases(batch); }
  }

  lemma ReversedIncreases<V>(batch: seq<(nat, V)>)
    requires forall x, y :: 0 <= x < y < |batch| ==> batch[x].0 > batch[y].0
    ensures Increasing(Reversed(batch))
    ensures forall x :: 0 <= x < |batch| ==> batch[x] == Reversed(batch)[|batch| - 1 - x]
  {
    var r := Reversed(batch);
    forall x | 0 <= x < |batch| ensures batch[x] == r[|batch| - 1 - x] {
      assert r[|batch| - 1 - x] == batch[|batch| - 1 - (|batch| - 1 - x)];
    }
  }

  lemma CollectedCovers<V>(m: map<nat, V>, target: map<nat, V>, up: bool, keys: seq<nat>, batch: seq<(nat, V)>, k: nat)
    requires Collected(m, target, up, keys, |keys|, batch) && k in keys && k in m && target[k] != m[k]
    ensures exists x :: 0 <= x < |batch| && batch[x].0 == k
  {
    var j :| 0 <= j < |keys| && keys[j] == k;
  }

  /** Applied in increasing key order, the batch of a complete scan gives the new map, if that changes
      no record the scan does not find. */
  lemma CollectDone<V>(m: map<nat, V>, target: map<nat, V>, up: bool, keys: seq<nat>, batch: seq<(nat, V)>)
    requires Collected(m, target, up, keys, |keys|, batch)
    requires forall k :: k in m ==> k in keys || target[k] == m[k]
    ensures Increasing(InKeyOrder(up, batch)) && PutAll(m, InKeyOrder(up, batch)) == target
  {
    var sorted := InKeyOrder(up, batch);
    CollectedSorted(m, target, up, keys, |keys|, batch);
    assert |sorted| == |batch|;
    hide InKeyOrder;
    forall k | k in m
      ensures target[k] == m[k] || exists x :: 0 <= x < |sorted| && sorted[x].0 == k
    {
      if target[k] != m[k] {
        CollectedCovers(m, target, up, keys, batch, k);
        var x :| 0 <= x < |batch| && batch[x].0 == k;
        assert sorted[if up then x else |batch| - 1 - x].0 == k;
      }
    }
    PutAllIs(m, sorted, target);
  }

  lemma EmptyBatch<V>(m: map<nat, V>)
    ensures Reversed<(nat, V)>([]) == [] && PutAll(m, []) == m
  {
  }

  // ---------------------------------------------------------------- loops over the store

  lemma OneFewerLeft<T>(all: set<T>, remaining: set<T>, k: T)
    requires k in remaining
    ensures |all - (remaining - {k})| == |all - remaining| + if k in all then 1 else 0
  {
    if k in all {
      assert all - (remaining - {k}) == (all - remaining) + {k};
    } else {
      assert all - (remaining - {k}) == all - remaining;
    }
  }

  /** Counts the balance entries and the non-zero ones, one entry at a time. */
  method CountBalances(balances: Balances) returns (counts: AccountCounts)
    ensures counts == Recount(balances)
  {
    var unique, nonZero := 0, 0;
    var remaining := balances.Keys;
    ghost var keys, positive := balances.Keys, NonZeroHoldings(balances);
    assert forall k :: k in keys ==> (k in positive <==> balances[k] != 0);
    assert keys - remaining == {} && positive - remaining == {};
    while remaining != {}
      invariant remaining <= keys
      invariant unique == |keys - remaining| && nonZero == |positive - remaining|
      decreases remaining
    {
      var k :| k in remaining;
      OneFewerLeft(keys, remaining, k);
      OneFewerLeft(positive, remaining, k);
      unique := unique + 1;
      if balances[k] != 0 {
        nonZero := nonZero + 1;
      }
      remaining := remaining - {k};
    }
    assert keys - remaining == keys && positive - remaining == positive;
    counts := AccountCounts(unique, nonZero);
  }

  /** Adds up the initial balances symbol by symbol. */
  method TotalSupply(balances: Balances) returns (supply: map<Symbol, nat>)
    ensures forall k :: k in balances ==> k.symbol in supply
    ensures forall symbol :: symbol in supply ==> exists k :: k in balances && k.symbol == symbol
    ensures forall symbol :: symbol in supply ==> supply[symbol] == Total(balances, symbol)
  {
    hide Total;
    supply := map[];
    ghost var done: Balances := map[];
    var remaining := balances.Keys;
    assert Summed(done, supply);
    while remaining != {}
      invariant remaining <= balances.Keys
      invariant done == map k | k in balances && k !in remaining :: balances[k]
      invariant Summed(done, supply)
      decreases remaining
    {
      var k :| k in remaining;
      SummedStep(done, supply, k, balances[k]);
      done := done[k := balances[k]];
      supply := supply[k.symbol := (if k.symbol in supply then supply[k.symbol] else 0) + balances[k]];
      remaining := remaining - {k};
    }
    assert done == balances;
  }

  // The sums cover exactly the symbols held.
  ghost predicate Summed(balances: Balances, supply: map<Symbol, nat>) {
    && (forall k :: k in balances ==> k.symbol in supply)
    && (forall symbol :: symbol in supply ==> exists k :: k in balances && k.symbol == symbol)
    && (forall symbol :: symbol in supply ==> supply[symbol] == Total(balances, symbol))
  }

  lemma SummedStep(balances: Balances, supply: map<Symbol, nat>, k: Holding, amount: nat)
    requires Summed(balances, supply) && k !in balances
    ensures Summed(balances[k := amount],
                   supply[k.symbol := (if k.symbol in supply then supply[k.symbol] else 0) + amount])
  {
    var more := balances[k := amount];
    var supply' := supply[k.symbol := (if k.symbol in supply then supply[k.symbol] else 0) + amount];
    if k.symbol !in supply { TotalOfNothing(balances, k.symbol); }
    forall symbol | symbol in supply'
      ensures supply'[symbol] == Total(more, symbol) && exists h :: h in more && h.symbol == symbol
    {
      TotalPut(balances, symbol, k, amount);
      if symbol == k.symbol {
        assert k in more;
      } else {
        var h :| h in balances && h.symbol == symbol;
        assert h in more;
      }
    }
  }

  lemma GrantedAt(roles: Roles, added: Roles, x: Address)
    ensures x in AddAllRoles(roles, added) <==> x in roles || RolesOf(added, x) != {}
    ensures RolesOf(AddAllRoles(roles, added), x) == RolesOf(roles, x) + RolesOf(added, x)
  {
  }

  lemma GrantOne(roles: Roles, done: Roles, a: Address, granted: set<Role>, role: Role)
    ensures AddRole(AddAllRoles(roles, done[a := granted]), a, role) == AddAllRoles(roles, done[a := granted + {role}])
  {
    hide AddAllRoles;
    var before, after := AddAllRoles(roles, done[a := granted]), AddAllRoles(roles, done[a := granted + {role}]);
    var more := AddRole(before, a, role);
    assert role in granted + {role};
    forall x
      ensures x in more <==> x in after
      ensures RolesOf(more, x) == RolesOf(after, x)
    {
      GrantedAt(roles, done[a := granted], x);
      GrantedAt(roles, done[a := granted + {role}], x);
    }
    forall x | x in more ensures more[x] == after[x] {
      assert RolesOf(more, x) == more[x] && RolesOf(after, x) == after[x];
    }
  }

  lemma GrantNone(roles: Roles, done: Roles, a: Address)
    requires a !in done
    ensures AddAllRoles(roles, done[a := {}]) == AddAllRoles(roles, done)
  {
  }

  lemma TakeOne(roles: Roles, done: Roles, a: Address, taken: set<Role>, role: Role)
    ensures RemoveRole(RemoveAllRoles(roles, done[a := taken]), a, role)
            == RemoveAllRoles(roles, done[a := taken + {role}])
  {
    var before, after := RemoveAllRoles(roles, done[a := taken]), RemoveAllRoles(roles, done[a := taken + {role}]);
    if a in roles { assert before[a] - {role} == after[a]; }
    assert RemoveRole(before, a, role) == after;
  }

  lemma TakeNone(roles: Roles, done: Roles, a: Address)
    requires a !in done
    ensures RemoveAllRoles(roles, done[a := {}]) == RemoveAllRoles(roles, done)
  {
    assert forall x :: x in roles && x != a ==> RolesOf(done[a := {}], x) == RolesOf(done, x);
  }

  /** Grants every listed role, one at a time. */
  method AddEachRole(roles: Roles, added: Roles) returns (r: Roles)
    ensures r == AddAllRoles(roles, added)
  {
    r := roles;
    ghost var done: Roles := map[];
    NothingTaken(roles);
    hide AddAllRoles, AddRole;
    var remaining := added.Keys;
    while remaining != {}
      invariant remaining <= added.Keys
      invariant done == map a | a in added && a !in remaining :: added[a]
      invariant r == AddAllRoles(roles, done)
      decreases remaining
    {
      var a :| a in remaining;
      r := AddRolesTo(r, roles, done, a, added[a]);
      done := done[a := added[a]];
      remaining := remaining - {a};
    }
    assert done == added;
  }

  // The inner loop: every role listed for one address.
  method AddRolesTo(roles: Roles, ghost start: Roles, ghost done: Roles, a: Address, listed: set<Role>)
    returns (r: Roles)
    requires a !in done && roles == AddAllRoles(start, done)
    ensures r == AddAllRoles(start, done[a := listed])
  {
    hide AddAllRoles, AddRole;
    r := roles;
    var left := listed;
    GrantNone(start, done, a);
    assert listed - left == {};
    while left != {}
      invariant left <= listed
      invariant r == AddAllRoles(start, done[a := listed - left])
      decreases left
    {
      var role :| role in left;
      GrantOne(start, done, a, listed - left, role);
      assert listed - (left - {role}) == (listed - left) + {role};
      r := AddRole(r, a, role);
      left := left - {role};
    }
    assert listed - left == listed;
  }

  /** Takes every listed role away, one at a time. */
  method RemoveEachRole(roles: Roles, removed: Roles) returns (r: Roles)
    ensures r == RemoveAllRoles(roles, removed)
  {
    r := roles;
    ghost var done: Roles := map[];
    NothingTaken(roles);
    hide RemoveAllRoles, RemoveRole;
    var remaining := removed.Keys;
    while remaining != {}
      invariant remaining <= removed.Keys
      invariant done == map a | a in removed && a !in remaining :: removed[a]
      invariant r == RemoveAllRoles(roles, done)
      decreases remaining
    {
      var a :| a in remaining;
      r := RemoveRolesFrom(r, roles, done, a, removed[a]);
      done := done[a := removed[a]];
      remaining := remaining - {a};
    }
    assert done == removed;
  }

  lemma NothingTaken(roles: Roles)
    ensures RemoveAllRoles(roles, map[]) == roles
    ensures AddAllRoles(roles, map[]) == roles
  {
    assert forall a :: a in roles ==> roles[a] - {} == roles[a] && roles[a] + {} == roles[a];
  }

  method RemoveRolesFrom(roles: Roles, ghost start: Roles, ghost done: Roles, a: Address, listed: set<Role>)
    returns (r: Roles)
    requires a !in done && roles == RemoveAllRoles(start, done)
    ensures r == RemoveAllRoles(start, done[a := listed])
  {
    hide RemoveAllRoles, RemoveRole;
    r := roles;
    var left := listed;
    TakeNone(start, done, a);
    assert listed - left == {};
    while left != {}
      invariant left <= listed
      invariant r == RemoveAllRoles(start, done[a := listed - left])
      decreases left
    {
      var role :| role in left;
      TakeOne(start, done, a, listed - left, role);
      assert listed - (left - {role}) == (listed - left) + {role};
      r := RemoveRole(r, a, role);
      left := left - {role};
    }
    assert listed - left == listed;
  }
}
