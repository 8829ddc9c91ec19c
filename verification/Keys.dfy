/** Store keys as byte strings: their order, the padded keys of events and transactions, and
    what a scan between two bounds visits. */
module Keys {
  import opened LedgerTypes

  const EVENT_ID_KEY_SIZE_IN_BYTES := 32

  // ---------------------------------------------------------------- the order of keys

  /** Lexicographic order, the order the store keeps its keys in. */
  predicate LexLess(a: Bytes, b: Bytes) {
    b != [] && (a == [] || a[0] < b[0] || (a[0] == b[0] && LexLess(a[1..], b[1..])))
  }

  lemma {:induction false} LexTotal(a: Bytes, b: Bytes)
    ensures LexLess(a, b) || LexLess(b, a) || a == b
    ensures !(LexLess(a, b) && LexLess(b, a))
    ensures a == b ==> !LexLess(a, b)
    decreases |a|
  {
    if a != [] && b != [] && a[0] == b[0] {
      LexTotal(a[1..], b[1..]);
      assert a == [a[0]] + a[1..] && b == [b[0]] + b[1..];
    }
  }

  lemma {:induction false} LexTransitive(a: Bytes, b: Bytes, c: Bytes)
    requires LexLess(a, b) && LexLess(b, c)
    ensures LexLess(a, c)
    decreases |a|
  {
    if a != [] && a[0] == b[0] == c[0] { LexTransitive(a[1..], b[1..], c[1..]); }
  }

  lemma {:induction false} LexPrefix(p: Bytes, a: Bytes, b: Bytes)
    ensures LexLess(p + a, p + b) <==> LexLess(a, b)
    decreases |p|
  {
    if p == [] {
      assert p + a == a && p + b == b;
    } else {
      LexPrefix(p[1..], a, b);
      assert (p + a)[1..] == p[1..] + a && (p + b)[1..] == p[1..] + b;
    }
  }

  lemma {:induction false} LexSnoc(a: Bytes, b: Bytes, x: nat, y: nat)
    requires |a| == |b|
    ensures LexLess(a + [x], b + [y]) <==> LexLess(a, b) || (a == b && x < y)
    decreases |a|
  {
    if a != [] {
      LexSnoc(a[1..], b[1..], x, y);
      assert (a + [x])[1..] == a[1..] + [x] && (b + [y])[1..] == b[1..] + [y];
      assert a == [a[0]] + a[1..] && b == [b[0]] + b[1..];
    }
  }

  // ---------------------------------------------------------------- byte strings as numbers

  predicate IsBytes(s: Bytes) {
    forall i :: 0 <= i < |s| ==> s[i] < 256
  }

  // The big-endian value of a byte string; leading zeros do not count.
  function Val(s: Bytes): nat {
    if s == [] then 0 else 256 * Val(s[..|s| - 1]) + s[|s| - 1]
  }

  function ToBytes(n: nat): (s: Bytes)
    ensures IsBytes(s) && Val(s) == n && |s| > 0
  {
    if n < 256 then [n] else ToBytes(n / 256) + [n % 256]
  }

  function Pow256(k: nat): nat {
    if k == 0 then 1 else 256 * Pow256(k - 1)
  }

  lemma {:induction false} ToBytesFits(n: nat, k: nat)
    requires k > 0
    ensures |ToBytes(n)| <= k <==> n < Pow256(k)
    decreases k
  {
    if n >= 256 && k > 1 {
      ToBytesFits(n / 256, k - 1);
    } else if n < 256 {
      PowPositive(k - 1);
    }
  }

  lemma {:induction false} PowPositive(k: nat)
    ensures Pow256(k) >= 1
  {
    if k > 0 { PowPositive(k - 1); }
  }

  lemma {:induction false} ValueBelow(s: Bytes)
    requires IsBytes(s)
    ensures Val(s) < Pow256(|s|)
    decreases |s|
  {
    if s != [] { ValueBelow(s[..|s| - 1]); }
  }

  lemma {:induction false} PowGrows(a: nat, b: nat)
    requires a <= b
    ensures Pow256(a) <= Pow256(b)
    decreases b
  {
    if a < b { PowGrows(a, b - 1); }
  }

  /** For byte strings of equal length the order of keys is the order of numbers. */
  lemma {:induction false} LexIsNumeric(a: Bytes, b: Bytes)
    requires |a| == |b| && IsBytes(a) && IsBytes(b)
    ensures LexLess(a, b) <==> Val(a) < Val(b)
    ensures a == b <==> Val(a) == Val(b)
    decreases |a|
  {
    if a != [] {
      var fa, fb := a[..|a| - 1], b[..|b| - 1];
      LexIsNumeric(fa, fb);
      LexSnoc(fa, fb, a[|a| - 1], b[|b| - 1]);
      assert a == fa + [a[|a| - 1]] && b == fb + [b[|b| - 1]];
    }
  }

  function Zeros(n: nat): (z: Bytes)
    ensures |z| == n && IsBytes(z) && forall i :: 0 <= i < n ==> z[i] == 0
  {
    if n == 0 then [] else Zeros(n - 1) + [0]
  }

  lemma {:induction false} LeadingZeros(n: nat, s: Bytes)
    ensures Val(Zeros(n) + s) == Val(s)
    decreases n + |s|
  {
    if s != [] {
      LeadingZeros(n, s[..|s| - 1]);
      assert (Zeros(n) + s)[..n + |s| - 1] == Zeros(n) + s[..|s| - 1];
    } else if n > 0 {
      LeadingZeros(n - 1, s);
      assert Zeros(n) + s == Zeros(n) && Zeros(n - 1) + s == Zeros(n - 1);
      assert Zeros(n)[..n - 1] == Zeros(n - 1);
    }
  }

  // ---------------------------------------------------------------- padded keys

  // "/events/", "/multisig/" and "/events_count" in ASCII.
  const EVENTS_ROOT: Bytes := [47, 101, 118, 101, 110, 116, 115, 47]
  const MULTISIG_TRANSACTIONS_ROOT: Bytes := [47, 109, 117, 108, 116, 105, 115, 105, 103, 47]
  const EVENT_COUNT_ROOT: Bytes := [47, 101, 118, 101, 110, 116, 115, 95, 99, 111, 117, 110, 116]

  function Cut(id: Bytes): (r: Bytes)
    ensures |r| <= EVENT_ID_KEY_SIZE_IN_BYTES
  {
    if |id| > EVENT_ID_KEY_SIZE_IN_BYTES then id[..EVENT_ID_KEY_SIZE_IN_BYTES] else id
  }

  /** An identifier cut to its first 32 bytes and padded with zeros on the left to 32. */
  function Padded(id: Bytes): (r: Bytes)
    ensures |r| == EVENT_ID_KEY_SIZE_IN_BYTES
  {
    Zeros(EVENT_ID_KEY_SIZE_IN_BYTES - |Cut(id)|) + Cut(id)
  }

  function EventKey(id: Bytes): Bytes { EVENTS_ROOT + Padded(id) }

  function MultisigKey(token: Bytes): Bytes { MULTISIG_TRANSACTIONS_ROOT + Padded(token) }

  predicate FitsKey(id: Bytes) {
    IsBytes(id) && |id| <= EVENT_ID_KEY_SIZE_IN_BYTES
  }

  /** Keys of identifiers of at most 32 bytes are equal exactly when the identifiers are the
      same number, and ordered as the numbers are; multisig keys alike. */
  lemma KeysAreNumeric(a: Bytes, b: Bytes)
    requires FitsKey(a) && FitsKey(b)
    ensures LexLess(EventKey(a), EventKey(b)) <==> Val(a) < Val(b)
    ensures EventKey(a) == EventKey(b) <==> Val(a) == Val(b)
    ensures LexLess(MultisigKey(a), MultisigKey(b)) <==> Val(a) < Val(b)
    ensures MultisigKey(a) == MultisigKey(b) <==> Val(a) == Val(b)
  {
    hide Padded, LexLess, Val;
    PaddedNumeric(a, b);
    LexPrefix(EVENTS_ROOT, Padded(a), Padded(b));
    LexPrefix(MULTISIG_TRANSACTIONS_ROOT, Padded(a), Padded(b));
    SamePrefix(EVENTS_ROOT, Padded(a), Padded(b));
    SamePrefix(MULTISIG_TRANSACTIONS_ROOT, Padded(a), Padded(b));
  }

  lemma ValBelow(id: Bytes)
    requires FitsKey(id)
    ensures Val(id) < Pow256(EVENT_ID_KEY_SIZE_IN_BYTES)
  {
    ValueBelow(id);
    PowGrows(|id|, EVENT_ID_KEY_SIZE_IN_BYTES);
  }

  lemma SamePrefix(p: Bytes, a: Bytes, b: Bytes)
    ensures p + a == p + b <==> a == b
  {
    assert a == (p + a)[|p|..] && b == (p + b)[|p|..];
  }

  lemma PaddedValue(id: Bytes)
    requires FitsKey(id)
    ensures IsBytes(Padded(id)) && Val(Padded(id)) == Val(id)
  {
    var zeros := Zeros(EVENT_ID_KEY_SIZE_IN_BYTES - |id|);
    assert Padded(id) == zeros + id;
    hide Padded, Zeros;
    LeadingZeros(EVENT_ID_KEY_SIZE_IN_BYTES - |id|, id);
  }

  lemma PaddedNumeric(a: Bytes, b: Bytes)
    requires FitsKey(a) && FitsKey(b)
    ensures LexLess(Padded(a), Padded(b)) <==> Val(a) < Val(b)
    ensures Padded(a) == Padded(b) <==> Val(a) == Val(b)
  {
    hide Padded, LexLess, Val, IsBytes;
    PaddedValue(a);
    PaddedValue(b);
    LexIsNumeric(Padded(a), Padded(b));
  }

  // The key of the identifier keeps its value.
  predicate KeepsValue(id: Bytes) {
    |id| <= EVENT_ID_KEY_SIZE_IN_BYTES || Val(id) == 0
  }

  lemma {:induction false} CutAtMost(id: Bytes)
    requires |id| > EVENT_ID_KEY_SIZE_IN_BYTES
    ensures Val(id) >= 256 * Val(Cut(id))
    decreases |id|
  {
    var front := id[..|id| - 1];
    if |front| > EVENT_ID_KEY_SIZE_IN_BYTES {
      CutAtMost(front);
      assert Cut(front) == Cut(id);
    }
  }

  lemma CutValue(id: Bytes)
    requires IsBytes(id)
    ensures FitsKey(Cut(id)) && EventKey(id) == EventKey(Cut(id)) && Val(Cut(id)) <= Val(id)
    ensures Val(Cut(id)) == Val(id) <==> KeepsValue(id)
  {
    assert Cut(Cut(id)) == Cut(id);
    if |id| > EVENT_ID_KEY_SIZE_IN_BYTES { CutAtMost(id); }
  }

  /** The key of an identifier of any length stands for its number, against every identifier that
      fits, exactly when the identifier has at most 32 bytes or is zero. */
  lemma KeyExact(id: Bytes)
    requires IsBytes(id)
    ensures (forall b :: FitsKey(b) ==> (EventKey(b) == EventKey(id) <==> Val(b) == Val(id))) <==> KeepsValue(id)
    ensures (forall b :: FitsKey(b) ==> (LexLess(EventKey(b), EventKey(id)) <==> Val(b) < Val(id))) <==> KeepsValue(id)
  {
    hide EventKey, Padded, LexLess, Val, Cut, KeepsValue, IsBytes;
    CutValue(id);
    forall b | FitsKey(b)
      ensures EventKey(b) == EventKey(id) <==> Val(b) == Val(Cut(id))
      ensures LexLess(EventKey(b), EventKey(id)) <==> Val(b) < Val(Cut(id))
    {
      KeysAreNumeric(b, Cut(id));
    }
    if !KeepsValue(id) {
      assert FitsKey(Cut(id)) && Val(Cut(id)) < Val(id);
      assert EventKey(Cut(id)) == EventKey(id) && !LexLess(EventKey(Cut(id)), EventKey(id));
    }
  }

  /** Longer identifiers are cut: one byte more and the order is lost. */
  lemma LongIdsCollide()
    ensures var a, b := [1] + Zeros(32), [1] + Zeros(31) + [1];
            Val(a) < Val(b) && EventKey(a) == EventKey(b)
  {
    var a, b := [1] + Zeros(32), [1] + Zeros(31) + [1];
    assert Zeros(32) == Zeros(31) + [0];
    assert a[..32] == b[..32];
    assert a[..32] == a[..|a| - 1] && b[..32] == b[..|b| - 1];
  }

  /** The batch of one logged event, its entry and the count, is in key order. */
  lemma LogBatchSorted(id: Bytes)
    ensures LexLess(EventKey(id), EVENT_COUNT_ROOT)
  {
    var p: Bytes := [47, 101, 118, 101, 110, 116, 115];
    var rest := [47] + Padded(id);
    assert EventKey(id) == p + rest;
    assert EVENT_COUNT_ROOT == p + [95, 99, 111, 117, 110, 116];
    LexPrefix(p, rest, [95, 99, 111, 117, 110, 116]);
  }

  // ---------------------------------------------------------------- scans

  datatype Bound = Unbounded | Included(id: Bytes) | Excluded(id: Bytes)

  function Successor(id: Bytes): Bytes { ToBytes(Val(id) + 1) }

  // The identifier whose key is the inclusive lower bound of a scan, if there is one.
  function LowerId(start: Bound): Option<Bytes> {
    match start
    case Included(x) => Some(x)
    case Excluded(x) => Some(Successor(x))
    case Unbounded => None
  }

  // The identifier whose key is the exclusive upper bound of a scan.
  function UpperId(end: Bound): Option<Bytes> {
    match end
    case Included(x) => Some(Successor(x))
    case Excluded(x) => Some(x)
    case Unbounded => None
  }

  // Without an upper bound the last byte of the root is incremented.
  const EVENTS_END: Bytes := [47, 101, 118, 101, 110, 116, 115, 48]

  function LowerKey(start: Bound): Bytes {
    if LowerId(start).Some? then EventKey(LowerId(start).value) else EVENTS_ROOT
  }

  function UpperKey(end: Bound): Bytes {
    if UpperId(end).Some? then EventKey(UpperId(end).value) else EVENTS_END
  }

  predicate Scanned(key: Bytes, start: Bound, end: Bound) {
    !LexLess(key, LowerKey(start)) && LexLess(key, UpperKey(end))
  }

  predicate InRange(n: nat, start: Bound, end: Bound) {
    && (match start
        case Included(x) => Val(x) <= n
        case Excluded(x) => Val(x) < n
        case Unbounded => true)
    && (match end
        case Included(x) => n <= Val(x)
        case Excluded(x) => n < Val(x)
        case Unbounded => true)
  }

  predicate IsBound(b: Bound) {
    b.Unbounded? || IsBytes(b.id)
  }

  // Both bounds stand for their numbers: an identifier compared with has at most 32 bytes or is
  // zero, one that is incremented first lies below 2^256 - 1.
  predicate BoundsFit(start: Bound, end: Bound) {
    && (start.Included? ==> KeepsValue(start.id)) && (start.Excluded? ==> Val(start.id) + 1 < Pow256(32))
    && (end.Excluded? ==> KeepsValue(end.id)) && (end.Included? ==> Val(end.id) + 1 < Pow256(32))
  }

  lemma SuccessorKeeps(id: Bytes)
    ensures Val(Successor(id)) == Val(id) + 1 && IsBytes(Successor(id))
    ensures KeepsValue(Successor(id)) <==> Val(id) + 1 < Pow256(32)
  {
    ToBytesFits(Val(id) + 1, 32);
  }

  lemma BoundsKeep(start: Bound, end: Bound)
    requires IsBound(start) && IsBound(end)
    ensures BoundsFit(start, end) <==>
            && (LowerId(start).Some? ==> KeepsValue(LowerId(start).value))
            && (UpperId(end).Some? ==> KeepsValue(UpperId(end).value))
    ensures LowerId(start).Some? ==> IsBytes(LowerId(start).value)
    ensures UpperId(end).Some? ==> IsBytes(UpperId(end).value)
    ensures forall n: nat :: InRange(n, start, end) <==>
              && (LowerId(start).Some? ==> Val(LowerId(start).value) <= n)
              && (UpperId(end).Some? ==> n < Val(UpperId(end).value))
  {
    if start.Excluded? { SuccessorKeeps(start.id); }
    if end.Included? { SuccessorKeeps(end.id); }
  }

  /** A scan visits the events whose identifiers lie in the range, for every combination of bounds
      that fit. */
  lemma ScanVisitsRange(id: Bytes, start: Bound, end: Bound)
    requires FitsKey(id) && IsBound(start) && IsBound(end) && BoundsFit(start, end)
    ensures Scanned(EventKey(id), start, end) <==> InRange(Val(id), start, end)
  {
    hide EventKey, LexLess, Val, InRange, BoundsFit, KeepsValue, IsBytes;
    BoundsKeep(start, end);
    EventUnderRoot(id);
    if LowerId(start).Some? { KeyExact(LowerId(start).value); }
    if UpperId(end).Some? { KeyExact(UpperId(end).value); }
  }

  /** A bound that does not fit lets a scan go wrong, already without the other one: so a scan from
      a bound, and a scan to a bound, visits its range exactly when the bound fits. */
  lemma BoundExact(b: Bound)
    requires IsBound(b)
    ensures (forall id :: FitsKey(id) ==> (Scanned(EventKey(id), b, Unbounded) <==> InRange(Val(id), b, Unbounded)))
            <==> BoundsFit(b, Unbounded)
    ensures (forall id :: FitsKey(id) ==> (Scanned(EventKey(id), Unbounded, b) <==> InRange(Val(id), Unbounded, b)))
            <==> BoundsFit(Unbounded, b)
  {
    hide EventKey, LexLess, Val, InRange, BoundsFit, KeepsValue, IsBytes, FitsKey;
    BoundsKeep(b, Unbounded);
    BoundsKeep(Unbounded, b);
    FromExact(b);
    ToExact(b);
  }

  lemma FromExact(b: Bound)
    requires IsBound(b)
    ensures (forall id :: FitsKey(id) ==> (Scanned(EventKey(id), b, Unbounded) <==> InRange(Val(id), b, Unbounded)))
            <==> (LowerId(b).Some? ==> KeepsValue(LowerId(b).value))
  {
    hide EventKey, LexLess, Val, InRange, BoundsFit, KeepsValue, IsBytes, FitsKey;
    BoundsKeep(b, Unbounded);
    forall id | FitsKey(id) ensures LexLess(EventKey(id), EVENTS_END) && !LexLess(EventKey(id), EVENTS_ROOT) {
      EventUnderRoot(id);
    }
    if LowerId(b).Some? { KeyExact(LowerId(b).value); }
  }

  lemma ToExact(b: Bound)
    requires IsBound(b)
    ensures (forall id :: FitsKey(id) ==> (Scanned(EventKey(id), Unbounded, b) <==> InRange(Val(id), Unbounded, b)))
            <==> (UpperId(b).Some? ==> KeepsValue(UpperId(b).value))
  {
    hide EventKey, LexLess, Val, InRange, BoundsFit, KeepsValue, IsBytes, FitsKey;
    BoundsKeep(Unbounded, b);
    forall id | FitsKey(id) ensures LexLess(EventKey(id), EVENTS_END) && !LexLess(EventKey(id), EVENTS_ROOT) {
      EventUnderRoot(id);
    }
    if UpperId(b).Some? { KeyExact(UpperId(b).value); }
  }

  lemma EventUnderRoot(id: Bytes)
    ensures !LexLess(EventKey(id), EVENTS_ROOT) && LexLess(EventKey(id), EVENTS_END)
  {
    LexPrefix(EVENTS_ROOT, Padded(id), []);
    assert EVENTS_ROOT + [] == EVENTS_ROOT;
    BelowEnd(Padded(id));
  }

  lemma BelowEnd(rest: Bytes)
    ensures LexLess(EVENTS_ROOT + rest, EVENTS_END)
  {
    var p: Bytes := [47, 101, 118, 101, 110, 116, 115];
    assert EVENTS_ROOT + rest == p + ([47] + rest);
    assert EVENTS_END == p + [48];
    LexPrefix(p, [47] + rest, [48]);
  }

  lemma {:induction false} BetweenHasPrefix(q: Bytes, c: nat, key: Bytes)
    requires !LexLess(key, q + [c]) && LexLess(key, q + [c + 1])
    ensures q + [c] <= key
    decreases |q|
  {
    if q == [] {
      assert q + [c] == [c] && q + [c + 1] == [c + 1];
      assert key[0] == c;
    } else {
      assert (q + [c])[1..] == q[1..] + [c] && (q + [c + 1])[1..] == q[1..] + [c + 1];
      BetweenHasPrefix(q[1..], c, key[1..]);
      assert key == [key[0]] + key[1..] && q + [c] == [q[0]] + (q[1..] + [c]);
    }
  }

  /** A scan visits nothing but keys under the event root; not the event count in particular. */
  lemma ScanStaysInside(key: Bytes, start: Bound, end: Bound)
    requires Scanned(key, start, end)
    ensures EVENTS_ROOT <= key && key != EVENT_COUNT_ROOT
  {
    BoundsUnderRoot(start, end);
    Between(key, LowerKey(start), UpperKey(end), EVENTS_ROOT, EVENTS_END);
    UnderRoot(key);
    hide LexLess, LowerKey, UpperKey;
  }

  lemma Between(key: Bytes, lower: Bytes, upper: Bytes, from: Bytes, to: Bytes)
    requires !LexLess(key, lower) && LexLess(key, upper)
    requires !LexLess(lower, from) && (upper == to || LexLess(upper, to))
    ensures !LexLess(key, from) && LexLess(key, to)
  {
    hide LexLess;
    if LexLess(key, from) {
      LexTotal(lower, from);
      if lower != from { LexTransitive(key, from, lower); }
      assert false;
    }
    if upper != to { LexTransitive(key, upper, to); }
  }

  lemma UnderRoot(key: Bytes)
    requires !LexLess(key, EVENTS_ROOT) && LexLess(key, EVENTS_END)
    ensures EVENTS_ROOT <= key && key != EVENT_COUNT_ROOT
  {
    hide LexLess;
    var p: Bytes := [47, 101, 118, 101, 110, 116, 115];
    assert p + [47] == EVENTS_ROOT && p + [48] == EVENTS_END;
    BetweenHasPrefix(p, 47, key);
    assert EVENT_COUNT_ROOT[7] == 95;
  }

  lemma BoundsUnderRoot(start: Bound, end: Bound)
    ensures !LexLess(LowerKey(start), EVENTS_ROOT)
    ensures UpperKey(end) == EVENTS_END || LexLess(UpperKey(end), EVENTS_END)
  {
    LexTotal(EVENTS_ROOT, EVENTS_ROOT);
    if LowerId(start).Some? { EventUnderRoot(LowerId(start).value); }
    if UpperId(end).Some? { EventUnderRoot(UpperId(end).value); }
    hide EventKey, LexLess;
  }

  // ---------------------------------------------------------------- batches

  /** The store accepts a batch only if its keys strictly increase. */
  predicate StrictlySorted(keys: seq<Bytes>) {
    forall i, j :: 0 <= i < j < |keys| ==> LexLess(keys[i], keys[j])
  }

  // An injective printing of addresses; printed addresses hold no slash.
  ghost predicate PrintsInjectively(text: Address -> Bytes) {
    forall a, b :: text(a) == text(b) ==> a == b
  }

  const BALANCES_ROOT: Bytes := [47, 98, 97, 108, 97, 110, 99, 101, 115, 47]

  function BalanceKey(text: Address -> Bytes, k: Holding): Bytes {
    BALANCES_ROOT + text(k.owner) + [47] + text(k.symbol)
  }

  lemma SameSymbolKeysDiffer(text: Address -> Bytes, a: Address, b: Address, symbol: Symbol)
    requires PrintsInjectively(text) && a != b
    ensures BalanceKey(text, Holding(a, symbol)) != BalanceKey(text, Holding(b, symbol))
  {
    var ka, kb := BalanceKey(text, Holding(a, symbol)), BalanceKey(text, Holding(b, symbol));
    var tail := [47] + text(symbol);
    assert ka == BALANCES_ROOT + text(a) + tail && kb == BALANCES_ROOT + text(b) + tail;
    assert text(a) == ka[10..|ka| - |tail|];
    assert text(b) == kb[10..|kb| - |tail|];
  }
}
