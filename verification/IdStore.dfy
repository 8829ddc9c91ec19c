/** The identity store: seeds become recall phrases, phrases and addresses resolve to credentials. */
module IdStores {
  import opened LedgerTypes

  // ---------------------------------------------------------------- phrases

  // A recall phrase as indices into the list of 2048 distinct words.
  type Phrase = seq<nat>

  function Pow2(k: nat): (r: nat)
    ensures r >= 1
  {
    if k == 0 then 1 else 2 * Pow2(k - 1)
  }

  function Pow2048(k: nat): nat {
    if k == 0 then 1 else 2048 * Pow2048(k - 1)
  }

  // The words of an 11-bit packing, most significant first.
  function Words(n: nat, count: nat): (r: Phrase)
    ensures |r| == count && forall i :: 0 <= i < |r| ==> r[i] < 2048
  {
    if count == 0 then [] else Words(n / 2048, count - 1) + [n % 2048]
  }

  // Words, entropy bytes and checksum bits of each tier of seeds.
  datatype Tier = Tier(words: nat, bytes: nat, checksumBits: nat)

  function TierOf(seed: nat): Option<Tier> {
    if seed <= 0xFFFF then Some(Tier(2, 2, 6))
    else if seed <= 0xFF_FFFF then Some(Tier(3, 4, 1))
    else if seed <= 0xFFFF_FFFF then Some(Tier(4, 5, 4))
    else if seed <= 0xFF_FFFF_FFFF then Some(Tier(5, 6, 7))
    else None
  }

  const SEED_LIMIT: nat := 0x100_0000_0000

  // The checksum over an entropy value of so many bytes; only its leading bits are used.
  type Checksum = (nat, nat) -> nat

  function Packed(checksum: Checksum, seed: nat, t: Tier): nat {
    seed * Pow2(t.checksumBits) + checksum(seed, t.bytes) % Pow2(t.checksumBits)
  }

  /** The recall phrase of a seed: the entropy followed by its checksum, cut into 11-bit words. */
  function PhraseOf(checksum: Checksum, seed: nat): Phrase
    requires seed < SEED_LIMIT
  {
    var t := TierOf(seed).value;
    Words(Packed(checksum, seed, t), t.words)
  }

  lemma {:induction false} WordsInjective(a: nat, b: nat, count: nat)
    requires a < Pow2048(count) && b < Pow2048(count) && Words(a, count) == Words(b, count)
    ensures a == b
    decreases count
  {
    if count > 0 {
      var wa, wb := Words(a, count), Words(b, count);
      assert wa[..count - 1] == Words(a / 2048, count - 1) && wa[count - 1] == a % 2048;
      assert wb[..count - 1] == Words(b / 2048, count - 1) && wb[count - 1] == b % 2048;
      WordsInjective(a / 2048, b / 2048, count - 1);
    }
  }

  lemma PackedFits(checksum: Checksum, seed: nat)
    requires seed < SEED_LIMIT
    ensures var t := TierOf(seed).value; Packed(checksum, seed, t) < Pow2048(t.words)
  {
    var t := TierOf(seed).value;
    var c := checksum(seed, t.bytes) % Pow2(t.checksumBits);
    Powers();
    match t.words {
      case 2 => assert seed * 64 + c < 0x1_0000 * 64;
      case 3 => assert seed * 2 + c < 0x1_0000_0000 * 2;
      case 4 => assert seed * 16 + c < 0x100_0000_0000 * 16;
      case 5 => assert seed * 128 + c < 0x1_0000_0000_0000 * 128;
    }
  }

  lemma Powers()
    ensures Pow2(6) == 64 && Pow2(1) == 2 && Pow2(4) == 16 && Pow2(7) == 128
    ensures Pow2048(2) == 0x40_0000 && Pow2048(3) == 0x2_0000_0000
    ensures Pow2048(4) == 0x1000_0000_0000 && Pow2048(5) == 0x80_0000_0000_0000
  {
    assert Pow2(2) == 4 && Pow2(3) == 8 && Pow2(4) == 16 && Pow2(5) == 32;
    assert Pow2048(1) == 2048 && Pow2048(2) == 0x40_0000 && Pow2048(3) == 0x2_0000_0000;
  }

  /** Distinct seeds below 2^40 have distinct phrases, whatever the checksum. */
  lemma PhrasesInjective(checksum: Checksum, a: nat, b: nat)
    requires a < SEED_LIMIT && b < SEED_LIMIT && PhraseOf(checksum, a) == PhraseOf(checksum, b)
    ensures a == b
  {
    var ta, tb := TierOf(a).value, TierOf(b).value;
    PackedFits(checksum, a);
    PackedFits(checksum, b);
    assert |PhraseOf(checksum, a)| == ta.words && |PhraseOf(checksum, b)| == tb.words;
    WordsInjective(Packed(checksum, a, ta), Packed(checksum, b, tb), ta.words);
    Powers();
    SameEntropy(a, b, checksum(a, ta.bytes) % Pow2(ta.checksumBits), checksum(b, tb.bytes) % Pow2(ta.checksumBits),
                Pow2(ta.checksumBits));
  }

  lemma SameEntropy(a: nat, b: nat, c: nat, d: nat, p: nat)
    requires p == 2 || p == 16 || p == 64 || p == 128
    requires a * p + c == b * p + d && c < p && d < p
    ensures a == b
  {
    match p {
      case 2 => assert a * 2 + c == b * 2 + d;
      case 16 => assert a * 16 + c == b * 16 + d;
      case 64 => assert a * 64 + c == b * 64 + d;
      case 128 => assert a * 128 + c == b * 128 + d;
    }
  }

  // Reading a phrase back.
  function ValueOf(words: Phrase): nat {
    if words == [] then 0 else ValueOf(words[..|words| - 1]) * 2048 + words[|words| - 1]
  }

  lemma {:induction false} WordsValue(n: nat, count: nat)
    requires n < Pow2048(count)
    ensures ValueOf(Words(n, count)) == n
    decreases count
  {
    if count > 0 {
      WordsValue(n / 2048, count - 1);
      assert Words(n, count)[..count - 1] == Words(n / 2048, count - 1);
    }
  }

  /** How long the phrase of a seed is, that its first bits are the seed, and that the rest are the
      leading bits of the checksum over so many bytes of entropy. */
  lemma PhraseExact(checksum: Checksum, seed: nat)
    requires seed < 0x100_0000_0000
    ensures var p := PhraseOf(checksum, seed);
            if seed <= 0xFFFF
            then |p| == 2 && ValueOf(p) == seed * 64 + checksum(seed, 2) % 64
            else if seed <= 0xFF_FFFF
            then |p| == 3 && ValueOf(p) == seed * 2 + checksum(seed, 4) % 2
            else if seed <= 0xFFFF_FFFF
            then |p| == 4 && ValueOf(p) == seed * 16 + checksum(seed, 5) % 16
            else |p| == 5 && ValueOf(p) == seed * 128 + checksum(seed, 6) % 128
  {
    var t := TierOf(seed).value;
    PackedFits(checksum, seed);
    WordsValue(Packed(checksum, seed, t), t.words);
    Powers();
    hide Words, ValueOf;
  }

  // ---------------------------------------------------------------- storing

  datatype Credential = Credential(id: Bytes, key: Bytes)

  datatype IdState = IdState(seed: nat, phrases: map<Phrase, Credential>, addresses: map<Address, Credential>)

  datatype StoreArgs = StoreArgs(sender: Address, address: Address, credential: Credential, keyIsValid: bool)

  // `Panicked` is the unimplemented branch for seeds of 2^40 and more.
  datatype Answer = Stored(phrase: Phrase) | GenerationFailed | Refused | Panicked

  const MAXIMUM_TRIES: nat := 8

  predicate Acceptable(args: StoreArgs) {
    args.sender != Anonymous && args.address.PublicKey? && 16 <= |args.credential.id| <= 1023 && args.keyIsValid
  }

  // The outcome of the retry loop and the seed it leaves behind.
  function Search(checksum: Checksum, phrases: map<Phrase, Credential>, seed: nat, tries: nat): (Answer, nat)
    decreases tries
  {
    if tries == 0 then (GenerationFailed, seed)
    else if seed >= SEED_LIMIT then (Panicked, seed + 1)
    else if PhraseOf(checksum, seed) !in phrases then (Stored(PhraseOf(checksum, seed)), seed + 1)
    else Search(checksum, phrases, seed + 1, tries - 1)
  }

  function Store(checksum: Checksum, st: IdState, args: StoreArgs): (Answer, IdState) {
    if !Acceptable(args) then (Refused, st)
    else
      var (answer, seed) := Search(checksum, st.phrases, st.seed, MAXIMUM_TRIES);
      if answer.Stored? then
        (answer, IdState(seed, st.phrases[answer.phrase := args.credential],
                         st.addresses[args.address := args.credential]))
      else (answer, st.(seed := seed))
  }

  // What a phrase or an address resolves to.
  function Lookup<K(==)>(m: map<K, Credential>, k: K): Option<Credential> {
    if k in m then Some(m[k]) else None
  }

  class IdStore {
    var seed: nat
    var phrases: map<Phrase, Credential>
    var addresses: map<Address, Credential>
    const checksum: Checksum

    ghost function State(): IdState
      reads this
    {
      IdState(seed, phrases, addresses)
    }

    constructor (seed: nat, phrases: map<Phrase, Credential>, addresses: map<Address, Credential>, checksum: Checksum)
      ensures State() == IdState(seed, phrases, addresses) && this.checksum == checksum
    {
      this.seed, this.phrases, this.addresses, this.checksum := seed, phrases, addresses, checksum;
    }

    method IncIdStoreSeed() returns (current: nat)
      modifies this`seed
      ensures current == old(seed) && seed == current + 1
    {
      current := seed;
      seed := seed + 1;
    }

    /** Tries up to eight consecutive seeds and stores under the first phrase that is free. */
    method StoreCredential(args: StoreArgs) returns (answer: Answer)
      modifies this
      ensures (answer, State()) == Store(checksum, old(State()), args)
    {
      hide PhraseOf;
      if args.sender == Anonymous { return Refused; }
      if !args.address.PublicKey? { return Refused; }
      if !(16 <= |args.credential.id| <= 1023) { return Refused; }
      if !args.keyIsValid { return Refused; }
      var currentTry := 1;
      var phrase;
      while true
        invariant 1 <= currentTry <= MAXIMUM_TRIES + 1
        invariant phrases == old(phrases) && addresses == old(addresses)
        invariant Search(checksum, phrases, old(seed), MAXIMUM_TRIES)
               == Search(checksum, phrases, seed, MAXIMUM_TRIES + 1 - currentTry)
        decreases MAXIMUM_TRIES + 1 - currentTry
      {
        if currentTry > MAXIMUM_TRIES { return GenerationFailed; }
        var current := IncIdStoreSeed();
        if current >= SEED_LIMIT { return Panicked; }
        phrase := PhraseOf(checksum, current);
        var taken := GetFromRecallPhrase(phrase);
        if taken.Some? {
          currentTry := currentTry + 1;
        } else {
          break;
        }
      }
      phrases := phrases[phrase := args.credential];
      addresses := addresses[args.address := args.credential];
      answer := Stored(phrase);
    }

    method GetFromRecallPhrase(phrase: Phrase) returns (r: Option<Credential>)
      ensures r == Lookup(phrases, phrase)
    {
      if phrase in phrases { r := Some(phrases[phrase]); } else { r := None; }
    }

    method GetFromAddress(address: Address) returns (r: Option<Credential>)
      ensures r == Lookup(addresses, address)
    {
      if address in addresses { r := Some(addresses[address]); } else { r := None; }
    }
  }

  // ---------------------------------------------------------------- what callers rely on

  lemma {:induction false} SearchExact(checksum: Checksum, phrases: map<Phrase, Credential>, seed: nat, tries: nat)
    ensures var (answer, next) := Search(checksum, phrases, seed, tries);
            && (answer.GenerationFailed? <==>
                  && (tries == 0 || seed + tries <= SEED_LIMIT)
                  && forall k: nat :: seed <= k < seed + tries && k < SEED_LIMIT ==> PhraseOf(checksum, k) in phrases)
            && (answer.Stored? ==>
                  && seed < next <= seed + tries && next - 1 < SEED_LIMIT
                  && answer.phrase == PhraseOf(checksum, next - 1) && answer.phrase !in phrases
                  && forall k: nat :: seed <= k < next - 1 ==> PhraseOf(checksum, k) in phrases)
            && (answer.GenerationFailed? ==> next == seed + tries)
            && !answer.Refused?
    decreases tries
  {
    if tries > 0 && seed < SEED_LIMIT && PhraseOf(checksum, seed) in phrases {
      SearchExact(checksum, phrases, seed + 1, tries - 1);
    }
  }

  // The phrases of the seeds from `from` on, `to` apart, are all taken.
  ghost predicate AllTaken(checksum: Checksum, phrases: map<Phrase, Credential>, from: nat, to: nat)
    requires to <= 0x100_0000_0000
  {
    forall k: nat :: from <= k < to ==> PhraseOf(checksum, k) in phrases
  }

  // Tries so many seeds from `seed` on, the limit included as one that aborts.
  ghost predicate Tried(checksum: Checksum, phrases: map<Phrase, Credential>, seed: nat, tries: nat, answer: Answer,
                        next: nat)
  {
    match answer
    case Stored(phrase) =>
      && seed < next <= seed + tries && next <= 0x100_0000_0000
      && AllTaken(checksum, phrases, seed, next - 1) && phrase == PhraseOf(checksum, next - 1) && phrase !in phrases
    case GenerationFailed =>
      next == seed + tries && (tries == 0 || next <= 0x100_0000_0000)
      && AllTaken(checksum, phrases, seed, if next <= 0x100_0000_0000 then next else 0)
    case Panicked =>
      && 0x100_0000_0000 < next <= seed + tries && (next == seed + 1 || next == 0x100_0000_0001)
      && AllTaken(checksum, phrases, seed, 0x100_0000_0000)
    case Refused => false
  }

  lemma {:induction false} SearchTries(checksum: Checksum, phrases: map<Phrase, Credential>, seed: nat, tries: nat)
    ensures var (answer, next) := Search(checksum, phrases, seed, tries);
            Tried(checksum, phrases, seed, tries, answer, next)
    decreases tries
  {
    hide PhraseOf;
    if tries > 0 && seed < SEED_LIMIT && PhraseOf(checksum, seed) in phrases {
      SearchTries(checksum, phrases, seed + 1, tries - 1);
    }
  }

  /** What a request answers and leaves: it is refused exactly for an anonymous sender, an address that
      is no public key, a credential identifier of less than 16 or more than 1023 bytes, or a key that
      is not valid; else the phrases of at most eight seeds are tried, and the credential is stored
      under the first free one and under the address, over what was there. */
  lemma StoreExact(checksum: Checksum, st: IdState, args: StoreArgs)
    ensures var (answer, st') := Store(checksum, st, args);
            && (answer == Refused <==>
                  || args.sender == Anonymous || !args.address.PublicKey?
                  || |args.credential.id| < 16 || |args.credential.id| > 1023 || !args.keyIsValid)
            && (answer == Refused ==> st' == st)
            && (answer != Refused ==>
                  && Tried(checksum, st.phrases, st.seed, 8, answer, st'.seed)
                  && (!answer.Stored? ==> st' == st.(seed := st'.seed))
                  && (answer.Stored? ==>
                        && st'.phrases == st.phrases[answer.phrase := args.credential]
                        && st'.addresses == st.addresses[args.address := args.credential]))
  {
    SearchTries(checksum, st.phrases, st.seed, MAXIMUM_TRIES);
    SearchExact(checksum, st.phrases, st.seed, MAXIMUM_TRIES);
    hide Search, Tried;
  }

  /** Below the seed limit an acceptable request fails exactly when the phrases of the next
      eight seeds are all taken; otherwise it is stored under the first free one. */
  lemma StoreFailsExactly(checksum: Checksum, st: IdState, args: StoreArgs)
    requires Acceptable(args) && st.seed + 8 <= 0x100_0000_0000
    ensures var (answer, st') := Store(checksum, st, args);
            && (answer == GenerationFailed <==>
                  forall k: nat :: st.seed <= k < st.seed + 8 ==> PhraseOf(checksum, k) in st.phrases)
            && (answer != GenerationFailed ==> answer.Stored? && answer.phrase !in st.phrases)
  {
    SearchExact(checksum, st.phrases, st.seed, MAXIMUM_TRIES);
    SearchInLimit(checksum, st.phrases, st.seed, MAXIMUM_TRIES);
  }

  lemma {:induction false} SearchInLimit(checksum: Checksum, phrases: map<Phrase, Credential>, seed: nat, tries: nat)
    requires seed + tries <= SEED_LIMIT
    ensures !Search(checksum, phrases, seed, tries).0.Panicked?
    decreases tries
  {
    if tries > 0 { SearchInLimit(checksum, phrases, seed + 1, tries - 1); }
  }

  /** Every stored phrase came from a seed already used. */
  ghost predicate FromEarlierSeeds(checksum: Checksum, st: IdState) {
    forall p :: p in st.phrases ==> exists k: nat :: k < st.seed && k < SEED_LIMIT && PhraseOf(checksum, k) == p
  }

  /** If all stored phrases came from earlier seeds, an acceptable request succeeds at the first
      try, and they still do afterwards. */
  lemma FirstTrySucceeds(checksum: Checksum, st: IdState, args: StoreArgs)
    requires FromEarlierSeeds(checksum, st) && Acceptable(args) && st.seed < SEED_LIMIT
    ensures var (answer, st') := Store(checksum, st, args);
            && answer == Stored(PhraseOf(checksum, st.seed)) && st'.seed == st.seed + 1
            && FromEarlierSeeds(checksum, st')
  {
    var phrase := PhraseOf(checksum, st.seed);
    if phrase in st.phrases {
      var k: nat :| k < st.seed && k < SEED_LIMIT && PhraseOf(checksum, k) == phrase;
      PhrasesInjective(checksum, k, st.seed);
      assert false;
    }
    var (answer, st') := Store(checksum, st, args);
    assert answer == Stored(phrase);
    forall p | p in st'.phrases
      ensures exists k: nat :: k < st'.seed && k < SEED_LIMIT && PhraseOf(checksum, k) == p
    {
      if p == phrase {
        assert st.seed < st'.seed;
      } else {
        var k: nat :| k < st.seed && k < SEED_LIMIT && PhraseOf(checksum, k) == p;
        assert k < st'.seed;
      }
    }
  }

  // A run of requests, with the phrase each successful one was given.
  datatype Given = Given(phrase: Phrase, args: StoreArgs)

  function Requests(checksum: Checksum, st: IdState, reqs: seq<StoreArgs>): (IdState, seq<Given>)
    decreases |reqs|
  {
    if reqs == [] then (st, [])
    else
      var (before, given) := Requests(checksum, st, reqs[..|reqs| - 1]);
      var args := reqs[|reqs| - 1];
      var (answer, after) := Store(checksum, before, args);
      (after, if answer.Stored? then given + [Given(answer.phrase, args)] else given)
  }

  lemma StoreAddsOne(checksum: Checksum, st: IdState, args: StoreArgs)
    ensures var (answer, st') := Store(checksum, st, args);
            && (answer.Stored? ==>
                  && answer.phrase !in st.phrases
                  && st'.phrases == st.phrases[answer.phrase := args.credential]
                  && st'.addresses == st.addresses[args.address := args.credential])
            && (!answer.Stored? ==> st'.phrases == st.phrases && st'.addresses == st.addresses)
  {
    SearchExact(checksum, st.phrases, st.seed, MAXIMUM_TRIES);
  }

  ghost predicate Resolving(before: IdState, after: IdState, given: seq<Given>) {
    && (forall i :: 0 <= i < |given| ==>
          Lookup(after.phrases, given[i].phrase) == Some(given[i].args.credential))
    && (forall i, j :: 0 <= i < j < |given| ==> given[i].phrase != given[j].phrase)
    && (forall p :: p in before.phrases ==> Lookup(after.phrases, p) == Lookup(before.phrases, p))
  }

  /** Over any run of requests every phrase ever returned keeps resolving to its credential, no
      phrase is returned twice, and phrases stored earlier keep theirs. */
  lemma {:induction false} PhrasesKeepResolving(checksum: Checksum, st: IdState, reqs: seq<StoreArgs>)
    ensures Resolving(st, Requests(checksum, st, reqs).0, Requests(checksum, st, reqs).1)
    decreases |reqs|
  {
    hide Store;
    if reqs != [] {
      var (before, given) := Requests(checksum, st, reqs[..|reqs| - 1]);
      PhrasesKeepResolving(checksum, st, reqs[..|reqs| - 1]);
      StoreAddsOne(checksum, before, reqs[|reqs| - 1]);
    }
  }

  // The credential of the latest request given a phrase for an address.
  function Latest(given: seq<Given>, address: Address): Option<Credential> {
    if given == [] then None
    else if given[|given| - 1].args.address == address then Some(given[|given| - 1].args.credential)
    else Latest(given[..|given| - 1], address)
  }

  /** An address resolves to the credential of its latest successful request, or to what it
      resolved to before the run. */
  lemma {:induction false} AddressesResolveToLatest(checksum: Checksum, st: IdState, reqs: seq<StoreArgs>,
                                                    address: Address)
    ensures var (after, given) := Requests(checksum, st, reqs);
            Lookup(after.addresses, address)
            == if Latest(given, address).Some? then Latest(given, address) else Lookup(st.addresses, address)
    decreases |reqs|
  {
    hide Store;
    if reqs != [] {
      var (before, given) := Requests(checksum, st, reqs[..|reqs| - 1]);
      AddressesResolveToLatest(checksum, st, reqs[..|reqs| - 1], address);
      StoreAddsOne(checksum, before, reqs[|reqs| - 1]);
      var (answer, _) := Store(checksum, before, reqs[|reqs| - 1]);
      if answer.Stored? {
        var more := given + [Given(answer.phrase, reqs[|reqs| - 1])];
        assert more[..|more| - 1] == given;
      }
    }
  }
}
