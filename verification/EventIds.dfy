/** Identifiers of events and multisig transactions: issued in increasing order, never
    reused, and the same on a node that reloads its store. */
module EventIds {
  import opened LedgerTypes
  import opened LedgerMachine
  import opened Footprints
  import opened Operations
  import opened Legality

  /** Every identifier in use is at most the latest one, and the stored count is the number of stored events. */
  ghost predicate IdsFresh(s: State) {
    && (forall id :: id in s.db.events ==> id <= s.latestTid && s.db.events[id].id == id)
    && (forall t :: t in s.db.multisigs ==> t <= s.latestTid)
    && s.db.eventCount == |s.db.events|
  }

  /** The block being committed stayed within its 2^32 identifiers; the first block, which
      shares its base with the second, issued none. */
  predicate CommitSafe(s: State) {
    s.db.height < HEIGHT_EVENTID_SHIFT && s.latestTid <= s.db.height * HEIGHT_EVENTID_SHIFT
  }

  predicate BlocksBounded(s: State, e: Effect) {
    e.NextBlock? ==> CommitSafe(s)
  }

  lemma IdsGrow(s: State, s': State, log: EventLog)
    requires IdsFresh(s) && s.latestTid < log.id == s'.latestTid
    requires s'.db.events == s.db.events[log.id := log] && s'.db.eventCount == s.db.eventCount + 1
    requires forall t :: t in s'.db.multisigs ==> t in s.db.multisigs || t <= log.id
    ensures IdsFresh(s')
  {
    assert log.id !in s.db.events;
  }

  lemma IdsStep(s: State, e: Effect)
    requires IdsFresh(s) && BlocksBounded(s, e)
    ensures IdsFresh(Apply(s, e)) && s.latestTid <= Apply(s, e).latestTid
  {
    assert e.Submitted? ==> LoggedContent(s, e).Some?;
    hide Apply, LoggedContent, Issued;
    var s' := Apply(s, e);
    EventsFrame(s, e);
    TxKeysFrame(s, e);
    if e.NextBlock? { NextBlockBase(s); }
    if LoggedContent(s, e).Some? {
      IdsGrow(s, s', EventLog(s'.latestTid, s.now, LoggedContent(s, e).value));
    } else {
      SizeByKeys(s'.db.events, s.db.events);
    }
  }

  lemma SizeByKeys<K, V>(a: map<K, V>, b: map<K, V>)
    requires a.Keys == b.Keys
    ensures |a| == |b|
  {
    assert |a.Keys| == |a| && |b.Keys| == |b|;
  }

  lemma {:induction false} IdsAlways(g: State, es: seq<Effect>)
    requires IdsFresh(g) && Along(g, es, BlocksBounded)
    ensures IdsFresh(After(g, es)) && g.latestTid <= After(g, es).latestTid
    decreases |es|
  {
    if es != [] {
      IdsAlways(g, es[..|es| - 1]);
      IdsStep(After(g, es[..|es| - 1]), es[|es| - 1]);
    }
  }

  // Nothing is stored under an identifier above the base of the next block.
  predicate NothingAbove(s: State, base: nat) {
    (forall id :: id in s.db.events ==> id <= base) && (forall t :: t in s.db.multisigs ==> t <= base)
  }

  lemma CommitKeepsFresh(s: State)
    requires IdsFresh(s) && s.db.height < HEIGHT_EVENTID_SHIFT && NothingAbove(s, s.db.height * HEIGHT_EVENTID_SHIFT)
    ensures IdsFresh(Apply(s, NextBlock))
  {
    NextBlockBase(s);
  }

  lemma NextBlockBase(s: State)
    requires s.db.height < HEIGHT_EVENTID_SHIFT
    ensures Apply(s, NextBlock) == s.(latestTid := s.db.height * HEIGHT_EVENTID_SHIFT,
                                      db := s.db.(height := s.db.height + 1), committed := CommittedOf(s.db))
  {
    assert s.db.height * HEIGHT_EVENTID_SHIFT < U64;
  }

  /** An event logged in the first block is overwritten by the first event of the second:
      the count then says two while one event is stored. */
  lemma FirstBlockCollision(s: State, e1: Event, e2: Event)
    requires s.db.height == 0 && s.latestTid == 0 && s.db.events == map[] && s.db.eventCount == 0
    ensures var s1 := LogEvent(s, e1);
            var s2 := LogEvent(Apply(s1, NextBlock), e2);
            s2.db.eventCount == 2 && |s2.db.events| == 1 && s2.db.events[1].content == e2
  {
    var s1 := LogEvent(s, e1);
    var s2 := LogEvent(Apply(s1, NextBlock), e2);
    assert EventBase(0) == 0;
    assert s2.db.events == map[1 := EventLog(1, s.now, e2)];
  }

  // ---------------------------------------------------------------- strictly increasing

  function IssuedBy(s: State, es: seq<Effect>): seq<nat> {
    if es == [] then []
    else IssuedBy(s, es[..|es| - 1]) + Issued(After(s, es[..|es| - 1]), es[|es| - 1])
  }

  lemma IssuedStep(s: State, e: Effect)
    requires IdsFresh(s) && BlocksBounded(s, e)
    ensures var ids, s' := Issued(s, e), Apply(s, e);
            && (forall i :: 0 <= i < |ids| ==> s.latestTid < ids[i] <= s'.latestTid)
            && (forall i, j :: 0 <= i < j < |ids| ==> ids[i] < ids[j])
            && (forall id :: id in s'.db.events ==> id in s.db.events || id in ids)
            && (forall t :: t in s'.db.multisigs ==> t in s.db.multisigs || t in ids)
  {
    IssuedShape(s, e);
    hide Apply, Issued, LoggedContent;
    EventsFrame(s, e);
    TxKeysFrame(s, e);
    if e.NextBlock? { NextBlockBase(s); }
  }

  lemma IssuedShape(s: State, e: Effect)
    ensures var ids := Issued(s, e);
            && (ids == [] || ids == [s.latestTid + 1] || ids == [s.latestTid + 1, s.latestTid + 2])
            && (ids == [] <==> !e.TakeId? && LoggedContent(s, e).None?)
            && (e.TakeId? ==> ids == [s.latestTid + 1] && LoggedContent(s, e).None?)
            && (e.Submitted? ==> s.latestTid + 1 in ids)
  {
  }

  /** Over any trace with bounded blocks the issued identifiers strictly increase, across
      blocks too, and everything that gets stored is stored under one of them. */
  lemma {:induction false} IssuedIncrease(g: State, es: seq<Effect>)
    requires IdsFresh(g) && Along(g, es, BlocksBounded)
    ensures forall i, j :: 0 <= i < j < |IssuedBy(g, es)| ==> IssuedBy(g, es)[i] < IssuedBy(g, es)[j]
    ensures forall i :: 0 <= i < |IssuedBy(g, es)| ==> g.latestTid < IssuedBy(g, es)[i] <= After(g, es).latestTid
    ensures forall id :: id in After(g, es).db.events ==> id in g.db.events || id in IssuedBy(g, es)
    ensures forall t :: t in After(g, es).db.multisigs ==> t in g.db.multisigs || t in IssuedBy(g, es)
    decreases |es|
  {
    if es != [] {
      var front, e := es[..|es| - 1], es[|es| - 1];
      var s := After(g, front);
      IssuedIncrease(g, front);
      IdsAlways(g, front);
      IdsStep(s, e);
      IssuedStep(s, e);
      var before, ids := IssuedBy(g, front), Issued(s, e);
      assert IssuedBy(g, es) == before + ids;
      assert forall x :: x in before + ids <==> x in before || x in ids;
      assert After(g, es) == Apply(s, e);
    }
  }

  // ---------------------------------------------------------------- how large they get

  /** No identifier handed out or stored lies above `n`. */
  ghost predicate IdsWithin(s: State, n: nat) {
    && s.latestTid <= n && (forall id :: id in s.db.events ==> id <= n) && (forall t :: t in s.db.multisigs ==> t <= n)
  }

  lemma IdsWithinStep(s: State, e: Effect, n: nat)
    requires IdsWithin(s, n) && n >= U64
    ensures IdsWithin(Apply(s, e), n + 2)
  {
    IssuedShape(s, e);
    hide Apply, Issued, LoggedContent;
    EventsFrame(s, e);
    TxKeysFrame(s, e);
  }

  /** An effect hands out two identifiers at most, and a block starts below 2^64: so identifiers
      stay below 2^64 and twice the number of effects, however long a block is. */
  lemma {:induction false} IdsWithinAlways(g: State, es: seq<Effect>)
    requires IdsWithin(g, U64)
    ensures IdsWithin(After(g, es), U64 + 2 * |es|)
    decreases |es|
  {
    if es != [] {
      IdsWithinAlways(g, es[..|es| - 1]);
      IdsWithinStep(After(g, es[..|es| - 1]), es[|es| - 1], U64 + 2 * (|es| - 1));
    }
  }

  // ---------------------------------------------------------------- reloading

  // The state a node starts from when it opens a store; the saturating subtraction makes up
  // for `NextBlock` using the height before it is incremented.
  function Load(db: Store, now: nat, memoActive: bool, text: Address -> Bytes): State {
    State(db, EventBase(if db.height == 0 then 0 else db.height - 1), now, memoActive, text, CommittedOf(db))
  }

  lemma LoadAfterCommit(m: Machine, memo: bool, counts: bool)
    ensures var kept := Commit(m, memo, counts).s;
            Load(kept.db, kept.now, kept.memoActive, kept.text) == kept
  {
    hide Apply;
    var m1 := Do(m, ExpirySwept);
    var m2 := if memo then Do(m1, MemoMigrated) else m1;
    var m3 := if counts then Do(m2, CountsInitialised) else m2;
    NextBlockWrites(m3.s);
    assert Commit(m, memo, counts) == Do(m3, NextBlock);
  }
}
