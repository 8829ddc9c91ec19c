/** Listing events: a scan of a range of identifiers, a chain of filters, a bounded count. */
module EventListing {
  import opened LedgerTypes
  import opened LedgerMachine
  import opened Scans
  import opened Keys

  const MAXIMUM_EVENT_COUNT: nat := 100

  datatype TimeBound = AnyTime | From(t: nat) | LaterThan(t: nat)
  datatype TimeEnd = NoEnd | Until(t: nat) | EarlierThan(t: nat)

  // What an event is about and its kind come from the event type itself.
  datatype Reading = Reading(about: (Event, Address) -> bool, kind: Event -> nat)

  datatype Filter = Filter(
    accounts: Option<seq<Address>>, kinds: Option<seq<nat>>, start: Bound, end: Bound,
    since: TimeBound, until: TimeEnd, states: seq<set<TxState>>)

  function Select(it: seq<EventLog>, p: EventLog -> bool): seq<EventLog> {
    if it == [] then []
    else Select(it[..|it| - 1], p) + if p(it[|it| - 1]) then [it[|it| - 1]] else []
  }

  function Take(it: seq<EventLog>, n: nat): seq<EventLog> {
    if |it| <= n then it else it[..n]
  }

  /** The stored events whose keys lie between the keys of the bounds, in order or against it. */
  function Scan(events: map<nat, EventLog>, start: Bound, end: Bound, descending: bool): seq<EventLog> {
    var ids := set id | id in events && Scanned(EventKey(ToBytes(id)), start, end);
    var keys := if descending then Descending(ids) else Ascending(ids);
    seq(|keys|, i requires 0 <= i < |keys| =>
      assert keys[i] in keys;
      events[keys[i]])
  }

  predicate AboutAny(r: Reading, accounts: seq<Address>, log: EventLog) {
    exists i :: 0 <= i < |accounts| && r.about(log.content, accounts[i])
  }

  predicate InTime(since: TimeBound, until: TimeEnd, log: EventLog) {
    && (match since
        case AnyTime => true
        case From(t) => t <= log.time
        case LaterThan(t) => t < log.time)
    && (match until
        case NoEnd => true
        case Until(t) => log.time <= t
        case EarlierThan(t) => log.time < t)
  }

  predicate InState(states: set<TxState>, log: EventLog) {
    match log.content
    case SubmitEvent(_, _, _, _, _, _, _, _, _, _) => Pending in states
    case ApproveEvent(_, _, _) => Pending in states
    case ExecuteEvent(_, _, _, _) => ExecutedAutomatically in states || ExecutedManually in states
    case WithdrawEvent(_, _, _) => Withdrawn in states
    case _ => false
  }

  function FilterAccount(r: Reading, it: seq<EventLog>, accounts: Option<seq<Address>>): seq<EventLog> {
    if accounts.Some? then Select(it, log => AboutAny(r, accounts.value, log)) else it
  }

  function FilterKind(r: Reading, it: seq<EventLog>, kinds: Option<seq<nat>>): seq<EventLog> {
    if kinds.Some? then Select(it, (log: EventLog) => r.kind(log.content) in kinds.value) else it
  }

  function FilterDate(it: seq<EventLog>, since: TimeBound, until: TimeEnd): seq<EventLog> {
    Select(it, log => InTime(since, until, log))
  }

  /** The events a filter asks for, identifiers apart. */
  predicate Wanted(r: Reading, f: Filter, log: EventLog) {
    && (f.accounts.Some? ==> AboutAny(r, f.accounts.value, log))
    && (f.kinds.Some? ==> r.kind(log.content) in f.kinds.value)
    && InTime(f.since, f.until, log)
    && forall i :: 0 <= i < |f.states| ==> InState(f.states[i], log)
  }

  lemma {:induction false} SelectTwice(it: seq<EventLog>, p: EventLog -> bool, q: EventLog -> bool,
                                       both: EventLog -> bool)
    requires forall log :: both(log) <==> p(log) && q(log)
    ensures Select(Select(it, p), q) == Select(it, both)
    decreases |it|
  {
    if it != [] {
      var front, last := it[..|it| - 1], it[|it| - 1];
      SelectTwice(front, p, q, both);
      if p(last) {
        var selected := Select(front, p) + [last];
        assert selected[..|selected| - 1] == Select(front, p);
      } else {
        assert Select(it, p) == Select(front, p);
      }
    }
  }

  lemma {:induction false} SelectSame(it: seq<EventLog>, p: EventLog -> bool, q: EventLog -> bool)
    requires forall log :: p(log) <==> q(log)
    ensures Select(it, p) == Select(it, q)
    decreases |it|
  {
    if it != [] { SelectSame(it[..|it| - 1], p, q); }
  }

  lemma {:induction false} SelectAll(it: seq<EventLog>, p: EventLog -> bool)
    requires forall log :: p(log)
    ensures Select(it, p) == it
    decreases |it|
  {
    if it != [] {
      SelectAll(it[..|it| - 1], p);
      assert it == it[..|it| - 1] + [it[|it| - 1]];
    }
  }

  // The first three filters of the chain as one.
  predicate WantedFirst(r: Reading, f: Filter, log: EventLog) {
    && (f.accounts.Some? ==> AboutAny(r, f.accounts.value, log))
    && (f.kinds.Some? ==> r.kind(log.content) in f.kinds.value)
    && InTime(f.since, f.until, log)
  }

  lemma FirstFilters(r: Reading, it: seq<EventLog>, f: Filter)
    ensures FilterDate(FilterKind(r, FilterAccount(r, it, f.accounts), f.kinds), f.since, f.until)
            == Select(it, log => WantedFirst(r, f, log))
  {
    var byAccount := (log: EventLog) => f.accounts.Some? ==> AboutAny(r, f.accounts.value, log);
    var byKind := (log: EventLog) => f.kinds.Some? ==> r.kind(log.content) in f.kinds.value;
    var byDate := (log: EventLog) => InTime(f.since, f.until, log);
    var two := (log: EventLog) => byAccount(log) && byKind(log);
    var it1 := FilterAccount(r, it, f.accounts);
    if f.accounts.Some? {
      SelectSame(it, log => AboutAny(r, f.accounts.value, log), byAccount);
    } else {
      SelectAll(it, byAccount);
    }
    assert it1 == Select(it, byAccount);
    var it2 := FilterKind(r, it1, f.kinds);
    if f.kinds.Some? {
      SelectSame(it1, (log: EventLog) => r.kind(log.content) in f.kinds.value, byKind);
    } else {
      SelectAll(it1, byKind);
    }
    assert it2 == Select(it1, byKind);
    SelectTwice(it, byAccount, byKind, two);
    SelectSame(it2, log => InTime(f.since, f.until, log), byDate);
    SelectTwice(it, two, byDate, log => WantedFirst(r, f, log));
  }

  function Limit(count: Option<nat>): nat {
    if count.Some? && count.value < MAXIMUM_EVENT_COUNT then count.value else MAXIMUM_EVENT_COUNT
  }

  // The first events of the scan that pass all filters.
  function Listed(r: Reading, events: map<nat, EventLog>, count: Option<nat>, descending: bool, f: Filter)
    : seq<EventLog>
  {
    Take(Select(Scan(events, f.start, f.end, descending), log => Wanted(r, f, log)), Limit(count))
  }

  /** Lists events: the filters are chained one after the other, the attribute-specific ones in
      a loop, and the first events that pass are taken. */
  method List(r: Reading, events: map<nat, EventLog>, count: Option<nat>, descending: bool, f: Filter)
    returns (logs: seq<EventLog>)
    ensures logs == Listed(r, events, count, descending, f)
    ensures Stored(events) && IsBound(f.start) && IsBound(f.end) && BoundsFit(f.start, f.end) ==>
              ListsAsked(r, events, count, descending, f, logs)
  {
    hide Scan, InState, InTime, AboutAny, Select, FilterDate, FilterKind, FilterAccount, Stored, IsBound, BoundsFit,
      ListsAsked;
    if Stored(events) && IsBound(f.start) && IsBound(f.end) && BoundsFit(f.start, f.end) {
      ListExact(r, events, count, descending, f);
    }
    var limit := if count.Some? && count.value < MAXIMUM_EVENT_COUNT then count.value else MAXIMUM_EVENT_COUNT;
    var scan := Scan(events, f.start, f.end, descending);
    var it := FilterDate(FilterKind(r, FilterAccount(r, scan, f.accounts), f.kinds), f.since, f.until);
    FirstFilters(r, scan, f);
    var i := 0;
    SelectSame(scan, log => WantedFirst(r, f, log), log => WantedUpTo(r, f, 0, log));
    while i < |f.states|
      invariant 0 <= i <= |f.states|
      invariant it == Select(scan, log => WantedUpTo(r, f, i, log))
    {
      SelectTwice(scan, log => WantedUpTo(r, f, i, log), log => InState(f.states[i], log),
                  log => WantedUpTo(r, f, i + 1, log));
      it := Select(it, log => InState(f.states[i], log));
      i := i + 1;
    }
    SelectSame(scan, log => WantedUpTo(r, f, i, log), log => Wanted(r, f, log));
    logs := Take(it, limit);
  }

  predicate WantedUpTo(r: Reading, f: Filter, i: nat, log: EventLog)
    requires i <= |f.states|
  {
    WantedFirst(r, f, log) && forall j :: 0 <= j < i ==> InState(f.states[j], log)
  }

  // ---------------------------------------------------------------- what the list holds

  predicate Precedes(descending: bool, a: EventLog, b: EventLog) {
    if descending then a.id > b.id else a.id < b.id
  }

  ghost predicate InOrder(logs: seq<EventLog>, descending: bool) {
    forall i, j :: 0 <= i < j < |logs| ==> Precedes(descending, logs[i], logs[j])
  }

  // Events are stored under their own identifiers, which fit their keys.
  ghost predicate Stored(events: map<nat, EventLog>) {
    forall id :: id in events ==> events[id].id == id && id < Pow256(EVENT_ID_KEY_SIZE_IN_BYTES)
  }

  // The scan holds exactly the stored events whose keys lie between the bounds, in the requested
  // order.
  lemma ScanIs(events: map<nat, EventLog>, start: Bound, end: Bound, descending: bool)
    requires Stored(events)
    ensures InOrder(Scan(events, start, end, descending), descending)
    ensures forall log :: log in Scan(events, start, end, descending) <==>
              log.id in events && events[log.id] == log && Scanned(EventKey(ToBytes(log.id)), start, end)
  {
    hide Scan, Scanned, EventKey, ToBytes, Pow256, InOrder;
    var scan := Scan(events, start, end, descending);
    var keys := ScanKeys(events, start, end, descending);
    ScanOrder(events, keys, scan, descending);
    forall log: EventLog | log.id in events && events[log.id] == log && Scanned(EventKey(ToBytes(log.id)), start, end)
      ensures log in scan
    {
      var i :| 0 <= i < |keys| && keys[i] == log.id;
      assert scan[i] == log;
    }
  }

  // The keys a scan visits, one for each event it gives.
  lemma ScanKeys(events: map<nat, EventLog>, start: Bound, end: Bound, descending: bool) returns (keys: seq<nat>)
    ensures var scan := Scan(events, start, end, descending);
            |scan| == |keys|
            && forall i :: 0 <= i < |keys| ==>
                 keys[i] in events && scan[i] == events[keys[i]] && Scanned(EventKey(ToBytes(keys[i])), start, end)
    ensures forall id :: id in events && Scanned(EventKey(ToBytes(id)), start, end) ==> id in keys
    ensures forall i, j :: 0 <= i < j < |keys| ==> if descending then keys[i] > keys[j] else keys[i] < keys[j]
  {
    hide Ascending, Descending, Scanned, EventKey, ToBytes;
    var ids := set id | id in events && Scanned(EventKey(ToBytes(id)), start, end);
    keys := if descending then Descending(ids) else Ascending(ids);
    forall i | 0 <= i < |keys| ensures keys[i] in ids {
      assert keys[i] in keys;
    }
  }

  /** The scanned events are exactly the stored ones whose identifiers lie in the range. */
  ghost predicate ListsRange(scan: seq<EventLog>, events: map<nat, EventLog>, start: Bound, end: Bound) {
    forall log :: log in scan <==> log.id in events && events[log.id] == log && InRange(log.id, start, end)
  }

  lemma ScanIsRange(events: map<nat, EventLog>, start: Bound, end: Bound, descending: bool)
    requires Stored(events) && IsBound(start) && IsBound(end) && BoundsFit(start, end)
    ensures InOrder(Scan(events, start, end, descending), descending)
    ensures ListsRange(Scan(events, start, end, descending), events, start, end)
  {
    hide Scan, Scanned, InRange, BoundsFit, EventKey, ToBytes, Pow256;
    ScanIs(events, start, end, descending);
    forall id | id in events
      ensures Scanned(EventKey(ToBytes(id)), start, end) <==> InRange(id, start, end)
    {
      ToBytesFits(id, EVENT_ID_KEY_SIZE_IN_BYTES);
      ScanVisitsRange(ToBytes(id), start, end);
    }
  }

  /** The keys come in the byte order of the store. */
  lemma ScanInKeyOrder(ids: set<nat>)
    requires forall id :: id in ids ==> id < Pow256(EVENT_ID_KEY_SIZE_IN_BYTES)
    ensures StrictlySorted(seq(|Ascending(ids)|, i requires 0 <= i < |Ascending(ids)| =>
                                 EventKey(ToBytes(Ascending(ids)[i]))))
  {
    hide EventKey, ToBytes, LexLess, Pow256, Ascending;
    var keys := Ascending(ids);
    forall i, j | 0 <= i < j < |keys|
      ensures LexLess(EventKey(ToBytes(keys[i])), EventKey(ToBytes(keys[j])))
    {
      assert keys[i] in keys && keys[j] in keys;
      ToBytesFits(keys[i], EVENT_ID_KEY_SIZE_IN_BYTES);
      ToBytesFits(keys[j], EVENT_ID_KEY_SIZE_IN_BYTES);
      KeysAreNumeric(ToBytes(keys[i]), ToBytes(keys[j]));
    }
  }

  /** A scan from a bound, or to one, is the range for all stored events exactly when the bound
      fits. */
  lemma ScanExact(b: Bound, descending: bool)
    requires IsBound(b)
    ensures (forall events :: Stored(events) ==>
               ListsRange(Scan(events, b, Unbounded, descending), events, b, Unbounded))
            <==> BoundsFit(b, Unbounded)
    ensures (forall events :: Stored(events) ==>
               ListsRange(Scan(events, Unbounded, b, descending), events, Unbounded, b))
            <==> BoundsFit(Unbounded, b)
  {
    hide Scan, Scanned, InRange, BoundsFit, EventKey, ToBytes, Pow256, ListsRange, Stored, FitsKey, Val, IsBound;
    UnboundedIsBound();
    BoundExact(b);
    if BoundsFit(b, Unbounded) {
      forall events | Stored(events) ensures ListsRange(Scan(events, b, Unbounded, descending), events, b, Unbounded) {
        ScanIsRange(events, b, Unbounded, descending);
      }
    } else {
      var id :| FitsKey(id) && !(Scanned(EventKey(id), b, Unbounded) <==> InRange(Val(id), b, Unbounded));
      var events := WrongScan(id, b, Unbounded, descending);
    }
    if BoundsFit(Unbounded, b) {
      forall events | Stored(events) ensures ListsRange(Scan(events, Unbounded, b, descending), events, Unbounded, b) {
        ScanIsRange(events, Unbounded, b, descending);
      }
    } else {
      var id :| FitsKey(id) && !(Scanned(EventKey(id), Unbounded, b) <==> InRange(Val(id), Unbounded, b));
      var events := WrongScan(id, Unbounded, b, descending);
    }
  }

  lemma UnboundedIsBound()
    ensures IsBound(Unbounded)
  {
  }

  // Where byte order and range part, one stored event is enough to tell.
  lemma WrongScan(id: Bytes, start: Bound, end: Bound, descending: bool) returns (events: map<nat, EventLog>)
    requires FitsKey(id) && !(Scanned(EventKey(id), start, end) <==> InRange(Val(id), start, end))
    ensures Stored(events) && !ListsRange(Scan(events, start, end, descending), events, start, end)
  {
    hide Scan, Scanned, InRange, EventKey, Padded, LexLess, Pow256;
    var n := Val(id);
    ValBelow(id);
    ToBytesFits(n, EVENT_ID_KEY_SIZE_IN_BYTES);
    KeysAreNumeric(id, ToBytes(n));
    var log := EventLog(n, 0, WithdrawEvent(Anonymous, 0, Anonymous));
    events := map[n := log];
    ScanIs(events, start, end, descending);
    assert events[log.id] == log;
  }

  lemma ScanOrder(events: map<nat, EventLog>, keys: seq<nat>, scan: seq<EventLog>, descending: bool)
    requires forall id :: id in events ==> events[id].id == id
    requires |scan| == |keys| && forall i :: 0 <= i < |keys| ==> keys[i] in events && scan[i] == events[keys[i]]
    requires forall i, j :: 0 <= i < j < |keys| ==> if descending then keys[i] > keys[j] else keys[i] < keys[j]
    ensures InOrder(scan, descending)
  {
  }

  lemma {:induction false} SelectInOrder(it: seq<EventLog>, p: EventLog -> bool, descending: bool)
    requires InOrder(it, descending)
    ensures InOrder(Select(it, p), descending)
    ensures forall log :: log in Select(it, p) <==> log in it && p(log)
    decreases |it|
  {
    if it != [] {
      var front, last := it[..|it| - 1], it[|it| - 1];
      assert it == front + [last];
      SelectInOrder(front, p, descending);
      forall log | log in Select(front, p)
        ensures Precedes(descending, log, last)
      {
        var i :| 0 <= i < |front| && front[i] == log;
        assert it[i] == log;
      }
    }
  }

  /** What a filter asks for, in terms of the event itself: its identifier and its time lie within the
      bounds, which belong to the range or not as they say; it is about one of the accounts and of
      one of the kinds, if any are given; and each set of states admits it: submissions and approvals
      count as pending, executions as executed, withdrawals as withdrawn, other events as nothing. */
  predicate Asked(r: Reading, f: Filter, log: EventLog) {
    && (f.start.Included? ==> Val(f.start.id) <= log.id) && (f.start.Excluded? ==> Val(f.start.id) < log.id)
    && (f.end.Included? ==> log.id <= Val(f.end.id)) && (f.end.Excluded? ==> log.id < Val(f.end.id))
    && (f.since.From? ==> f.since.t <= log.time) && (f.since.LaterThan? ==> f.since.t < log.time)
    && (f.until.Until? ==> log.time <= f.until.t) && (f.until.EarlierThan? ==> log.time < f.until.t)
    && (f.accounts.Some? ==> exists a :: a in f.accounts.value && r.about(log.content, a))
    && (f.kinds.Some? ==> r.kind(log.content) in f.kinds.value)
    && forall states :: states in f.states ==>
         || (Pending in states && (log.content.SubmitEvent? || log.content.ApproveEvent?))
         || ((ExecutedAutomatically in states || ExecutedManually in states) && log.content.ExecuteEvent?)
         || (Withdrawn in states && log.content.WithdrawEvent?)
  }

  lemma AskedExact(r: Reading, f: Filter, log: EventLog)
    ensures InRange(log.id, f.start, f.end) && Wanted(r, f, log) <==> Asked(r, f, log)
  {
    assert f.accounts.Some? ==>
             (AboutAny(r, f.accounts.value, log) <==> exists a :: a in f.accounts.value && r.about(log.content, a)) by {
      if f.accounts.Some? { AboutExact(r, f.accounts.value, log); }
    }
    StatesExact(f.states, log);
    hide AboutAny, InState;
  }

  lemma AboutExact(r: Reading, accounts: seq<Address>, log: EventLog)
    ensures AboutAny(r, accounts, log) <==> exists a :: a in accounts && r.about(log.content, a)
  {
    if a :| a in accounts && r.about(log.content, a) {
      var i :| 0 <= i < |accounts| && accounts[i] == a;
    }
  }

  lemma StatesExact(all: seq<set<TxState>>, log: EventLog)
    ensures (forall i :: 0 <= i < |all| ==> InState(all[i], log)) <==>
            forall states :: states in all ==>
              || (Pending in states && (log.content.SubmitEvent? || log.content.ApproveEvent?))
              || ((ExecutedAutomatically in states || ExecutedManually in states) && log.content.ExecuteEvent?)
              || (Withdrawn in states && log.content.WithdrawEvent?)
  {
    if forall i :: 0 <= i < |all| ==> InState(all[i], log) {
      forall states | states in all ensures InState(states, log) {
        var i :| 0 <= i < |all| && all[i] == states;
      }
    } else {
      var i :| 0 <= i < |all| && !InState(all[i], log);
      assert all[i] in all;
    }
  }

  /** The list is in the requested order, holds stored events that were asked for and nothing else, at
      most the smaller of the count and 100, and leaves one out only when it is full of events that
      precede it. */
  ghost predicate ListsAsked(r: Reading, events: map<nat, EventLog>, count: Option<nat>, descending: bool, f: Filter,
                             logs: seq<EventLog>)
  {
    var limit := if count == None || count.value > 100 then 100 else count.value;
    && (forall i, j :: 0 <= i < j < |logs| ==> if descending then logs[i].id > logs[j].id else logs[i].id < logs[j].id)
    && |logs| <= limit
    && (forall log :: log in logs ==> log.id in events && events[log.id] == log && Asked(r, f, log))
    && (forall id :: id in events && Asked(r, f, events[id]) ==>
          || events[id] in logs
          || (&& |logs| == limit
              && forall i :: 0 <= i < limit ==> if descending then logs[i].id > id else logs[i].id < id))
  }

  lemma ListExact(r: Reading, events: map<nat, EventLog>, count: Option<nat>, descending: bool, f: Filter)
    requires Stored(events) && IsBound(f.start) && IsBound(f.end) && BoundsFit(f.start, f.end)
    ensures ListsAsked(r, events, count, descending, f, Listed(r, events, count, descending, f))
  {
    hide Scan, InRange, BoundsFit, Wanted, Pow256, Asked;
    var limit := Limit(count);
    var scan := Scan(events, f.start, f.end, descending);
    var wanted := Select(scan, log => Wanted(r, f, log));
    var logs := Take(wanted, limit);
    ScanIsRange(events, f.start, f.end, descending);
    SelectInOrder(scan, log => Wanted(r, f, log), descending);
    forall log | log in logs ensures log.id in events && events[log.id] == log && Asked(r, f, log) {
      AskedExact(r, f, log);
    }
    forall id | id in events && Asked(r, f, events[id])
      ensures || events[id] in logs
              || (|logs| == limit && forall i :: 0 <= i < limit ==> Precedes(descending, logs[i], events[id]))
    {
      AskedExact(r, f, events[id]);
      assert events[id] in wanted;
      var i :| 0 <= i < |wanted| && wanted[i] == events[id];
      if i < |logs| { assert logs[i] == events[id]; }
    }
  }

  // Asks for everything from a bound on.
  function Everything(start: Bound): Filter { Filter(None, None, start, Unbounded, AnyTime, NoEnd, []) }

  /** A list that is not what was asked for: from identifier 5 written with 33 bytes on, event 1. */
  lemma LongBoundListsMore(r: Reading, log: EventLog)
    requires log.id == 1
    ensures var x, events := Zeros(32) + [5], map[1 := log];
            var f := Everything(Included(x));
            && Val(x) == 5 && !InRange(1, f.start, f.end)
            && Listed(r, events, None, false, f) == [log]
  {
    hide EventKey, Scanned, Scan, LexLess, Padded, Zeros, Val, InRange, ToBytes, InTime, AboutAny;
    var x, events := Zeros(32) + [5], map[1 := log];
    var f := Everything(Included(x));
    LongBoundScans();
    OnlyOne(events, f.start, log);
    EverythingWanted(r, f.start, log);
    assert [log][..0] == [];
    assert Select([log], l => Wanted(r, f, l)) == [log];
    SelectSame([log], l => Wanted(r, f, l), log => Wanted(r, f, log));
  }

  lemma EverythingWanted(r: Reading, start: Bound, log: EventLog)
    ensures Wanted(r, Everything(start), log)
  {
  }

  lemma LongBoundScans()
    ensures var x := Zeros(32) + [5];
            && Val(x) == 5 && !InRange(1, Included(x), Unbounded)
            && Scanned(EventKey(ToBytes(1)), Included(x), Unbounded)
  {
    hide EventKey, LexLess, Padded, Zeros;
    var x := Zeros(32) + [5];
    LeadingZeros(32, [5]);
    CutOfLong();
    CutValue(x);
    KeysAreNumeric(ToBytes(1), Cut(x));
    EventUnderRoot(ToBytes(1));
  }

  lemma CutOfLong()
    ensures Cut(Zeros(32) + [5]) == Zeros(32) && Val(Zeros(32)) == 0 && IsBytes(Zeros(32) + [5])
  {
    LeadingZeros(32, []);
    assert Zeros(32) + [] == Zeros(32);
  }

  lemma OnlyOne(events: map<nat, EventLog>, start: Bound, log: EventLog)
    requires log.id == 1 && events == map[1 := log] && Scanned(EventKey(ToBytes(1)), start, Unbounded)
    ensures Scan(events, start, Unbounded, false) == [log]
  {
    hide EventKey, Scanned, Ascending;
    assert (set id | id in events && Scanned(EventKey(ToBytes(id)), start, Unbounded)) == {1};
    AscendingOne(1);
  }

  lemma AscendingOne(k: nat)
    ensures Ascending({k}) == [k]
  {
    assert {k} - {k} == {};
  }
}
