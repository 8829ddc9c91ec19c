/** When a commit lets identifiers be used again: what is then lost, and exactly when. */
module IdReuse {
  import opened LedgerTypes
  import opened Allocation
  import opened AccountRules
  import opened LedgerMachine
  import opened Operations
  import opened Footprints
  import opened Legality
  import opened EventIds
  import opened TxHistory
  import opened Registry
  import opened EventSourcing

  // The event is the one stored before, up to the memo migration.
  predicate SameEvent(a: EventLog, b: EventLog) {
    b == a || b == MigratedEvent(a)
  }

  /** Since `s` no stored event or transaction was replaced by another one, and the stored count
      is still the number of stored events. */
  ghost predicate NothingReused(s: State, s': State) {
    && s'.db.eventCount == |s'.db.events|
    && (forall id :: id in s.db.events ==> id in s'.db.events && SameEvent(s.db.events[id], s'.db.events[id]))
    && (forall t :: t in s.db.multisigs ==> t in s'.db.multisigs && SameTerms(s.db.multisigs[t], s'.db.multisigs[t]))
  }

  // ---------------------------------------------------------------- fresh identifiers suffice

  lemma EventKept(s: State, e: Effect, id: nat)
    requires IdsFresh(s) && id in s.db.events
    ensures id in Apply(s, e).db.events && SameEvent(s.db.events[id], Apply(s, e).db.events[id])
  {
    hide Apply, LoggedContent, Issued, MigratedEvent;
    EventsFrame(s, e);
    if e.MemoMigrated? { MigratedFrame(s); }
  }

  lemma SameEventTwice(a: EventLog, b: EventLog, c: EventLog)
    requires SameEvent(a, b) && SameEvent(b, c)
    ensures SameEvent(a, c)
  {
  }

  lemma {:induction false} EventsKeptAlong(g: State, es: seq<Effect>, id: nat)
    requires IdsFresh(g) && Along(g, es, BlocksBounded) && id in g.db.events
    ensures id in After(g, es).db.events && SameEvent(g.db.events[id], After(g, es).db.events[id])
    decreases |es|
  {
    hide Apply, SameEvent, IdsFresh;
    if es == [] {
      SameEventRefl(g.db.events[id]);
    } else {
      var front, e := es[..|es| - 1], es[|es| - 1];
      EventsKeptAlong(g, front, id);
      IdsAlways(g, front);
      EventKept(After(g, front), e, id);
      SameEventTwice(g.db.events[id], After(g, front).db.events[id], After(g, es).db.events[id]);
    }
  }

  lemma SameEventRefl(a: EventLog)
    ensures SameEvent(a, a)
  {
  }

  lemma FreshReusesNothing(g: State, es: seq<Effect>)
    requires CommittedPast(g) && IdsFresh(g) && Legal(g, es) && Along(g, es, BlocksBounded)
    ensures NothingReused(g, After(g, es))
  {
    IdsAlways(g, es);
    hide SameEvent, SameTerms, Along;
    forall id | id in g.db.events
      ensures id in After(g, es).db.events && SameEvent(g.db.events[id], After(g, es).db.events[id])
    {
      EventsKeptAlong(g, es, id);
    }
    assert es[..0] == [];
    forall t | t in g.db.multisigs
      ensures t in After(g, es).db.multisigs && SameTerms(g.db.multisigs[t], After(g, es).db.multisigs[t])
    {
      TermsKept(g, es, 0, t);
    }
  }

  // ---------------------------------------------------------------- a run that reuses one

  // A submission to an account nobody has.
  const REFUSED: Call := SubmitCall(Anonymous, SubmitArgs(Anonymous, None, None, None, UnsupportedPayload, None, None,
                                                          None))

  const CREATION: Call := CreateAccountCall(Anonymous, CreateArgs(None, map[], Features(None, true, false)))

  // So many refused submissions.
  function Refusals(k: nat): seq<Call> {
    if k == 0 then [] else Refusals(k - 1) + [REFUSED]
  }

  // The machine took `k` identifiers, and did nothing else.
  ghost predicate Took(s: State, m: Machine, k: nat) {
    m.s == s.(latestTid := s.latestTid + k) && forall i :: 0 <= i < |m.trace| ==> m.trace[i].TakeId?
  }

  lemma RefusalTakes(depth: nat, m: Machine)
    requires Anonymous !in m.s.db.accounts
    ensures Answer(depth, m, REFUSED) == Done(Do(m, TakeId), Err(UnknownAccount))
  {
    hide Do;
  }

  lemma {:induction false} RefusalsCount(depth: nat, s: State, k: nat)
    requires Anonymous !in s.db.accounts
    ensures var run := Calls(depth, Machine(s, []), Refusals(k)); run.Some? && Took(s, run.value, k)
  {
    hide Apply, Answer;
    if k > 0 {
      RefusalsCount(depth, s, k - 1);
      var m := Calls(depth, Machine(s, []), Refusals(k - 1)).value;
      assert Refusals(k)[..|Refusals(k)| - 1] == Refusals(k - 1);
      RefusalTakes(depth, m);
      TakeIdWrites(m.s);
    }
  }

  lemma {:induction false} NoCommit(s: State, es: seq<Effect>)
    requires forall i :: 0 <= i < |es| ==> !es[i].NextBlock?
    ensures Along(s, es, BlocksBounded)
    decreases |es|
  {
    if es != [] { NoCommit(s, es[..|es| - 1]); }
  }

  lemma CreationAnswered(depth: nat, m: Machine)
    requires NextSubresource(m.s.db.alloc, m.s.db.alloc.AccountIdentity(), m.s.committed.symbols).Ok?
    ensures var o := Answer(depth, m, CREATION);
            && o.Done? && o.m.trace == m.trace + [o.m.trace[|m.trace|]] && o.m.trace[|m.trace|].AccountCreated?
            && o.m.s == Apply(m.s, o.m.trace[|m.trace|]) && Applicable(m.s, o.m.trace[|m.trace|])
  {
    hide Apply, NextSubresource, Finished;
    AllocatedMeans(m.s.db.alloc, m.s.committed.symbols);
  }

  lemma AllocatedMeans(al: Allocator, symbols: set<Symbol>)
    requires NextSubresource(al, al.AccountIdentity(), symbols).Ok?
    ensures Derivable(al.AccountIdentity())
  {
  }

  lemma CreationCounts(s: State, e: Effect)
    requires e.AccountCreated? && Applicable(s, e)
    ensures var s' := Apply(s, e);
            s'.db.eventCount == s.db.eventCount + 1 && s'.db.events.Keys == s.db.events.Keys + {s.latestTid + 1}
  {
    hide Apply;
    EventsLogged(s, e);
  }

  // The run after which the event at `id` is another one.
  function RunInto(s: State, id: nat): seq<Call>
    requires s.latestTid < id
  {
    Refusals(id - s.latestTid - 1) + [CREATION]
  }

  // A later event is stored, and an account can be created.
  ghost predicate Replaceable(s: State, id: nat) {
    && s.latestTid < id && id in s.db.events && s.db.eventCount == |s.db.events| && Anonymous !in s.db.accounts
    && NextSubresource(s.db.alloc, s.db.alloc.AccountIdentity(), s.committed.symbols).Ok?
  }

  lemma EventReplaced(depth: nat, s: State, id: nat)
    requires Replaceable(s, id)
    ensures !ReusesNothing(depth, s, RunInto(s, id))
  {
    hide Apply, Answer, Calls, Refusals, Along, NextSubresource, NothingReused;
    var front := Refusals(id - s.latestTid - 1);
    RefusalsCount(depth, s, id - s.latestTid - 1);
    var m := Calls(depth, Machine(s, []), front).value;
    CreationAnswered(depth, m);
    LastCall(depth, s, front, CREATION);
    var m' := Answer(depth, m, CREATION).m;
    CreationCounts(m.s, m'.trace[|m.trace|]);
    assert forall i :: 0 <= i < |m'.trace| ==> i == |m.trace| || m'.trace[i] == m.trace[i];
    NoCommit(s, m'.trace);
    SizeByKeys(m'.s.db.events, s.db.events);
    Miscounted(s, m'.s);
  }

  lemma LastCall(depth: nat, s: State, front: seq<Call>, c: Call)
    requires Calls(depth, Machine(s, []), front).Some?
    requires Answer(depth, Calls(depth, Machine(s, []), front).value, c).Done?
    ensures Calls(depth, Machine(s, []), front + [c])
            == Some(Answer(depth, Calls(depth, Machine(s, []), front).value, c).m)
  {
    hide Answer;
    assert (front + [c])[..|front|] == front;
  }

  lemma Miscounted(s: State, s': State)
    requires s'.db.eventCount != |s'.db.events|
    ensures !NothingReused(s, s')
  {
  }

  // ---------------------------------------------------------------- exactly when

  // Unless the run aborts or one of its blocks takes too many identifiers, nothing is reused.
  ghost predicate ReusesNothing(depth: nat, s: State, calls: seq<Call>) {
    match Calls(depth, Machine(s, []), calls)
    case None => true
    case Some(m) => Along(s, m.trace, BlocksBounded) ==> NothingReused(s, m.s)
  }

  /** For a committed height below 2^32, in every reachable state with an account address left: no
      run of calls after the commit with bounded blocks ever replaces a stored event or transaction
      or miscounts the events, exactly when nothing stored lies above the base the next identifiers
      start from. */
  lemma CommitExact(s: State)
    requires IdsFresh(s) && SubmissionsAgree(s) && TxsSound(s) && AccountsSound(s)
    requires s.db.height < HEIGHT_EVENTID_SHIFT
    requires NextSubresource(s.db.alloc, s.db.alloc.AccountIdentity(), s.db.tokens.Keys).Ok?
    ensures (forall depth: nat, calls :: ReusesNothing(depth, Apply(s, NextBlock), calls))
            <==> NothingAbove(s, s.db.height * HEIGHT_EVENTID_SHIFT)
  {
    var s', base := Apply(s, NextBlock), s.db.height * HEIGHT_EVENTID_SHIFT;
    NextBlockBase(s);
    hide Apply, ReusesNothing, Along, NextSubresource, TxsSound;
    if NothingAbove(s, base) {
      CommitKeepsFresh(s);
      CommitSettles(s);
      forall depth: nat, calls: seq<Call>
        ensures ReusesNothing(depth, s', calls)
      {
        FreshCalls(depth, s', calls);
      }
    } else {
      var id := EventAbove(s, base);
      EventReplaced(0, s', id);
    }
  }

  lemma CommitSettles(s: State)
    requires TxsSound(s)
    ensures CommittedPast(Apply(s, NextBlock))
  {
    NextBlockWrites(s);
    hide Apply;
  }

  lemma FreshCalls(depth: nat, s: State, calls: seq<Call>)
    requires CommittedPast(s) && IdsFresh(s)
    ensures ReusesNothing(depth, s, calls)
  {
    hide CommittedPast, IdsFresh, Along, NothingReused, Calls;
    if Calls(depth, Machine(s, []), calls).Some? {
      CallsLegal(depth, s, calls);
      var m := Calls(depth, Machine(s, []), calls).value;
      if Along(s, m.trace, BlocksBounded) { FreshReusesNothing(s, m.trace); }
    }
  }

  // Whatever is stored above the base, some event is: a transaction's submission lies behind it.
  lemma EventAbove(s: State, base: nat) returns (id: nat)
    requires SubmissionsAgree(s) && !NothingAbove(s, base)
    ensures id in s.db.events && id > base
  {
    hide SubmissionsAgree, NothingAbove;
    SomethingAbove(s, base);
    if exists t :: t in s.db.multisigs && t > base {
      var t :| t in s.db.multisigs && t > base;
      SubmissionBehind(s, t);
      id := t + 1;
    } else {
      id :| id in s.db.events && id > base;
    }
  }

  lemma SomethingAbove(s: State, base: nat)
    requires !NothingAbove(s, base)
    ensures (exists id :: id in s.db.events && id > base) || exists t :: t in s.db.multisigs && t > base
  {
  }

  lemma SubmissionBehind(s: State, t: nat)
    requires SubmissionsAgree(s) && t in s.db.multisigs
    ensures t + 1 in s.db.events
  {
  }

  /** In particular the first block must log nothing: its height is zero, and so is the base. */
  lemma FirstBlockMustBeSilent(s: State)
    requires IdsFresh(s) && SubmissionsAgree(s) && TxsSound(s) && AccountsSound(s)
    requires s.db.height == 0 && 0 !in s.db.events
    requires NextSubresource(s.db.alloc, s.db.alloc.AccountIdentity(), s.db.tokens.Keys).Ok?
    ensures (forall depth: nat, calls :: ReusesNothing(depth, Apply(s, NextBlock), calls)) <==> s.db.events == map[]
  {
    CommitExact(s);
    hide Apply, ReusesNothing, NextSubresource;
    if s.db.events == map[] {
      assert forall t :: t in s.db.multisigs ==> t + 1 in s.db.events;
    } else {
      var id :| id in s.db.events;
    }
  }
}
