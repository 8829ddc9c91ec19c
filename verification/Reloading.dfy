/** Nodes that reload their store after some commits: they hand out the same identifiers, give the
    same answers and end in the same state as a node that keeps running. */
module Reloading {
  import opened LedgerTypes
  import opened LedgerMachine
  import opened Operations
  import opened Footprints
  import opened Legality
  import opened EventIds
  import opened Authorisation

  // The heights at which migrations become active, from the configuration of the node.
  datatype Schedule = Schedule(memo: Option<nat>, counts: Option<nat>)

  predicate ActiveAt(migration: Option<nat>, height: nat) {
    migration.Some? && height >= migration.value
  }

  /** A block: its time, the calls in it, and the clock of a node that reloads after it. */
  datatype Block = Block(time: nat, calls: seq<Call>, reload: Option<nat>)

  predicate PlainBlock(b: Block) {
    forall i :: 0 <= i < |b.calls| ==> !b.calls[i].BeginBlockCall? && !b.calls[i].CommitCall?
  }

  // Where a node stands and what it has answered, unless it has aborted.
  datatype Outcome = Ran(s: State, answers: seq<Result<Value>>) | Aborted

  function RunCalls(depth: nat, s: State, calls: seq<Call>): Outcome {
    if calls == [] then Ran(s, [])
    else
      match RunCalls(depth, s, calls[..|calls| - 1])
      case Aborted => Aborted
      case Ran(s1, answers) =>
        match Answer(depth, Machine(s1, []), calls[|calls| - 1])
        case Overflow => Aborted
        case Done(m, r) => Ran(m.s, answers + [r])
  }

  // A migration becomes active with the commit that reaches its height.
  function EndBlock(s: State, sch: Schedule): State {
    Commit(Machine(s, []), sch.memo == Some(s.db.height + 1), sch.counts == Some(s.db.height + 1)).s
  }

  function RunBlock(depth: nat, s: State, sch: Schedule, b: Block): Outcome {
    match RunCalls(depth, Apply(s, TimeSet(b.time)), b.calls)
    case Aborted => Aborted
    case Ran(s1, answers) => Ran(EndBlock(s1, sch), answers)
  }

  // A reloaded node knows its store, its configuration and its own clock, and nothing else (how it
  // prints addresses is the same on every node).
  function Reopened(db: Store, sch: Schedule, clock: nat, text: Address -> Bytes): State {
    Load(db, clock, ActiveAt(sch.memo, db.height), text)
  }

  /** A run of blocks; with `reloads` the node reloads wherever the blocks say. */
  function RunBlocks(depth: nat, s: State, sch: Schedule, blocks: seq<Block>, reloads: bool): Outcome {
    if blocks == [] then Ran(s, [])
    else
      var b := blocks[|blocks| - 1];
      match RunBlocks(depth, s, sch, blocks[..|blocks| - 1], reloads)
      case Aborted => Aborted
      case Ran(s1, answers) =>
        match RunBlock(depth, s1, sch, b)
        case Aborted => Aborted
        case Ran(s2, more) =>
          Ran(if reloads && b.reload.Some? then Reopened(s2.db, sch, b.reload.value, s2.text) else s2, answers + more)
  }

  // ---------------------------------------------------------------- what calls leave alone

  // Both lie in one block: what scans see, the time, the height and the migrations are the same.
  ghost predicate KeepsBlock(s: State, s': State) {
    && s'.memoActive == s.memoActive && s'.db.height == s.db.height && s'.now == s.now && s'.committed == s.committed
  }

  lemma {:induction false} InsideBlockKeeps(g: State, es: seq<Effect>)
    requires forall i :: 0 <= i < |es| ==> InsideBlock(es[i])
    ensures KeepsBlock(g, After(g, es))
    decreases |es|
  {
    hide Apply;
    if es != [] {
      InsideBlockKeeps(g, es[..|es| - 1]);
      InsideStep(After(g, es[..|es| - 1]), es[|es| - 1]);
    }
  }

  lemma InsideStep(s: State, e: Effect)
    requires InsideBlock(e)
    ensures KeepsBlock(s, Apply(s, e))
  {
  }

  lemma StartReached(s: State)
    ensures Reached(s, Machine(s, []))
  {
  }

  predicate AllInside(trace: seq<Effect>) {
    forall i :: 0 <= i < |trace| ==> InsideBlock(trace[i])
  }

  lemma MovesInside(s: State, m': Machine)
    requires MultisigMoves(Machine(s, []), m')
    ensures AllInside(m'.trace)
  {
  }

  lemma OneInside(s: State, e: Effect)
    requires InsideBlock(e)
    ensures AllInside([]) && AllInside(Do(Machine(s, []), e).trace)
  {
  }

  lemma CallInside(depth: nat, s: State, c: Call)
    requires !c.BeginBlockCall? && !c.CommitCall? && Answer(depth, Machine(s, []), c).Done?
    ensures AllInside(Answer(depth, Machine(s, []), c).m.trace)
  {
    hide Answer, Apply, MultisigMoves, MovesNothing, AllInside, Do;
    var m' := Answer(depth, Machine(s, []), c).m;
    CallsMoveTokensAsNamed(depth, Machine(s, []), c);
    if MultisigMoves(Machine(s, []), m') { MovesInside(s, m'); }
    match c
    case SendCall(sender, from, to, symbol, amount, memo) =>
      OneInside(s, Sent(Direct(sender), from.GetOr(sender), to, symbol, amount, memo));
    case MintCall(sender, symbol, dist, memo) => OneInside(s, Minted(sender, symbol, dist, memo));
    case BurnCall(sender, symbol, dist, memo, _) => OneInside(s, Burned(sender, symbol, dist, memo));
    case _ =>
  }

  lemma CallKeeps(depth: nat, s: State, c: Call)
    requires !c.BeginBlockCall? && !c.CommitCall? && Answer(depth, Machine(s, []), c).Done?
    ensures KeepsBlock(s, Answer(depth, Machine(s, []), c).m.s)
  {
    hide Answer, Apply, Legal;
    StartReached(s);
    AnswerLegal(depth, s, Machine(s, []), c);
    CallInside(depth, s, c);
    InsideBlockKeeps(s, Answer(depth, Machine(s, []), c).m.trace);
  }

  lemma {:induction false} CallsKeep(depth: nat, s: State, calls: seq<Call>)
    requires forall i :: 0 <= i < |calls| ==> !calls[i].BeginBlockCall? && !calls[i].CommitCall?
    requires RunCalls(depth, s, calls).Ran?
    ensures KeepsBlock(s, RunCalls(depth, s, calls).s)
    decreases |calls|
  {
    hide Answer;
    if calls != [] {
      CallsKeep(depth, s, calls[..|calls| - 1]);
      CallKeeps(depth, RunCalls(depth, s, calls[..|calls| - 1]).s, calls[|calls| - 1]);
    }
  }

  lemma EndBlockActivates(s: State, sch: Schedule)
    requires s.memoActive == ActiveAt(sch.memo, s.db.height)
    ensures var s' := EndBlock(s, sch);
            && s'.memoActive == ActiveAt(sch.memo, s'.db.height) && s'.db.height == s.db.height + 1
            && Load(s'.db, s'.now, s'.memoActive, s'.text) == s'
  {
    LoadAfterCommit(Machine(s, []), sch.memo == Some(s.db.height + 1), sch.counts == Some(s.db.height + 1));
    CommitFlags(Machine(s, []), sch.memo == Some(s.db.height + 1), sch.counts == Some(s.db.height + 1));
    hide Commit, Load;
  }

  lemma CommitFlags(m: Machine, memo: bool, counts: bool)
    ensures var s' := Commit(m, memo, counts).s;
            s'.db.height == m.s.db.height + 1 && s'.memoActive == (memo || m.s.memoActive)
  {
  }

  lemma BlockActivates(depth: nat, s: State, sch: Schedule, b: Block)
    requires PlainBlock(b) && s.memoActive == ActiveAt(sch.memo, s.db.height) && RunBlock(depth, s, sch, b).Ran?
    ensures var s' := RunBlock(depth, s, sch, b).s;
            && s'.memoActive == ActiveAt(sch.memo, s'.db.height)
            && Reopened(s'.db, sch, s'.now, s'.text) == s'
  {
    hide EndBlock, RunCalls;
    TimeKeeps(s, b.time);
    CallsKeep(depth, Apply(s, TimeSet(b.time)), b.calls);
    EndBlockActivates(RunCalls(depth, Apply(s, TimeSet(b.time)), b.calls).s, sch);
  }

  lemma TimeKeeps(s: State, time: nat)
    ensures Apply(s, TimeSet(time)) == s.(now := time)
  {
  }

  // ---------------------------------------------------------------- reloading is not seen

  // The clock of the node is all that differs.
  ghost predicate SameButClock(a: State, b: State) { a.(now := b.now) == b }

  /** Over any run of blocks, wherever nodes reload and whatever their clocks then say: the node
      that reloads aborts exactly when one that keeps running does; otherwise both give the same
      answers, identifiers included, and end in the same state, but for the clock of a node that
      has just reloaded. */
  lemma {:induction false} ReloadsAreInvisible(depth: nat, g: State, sch: Schedule, blocks: seq<Block>)
    requires g.memoActive == ActiveAt(sch.memo, g.db.height)
    requires forall i :: 0 <= i < |blocks| ==> PlainBlock(blocks[i])
    ensures var reloading, running := RunBlocks(depth, g, sch, blocks, true), RunBlocks(depth, g, sch, blocks, false);
            && (reloading.Aborted? <==> running.Aborted?)
            && (reloading.Ran? ==>
                  && reloading.answers == running.answers && SameButClock(reloading.s, running.s)
                  && running.s.memoActive == ActiveAt(sch.memo, running.s.db.height)
                  && (blocks != [] && blocks[|blocks| - 1].reload.None? ==> reloading.s == running.s))
    decreases |blocks|
  {
    hide RunBlock, PlainBlock, ActiveAt;
    if blocks != [] {
      var front, b := blocks[..|blocks| - 1], blocks[|blocks| - 1];
      ReloadsAreInvisible(depth, g, sch, front);
      var reloading, running := RunBlocks(depth, g, sch, front, true), RunBlocks(depth, g, sch, front, false);
      if running.Ran? {
        SameBlock(depth, reloading.s, running.s, sch, b);
        if RunBlock(depth, running.s, sch, b).Ran? { BlockActivates(depth, running.s, sch, b); }
      }
    }
  }

  lemma SameBlock(depth: nat, a: State, b: State, sch: Schedule, block: Block)
    requires SameButClock(a, b)
    ensures RunBlock(depth, a, sch, block) == RunBlock(depth, b, sch, block)
  {
    TimeKeeps(a, block.time);
    TimeKeeps(b, block.time);
  }
}
