/** The mock clock of the development node: a thread-local timestamp that is read when the providers of a block are built
    and advanced when the timestamp inherent is supplied. */
module SlotClock {
  import opened Prelude

  type Thread = nat

  const SLOT_DURATION: nat := 6000

  // --- Runs over many threads -------------------------------------------------------------------------

  /** One attempt to author a block: the thread its providers are built on, and the thread that supplies the timestamp,
      if the attempt gets that far. A thread's cell starts at the wall clock when it is first used. */
  datatype Attempt = Attempt(build: Thread, supply: Option<Thread>, wallClock: nat)

  /** An authored block: the time its slot was derived from, and its timestamp inherent. */
  datatype Block = Block(derived: nat, inherent: nat)

  function Slot(b: Block): nat {
    b.derived / SLOT_DURATION
  }

  datatype Clocks = Clocks(cells: map<Thread, nat>, blocks: seq<Block>)

  function Cell(c: Clocks, t: Thread, wallClock: nat): nat {
    if t in c.cells then c.cells[t] else wallClock
  }

  function Author(c: Clocks, a: Attempt): Clocks {
    var read := Cell(c, a.build, a.wallClock);
    var begun := c.cells[a.build := read];
    match a.supply
    case None => c.(cells := begun)
    case Some(t) =>
      var advanced := (if t in begun then begun[t] else a.wallClock) + SLOT_DURATION;
      Clocks(begun[t := advanced], c.blocks + [Block(read + SLOT_DURATION, advanced)])
  }

  function Run(c: Clocks, attempts: seq<Attempt>): Clocks
    decreases |attempts|
  {
    if attempts == [] then c else Author(Run(c, attempts[..|attempts| - 1]), attempts[|attempts| - 1])
  }

  /** A block's timestamp is the time its slot was derived from exactly when the two threads' cells agreed, for instance
      when they are the same thread. */
  lemma TimesAgreeExactly(c: Clocks, a: Attempt)
    requires a.supply.Some?
    ensures var b := Author(c, a).blocks[|c.blocks|];
            b.inherent == b.derived <==>
              Cell(c, a.build, a.wallClock) == Cell(c, a.supply.value, a.wallClock)
  {
  }

  /** Every attempt is made on thread `t`, whether it is abandoned or not. */
  ghost predicate OnOneThread(attempts: seq<Attempt>, t: Thread) {
    forall i :: 0 <= i < |attempts| ==>
      attempts[i].build == t && (attempts[i].supply.Some? ==> attempts[i].supply.value == t)
  }

  function Authored(attempts: seq<Attempt>): nat
    decreases |attempts|
  {
    if attempts == [] then 0
    else Authored(attempts[..|attempts| - 1]) + (if attempts[|attempts| - 1].supply.Some? then 1 else 0)
  }

  lemma SlotAfter(start: nat, k: nat)
    ensures (start + SLOT_DURATION * k) / SLOT_DURATION == start / SLOT_DURATION + k
  {
  }

  ghost predicate InSequence(blocks: seq<Block>, start: nat) {
    forall i :: 0 <= i < |blocks| ==>
      && blocks[i].inherent == blocks[i].derived == start + SLOT_DURATION * (i + 1)
      && Slot(blocks[i]) == start / SLOT_DURATION + i + 1
  }

  /** What the thread's cell shows when the run begins to use it: its value, or the wall clock at the first attempt. */
  function StartOf(c: Clocks, t: Thread, attempts: seq<Attempt>): nat {
    if t in c.cells then c.cells[t] else if attempts == [] then 0 else attempts[0].wallClock
  }

  lemma {:induction false} StartedCounts(c: Clocks, t: Thread, attempts: seq<Attempt>)
    requires OnOneThread(attempts, t) && t in c.cells
    ensures var c' := Run(c, attempts);
            && c.blocks <= c'.blocks && |c'.blocks| == |c.blocks| + Authored(attempts)
            && InSequence(c'.blocks[|c.blocks|..], c.cells[t])
            && t in c'.cells && c'.cells[t] == c.cells[t] + SLOT_DURATION * Authored(attempts)
    decreases |attempts|
  {
    if attempts != [] {
      var n := |attempts| - 1;
      var start := c.cells[t];
      StartedCounts(c, t, attempts[..n]);
      var a := attempts[n];
      assert a.build == t;
      if a.supply.Some? {
        var k := Authored(attempts[..n]);
        assert start + SLOT_DURATION * k + SLOT_DURATION == start + SLOT_DURATION * (k + 1);
        SlotAfter(start, k + 1);
        var before, after := Run(c, attempts[..n]).blocks, Run(c, attempts).blocks;
        assert after[|c.blocks|..] == before[|c.blocks|..] + [after[|before|]];
      }
    }
  }

  /** A run is the same whether its building thread's cell is set by the first attempt or was set to that value before. */
  lemma {:induction false} FirstUse(c: Clocks, t: Thread, attempts: seq<Attempt>)
    requires attempts != [] && attempts[0].build == t && t !in c.cells
    ensures Run(c, attempts) == Run(c.(cells := c.cells[t := attempts[0].wallClock]), attempts)
    decreases |attempts|
  {
    var ready := c.(cells := c.cells[t := attempts[0].wallClock]);
    if |attempts| == 1 {
      assert attempts[..0] == [];
      assert c.cells[t := Cell(c, t, attempts[0].wallClock)] == ready.cells[t := ready.cells[t]];
    } else {
      FirstUse(c, t, attempts[..|attempts| - 1]);
    }
  }

  /** On one thread, over every run from any state of the node, also from start-up, abandoned attempts included: each new
      block's timestamp is the time its slot was derived from, and the slots count up by exactly one from block to block,
      starting right after the slot of the time the thread's cell first shows. */
  lemma SlotsCountBlocks(c: Clocks, t: Thread, attempts: seq<Attempt>)
    requires OnOneThread(attempts, t)
    ensures var c' := Run(c, attempts);
            && c.blocks <= c'.blocks && |c'.blocks| == |c.blocks| + Authored(attempts)
            && InSequence(c'.blocks[|c.blocks|..], StartOf(c, t, attempts))
  {
    if t in c.cells {
      StartedCounts(c, t, attempts);
    } else if attempts != [] {
      FirstUse(c, t, attempts);
      StartedCounts(c.(cells := c.cells[t := attempts[0].wallClock]), t, attempts);
    }
  }

  /** The node's cells and the blocks it has authored, updated in place. */
  class DevelopmentNode {
    var cells: map<Thread, nat>
    var blocks: seq<Block>

    function State(): Clocks
      reads this
    {
      Clocks(cells, blocks)
    }

    constructor ()
      ensures State() == Clocks(map[], [])
    {
      cells, blocks := map[], [];
    }

    /** The first use of a thread's cell sets it to the wall clock. */
    method Touch(t: Thread, wallClock: nat)
      modifies this`cells
      ensures cells == old(cells)[t := Cell(old(State()), t, wallClock)]
    {
      if t !in cells {
        cells := cells[t := wallClock];
      } else {
        assert cells[t := cells[t]] == cells;
      }
    }

    /** One attempt: building the providers reads a copy of the building thread's cell; supplying the inherent advances the
        supplying thread's cell and reports it. */
    method AuthorBlock(a: Attempt)
      modifies this
      ensures State() == Author(old(State()), a)
    {
      Touch(a.build, a.wallClock);
      var derived := cells[a.build] + SLOT_DURATION;
      if a.supply.Some? {
        Touch(a.supply.value, a.wallClock);
        cells := cells[a.supply.value := cells[a.supply.value] + SLOT_DURATION];
        blocks := blocks + [Block(derived, cells[a.supply.value])];
      }
    }

    /** A series of attempts. When all of them are made on one thread, the timestamps of the new blocks are the times their
        slots were derived from, and the slots count up by one from block to block. */
    method AuthorAll(attempts: seq<Attempt>)
      modifies this
      ensures State() == Run(old(State()), attempts)
      ensures forall t :: OnOneThread(attempts, t) ==>
                && |blocks| == old(|blocks|) + Authored(attempts)
                && InSequence(blocks[old(|blocks|)..], StartOf(old(State()), t, attempts))
    {
      ghost var before := State();
      var i := 0;
      while i < |attempts|
        invariant 0 <= i <= |attempts| && State() == Run(before, attempts[..i])
      {
        AuthorBlock(attempts[i]);
        assert attempts[..i + 1][..i] == attempts[..i];
        i := i + 1;
      }
      assert attempts[..i] == attempts;
      forall t | OnOneThread(attempts, t)
        ensures |blocks| == |before.blocks| + Authored(attempts)
        ensures InSequence(blocks[|before.blocks|..], StartOf(before, t, attempts))
      {
        SlotsCountBlocks(before, t, attempts);
      }
    }
  }

  const STARTED := Clocks(map[], [])

  /** From start-up, two threads whose cells are first used at different times: the slot says one time, the timestamp
      another. */
  lemma ThreadsDisagree()
    ensures var attempts := [Attempt(1, None, 0), Attempt(2, None, SLOT_DURATION), Attempt(1, Some(2), SLOT_DURATION)];
            var c := Run(STARTED, attempts);
            |c.blocks| == 1 && c.blocks[0].derived == SLOT_DURATION && c.blocks[0].inherent == 2 * SLOT_DURATION
  {
    var a, b, d := Attempt(1, None, 0), Attempt(2, None, SLOT_DURATION), Attempt(1, Some(2), SLOT_DURATION);
    assert [a, b, d][..2] == [a, b] && [a, b][..1] == [a] && [a][..0] == [];
    assert Run(STARTED, [a]) == Clocks(map[1 := 0], []);
    assert Run(STARTED, [a, b]) == Clocks(map[1 := 0, 2 := SLOT_DURATION], []);
  }

  /** Every attempt is built on one thread and supplied on another. */
  ghost predicate OnTwoThreads(attempts: seq<Attempt>, build: Thread, supply: Thread) {
    build != supply && forall j :: 0 <= j < |attempts| ==> attempts[j].build == build && attempts[j].supply == Some(supply)
  }

  /** Building on one thread and supplying on another, from any state of the node, the slot stands still: however many blocks
      are authored, each is derived from the same time. */
  lemma {:induction false} SlotStandsStill(c: Clocks, build: Thread, supply: Thread, attempts: seq<Attempt>, i: nat)
    requires OnTwoThreads(attempts, build, supply) && |c.blocks| <= i < |Run(c, attempts).blocks|
    ensures Run(c, attempts).blocks[i].derived == StartOf(c, build, attempts) + SLOT_DURATION
    decreases |attempts|
  {
    var n := |attempts| - 1;
    var before := Run(c, attempts[..n]);
    BuildCellStays(c, build, supply, attempts[..n]);
    if i < |before.blocks| {
      SlotStandsStill(c, build, supply, attempts[..n], i);
    }
  }

  lemma {:induction false} BuildCellStays(c: Clocks, build: Thread, supply: Thread, attempts: seq<Attempt>)
    requires OnTwoThreads(attempts, build, supply)
    ensures var c' := Run(c, attempts);
            && |c'.blocks| == |c.blocks| + |attempts|
            && (attempts == [] ==> c' == c)
            && (attempts != [] ==> build in c'.cells && c'.cells[build] == StartOf(c, build, attempts))
    decreases |attempts|
  {
    if attempts != [] {
      BuildCellStays(c, build, supply, attempts[..|attempts| - 1]);
    }
  }
}
