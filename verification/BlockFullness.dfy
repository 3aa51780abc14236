/** The spam guard: a sliding-window counter of blocks that were not full, kept incrementally while blocks enter and
    leave the window, which pauses the challenges ticker when too few of them were. */
module BlockFullness {
  import opened Prelude

  datatype Weight = Weight(refTime: nat, proofSize: nat)

  /** `minNotFullRatio` is a `Perbill`: parts per billion. */
  datatype Config = Config(maxWeight: Weight, headroom: Weight, period: nat, minNotFullRatio: nat)

  const BILLION := 1_000_000_000

  datatype Meter = Meter(block: nat, weights: map<nat, Weight>, notFull: nat, ticker: nat, paused: bool)

  const GENESIS := Meter(0, map[], 0, 0, false)

  predicate NotFull(c: Config, w: Weight) {
    && SatSub(c.maxWeight.refTime, w.refTime) >= c.headroom.refTime
    && SatSub(c.maxWeight.proofSize, w.proofSize) >= c.headroom.proofSize
  }

  function One(c: Config, w: Weight): nat {
    if NotFull(c, w) then 1 else 0
  }

  function MinNotFull(c: Config): nat {
    c.minNotFullRatio * c.period / BILLION
  }

  /** A block is not full exactly when it leaves the headroom in both dimensions. */
  lemma NotFullExactly(c: Config, w: Weight)
    ensures NotFull(c, w) <==>
              && (c.headroom.refTime == 0 || w.refTime + c.headroom.refTime <= c.maxWeight.refTime)
              && (c.headroom.proofSize == 0 || w.proofSize + c.headroom.proofSize <= c.maxWeight.proofSize)
  {
  }

  /** The threshold is the largest whole number of blocks that is no more than the ratio of the window. */
  lemma MinNotFullIsFloor(c: Config, n: nat)
    ensures BILLION * MinNotFull(c) <= c.minNotFullRatio * c.period
    ensures BILLION * n <= c.minNotFullRatio * c.period ==> n <= MinNotFull(c)
  {
    var q := MinNotFull(c);
    assert c.minNotFullRatio * c.period == BILLION * q + (c.minNotFullRatio * c.period) % BILLION;
  }

  /** What a stored block adds to the counter. */
  function StoredOne(c: Config, m: Meter, block: int): nat {
    if block >= 0 && block in m.weights then One(c, m.weights[block]) else 0
  }

  /** `on_poll`: advance the ticker unless paused, then move the window by one block and decide on the pause. */
  function Poll(c: Config, m: Meter): Meter {
    var current := m.block + 1;
    var ticker := if m.paused then m.ticker else m.ticker + 1;
    var notFull := SatSub(m.notFull + StoredOne(c, m, current - 1), StoredOne(c, m, current - (c.period + 1)));
    m.(notFull := notFull,
       ticker := ticker,
       paused := if ticker > c.period then notFull <= MinNotFull(c) else m.paused)
  }

  /** `set_paused`: root pauses or resumes the ticker by hand. */
  function SetPaused(m: Meter, paused: Option<bool>): Meter {
    if paused.Some? then m.(paused := paused.value) else m
  }

  /** `on_finalize`: store the weight of the block and forget the one that fell out of the window. */
  function Finalise(c: Config, m: Meter, w: Weight): Meter {
    var current := m.block + 1;
    var stored := m.weights[current := w];
    m.(block := current,
       weights := if current >= c.period + 1 then stored - {current - (c.period + 1)} else stored)
  }

  /** The hooks in the form they run. */
  class SpamGuard {
    const config: Config
    var block: nat
    var weights: map<nat, Weight>
    var notFull: nat
    var ticker: nat
    var paused: bool

    function State(): Meter
      reads this
    {
      Meter(block, weights, notFull, ticker, paused)
    }

    constructor (c: Config)
      ensures config == c && State() == GENESIS
    {
      config := c;
      block, weights, notFull, ticker, paused := 0, map[], 0, 0, false;
    }

    method OnPoll()
      modifies this`notFull, this`ticker, this`paused
      ensures State() == Poll(config, old(State()))
    {
      hide NotFull, MinNotFull;
      if !paused {
        ticker := ticker + 1;
      }
      var current := block + 1;
      if current - 1 in weights && NotFull(config, weights[current - 1]) {
        notFull := notFull + 1;
      }
      if current >= config.period + 1 {
        var oldest := current - (config.period + 1);
        if oldest in weights && NotFull(config, weights[oldest]) {
          notFull := SatSub(notFull, 1);
        }
      }
      if ticker > config.period {
        paused := !(notFull > MinNotFull(config));
      }
    }

    /** Root's call holds until the next poll that decides for itself. */
    method SetTickerPaused(value: bool)
      modifies this`paused
      ensures State() == SetPaused(old(State()), Some(value))
      ensures Poll(config, State()).ticker > config.period ==>
                Poll(config, State()).paused == (Poll(config, State()).notFull <= MinNotFull(config))
    {
      paused := value;
    }

    method OnFinalise(w: Weight)
      modifies this`block, this`weights
      ensures State() == Finalise(config, old(State()), w)
    {
      block := block + 1;
      weights := weights[block := w];
      if block >= config.period + 1 {
        weights := weights - {block - (config.period + 1)};
      }
    }
  }

  // --- Runs -------------------------------------------------------------------------------------------

  /** A block of the chain. The poll is skipped in blocks that are part of a multi-block migration; after it root may set
      the pause. */
  datatype Block = Block(polled: bool, root: Option<bool>, weight: Weight)

  function Run(c: Config, blocks: seq<Block>): Meter
    decreases |blocks|
  {
    if blocks == [] then GENESIS
    else
      var n := |blocks| - 1;
      var m := Run(c, blocks[..n]);
      Finalise(c, SetPaused(if blocks[n].polled then Poll(c, m) else m, blocks[n].root), blocks[n].weight)
  }

  /** A recount of the blocks that are not full. */
  function NotFullAmong(c: Config, blocks: seq<Block>): nat
    decreases |blocks|
  {
    if blocks == [] then 0 else NotFullAmong(c, blocks[1..]) + One(c, blocks[0].weight)
  }

  /** The blocks of the window after `blocks`. */
  function Recent(c: Config, blocks: seq<Block>): seq<Block> {
    blocks[SatSub(|blocks|, c.period)..]
  }

  function Window(c: Config, blocks: seq<Block>): nat {
    NotFullAmong(c, Recent(c, blocks))
  }

  /** What the block entering the window after `blocks` adds, and what the block leaving it takes away. */
  function Entering(c: Config, blocks: seq<Block>): nat {
    if blocks == [] then 0 else One(c, blocks[|blocks| - 1].weight)
  }

  function Leaving(c: Config, blocks: seq<Block>): nat {
    if |blocks| > c.period then One(c, blocks[|blocks| - 1 - c.period].weight) else 0
  }

  /** Exactly the weights the window can need are stored, whether or not blocks were polled. */
  ghost predicate Stored(c: Config, m: Meter, blocks: seq<Block>) {
    && m.block == |blocks|
    && (forall b: nat :: b in m.weights <==> 1 <= b <= |blocks| && b + c.period >= |blocks|)
    && (forall b: nat :: b in m.weights && 1 <= b <= |blocks| ==> m.weights[b] == blocks[b - 1].weight)
  }

  lemma {:induction false} RunStores(c: Config, blocks: seq<Block>)
    ensures Stored(c, Run(c, blocks), blocks)
    decreases |blocks|
  {
    if blocks != [] {
      var n := |blocks| - 1;
      RunStores(c, blocks[..n]);
      var m := Run(c, blocks[..n]);
      FinaliseStores(c, SetPaused(if blocks[n].polled then Poll(c, m) else m, blocks[n].root), blocks[..n], blocks[n]);
      assert blocks == blocks[..n] + [blocks[n]];
    }
  }

  lemma FinaliseStores(c: Config, m: Meter, blocks: seq<Block>, b: Block)
    requires Stored(c, m, blocks)
    ensures Stored(c, Finalise(c, m, b.weight), blocks + [b])
  {
  }

  lemma {:induction false} NotFullAmongSnoc(c: Config, blocks: seq<Block>, b: Block)
    ensures NotFullAmong(c, blocks + [b]) == NotFullAmong(c, blocks) + One(c, b.weight)
    decreases |blocks|
  {
    if blocks == [] {
      assert ([b])[1..] == [];
    } else {
      assert (blocks + [b])[1..] == blocks[1..] + [b];
      NotFullAmongSnoc(c, blocks[1..], b);
    }
  }

  /** The window moves by what enters and what leaves. */
  lemma WindowMoves(c: Config, blocks: seq<Block>)
    requires blocks != []
    ensures Window(c, blocks) + Leaving(c, blocks) == Window(c, blocks[..|blocks| - 1]) + Entering(c, blocks)
  {
    var n := |blocks| - 1;
    var before := blocks[..n];
    var b := blocks[n];
    var recent := Recent(c, before);
    NotFullAmongSnoc(c, recent, b);
    if n >= c.period {
      var wide := recent + [b];
      assert wide == blocks[n - c.period..];
      assert wide[1..] == Recent(c, blocks);
    } else {
      assert recent + [b] == Recent(c, blocks);
    }
  }

  /** How far the counter is off after a run. Each skipped poll leaves out what entered and what left; a poll that would
      take the counter below zero stops at zero; nothing else changes it. */
  ghost function Drift(c: Config, blocks: seq<Block>): int
    decreases |blocks|, 0
  {
    if blocks == [] then 0
    else
      var before := blocks[..|blocks| - 1];
      if blocks[|blocks| - 1].polled then DriftAfterPoll(c, before)
      else Drift(c, before) + Leaving(c, before) - Entering(c, before)
  }

  ghost function DriftAfterPoll(c: Config, blocks: seq<Block>): int
    decreases |blocks|, 1
  {
    if Window(c, blocks) + Drift(c, blocks) < 0 then 0 - Window(c, blocks) as int else Drift(c, blocks)
  }

  /** The window as of the last block's poll. */
  function LastWindow(c: Config, blocks: seq<Block>): nat {
    if blocks == [] then 0 else Window(c, blocks[..|blocks| - 1])
  }

  /** In every run, polled or not, the counter is the recount plus the drift. */
  lemma {:induction false} CounterIsWindowPlusDrift(c: Config, blocks: seq<Block>)
    ensures Run(c, blocks).notFull == LastWindow(c, blocks) + Drift(c, blocks)
    ensures Poll(c, Run(c, blocks)).notFull == Window(c, blocks) + DriftAfterPoll(c, blocks)
    decreases |blocks|
  {
    PollMovesCounter(c, blocks);
    RunCounter(c, blocks);
    hide Run, Poll, Window, Entering, Leaving;
    if blocks == [] {
      NothingInWindow(c);
    } else {
      var before := blocks[..|blocks| - 1];
      CounterIsWindowPlusDrift(c, before);
      if before != [] {
        WindowMoves(c, before);
      } else {
        NothingInWindow(c);
      }
      WindowMoves(c, blocks);
    }
  }

  lemma RunCounter(c: Config, blocks: seq<Block>)
    ensures blocks == [] ==> Run(c, blocks).notFull == 0
    ensures blocks != [] ==>
              var n := |blocks| - 1;
              var m := Run(c, blocks[..n]);
              Run(c, blocks).notFull == if blocks[n].polled then Poll(c, m).notFull else m.notFull
  {
  }

  lemma NothingInWindow(c: Config)
    ensures Window(c, []) == 0 && Entering(c, []) == 0 && Leaving(c, []) == 0
  {
  }

  lemma PollMovesCounter(c: Config, blocks: seq<Block>)
    ensures var m := Run(c, blocks);
            Poll(c, m).notFull == SatSub(m.notFull + Entering(c, blocks), Leaving(c, blocks))
  {
    RunStores(c, blocks);
  }

  ghost predicate AllPolled(blocks: seq<Block>) {
    forall i :: 0 <= i < |blocks| ==> blocks[i].polled
  }

  /** Without skipped polls the incremental counter is always the recount of the window. */
  lemma {:induction false} CounterIsRecount(c: Config, blocks: seq<Block>)
    requires AllPolled(blocks)
    ensures Drift(c, blocks) == 0
    ensures Poll(c, Run(c, blocks)).notFull == Window(c, blocks)
    decreases |blocks|
  {
    if blocks != [] {
      CounterIsRecount(c, blocks[..|blocks| - 1]);
    }
    CounterIsWindowPlusDrift(c, blocks);
  }

  /** After one skipped poll the next count is right exactly when the skipped block exchanged equals, or when it is
      clipped: nothing in the new window and nothing in the counter to subtract the leaving block from. */
  lemma CounterAfterSkipExactly(c: Config, blocks: seq<Block>, root: Option<bool>, skipped: Weight)
    requires AllPolled(blocks)
    ensures var all := blocks + [Block(false, root, skipped)];
            Poll(c, Run(c, all)).notFull == Window(c, all) <==>
              || Entering(c, blocks) == Leaving(c, blocks)
              || (Window(c, all) == 0 && Entering(c, blocks) > Leaving(c, blocks))
  {
    var all := blocks + [Block(false, root, skipped)];
    assert all[..|all| - 1] == blocks;
    CounterIsRecount(c, blocks);
    CounterIsWindowPlusDrift(c, all);
  }

  /** A skipped poll that is never made up for: a window of two in which a block that is not full slipped past. */
  lemma SkippedPollMiscounts()
    ensures var c := Config(Weight(10, 10), Weight(5, 5), 2, 0);
            var blocks := [Block(true, None, Weight(0, 0)), Block(false, None, Weight(0, 0))];
            Window(c, blocks) == 2 && Poll(c, Run(c, blocks)).notFull == 1
  {
    var c := Config(Weight(10, 10), Weight(5, 5), 2, 0);
    var blocks := [Block(true, None, Weight(0, 0)), Block(false, None, Weight(0, 0))];
    assert blocks[..1] == [Block(true, None, Weight(0, 0))];
    assert blocks[..1][..0] == [];
    assert Recent(c, blocks) == blocks && blocks[1..] == [Block(false, None, Weight(0, 0))];
    CounterIsRecount(c, blocks[..1]);
    CounterAfterSkipExactly(c, blocks[..1], None, Weight(0, 0));
    CounterIsWindowPlusDrift(c, blocks);
  }

  // --- The pause --------------------------------------------------------------------------------------

  lemma {:induction false} TickerIsBounded(c: Config, blocks: seq<Block>)
    ensures Run(c, blocks).ticker <= |blocks|
    decreases |blocks|
  {
    if blocks != [] {
      TickerIsBounded(c, blocks[..|blocks| - 1]);
    }
  }

  /** Root leaves the pause alone. */
  ghost predicate NoRootCalls(blocks: seq<Block>) {
    forall i :: 0 <= i < |blocks| ==> blocks[i].root.None?
  }

  lemma {:induction false} UnforcedPause(c: Config, blocks: seq<Block>)
    requires NoRootCalls(blocks)
    ensures Run(c, blocks).paused ==> Run(c, blocks).ticker > c.period
    decreases |blocks|
  {
    if blocks != [] {
      UnforcedPause(c, blocks[..|blocks| - 1]);
    }
  }

  /** Without skipped polls, a poll past the window pauses the ticker exactly when the recount of the window is not above the
      threshold, whatever root did before; until then only root can have paused it. */
  lemma PausedExactly(c: Config, blocks: seq<Block>)
    requires AllPolled(blocks)
    ensures var m := Poll(c, Run(c, blocks));
            m.ticker > c.period ==> (m.paused <==> Window(c, blocks) <= MinNotFull(c))
    ensures NoRootCalls(blocks) ==>
              var m := Poll(c, Run(c, blocks));
              m.paused <==> m.ticker > c.period && Window(c, blocks) <= MinNotFull(c)
  {
    CounterIsRecount(c, blocks);
    if NoRootCalls(blocks) {
      UnforcedPause(c, blocks);
    }
  }

  /** The ticker and the pause after a run, from the weights and root's calls alone. */
  datatype Pace = Pace(ticks: nat, paused: bool)

  ghost function PaceByRecount(c: Config, blocks: seq<Block>): Pace
    decreases |blocks|
  {
    if blocks == [] then Pace(0, false)
    else
      var before := blocks[..|blocks| - 1];
      var last := PaceByRecount(c, before);
      var ticks := if last.paused then last.ticks else last.ticks + 1;
      var paused := if ticks > c.period then Window(c, before) <= MinNotFull(c) else last.paused;
      var root := blocks[|blocks| - 1].root;
      Pace(ticks, if root.Some? then root.value else paused)
  }

  /** The ticker counts every block except those after a window with too few blocks that were not full, or after root's
      pause. */
  lemma {:induction false} TickerMatchesRecount(c: Config, blocks: seq<Block>)
    requires AllPolled(blocks)
    ensures Pace(Run(c, blocks).ticker, Run(c, blocks).paused) == PaceByRecount(c, blocks)
    decreases |blocks|
  {
    if blocks != [] {
      var before := blocks[..|blocks| - 1];
      TickerMatchesRecount(c, before);
      PausedExactly(c, before);
    }
  }

  // --- Honest authors ---------------------------------------------------------------------------------

  /** How many of the window's blocks were authored by someone misbehaving. */
  function Misbehaving(honest: seq<bool>): nat
    decreases |honest|
  {
    if honest == [] then 0 else Misbehaving(honest[1..]) + (if honest[0] then 0 else 1)
  }

  /** More blocks that are not full than misbehaving authors: one of them had an honest author. */
  lemma {:induction false} SomeHonestRoom(c: Config, blocks: seq<Block>, honest: seq<bool>) returns (i: nat)
    requires |honest| == |blocks|
    requires NotFullAmong(c, blocks) > Misbehaving(honest)
    ensures i < |blocks| && NotFull(c, blocks[i].weight) && honest[i]
    decreases |blocks|
  {
    if NotFull(c, blocks[0].weight) && honest[0] {
      i := 0;
    } else {
      i := SomeHonestRoom(c, blocks[1..], honest[1..]);
      i := i + 1;
    }
  }

  lemma HalfOfPeriod(c: Config, misbehaving: nat)
    requires c.minNotFullRatio * 2 >= BILLION && misbehaving * 2 < c.period
    ensures misbehaving <= MinNotFull(c)
  {
    var x := c.minNotFullRatio * c.period;
    assert x * 2 == (c.minNotFullRatio * 2) * c.period;
    assert (c.minNotFullRatio * 2) * c.period >= BILLION * c.period by {
      MulOrder(BILLION, c.minNotFullRatio * 2, c.period);
    }
    assert x >= BILLION * misbehaving;
  }

  lemma MulOrder(a: nat, b: nat, k: nat)
    requires a <= b
    ensures a * k <= b * k
  {
  }

  /** What the pause is for: if the ticker has passed the window and is not paused, at least half the window has to be
      not full, and fewer than half of its authors misbehave, then an honest author left room in some block. */
  lemma UnpausedMeansHonestRoom(c: Config, blocks: seq<Block>, honest: seq<bool>) returns (i: nat)
    requires AllPolled(blocks) && c.minNotFullRatio * 2 >= BILLION
    requires var m := Poll(c, Run(c, blocks)); m.ticker > c.period && !m.paused
    requires |honest| == |Recent(c, blocks)| && Misbehaving(honest) * 2 < c.period
    ensures |Recent(c, blocks)| == c.period
    ensures i < |Recent(c, blocks)| && NotFull(c, Recent(c, blocks)[i].weight) && honest[i]
  {
    TickerIsBounded(c, blocks);
    PausedExactly(c, blocks);
    HalfOfPeriod(c, Misbehaving(honest));
    i := SomeHonestRoom(c, Recent(c, blocks), honest);
  }
}
