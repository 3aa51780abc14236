/** The event bus of the actors framework: a broadcast ring, the listeners that read it at their own pace, and the actor
    that emits while it works through its mailbox. Tasks interleave freely, so a run is any sequence of their steps. */
module EventBus {
  type Event = nat
  type Message = nat
  type ListenerId = nat

  const MAX_PENDING_EVENTS: nat := 2000

  // --- The ring ---------------------------------------------------------------------------------------

  datatype Received = Empty | Lagged | Got(event: Event)

  /** What a receiver at position `cursor` gets from a channel through which `log` has been sent. */
  function Receive(capacity: nat, log: seq<Event>, cursor: nat): Received {
    if cursor >= |log| then Empty
    else if |log| - cursor > capacity then Lagged
    else Got(log[cursor])
  }

  lemma SlotsDiffer(capacity: nat, a: nat, b: nat)
    requires a < b < a + capacity
    ensures a % capacity != b % capacity
  {
    var x, y := a / capacity, b / capacity;
    assert a == capacity * x + a % capacity && b == capacity * y + b % capacity;
    assert capacity * (y - x) == capacity * y - capacity * x;
    NoMultipleBetween(capacity, y - x);
  }

  lemma NoMultipleBetween(capacity: nat, k: int)
    ensures !(0 < capacity * k < capacity)
  {
    if k >= 1 {
      assert capacity * k == capacity + capacity * (k - 1);
      assert capacity * (k - 1) >= 0;
    } else {
      assert capacity * k <= 0;
    }
  }

  /** The channel keeps only the last `capacity` events, in a ring of slots; it answers as if it kept them all. */
  class Channel {
    const slots: array<Event>
    var tail: nat
    ghost var log: seq<Event>

    ghost predicate Valid()
      reads this, slots
    {
      && slots.Length > 0 && tail == |log|
      && forall p :: 0 <= p < tail && tail <= p + slots.Length ==> slots[p % slots.Length] == log[p]
    }

    constructor (capacity: nat)
      requires capacity >= MAX_PENDING_EVENTS
      ensures Valid() && fresh(slots) && log == [] && slots.Length == capacity
    {
      slots := new Event[capacity];
      tail, log := 0, [];
    }

    method Send(e: Event)
      requires Valid()
      modifies this`tail, this`log, slots
      ensures Valid() && log == old(log) + [e]
    {
      var n := slots.Length;
      slots[tail % n] := e;
      log := log + [e];
      tail := tail + 1;
      forall p | 0 <= p < tail && tail <= p + n
        ensures slots[p % n] == log[p]
      {
        if p < tail - 1 {
          SlotsDiffer(n, p, tail - 1);
        }
      }
    }

    method Recv(cursor: nat) returns (r: Received)
      requires Valid()
      ensures r == Receive(slots.Length, log, cursor)
    {
      if cursor >= tail { return Empty; }
      if tail - cursor > slots.Length { return Lagged; }
      r := Got(slots[cursor % slots.Length]);
    }
  }

  /** The listener's loop, up to the point where it would wait for the next event: it starts a handler for each event it
      receives and ends at the first error. */
  method RunListener(channel: Channel, first: nat) returns (started: seq<Event>, cursor: nat, ended: bool)
    requires channel.Valid() && first <= |channel.log|
    ensures ended <==> |channel.log| - first > channel.slots.Length
    ensures started == (if ended then [] else channel.log[first..]) && cursor == first + |started|
  {
    started, cursor, ended := [], first, false;
    var r := channel.Recv(cursor);
    while r.Got?
      invariant first <= cursor <= |channel.log| && started == channel.log[first..cursor]
      invariant r == Receive(channel.slots.Length, channel.log, cursor)
      invariant cursor > first ==> |channel.log| - first <= channel.slots.Length
      decreases |channel.log| - cursor
    {
      started := started + [r.event];
      cursor := cursor + 1;
      r := channel.Recv(cursor);
    }
    ended := r.Lagged?;
  }

  // --- Bus, listeners and actor -----------------------------------------------------------------------

  /** A listener reads from `cursor`; `started` are the events it has started handlers for. One that lags ends for good:
      its loop stops at the first error. */
  datatype Listener = Listener(first: nat, since: nat, cursor: nat, alive: bool, started: seq<Event>)

  /** `sent` are the messages sent to the actor, `taken` how many it has begun to handle, and `batches` the events each of
      those emits; `pending` are the events of the last one that are still to be emitted. `emitted` is every event
      emitted; `log` the ones that went into the channel. */
  datatype World = World(
    sent: seq<Message>,
    taken: nat,
    batches: seq<seq<Event>>,
    pending: seq<Event>,
    emitted: seq<Event>,
    log: seq<Event>,
    listeners: map<ListenerId, Listener>)

  const START := World([], 0, [], [], [], [], map[])

  datatype Step =
    | Send(message: Message)
    | Take(events: seq<Event>)
    | Emit
    | Subscribe(id: ListenerId)
    | Poll(id: ListenerId, handlerFails: bool)
    | Drop(id: ListenerId)

  predicate SomeoneListens(w: World) {
    exists id :: id in w.listeners && w.listeners[id].alive
  }

  /** `emit`: with nobody listening the event is not stored. */
  function EmitOne(w: World): World {
    if w.pending == [] then w
    else
      var e := w.pending[0];
      w.(pending := w.pending[1..],
         emitted := w.emitted + [e],
         log := if SomeoneListens(w) then w.log + [e] else w.log)
  }

  /** One turn of a listener's loop. What the spawned handler returns is logged and otherwise ignored. */
  function PollOne(capacity: nat, w: World, l: Listener): Listener {
    if !l.alive then l
    else
      match Receive(capacity, w.log, l.cursor)
      case Empty => l
      case Lagged => l.(alive := false)
      case Got(e) => l.(cursor := l.cursor + 1, started := l.started + [e])
  }

  function Apply(capacity: nat, w: World, step: Step): World {
    match step
    case Send(m) => w.(sent := w.sent + [m])
    case Take(events) =>
      // The actor's loop handles one message at a time, in mailbox order.
      if w.pending == [] && w.taken < |w.sent|
      then w.(taken := w.taken + 1, batches := w.batches + [events], pending := events)
      else w
    case Emit => EmitOne(w)
    case Subscribe(id) =>
      if id in w.listeners then w
      else w.(listeners := w.listeners[id := Listener(|w.log|, |w.emitted|, |w.log|, true, [])])
    case Poll(id, _) =>
      if id in w.listeners then w.(listeners := w.listeners[id := PollOne(capacity, w, w.listeners[id])]) else w
    case Drop(id) =>
      if id in w.listeners then w.(listeners := w.listeners[id := w.listeners[id].(alive := false)]) else w
  }

  function Run(capacity: nat, steps: seq<Step>): World
    decreases |steps|
  {
    if steps == [] then START else Apply(capacity, Run(capacity, steps[..|steps| - 1]), steps[|steps| - 1])
  }

  function Flatten(batches: seq<seq<Event>>): seq<Event>
    decreases |batches|
  {
    if batches == [] then [] else Flatten(batches[..|batches| - 1]) + batches[|batches| - 1]
  }

  // --- The invariant ----------------------------------------------------------------------------------

  /** Events are emitted in the order in which the actor handles its messages. */
  ghost predicate ActorOk(w: World) {
    && w.taken <= |w.sent| && |w.batches| == w.taken
    && w.emitted + w.pending == Flatten(w.batches)
  }

  /** What a listener has started is the stretch of the emitted events that begins where it subscribed. While it is alive,
      everything emitted since is in the channel for it. */
  ghost predicate ListenerOk(w: World, l: Listener) {
    && l.first <= l.cursor <= |w.log|
    && l.cursor - l.first == |l.started|
    && l.since + |l.started| <= |w.emitted|
    && l.started == w.emitted[l.since..l.since + |l.started|]
    && (l.alive ==> w.log[l.first..] == w.emitted[l.since..])
  }

  ghost predicate Inv(w: World) {
    && ActorOk(w)
    && (forall id :: id in w.listeners ==> ListenerOk(w, w.listeners[id]))
  }

  lemma EmitActor(w: World)
    requires ActorOk(w)
    ensures ActorOk(EmitOne(w))
  {
    if w.pending != [] {
      assert w.emitted + w.pending == w.emitted + [w.pending[0]] + w.pending[1..];
    }
  }

  lemma EmitListener(w: World, l: Listener)
    requires ListenerOk(w, l) && (l.alive ==> SomeoneListens(w))
    ensures ListenerOk(EmitOne(w), l)
  {
    if w.pending != [] {
      var w' := EmitOne(w);
      var n := |l.started|;
      assert w'.emitted[l.since..l.since + n] == w.emitted[l.since..l.since + n];
      if l.alive {
        assert w'.log[l.first..] == w.log[l.first..] + [w.pending[0]];
        assert w'.emitted[l.since..] == w.emitted[l.since..] + [w.pending[0]];
      }
    }
  }

  lemma PollListener(capacity: nat, w: World, l: Listener)
    requires ListenerOk(w, l)
    ensures ListenerOk(w, PollOne(capacity, w, l))
  {
    if l.alive && Receive(capacity, w.log, l.cursor).Got? {
      var n := |l.started|;
      assert w.log[l.cursor] == w.log[l.first..][n];
      assert w.emitted[l.since..][n] == w.emitted[l.since + n];
      assert w.emitted[l.since..l.since + n + 1] == w.emitted[l.since..l.since + n] + [w.emitted[l.since + n]];
    }
  }

  lemma TakeActor(w: World, events: seq<Event>)
    requires ActorOk(w) && w.pending == [] && w.taken < |w.sent|
    ensures ActorOk(w.(taken := w.taken + 1, batches := w.batches + [events], pending := events))
  {
    var batches := w.batches + [events];
    assert batches[..|batches| - 1] == w.batches;
    assert w.emitted + w.pending == w.emitted;
  }

  /** Everything but the listeners' part of the invariant depends on fields no listener step touches. */
  lemma SameStreamOk(w: World, w': World, l: Listener)
    requires ListenerOk(w, l) && w'.log == w.log && w'.emitted == w.emitted
    ensures ListenerOk(w', l)
  {
  }

  lemma SubscribeOk(w: World)
    ensures ListenerOk(w, Listener(|w.log|, |w.emitted|, |w.log|, true, []))
  {
  }

  lemma DropOk(w: World, l: Listener)
    requires ListenerOk(w, l)
    ensures ListenerOk(w, l.(alive := false))
  {
  }

  /** Replacing one listener by another that is in order keeps the invariant. */
  lemma PutListener(w: World, id: ListenerId, l: Listener)
    requires Inv(w) && ListenerOk(w, l)
    ensures Inv(w.(listeners := w.listeners[id := l]))
  {
    var w' := w.(listeners := w.listeners[id := l]);
    forall i | i in w'.listeners
      ensures ListenerOk(w', w'.listeners[i])
    {
      SameStreamOk(w, w', w'.listeners[i]);
    }
  }

  lemma ActorStepInv(w: World, w': World)
    requires Inv(w) && ActorOk(w') && w'.log == w.log && w'.emitted == w.emitted && w'.listeners == w.listeners
    ensures Inv(w')
  {
    hide ActorOk;
    forall i | i in w'.listeners
      ensures ListenerOk(w', w'.listeners[i])
    {
      SameStreamOk(w, w', w'.listeners[i]);
    }
  }

  lemma EmitInv(w: World)
    requires Inv(w)
    ensures Inv(EmitOne(w))
  {
    EmitActor(w);
    EmitListeners(w);
    hide EmitOne, ListenerOk, ActorOk;
  }

  lemma TakeInv(w: World, events: seq<Event>)
    requires Inv(w) && w.pending == [] && w.taken < |w.sent|
    ensures Inv(w.(taken := w.taken + 1, batches := w.batches + [events], pending := events))
  {
    TakeActor(w, events);
    hide ListenerOk, ActorOk;
    ActorStepInv(w, w.(taken := w.taken + 1, batches := w.batches + [events], pending := events));
  }

  lemma SendInv(w: World, m: Message)
    requires Inv(w)
    ensures Inv(w.(sent := w.sent + [m]))
  {
    SendActor(w, m);
    hide ListenerOk, ActorOk;
    ActorStepInv(w, w.(sent := w.sent + [m]));
  }

  lemma SendActor(w: World, m: Message)
    requires ActorOk(w)
    ensures ActorOk(w.(sent := w.sent + [m]))
  {
  }

  lemma ApplyInv(capacity: nat, w: World, step: Step)
    requires Inv(w)
    ensures Inv(Apply(capacity, w, step))
  {
    hide ListenerOk, ActorOk, EmitOne, PollOne;
    match step
    case Send(m) => SendInv(w, m);
    case Take(events) =>
      if w.pending == [] && w.taken < |w.sent| { TakeInv(w, events); }
    case Emit => EmitInv(w);
    case Subscribe(id) =>
      if id !in w.listeners {
        SubscribeOk(w);
        PutListener(w, id, Listener(|w.log|, |w.emitted|, |w.log|, true, []));
      }
    case Poll(id, _) =>
      if id in w.listeners {
        PollListener(capacity, w, w.listeners[id]);
        PutListener(w, id, PollOne(capacity, w, w.listeners[id]));
      }
    case Drop(id) =>
      if id in w.listeners {
        DropOk(w, w.listeners[id]);
        PutListener(w, id, w.listeners[id].(alive := false));
      }
  }

  lemma EmitListeners(w: World)
    requires Inv(w)
    ensures EmitOne(w).listeners == w.listeners
    ensures forall id :: id in w.listeners ==> ListenerOk(EmitOne(w), w.listeners[id])
  {
    forall id | id in w.listeners
      ensures ListenerOk(EmitOne(w), w.listeners[id])
    {
      EmitListener(w, w.listeners[id]);
    }
  }

  lemma {:induction false} RunInv(capacity: nat, steps: seq<Step>)
    ensures Inv(Run(capacity, steps))
    decreases |steps|
  {
    if steps != [] {
      hide Apply, Inv;
      RunInv(capacity, steps[..|steps| - 1]);
      ApplyInv(capacity, Run(capacity, steps[..|steps| - 1]), steps[|steps| - 1]);
    } else {
      StartInv();
    }
  }

  lemma StartInv()
    ensures Inv(START)
  {
  }

  // --- Delivery ---------------------------------------------------------------------------------------

  /** Delivery over every interleaving. The events a listener has started handlers for are a contiguous stretch, each
      position once and in order, of what the actor's messages emit in the order they are handled; it begins with the
      first event emitted after the subscription. While the listener has not ended, the events after that stretch are
      exactly the ones the channel still has for it. */
  lemma Delivery(capacity: nat, steps: seq<Step>, id: ListenerId)
    requires id in Run(capacity, steps).listeners
    ensures var w := Run(capacity, steps);
            var l := w.listeners[id];
            && l.since + |l.started| <= |w.emitted| <= |Flatten(w.batches)|
            && w.emitted == Flatten(w.batches)[..|w.emitted|]
            && l.started == Flatten(w.batches)[l.since..l.since + |l.started|]
            && (l.alive ==> l.cursor <= |w.log| && w.log[l.cursor..] == w.emitted[l.since + |l.started|..])
  {
    RunInv(capacity, steps);
    var w := Run(capacity, steps);
    var l := w.listeners[id];
    hide Run, Flatten;
    assert ListenerOk(w, l);
    Stretches(w.emitted, w.pending, l.since, |l.started|);
    if l.alive {
      Remainders(w.log, l.first, w.emitted, l.since, |l.started|);
    }
  }

  /** A stretch of a prefix is the same stretch of the whole. */
  lemma Stretches(emitted: seq<Event>, pending: seq<Event>, since: nat, n: nat)
    requires since + n <= |emitted|
    ensures emitted == (emitted + pending)[..|emitted|]
    ensures emitted[since..since + n] == (emitted + pending)[since..since + n]
  {
  }

  /** What two equal sequences have left after their first `n` elements is equal. */
  lemma Remainders(log: seq<Event>, first: nat, emitted: seq<Event>, since: nat, n: nat)
    requires first + n <= |log| && since + n <= |emitted| && log[first..] == emitted[since..]
    ensures log[first + n..] == emitted[since + n..]
  {
    assert log[first + n..] == log[first..][n..];
    assert emitted[since + n..] == emitted[since..][n..];
  }

  /** The position in the emitted events at which a listener subscribed is the number emitted by then, and stays. */
  lemma SubscribesNow(capacity: nat, w: World, id: ListenerId, step: Step)
    ensures id !in w.listeners ==>
              var w' := Apply(capacity, w, Subscribe(id));
              id in w'.listeners && w'.listeners[id].since == |w.emitted| && w'.listeners[id].alive
    ensures id in w.listeners ==>
              id in Apply(capacity, w, step).listeners
              && Apply(capacity, w, step).listeners[id].since == w.listeners[id].since
  {
  }

  /** A listener ends by itself exactly when it reads after more than `capacity` events have piled up unread. Neither
      failing handlers nor other listeners make it end. */
  lemma EndsExactly(capacity: nat, w: World, id: ListenerId, step: Step)
    requires id in w.listeners && w.listeners[id].alive && w.listeners[id].cursor <= |w.log|
    ensures var l := w.listeners[id];
            !Apply(capacity, w, step).listeners[id].alive <==>
              || step == Drop(id)
              || (step.Poll? && step.id == id && |w.log| - l.cursor > capacity)
  {
  }

  /** At no time did more than `capacity` unread events wait for the listener, and nobody dropped it. */
  ghost predicate KeptUp(capacity: nat, steps: seq<Step>, id: ListenerId) {
    forall i :: 0 <= i < |steps| ==>
      var w := Run(capacity, steps[..i]);
      && steps[i] != Drop(id)
      && (id in w.listeners ==> |w.log| <= w.listeners[id].cursor + capacity)
  }

  /** A listener that keeps up is never cut off, whatever the others do and however its handlers end. */
  lemma {:induction false} KeepingUpStaysAlive(capacity: nat, steps: seq<Step>, id: ListenerId)
    requires KeptUp(capacity, steps, id)
    ensures id in Run(capacity, steps).listeners ==> Run(capacity, steps).listeners[id].alive
    decreases |steps|
  {
    if steps != [] {
      var n := |steps| - 1;
      var prefix := steps[..n];
      forall i | 0 <= i < n
        ensures var w := Run(capacity, prefix[..i]);
                && prefix[i] != Drop(id)
                && (id in w.listeners ==> |w.log| <= w.listeners[id].cursor + capacity)
      {
        assert prefix[..i] == steps[..i];
      }
      KeepingUpStaysAlive(capacity, prefix, id);
      var w := Run(capacity, prefix);
      assert steps[..n] == prefix && steps[n] != Drop(id);
      assert id in w.listeners ==> |w.log| <= w.listeners[id].cursor + capacity;
      RunInv(capacity, prefix);
      hide Apply, Inv;
      if id in w.listeners {
        CursorInLog(w, id);
        SubscribesNow(capacity, w, id, steps[n]);
        EndsExactly(capacity, w, id, steps[n]);
      } else {
        NewListenersAlive(capacity, w, id, steps[n]);
      }
    }
  }

  lemma CursorInLog(w: World, id: ListenerId)
    requires Inv(w) && id in w.listeners
    ensures w.listeners[id].cursor <= |w.log| && w.listeners[id].since <= |w.emitted|
  {
    assert ListenerOk(w, w.listeners[id]);
  }

  /** So once it has read all there is, it has started a handler for every event emitted since it subscribed. */
  lemma KeepingUpIsComplete(capacity: nat, steps: seq<Step>, id: ListenerId)
    requires KeptUp(capacity, steps, id)
    requires var w := Run(capacity, steps); id in w.listeners && w.listeners[id].cursor == |w.log|
    ensures var w := Run(capacity, steps);
            var l := w.listeners[id];
            l.alive && l.since <= |w.emitted| && l.started == w.emitted[l.since..]
  {
    KeepingUpStaysAlive(capacity, steps, id);
    RunInv(capacity, steps);
    hide Run, Inv;
    ReadAll(Run(capacity, steps), id);
  }

  lemma NewListenersAlive(capacity: nat, w: World, id: ListenerId, step: Step)
    requires id !in w.listeners
    ensures var w' := Apply(capacity, w, step);
            id in w'.listeners ==> w'.listeners[id].alive
  {
  }

  lemma ReadAll(w: World, id: ListenerId)
    requires Inv(w) && id in w.listeners && w.listeners[id].alive && w.listeners[id].cursor == |w.log|
    ensures w.listeners[id].since <= |w.emitted|
    ensures w.listeners[id].started == w.emitted[w.listeners[id].since..]
  {
    var l := w.listeners[id];
    assert ListenerOk(w, l);
    assert |w.log[l.first..]| == |l.started|;
    assert |w.emitted[l.since..]| == |l.started|;
    assert l.since + |l.started| == |w.emitted|;
  }

  lemma EndedStep(capacity: nat, w: World, id: ListenerId, step: Step)
    requires id in w.listeners && !w.listeners[id].alive
    ensures id in Apply(capacity, w, step).listeners && Apply(capacity, w, step).listeners[id] == w.listeners[id]
  {
  }

  /** A listener that has ended stays ended and starts nothing more, whatever follows. */
  lemma {:induction false} EndedForGood(capacity: nat, steps: seq<Step>, more: seq<Step>, id: ListenerId)
    requires id in Run(capacity, steps).listeners && !Run(capacity, steps).listeners[id].alive
    ensures id in Run(capacity, steps + more).listeners
    ensures Run(capacity, steps + more).listeners[id] == Run(capacity, steps).listeners[id]
    decreases |more|
  {
    if more == [] {
      assert steps + more == steps;
    } else {
      var n := |more| - 1;
      var all := steps + more;
      assert all[..|all| - 1] == steps + more[..n];
      EndedForGood(capacity, steps, more[..n], id);
      hide Apply;
      EndedStep(capacity, Run(capacity, steps + more[..n]), id, more[n]);
    }
  }

  /** One event too many: in every run, a listener that reads after more events than the ring holds have piled up ends there,
      and never starts another handler. */
  lemma FallingBehindEnds(capacity: nat, steps: seq<Step>, fails: bool, more: seq<Step>, id: ListenerId)
    requires var w := Run(capacity, steps);
             id in w.listeners && w.listeners[id].alive && |w.log| > w.listeners[id].cursor + capacity
    ensures var w' := Run(capacity, steps + [Poll(id, fails)] + more);
            && id in w'.listeners && !w'.listeners[id].alive
            && w'.listeners[id].started == Run(capacity, steps).listeners[id].started
  {
    var read := steps + [Poll(id, fails)];
    assert read[..|read| - 1] == steps;
    assert Run(capacity, read) == Apply(capacity, Run(capacity, steps), Poll(id, fails));
    hide Run;
    EndedForGood(capacity, read, more, id);
  }

  /** Nobody listens after the first `n` steps. */
  ghost predicate Unheard(capacity: nat, steps: seq<Step>, n: nat) {
    n <= |steps| && !SomeoneListens(Run(capacity, steps[..n]))
  }

  /** What is emitted while nobody listens is kept for no later subscriber. */
  lemma {:induction false} UnheardIsNotKept(capacity: nat, steps: seq<Step>, m: nat)
    requires m <= |steps| && forall n :: m <= n < |steps| ==> Unheard(capacity, steps, n)
    ensures Run(capacity, steps).log == Run(capacity, steps[..m]).log
    decreases |steps|
  {
    if m == |steps| {
      assert steps[..m] == steps;
    } else {
      var k := |steps| - 1;
      assert Unheard(capacity, steps, k);
      UnheardStep(capacity, Run(capacity, steps[..k]), steps[k]);
      assert Run(capacity, steps).log == Run(capacity, steps[..k]).log;
      forall n | m <= n < k
        ensures Unheard(capacity, steps[..k], n)
      {
        assert Unheard(capacity, steps, n);
        assert steps[..k][..n] == steps[..n];
      }
      hide Unheard, Run;
      UnheardIsNotKept(capacity, steps[..k], m);
      assert steps[..k][..m] == steps[..m];
    }
  }

  lemma UnheardStep(capacity: nat, w: World, step: Step)
    requires !SomeoneListens(w)
    ensures Apply(capacity, w, step).log == w.log
  {
  }
}
