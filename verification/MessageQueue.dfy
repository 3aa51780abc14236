/** The message queue of the cross-chain simulator: pages of concatenated encodings from sibling chains, and single
    encodings from the relay chain. The codec and the executor are parameters. */
module MessageQueue {
  import opened Prelude

  type Bytes = seq<bv8>
  type ParaId = nat
  type Xcm = nat

  datatype Versioned = Versioned(version: nat, body: nat)

  datatype Execution = Execution(sender: Option<ParaId>, xcm: Xcm)

  datatype Result = Complete | Incomplete(error: nat) | Failed(error: nat)

  /** A decode attempt: how many bytes it read, and what it found, if anything. */
  datatype Attempt = Attempt(read: nat, found: Option<Versioned>)

  /** What the pallet is given: a decoder for the format tag (the bytes it reads, none on failure), a decoder for versioned
      messages, the conversion to the latest version, and an executor whose result may depend on all earlier executions. */
  datatype Platform = Platform(
    tag: Bytes -> Option<nat>,
    decode: Bytes -> Attempt,
    latest: Versioned -> Option<Xcm>,
    execute: (seq<Execution>, Execution) -> Result)

  datatype Event =
    | Success(id: Versioned)
    | Fail(id: Versioned, error: nat)
    | BadVersion(id: Versioned)
    | InvalidFormat(data: Bytes)
    | UnsupportedVersion(data: Bytes)
    | ExecutedDownward(data: Bytes, result: Result)

  datatype Queue = Queue(executed: seq<Execution>, received: seq<Xcm>, events: seq<Event>)

  /** Decoding something reads something and stays within the input, also when it fails. */
  ghost predicate Progressive(p: Platform) {
    && (forall data: Bytes :: data != [] ==> 1 <= p.decode(data).read <= |data|)
    && (forall data: Bytes :: p.tag(data).Some? ==> p.tag(data).value <= |data|)
  }

  // --- Sibling chains ---------------------------------------------------------------------------------

  /** `handle_xcmp_message`. */
  function HandleOne(p: Platform, q: Queue, sender: ParaId, m: Versioned): Queue {
    match p.latest(m)
    case None => q.(events := q.events + [BadVersion(m)])
    case Some(xcm) =>
      var x := Execution(Some(sender), xcm);
      var event := match p.execute(q.executed, x)
                   case Complete => Success(m)
                   case Incomplete(error) => Fail(m, error)
                   case Failed(error) => Fail(m, error);
      q.(executed := q.executed + [x], events := q.events + [event])
  }

  /** The messages a page of fragments decodes to; bytes that do not decode are skipped. */
  function Fragments(p: Platform, data: Bytes): seq<Versioned>
    requires Progressive(p)
    decreases |data|
  {
    if data == [] then []
    else
      var a := p.decode(data);
      (if a.found.Some? then [a.found.value] else []) + Fragments(p, data[a.read..])
  }

  function HandleAll(p: Platform, q: Queue, sender: ParaId, ms: seq<Versioned>): Queue
    decreases |ms|
  {
    if ms == [] then q else HandleAll(p, HandleOne(p, q, sender, ms[0]), sender, ms[1..])
  }

  datatype Page = Page(sender: ParaId, data: Bytes)

  /** `handle_xcmp_messages`; none when a page has no valid format tag, on which the pallet panics. */
  function HandlePages(p: Platform, q: Queue, pages: seq<Page>): Option<Queue>
    requires Progressive(p)
    decreases |pages|
  {
    if pages == [] then Some(q)
    else
      match p.tag(pages[0].data)
      case None => None
      case Some(n) =>
        HandlePages(p, HandleAll(p, q, pages[0].sender, Fragments(p, pages[0].data[n..])), pages[1..])
  }

  // --- The relay chain --------------------------------------------------------------------------------

  /** One downward message. */
  function HandleDownward(p: Platform, q: Queue, data: Bytes): Queue {
    match p.decode(data).found
    case None => q.(events := q.events + [InvalidFormat(data)])
    case Some(m) =>
      match p.latest(m)
      case None => q.(events := q.events + [UnsupportedVersion(data)])
      case Some(xcm) =>
        var x := Execution(None, xcm);
        Queue(q.executed + [x], q.received + [xcm], q.events + [ExecutedDownward(data, p.execute(q.executed, x))])
  }

  function HandleDownwards(p: Platform, q: Queue, ds: seq<Bytes>): Queue
    decreases |ds|
  {
    if ds == [] then q else HandleDownwards(p, HandleDownward(p, q, ds[0]), ds[1..])
  }

  // --- In place ---------------------------------------------------------------------------------------

  class Pallet {
    var executed: seq<Execution>
    var received: seq<Xcm>
    var events: seq<Event>

    function Storage(): Queue
      reads this
    {
      Queue(executed, received, events)
    }

    constructor ()
      ensures Storage() == Queue([], [], [])
    {
      executed, received, events := [], [], [];
    }

    method HandleXcmpMessage(p: Platform, sender: ParaId, m: Versioned)
      modifies this`executed, this`events
      ensures Storage() == HandleOne(p, old(Storage()), sender, m)
    {
      var latest := p.latest(m);
      if latest.None? {
        events := events + [BadVersion(m)];
        return;
      }
      var x := Execution(Some(sender), latest.value);
      var result := p.execute(executed, x);
      executed := executed + [x];
      match result {
        case Complete => events := events + [Success(m)];
        case Incomplete(error) => events := events + [Fail(m, error)];
        case Failed(error) => events := events + [Fail(m, error)];
      }
    }

    /** The two nested loops: over the pages, and over the fragments of a page until none of it is left. It reports whether
        every page had a format tag; at the first that has none the pallet panics and the pages after it are not reached. */
    method HandleXcmpMessages(p: Platform, pages: seq<Page>) returns (tagged: bool)
      requires Progressive(p)
      modifies this`executed, this`events
      ensures tagged <==> HandlePages(p, old(Storage()), pages).Some?
      ensures tagged ==> Storage() == HandlePages(p, old(Storage()), pages).value
    {
      var i := 0;
      while i < |pages|
        invariant 0 <= i <= |pages|
        invariant HandlePages(p, old(Storage()), pages) == HandlePages(p, Storage(), pages[i..])
      {
        var page := pages[i];
        assert pages[i..][1..] == pages[i + 1..];
        var tag := p.tag(page.data);
        if tag.None? { return false; }
        var remaining := page.data[tag.value..];
        ghost var atStart := Storage();
        ghost var all := Fragments(p, remaining);
        while remaining != []
          invariant HandleAll(p, atStart, page.sender, all)
                    == HandleAll(p, Storage(), page.sender, Fragments(p, remaining))
          decreases |remaining|
        {
          var attempt := p.decode(remaining);
          ghost var rest := Fragments(p, remaining[attempt.read..]);
          if attempt.found.Some? {
            assert ([attempt.found.value] + rest)[1..] == rest;
            HandleXcmpMessage(p, page.sender, attempt.found.value);
          } else {
            assert [] + rest == rest;
          }
          remaining := remaining[attempt.read..];
        }
        i := i + 1;
      }
      tagged := true;
    }

    method HandleDmpMessages(p: Platform, ds: seq<Bytes>)
      modifies this
      ensures Storage() == HandleDownwards(p, old(Storage()), ds)
    {
      var i := 0;
      while i < |ds|
        invariant 0 <= i <= |ds|
        invariant HandleDownwards(p, old(Storage()), ds) == HandleDownwards(p, Storage(), ds[i..])
      {
        assert ds[i..][1..] == ds[i + 1..];
        var data := ds[i];
        var found := p.decode(data).found;
        if found.None? {
          events := events + [InvalidFormat(data)];
        } else {
          var latest := p.latest(found.value);
          if latest.None? {
            events := events + [UnsupportedVersion(data)];
          } else {
            var x := Execution(None, latest.value);
            var result := p.execute(executed, x);
            executed := executed + [x];
            received := received + [latest.value];
            events := events + [ExecutedDownward(data, result)];
          }
        }
        i := i + 1;
      }
    }
  }

  // --- What is executed and logged --------------------------------------------------------------------

  /** The executions of the supported messages, in order. */
  function Executions(p: Platform, sender: ParaId, ms: seq<Versioned>): seq<Execution>
    decreases |ms|
  {
    if ms == [] then []
    else
      (match p.latest(ms[0]) case Some(xcm) => [Execution(Some(sender), xcm)] case None => [])
      + Executions(p, sender, ms[1..])
  }

  /** The event tells of this message, and whether it was supported. */
  ghost predicate TellsOf(p: Platform, e: Event, m: Versioned) {
    && (e.Success? || e.Fail? || e.BadVersion?) && e.id == m
    && (e.BadVersion? <==> p.latest(m).None?)
  }

  /** Handling a list of messages executes exactly the supported ones, in order, and logs one event for each. */
  lemma {:induction false} HandlesEach(p: Platform, q: Queue, sender: ParaId, ms: seq<Versioned>)
    ensures var q' := HandleAll(p, q, sender, ms);
            && q'.executed == q.executed + Executions(p, sender, ms)
            && q'.received == q.received
            && |q'.events| == |q.events| + |ms| && q.events <= q'.events
            && (forall i :: 0 <= i < |ms| ==> TellsOf(p, q'.events[|q.events| + i], ms[i]))
    decreases |ms|
  {
    if ms != [] {
      var q1 := HandleOne(p, q, sender, ms[0]);
      HandlesEach(p, q1, sender, ms[1..]);
      var q' := HandleAll(p, q1, sender, ms[1..]);
      FirstEvent(p, q, sender, ms[0]);
      assert q'.events[|q.events|] == q1.events[|q.events|];
      hide HandleOne, HandleAll, TellsOf;
      forall i | 0 <= i < |ms|
        ensures TellsOf(p, q'.events[|q.events| + i], ms[i])
      {
        if i > 0 {
          assert ms[i] == ms[1..][i - 1];
          assert q'.events[|q1.events| + (i - 1)] == q'.events[|q.events| + i];
        }
      }
    }
  }

  lemma FirstEvent(p: Platform, q: Queue, sender: ParaId, m: Versioned)
    ensures var q' := HandleOne(p, q, sender, m);
            && |q'.events| == |q.events| + 1 && q.events <= q'.events
            && TellsOf(p, q'.events[|q.events|], m)
            && q'.executed == q.executed + Executions(p, sender, [m])
            && q'.received == q.received
  {
    assert [m][1..] == [];
    assert Executions(p, sender, []) == [];
  }

  /** A supported message is run after all the supported messages before it, and reported a success exactly when the executor
      completed it; otherwise with the executor's error. */
  lemma {:induction false} OutcomesReported(p: Platform, q: Queue, sender: ParaId, ms: seq<Versioned>, i: nat)
    requires i < |ms| && p.latest(ms[i]).Some?
    ensures |HandleAll(p, q, sender, ms).events| == |q.events| + |ms|
    ensures var before := q.executed + Executions(p, sender, ms[..i]);
            var event := HandleAll(p, q, sender, ms).events[|q.events| + i];
            var result := p.execute(before, Execution(Some(sender), p.latest(ms[i]).value));
            && (event == Success(ms[i]) <==> result.Complete?)
            && (!result.Complete? ==> event == Fail(ms[i], result.error))
    decreases |ms|
  {
    HandlesEach(p, q, sender, ms);
    var q1 := HandleOne(p, q, sender, ms[0]);
    HandlesEach(p, q1, sender, ms[1..]);
    FirstEvent(p, q, sender, ms[0]);
    if i == 0 {
      assert ms[..0] == [] && q.executed + [] == q.executed;
      assert HandleAll(p, q, sender, ms).events[|q.events|] == q1.events[|q.events|];
    } else {
      assert ms[1..][i - 1] == ms[i];
      OutcomesReported(p, q1, sender, ms[1..], i - 1);
      assert ms[..i][1..] == ms[1..][..i - 1] && ms[..i][0] == ms[0];
      OneThenRest(p, sender, ms[..i]);
      hide HandleOne, HandleAll, Executions;
      assert q1.executed + Executions(p, sender, ms[1..][..i - 1]) == q.executed + Executions(p, sender, ms[..i]);
    }
  }

  lemma OneThenRest(p: Platform, sender: ParaId, ms: seq<Versioned>)
    requires ms != []
    ensures Executions(p, sender, ms) == Executions(p, sender, [ms[0]]) + Executions(p, sender, ms[1..])
  {
    assert [ms[0]][1..] == [];
    assert Executions(p, sender, [ms[0]][1..]) == [];
  }

  /** `encode` is undone by the decoder, also in front of more data. */
  ghost predicate PrefixCodec(p: Platform, encode: Versioned -> Bytes) {
    forall m: Versioned, rest: Bytes :: encode(m) != [] && p.decode(encode(m) + rest) == Attempt(|encode(m)|, Some(m))
  }

  function Concatenated(encode: Versioned -> Bytes, ms: seq<Versioned>): Bytes
    decreases |ms|
  {
    if ms == [] then [] else encode(ms[0]) + Concatenated(encode, ms[1..])
  }

  /** The fragment loop undoes concatenation: it finds exactly the messages that were encoded, in order. */
  lemma {:induction false} FragmentsRoundTrip(p: Platform, encode: Versioned -> Bytes, ms: seq<Versioned>)
    requires Progressive(p) && PrefixCodec(p, encode)
    ensures Fragments(p, Concatenated(encode, ms)) == ms
    decreases |ms|
  {
    if ms != [] {
      var rest := Concatenated(encode, ms[1..]);
      var data := encode(ms[0]) + rest;
      assert encode(ms[0]) != [] && p.decode(data) == Attempt(|encode(ms[0])|, Some(ms[0]));
      assert data[|encode(ms[0])|..] == rest;
      FragmentsRoundTrip(p, encode, ms[1..]);
      assert ms == [ms[0]] + ms[1..];
    }
  }

  /** A batch from one sibling: a format tag, then the encodings of its messages. */
  datatype Batch = Batch(sender: ParaId, tag: Bytes, messages: seq<Versioned>)

  function AsPage(encode: Versioned -> Bytes, b: Batch): Page {
    Page(b.sender, b.tag + Concatenated(encode, b.messages))
  }

  function AsPages(encode: Versioned -> Bytes, bs: seq<Batch>): seq<Page> {
    seq(|bs|, i requires 0 <= i < |bs| => AsPage(encode, bs[i]))
  }

  /** The tag decoder reads exactly the tag in front of whatever follows. */
  ghost predicate Tagged(p: Platform, b: Batch) {
    forall rest: Bytes :: p.tag(b.tag + rest) == Some(|b.tag|)
  }

  function HandleBatches(p: Platform, q: Queue, bs: seq<Batch>): Queue
    decreases |bs|
  {
    if bs == [] then q else HandleBatches(p, HandleAll(p, q, bs[0].sender, bs[0].messages), bs[1..])
  }

  /** Pages built from batches are processed without a panic, and as if the messages had been handed over one by one. */
  lemma {:induction false} PagesAreBatches(p: Platform, encode: Versioned -> Bytes, q: Queue, bs: seq<Batch>)
    requires Progressive(p) && PrefixCodec(p, encode)
    requires forall i :: 0 <= i < |bs| ==> Tagged(p, bs[i])
    ensures HandlePages(p, q, AsPages(encode, bs)) == Some(HandleBatches(p, q, bs))
    decreases |bs|
  {
    var pages := AsPages(encode, bs);
    if bs == [] {
      assert pages == [];
    } else {
      var b := bs[0];
      var body := Concatenated(encode, b.messages);
      assert Tagged(p, b);
      assert pages[0] == Page(b.sender, b.tag + body);
      assert (b.tag + body)[|b.tag|..] == body;
      FragmentsRoundTrip(p, encode, b.messages);
      assert pages[1..] == AsPages(encode, bs[1..]);
      PagesAreBatches(p, encode, HandleAll(p, q, b.sender, b.messages), bs[1..]);
    }
  }

  function AllMessages(bs: seq<Batch>): seq<Versioned>
    decreases |bs|
  {
    if bs == [] then [] else bs[0].messages + AllMessages(bs[1..])
  }

  function AllExecutions(p: Platform, bs: seq<Batch>): seq<Execution>
    decreases |bs|
  {
    if bs == [] then [] else Executions(p, bs[0].sender, bs[0].messages) + AllExecutions(p, bs[1..])
  }

  /** So over all pages: exactly the supported messages are executed, in order, and each message gets one event. */
  lemma {:induction false} BatchesHandleEach(p: Platform, q: Queue, bs: seq<Batch>)
    ensures var q' := HandleBatches(p, q, bs);
            var ms := AllMessages(bs);
            && q'.executed == q.executed + AllExecutions(p, bs)
            && q'.received == q.received
            && |q'.events| == |q.events| + |ms| && q.events <= q'.events
            && (forall i :: 0 <= i < |ms| ==> TellsOf(p, q'.events[|q.events| + i], ms[i]))
    decreases |bs|
  {
    if bs != [] {
      var first, rest := bs[0].messages, AllMessages(bs[1..]);
      var q1 := HandleAll(p, q, bs[0].sender, first);
      HandlesEach(p, q, bs[0].sender, first);
      BatchesHandleEach(p, q1, bs[1..]);
      var q' := HandleBatches(p, q1, bs[1..]);
      hide HandleAll, HandleBatches, TellsOf;
      EventsOfBoth(p, q.events, q1.events, q'.events, first, rest);
    }
  }

  lemma EventsOfBoth(p: Platform, a: seq<Event>, b: seq<Event>, d: seq<Event>, first: seq<Versioned>,
                     rest: seq<Versioned>)
    requires |b| == |a| + |first| && a <= b && |d| == |b| + |rest| && b <= d
    requires forall i :: 0 <= i < |first| ==> TellsOf(p, b[|a| + i], first[i])
    requires forall i :: 0 <= i < |rest| ==> TellsOf(p, d[|b| + i], rest[i])
    ensures |d| == |a| + |first + rest| && a <= d
    ensures forall i :: 0 <= i < |first + rest| ==> TellsOf(p, d[|a| + i], (first + rest)[i])
  {
    hide TellsOf;
    forall i | 0 <= i < |first + rest|
      ensures TellsOf(p, d[|a| + i], (first + rest)[i])
    {
      if i < |first| {
        assert d[|a| + i] == b[|a| + i];
      } else {
        assert TellsOf(p, d[|b| + (i - |first|)], rest[i - |first|]);
      }
    }
  }

  // --- Downward messages ------------------------------------------------------------------------------

  /** The message a downward payload carries, if it decodes to a supported version. */
  function Carried(p: Platform, data: Bytes): Option<Xcm> {
    match p.decode(data).found
    case None => None
    case Some(m) => p.latest(m)
  }

  function SupportedOf(p: Platform, ds: seq<Bytes>): seq<Xcm>
    decreases |ds|
  {
    if ds == [] then []
    else (match Carried(p, ds[0]) case Some(xcm) => [xcm] case None => []) + SupportedOf(p, ds[1..])
  }

  ghost predicate TellsOfDownward(p: Platform, e: Event, data: Bytes) {
    && (e.InvalidFormat? || e.UnsupportedVersion? || e.ExecutedDownward?) && e.data == data
    && (e.InvalidFormat? <==> p.decode(data).found.None?)
    && (e.ExecutedDownward? <==> Carried(p, data).Some?)
  }

  /** For arbitrary payloads: one event per message, in order, and the received messages grow by exactly the supported
      ones, in order. */
  lemma {:induction false} DownwardsHandleEach(p: Platform, q: Queue, ds: seq<Bytes>)
    ensures var q' := HandleDownwards(p, q, ds);
            && q'.received == q.received + SupportedOf(p, ds)
            && q'.executed == q.executed + DownwardExecutions(p, ds)
            && |q'.events| == |q.events| + |ds| && q.events <= q'.events
            && (forall i :: 0 <= i < |ds| ==> TellsOfDownward(p, q'.events[|q.events| + i], ds[i]))
    decreases |ds|
  {
    if ds != [] {
      var q1 := HandleDownward(p, q, ds[0]);
      DownwardsHandleEach(p, q1, ds[1..]);
      var q' := HandleDownwards(p, q1, ds[1..]);
      FirstDownward(p, q, ds[0]);
      FirstOfDownwards(p, ds);
      assert q'.events[|q.events|] == q1.events[|q.events|];
      hide DownwardExecutions, HandleDownward, HandleDownwards, TellsOfDownward, Carried;
      forall i | 0 <= i < |ds|
        ensures TellsOfDownward(p, q'.events[|q.events| + i], ds[i])
      {
        if i > 0 {
          assert ds[i] == ds[1..][i - 1];
          assert q'.events[|q1.events| + (i - 1)] == q'.events[|q.events| + i];
        }
      }
    }
  }

  lemma FirstDownward(p: Platform, q: Queue, data: Bytes)
    ensures var q' := HandleDownward(p, q, data);
            && |q'.events| == |q.events| + 1 && q.events <= q'.events
            && TellsOfDownward(p, q'.events[|q.events|], data)
            && q'.received == q.received + (match Carried(p, data) case Some(xcm) => [xcm] case None => [])
            && q'.executed == q.executed + DownwardExecutions(p, [data])
            && (Carried(p, data).Some? ==>
                  q'.events[|q.events|] == ExecutedDownward(data, p.execute(q.executed, Execution(None, Carried(p, data).value))))
  {
    assert [data][1..] == [];
    assert DownwardExecutions(p, [data][1..]) == [];
  }

  /** The executions of the supported payloads, in order; the relay chain is the sender. */
  function DownwardExecutions(p: Platform, ds: seq<Bytes>): seq<Execution>
    decreases |ds|
  {
    if ds == [] then []
    else
      (match Carried(p, ds[0]) case Some(xcm) => [Execution(None, xcm)] case None => []) + DownwardExecutions(p, ds[1..])
  }

  lemma FirstOfDownwards(p: Platform, ds: seq<Bytes>)
    requires ds != []
    ensures DownwardExecutions(p, ds) == DownwardExecutions(p, [ds[0]]) + DownwardExecutions(p, ds[1..])
  {
    assert [ds[0]][1..] == [];
    assert DownwardExecutions(p, [ds[0]][1..]) == [];
  }

  /** A supported payload is run after all the supported ones before it, and what the executor made of it is reported. */
  lemma {:induction false} DownwardOutcomesReported(p: Platform, q: Queue, ds: seq<Bytes>, i: nat)
    requires i < |ds| && Carried(p, ds[i]).Some?
    ensures |HandleDownwards(p, q, ds).events| == |q.events| + |ds|
    ensures var before := q.executed + DownwardExecutions(p, ds[..i]);
            HandleDownwards(p, q, ds).events[|q.events| + i]
            == ExecutedDownward(ds[i], p.execute(before, Execution(None, Carried(p, ds[i]).value)))
    decreases |ds|
  {
    DownwardsHandleEach(p, q, ds);
    var q1 := HandleDownward(p, q, ds[0]);
    DownwardsHandleEach(p, q1, ds[1..]);
    FirstDownward(p, q, ds[0]);
    if i == 0 {
      assert ds[..0] == [] && q.executed + [] == q.executed;
      assert HandleDownwards(p, q, ds).events[|q.events|] == q1.events[|q.events|];
    } else {
      hide HandleDownward, DownwardExecutions, Carried;
      assert ds[1..][i - 1] == ds[i];
      DownwardOutcomesReported(p, q1, ds[1..], i - 1);
      DownwardsBefore(p, q.executed, ds, i);
    }
  }

  lemma DownwardsBefore(p: Platform, executed: seq<Execution>, ds: seq<Bytes>, i: nat)
    requires 0 < i <= |ds|
    ensures executed + DownwardExecutions(p, [ds[0]]) + DownwardExecutions(p, ds[1..][..i - 1])
            == executed + DownwardExecutions(p, ds[..i])
  {
    assert ds[..i][1..] == ds[1..][..i - 1] && ds[..i][0] == ds[0];
    FirstOfDownwards(p, ds[..i]);
    hide DownwardExecutions;
  }
}
