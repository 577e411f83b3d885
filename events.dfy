/**
 The values the event handler works with: the closed set of event names and
 the abstract trace of observable effects (store calls, log lines, waits and
 writes to the local tally) that stands in for real I/O and real time.
 */
module Events {

  /** The event names the emitter produces (enum EventName: "A" and "B"). */
  datatype EventName = EventA | EventB

  /** One observable effect of handling an event. */
  datatype TraceEntry =
    | Tally(name: EventName, count: nat)      // the local tally of `name` is written
    | Call(name: EventName, increment: int)   // one call to the durable store
    | Warn(name: EventName, retry: nat)       // warning logged before retry number `retry`
    | Wait(delay: nat)                        // a pause of `delay` milliseconds
    | Error(name: EventName, retries: nat)    // error logged when the sync gives up

  predicate IsTally(e: TraceEntry) { e.Tally? }
  predicate IsCall(e: TraceEntry) { e.Call? }
  predicate IsWarn(e: TraceEntry) { e.Warn? }
  predicate IsWait(e: TraceEntry) { e.Wait? }
  predicate IsError(e: TraceEntry) { e.Error? }

  /** Number of entries of `t` that satisfy `p`. */
  function Count(t: seq<TraceEntry>, p: TraceEntry -> bool): (n: nat)
    ensures n <= |t|
  {
    if t == [] then 0 else (if p(t[0]) then 1 else 0) + Count(t[1..], p)
  }

  /** Total time spent waiting along `t`. */
  function TotalDelay(t: seq<TraceEntry>): nat
  {
    if t == [] then 0 else (if t[0].Wait? then t[0].delay else 0) + TotalDelay(t[1..])
  }

  /** Counting distributes over concatenation of traces. */
  lemma {:induction false} CountAppend(a: seq<TraceEntry>, b: seq<TraceEntry>, p: TraceEntry -> bool)
    ensures Count(a + b, p) == Count(a, p) + Count(b, p)
  {
    if a != [] {
      assert (a + b)[1..] == a[1..] + b;
      CountAppend(a[1..], b, p);
    } else {
      assert a + b == b;
    }
  }

  /** Waiting time distributes over concatenation of traces. */
  lemma {:induction false} TotalDelayAppend(a: seq<TraceEntry>, b: seq<TraceEntry>)
    ensures TotalDelay(a + b) == TotalDelay(a) + TotalDelay(b)
  {
    if a != [] {
      assert (a + b)[1..] == a[1..] + b;
      TotalDelayAppend(a[1..], b);
    } else {
      assert a + b == b;
    }
  }

  /** Regrouping a concatenation. Dafny knows this unaided; calling it where
      a trace is extended keeps the loop proofs in handler.dfy cheap. */
  lemma AppendAssociative(a: seq<TraceEntry>, b: seq<TraceEntry>, c: seq<TraceEntry>)
    ensures (a + b) + c == a + (b + c)
  {
  }

  /** Counting a three-entry trace, entry by entry. */
  lemma CountThree(a: TraceEntry, b: TraceEntry, c: TraceEntry, p: TraceEntry -> bool)
    ensures Count([a, b, c], p) == (if p(a) then 1 else 0) + (if p(b) then 1 else 0) + (if p(c) then 1 else 0)
    ensures TotalDelay([a, b, c]) == (if a.Wait? then a.delay else 0) + (if b.Wait? then b.delay else 0)
                                     + (if c.Wait? then c.delay else 0)
  {
    var t := [a, b, c];
    assert t[1..] == [b, c] && t[1..][1..] == [c] && t[1..][1..][1..] == [];
    assert Count(t, p) == (if p(a) then 1 else 0) + Count([b, c], p);
    assert Count([b, c], p) == (if p(b) then 1 else 0) + Count([c], p);
    assert Count([c], p) == (if p(c) then 1 else 0) + Count([], p);
    assert TotalDelay(t) == (if a.Wait? then a.delay else 0) + TotalDelay([b, c]);
    assert TotalDelay([b, c]) == (if b.Wait? then b.delay else 0) + TotalDelay([c]);
    assert TotalDelay([c]) == (if c.Wait? then c.delay else 0) + TotalDelay([]);
  }
}
