/**
 The bounded retry loop of EventHandler.syncWithRepository, as a
 specification. One sync calls the store with an increment of 1; on success
 it stops, on failure it counts the failure and, unless that was the fifth,
 logs a warning and waits a fixed 100 milliseconds before calling again.
 After the fifth failure it logs an error and stops.
 */
module Sync {
  import opened Events
  import opened Repository

  /** Store calls one sync makes at most (maxRetries). */
  const MaxRetries: nat := 5
  /** The fixed pause between two calls; there is no growth and no cap. */
  const RetryDelay: nat := 100

  /** Index of the first store call, from `from` on, that succeeds within the
      retry budget; MaxRetries when none does. */
  function FirstSuccess(script: seq<bool>, from: nat): (k: nat)
    requires from <= MaxRetries
    ensures from <= k <= MaxRetries
    ensures forall j :: from <= j < k ==> UpdateEventStatsBy(script, j) == Rejected
    ensures k < MaxRetries ==> UpdateEventStatsBy(script, k) == Stored
    decreases MaxRetries - from
  {
    if from == MaxRetries then MaxRetries
    else if UpdateEventStatsBy(script, from) == Stored then from
    else FirstSuccess(script, from + 1)
  }

  /** The trace of the loop from the iteration where `retryCount` failures
      have already happened: the state machine, one iteration per step. */
  function SyncFrom(name: EventName, retryCount: nat, script: seq<bool>): seq<TraceEntry>
    requires retryCount < MaxRetries
    decreases MaxRetries - retryCount
  {
    if UpdateEventStatsBy(script, retryCount) == Stored then
      [Call(name, 1)]
    else if retryCount + 1 >= MaxRetries then
      [Call(name, 1), Error(name, MaxRetries)]
    else
      [Call(name, 1), Warn(name, retryCount + 1), Wait(RetryDelay)] + SyncFrom(name, retryCount + 1, script)
  }

  /** One iteration of the loop, as seen from the trace. Dafny proves this
      by unfolding SyncFrom once; callers use it so that they need not
      search for that unfolding themselves, which keeps them cheap. */
  lemma SyncFromStep(name: EventName, script: seq<bool>, i: nat)
    requires i < MaxRetries
    ensures var t := SyncFrom(name, i, script);
            && (UpdateEventStatsBy(script, i) == Stored ==> t == [Call(name, 1)])
            && (UpdateEventStatsBy(script, i) == Rejected && i + 1 == MaxRetries ==>
                  t == [Call(name, 1), Error(name, MaxRetries)])
            && (UpdateEventStatsBy(script, i) == Rejected && i + 1 < MaxRetries ==>
                  t == [Call(name, 1), Warn(name, i + 1), Wait(RetryDelay)] + SyncFrom(name, i + 1, script))
  {
  }

  /** The trace of one whole sync of `name`; its retry state starts afresh. */
  function SyncTrace(name: EventName, script: seq<bool>): seq<TraceEntry>
  {
    SyncFrom(name, 0, script)
  }

  // ---------------------------------------------------------------------
  // An independent, closed-form description of the same trace.

  /** Entry `j` of the failed rounds that start after `from` failures: each
      round is a call, a warning naming the retry number and a pause. */
  function RoundEntry(name: EventName, from: nat, j: nat): TraceEntry
  {
    if j % 3 == 0 then Call(name, 1)
    else if j % 3 == 1 then Warn(name, from + j / 3 + 1)
    else Wait(RetryDelay)
  }

  /** `n` failed-and-retried rounds, the first one after `from` failures. */
  function RetryRounds(name: EventName, from: nat, n: nat): seq<TraceEntry>
  {
    seq(3 * n, j requires 0 <= j => RoundEntry(name, from, j))
  }

  /** What is left of a sync after `i` failures, read off the script: the
      failed rounds before the first success and then the successful call,
      or the failed rounds up to the fourth followed by the last call and
      the error. */
  function ExpectedFrom(name: EventName, script: seq<bool>, i: nat): seq<TraceEntry>
    requires i < MaxRetries
  {
    var k := FirstSuccess(script, i);
    if k < MaxRetries then RetryRounds(name, i, k - i) + [Call(name, 1)]
    else RetryRounds(name, i, MaxRetries - 1 - i) + [Call(name, 1), Error(name, MaxRetries)]
  }

  /** What one whole sync does, read off the script. */
  function ExpectedTrace(name: EventName, script: seq<bool>): seq<TraceEntry>
  {
    ExpectedFrom(name, script, 0)
  }

  lemma RetryRoundsStep(name: EventName, from: nat, n: nat)
    ensures RetryRounds(name, from, n + 1)
         == [Call(name, 1), Warn(name, from + 1), Wait(RetryDelay)] + RetryRounds(name, from + 1, n)
  {
    var l := RetryRounds(name, from, n + 1);
    var r := [Call(name, 1), Warn(name, from + 1), Wait(RetryDelay)] + RetryRounds(name, from + 1, n);
    assert |l| == |r|;
    forall j | 3 <= j < |l| ensures l[j] == r[j] {
      assert j % 3 == (j - 3) % 3 && j / 3 == (j - 3) / 3 + 1;
    }
  }

  /** A failed call in front of the rest of a sync adds one round. */
  lemma ExpectedFromStep(name: EventName, script: seq<bool>, i: nat)
    requires i + 1 < MaxRetries && UpdateEventStatsBy(script, i) == Rejected
    ensures ExpectedFrom(name, script, i)
         == [Call(name, 1), Warn(name, i + 1), Wait(RetryDelay)] + ExpectedFrom(name, script, i + 1)
  {
    var k := FirstSuccess(script, i + 1);
    assert FirstSuccess(script, i) == k;
    var round := [Call(name, 1), Warn(name, i + 1), Wait(RetryDelay)];
    var n := if k < MaxRetries then k - (i + 1) else MaxRetries - 1 - (i + 1);
    var tail := if k < MaxRetries then [Call(name, 1)] else [Call(name, 1), Error(name, MaxRetries)];
    RetryRoundsStep(name, i, n);
    AppendAssociative(round, RetryRounds(name, i + 1, n), tail);
  }

  lemma {:induction false} SyncFromClosedForm(name: EventName, script: seq<bool>, i: nat)
    requires i < MaxRetries
    decreases MaxRetries - i
    ensures SyncFrom(name, i, script) == ExpectedFrom(name, script, i)
  {
    SyncFromStep(name, script, i);
    if UpdateEventStatsBy(script, i) == Stored || i + 1 >= MaxRetries {
      assert RetryRounds(name, i, 0) == [];
    } else {
      SyncFromClosedForm(name, script, i + 1);
      ExpectedFromStep(name, script, i);
    }
  }

  /** The loop's trace agrees with the closed form for every script. */
  lemma SyncTraceIsExpected(name: EventName, script: seq<bool>)
    ensures SyncTrace(name, script) == ExpectedTrace(name, script)
  {
    SyncFromClosedForm(name, script, 0);
  }

  // ---------------------------------------------------------------------
  // Counting what one sync does.

  /** What a sync trace that retried `rounds` times looks like: one more call
      than rounds, a warning and a pause per round, and at its end either the
      successful call or, when it gave up, a single error. */
  ghost predicate Shaped(t: seq<TraceEntry>, name: EventName, rounds: nat, gaveUp: bool)
  {
    && t != []
    && Count(t, IsCall) == rounds + 1
    && Count(t, IsWarn) == rounds
    && Count(t, IsWait) == rounds
    && TotalDelay(t) == rounds * RetryDelay
    && Count(t, IsError) == (if gaveUp then 1 else 0)
    && Count(t, IsTally) == 0
    && t[|t| - 1] == (if gaveUp then Error(name, MaxRetries) else Call(name, 1))
  }

  /** One failed-and-retried round in front of a shaped trace adds a round. */
  lemma RoundShaped(name: EventName, retry: nat, rest: seq<TraceEntry>, rounds: nat, gaveUp: bool)
    requires Shaped(rest, name, rounds, gaveUp)
    ensures Shaped([Call(name, 1), Warn(name, retry), Wait(RetryDelay)] + rest, name, rounds + 1, gaveUp)
  {
    var call, warn, wait := Call(name, 1), Warn(name, retry), Wait(RetryDelay);
    var round := [call, warn, wait];
    CountThree(call, warn, wait, IsCall);
    CountThree(call, warn, wait, IsWarn);
    CountThree(call, warn, wait, IsWait);
    CountThree(call, warn, wait, IsError);
    CountThree(call, warn, wait, IsTally);
    CountAppend(round, rest, IsTally);
    CountAppend(round, rest, IsCall);
    CountAppend(round, rest, IsWarn);
    CountAppend(round, rest, IsWait);
    CountAppend(round, rest, IsError);
    TotalDelayAppend(round, rest);
  }

  /** The last iteration: a call that succeeds, or the fifth call that fails. */
  lemma LastIterationShaped(name: EventName, gaveUp: bool)
    ensures Shaped(if gaveUp then [Call(name, 1), Error(name, MaxRetries)] else [Call(name, 1)], name, 0, gaveUp)
  {
    var call, error := Call(name, 1), Error(name, MaxRetries);
    if gaveUp {
      var t := [call, error];
      assert t[1..] == [error] && t[1..][1..] == [];
      assert TotalDelay(t) == TotalDelay([error]) == TotalDelay([]);
    }
  }

  /** How many failed calls the loop retries from `i` failures on. */
  function RetriedFrom(script: seq<bool>, i: nat): nat
    requires i < MaxRetries
  {
    var k := FirstSuccess(script, i);
    if k < MaxRetries then k - i else MaxRetries - 1 - i
  }

  /** The loop from `i` failures on retries until the first successful call,
      or gives up after the last call of the budget. */
  lemma {:induction false} SyncFromShape(name: EventName, script: seq<bool>, i: nat)
    requires i < MaxRetries
    decreases MaxRetries - i
    ensures Shaped(SyncFrom(name, i, script), name, RetriedFrom(script, i), FirstSuccess(script, i) == MaxRetries)
  {
    SyncFromStep(name, script, i);
    if UpdateEventStatsBy(script, i) == Stored {
      LastIterationShaped(name, false);
    } else if i + 1 >= MaxRetries {
      LastIterationShaped(name, true);
    } else {
      SyncFromShape(name, script, i + 1);
      assert FirstSuccess(script, i) == FirstSuccess(script, i + 1);
      RoundShaped(name, i + 1, SyncFrom(name, i + 1, script), RetriedFrom(script, i + 1), FirstSuccess(script, i + 1) == MaxRetries);
    }
  }

  /** Every sync terminates after between one and five store calls, with as
      many pauses and warnings as failed calls it retried; it ends on a
      successful call exactly when one of the first five calls succeeds, and
      otherwise on a single error. A sync never writes the local tally. */
  lemma SyncBounded(name: EventName, script: seq<bool>)
    ensures var t := SyncTrace(name, script);
            && 1 <= Count(t, IsCall) <= MaxRetries
            && Count(t, IsWait) == Count(t, IsCall) - 1
            && Count(t, IsWarn) == Count(t, IsCall) - 1
            && Count(t, IsError) <= 1
            && Count(t, IsTally) == 0
            && (Count(t, IsError) == 0 <==> exists j :: 0 <= j < MaxRetries && j < |script| && script[j])
  {
    SyncFromShape(name, script, 0);
    var k := FirstSuccess(script, 0);
    if k < MaxRetries {
      assert k < |script| && script[k];
    }
  }

  /** A store that fails k times (k < 5) and then succeeds: k + 1 calls,
      k pauses of 100 each, no error, and the last effect is the successful
      call. */
  lemma SyncSucceedsAfterFailures(name: EventName, script: seq<bool>, k: nat)
    requires k < MaxRetries && k < |script| && script[k]
    requires forall j :: 0 <= j < k ==> !script[j]
    ensures var t := SyncTrace(name, script);
            && Count(t, IsCall) == k + 1
            && Count(t, IsWait) == k
            && TotalDelay(t) == k * RetryDelay
            && Count(t, IsWarn) == k
            && Count(t, IsError) == 0
            && t[|t| - 1] == Call(name, 1)
  {
    SyncFromShape(name, script, 0);
    assert FirstSuccess(script, 0) == k;
  }

  /** A store that fails five times in a row: exactly five calls, four
      pauses (none after the last failure) and one error, which ends the
      trace. */
  lemma SyncGivesUp(name: EventName, script: seq<bool>)
    requires forall j :: 0 <= j < MaxRetries && j < |script| ==> !script[j]
    ensures var t := SyncTrace(name, script);
            && Count(t, IsCall) == MaxRetries
            && Count(t, IsWait) == MaxRetries - 1
            && TotalDelay(t) == (MaxRetries - 1) * RetryDelay
            && Count(t, IsWarn) == MaxRetries - 1
            && Count(t, IsError) == 1
            && t[|t| - 1] == Error(name, MaxRetries)
            && t[|t| - 2] == Call(name, 1)
  {
    SyncFromShape(name, script, 0);
    assert FirstSuccess(script, 0) == MaxRetries;
    SyncTraceIsExpected(name, script);
  }

  /** An entry that a sync of `name` may log once `lo` failures have
      happened: a call of `name` with increment 1, a warning for a later
      retry, a pause, or the error of the fifth failure. */
  predicate EntryOfSync(e: TraceEntry, name: EventName, lo: nat)
  {
    match e
    case Call(n, increment) => n == name && increment == 1
    case Warn(n, retry) => n == name && lo < retry < MaxRetries
    case Wait(delay) => delay == RetryDelay
    case Error(n, retries) => n == name && retries == MaxRetries
    case Tally(_, _) => false
  }

  lemma {:induction false} SyncFromEntries(name: EventName, script: seq<bool>, i: nat)
    requires i < MaxRetries
    decreases MaxRetries - i
    ensures var t := SyncFrom(name, i, script);
            forall j :: 0 <= j < |t| ==> EntryOfSync(t[j], name, i)
  {
    SyncFromStep(name, script, i);
    if UpdateEventStatsBy(script, i) != Stored && i + 1 < MaxRetries {
      var rest := SyncFrom(name, i + 1, script);
      var t := [Call(name, 1), Warn(name, i + 1), Wait(RetryDelay)] + rest;
      SyncFromEntries(name, script, i + 1);
      forall j | 3 <= j < |t| ensures EntryOfSync(t[j], name, i) {
        assert t[j] == rest[j - 3];
      }
    }
  }

  /** Every store call of a sync carries the synced name and an increment of
      exactly 1; every warning and the error name that event; every pause is
      100; nothing in a sync touches the local tally. */
  lemma SyncCallsCarryNameAndOne(name: EventName, script: seq<bool>)
    ensures var t := SyncTrace(name, script);
            forall j :: 0 <= j < |t| ==> EntryOfSync(t[j], name, 0)
  {
    SyncFromEntries(name, script, 0);
  }
}
