/**
 EventHandler: on every event it counts the event in its local tally and
 then syncs the increment with the repository through the bounded retry
 loop. The tally is the map inherited from EventStatistics; the retry state
 lives only inside one sync.
 */
module Handler {
  import opened Events
  import opened Statistics
  import opened Repository
  import opened Sync

  class EventHandler {
    /** The local tally (EventStatistics' state). */
    var stats: Stats
    const repository: EventRepository
    /** Every observable effect so far, in the order it happened: tally
        writes, store calls, warnings, pauses and errors. */
    ghost var log: seq<TraceEntry>

    /** Keeps the repository and starts with an empty tally (the base
        constructor) and no effects. */
    constructor (repository: EventRepository)
      ensures this.repository == repository
      ensures stats == map[] && log == []
    {
      this.repository := repository;
      stats := map[];
      log := [];
    }

    /** EventStatistics.getStats: 0 for a name never counted. */
    function GetStats(name: EventName): (count: nat)
      reads this
      ensures name !in stats ==> count == 0
      ensures name in stats ==> count == stats[name]
    {
      Get(stats, name)
    }

    /** EventStatistics.setStats: overwrites the count of one name. */
    method SetStats(name: EventName, count: nat)
      modifies this
      ensures stats == old(stats)[name := count]
      ensures log == old(log) + [Tally(name, count)]
    {
      stats := stats[name := count];
      log := log + [Tally(name, count)];
    }

    /** Counts one more event of `name` and leaves every other name alone. */
    method IncrementEventCount(name: EventName)
      modifies this
      ensures stats == Bump(old(stats), name)
      ensures GetStats(name) == old(GetStats(name)) + 1
      ensures forall other :: other != name ==> GetStats(other) == old(GetStats(other))
      ensures log == old(log) + [Tally(name, GetStats(name))]
    {
      SetStats(name, GetStats(name) + 1);
    }

    /** The retry loop: up to five store calls with an increment of 1, a
        warning and a pause of 100 after each failure but the last, an error
        after the fifth failure. Its retry counter starts at 0 on every call;
        it changes no field of the handler except the effect log. */
    method SyncWithRepository(name: EventName, script: seq<bool>)
      modifies this`log
      ensures log == old(log) + SyncTrace(name, script)
    {
      var retryCount := 0;
      ghost var trace := [];
      while retryCount < MaxRetries
        invariant retryCount <= MaxRetries
        invariant log == old(log) + trace
        invariant retryCount < MaxRetries ==> trace + SyncFrom(name, retryCount, script) == SyncTrace(name, script)
        invariant retryCount == MaxRetries ==> trace == SyncTrace(name, script)
      {
        SyncFromStep(name, script, retryCount);
        var result, call := repository.SaveEventData(name, 1, script, retryCount);
        ghost var done := trace;
        if result == Stored {
          trace := trace + [call];
          log := log + [call];
          AppendAssociative(old(log), done, [call]);
          break;
        }
        retryCount := retryCount + 1;
        if retryCount >= MaxRetries {
          trace := trace + [call, Error(name, MaxRetries)];
          log := log + [call, Error(name, MaxRetries)];
          AppendAssociative(old(log), done, [call, Error(name, MaxRetries)]);
        } else {
          trace := trace + [call, Warn(name, retryCount), Wait(100)];
          log := log + [call, Warn(name, retryCount), Wait(100)];
          AppendAssociative(old(log), done, [call, Warn(name, retryCount), Wait(100)]);
          AppendAssociative(done, [call, Warn(name, retryCount), Wait(100)], SyncFrom(name, retryCount, script));
        }
      }
    }

    /** Counts the event, then syncs it. The count is written before the
        first store call, and it is the same whatever the store answers. */
    method HandleEvent(name: EventName, script: seq<bool>)
      modifies this
      ensures stats == Bump(old(stats), name)
      ensures GetStats(name) == old(GetStats(name)) + 1
      ensures forall other :: other != name ==> GetStats(other) == old(GetStats(other))
      ensures log == old(log) + HandleTrace(old(stats), name, script)
    {
      IncrementEventCount(name);
      SyncWithRepository(name, script);
    }

    /** The emitter delivering `events` one by one through the subscriptions,
        the i-th event's sync meeting the store answers `scripts[i]`. */
    method HandleEvents(events: seq<EventName>, scripts: seq<seq<bool>>)
      requires |scripts| == |events|
      modifies this
      ensures stats == Replay(old(stats), events)
      ensures forall n :: GetStats(n) == old(GetStats(n)) + Occurrences(events, n)
      ensures log == old(log) + RunTrace(old(stats), events, scripts)
    {
      for i := 0 to |events|
        invariant stats == Replay(old(stats), events[..i])
        invariant log == old(log) + RunTrace(old(stats), events[..i], scripts[..i])
      {
        assert events[..i + 1][..i] == events[..i] && scripts[..i + 1][..i] == scripts[..i];
        ghost var before := log;
        HandleEvent(events[i], scripts[i]);
        AppendAssociative(old(log), RunTrace(old(stats), events[..i], scripts[..i]),
                          HandleTrace(Replay(old(stats), events[..i]), events[i], scripts[i]));
      }
      assert events[..|events|] == events && scripts[..|scripts|] == scripts;
      forall n ensures GetStats(n) == old(GetStats(n)) + Occurrences(events, n) {
        ReplayCounts(old(stats), events, n);
      }
    }
  }

  // -----------------------------------------------------------------------
  // Handling events, as traces.

  /** The effects of handling one event of `name` with tally `stats`: the
      new count is written, then the sync runs. */
  function HandleTrace(stats: Stats, name: EventName, script: seq<bool>): seq<TraceEntry>
  {
    [Tally(name, Get(stats, name) + 1)] + SyncTrace(name, script)
  }

  /** The effects of handling `events` in order, event i synced against
      `scripts[i]`. */
  function RunTrace(stats: Stats, events: seq<EventName>, scripts: seq<seq<bool>>): seq<TraceEntry>
    requires |scripts| == |events|
  {
    if events == [] then []
    else
      var n := |events| - 1;
      RunTrace(stats, events[..n], scripts[..n]) + HandleTrace(Replay(stats, events[..n]), events[n], scripts[n])
  }

  /** Handling an event writes the new count first; every store call comes
      after it and carries the event's name and an increment of 1. */
  lemma CountedBeforeSynced(stats: Stats, name: EventName, script: seq<bool>)
    ensures var t := HandleTrace(stats, name, script);
            && t[0] == Tally(name, Get(stats, name) + 1)
            && forall j :: 0 <= j < |t| && t[j].Call? ==> 0 < j && t[j] == Call(name, 1)
  {
    var t := HandleTrace(stats, name, script);
    var s := SyncTrace(name, script);
    SyncCallsCarryNameAndOne(name, script);
    forall j | 0 <= j < |t| && t[j].Call? ensures 0 < j && t[j] == Call(name, 1) {
      assert t[j] == s[j - 1] && EntryOfSync(s[j - 1], name, 0);
    }
  }

  /** Handling one event writes the tally once and makes 1 to 5 store
      calls. */
  lemma HandleTraceBounded(stats: Stats, name: EventName, script: seq<bool>)
    ensures var t := HandleTrace(stats, name, script);
            && Count(t, IsTally) == 1
            && 1 <= Count(t, IsCall) <= MaxRetries
  {
    var s := SyncTrace(name, script);
    SyncBounded(name, script);
    CountAppend([Tally(name, Get(stats, name) + 1)], s, IsTally);
    CountAppend([Tally(name, Get(stats, name) + 1)], s, IsCall);
  }

  /** Handling N events writes the tally N times and makes between N and 5N
      store calls, whatever the store answers. */
  lemma {:induction false} RunTraceBounded(stats: Stats, events: seq<EventName>, scripts: seq<seq<bool>>)
    requires |scripts| == |events|
    ensures var t := RunTrace(stats, events, scripts);
            && Count(t, IsTally) == |events|
            && |events| <= Count(t, IsCall) <= MaxRetries * |events|
  {
    if events != [] {
      var n := |events| - 1;
      var prefix := RunTrace(stats, events[..n], scripts[..n]);
      var last := HandleTrace(Replay(stats, events[..n]), events[n], scripts[n]);
      RunTraceBounded(stats, events[..n], scripts[..n]);
      HandleTraceBounded(Replay(stats, events[..n]), events[n], scripts[n]);
      CountAppend(prefix, last, IsTally);
      CountAppend(prefix, last, IsCall);
    }
  }
}
