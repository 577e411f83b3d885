# Event handler with bounded store sync

A Dafny model of the event handler in `emitter-sync-pattern.ts`. An emitter
produces events named `A` and `B`. For every event the handler does two
things, in this order:

1. It bumps a per-name counter in its local tally. The tally is the map it
   inherits from `EventStatistics`. A name that was never counted reads as 0.
2. It syncs the increment with a slow and unreliable durable store through
   `EventRepository.saveEventData`, in a retry loop:
   - the loop makes at most `maxRetries = 5` store calls, each with an
     increment of 1;
   - it stops at the first call that succeeds;
   - after a failed call it counts the failure; after the fifth failure it
     logs an error and stops;
   - after any earlier failure it logs a warning and waits a fixed 100 (the literal passed to `awaitTimeout`,
     assumed milliseconds).

The store is replaced by a scripted oracle. A `seq<bool>` says, call by
call, whether the store accepts the i-th call of one sync; calls past the
end of the script fail. Logging and waiting are not real effects here. They
are recorded in a trace of abstract entries:

- `Tally(name, count)`: the local count was written;
- `Call(name, increment)`: one store call;
- `Warn(name, retry)`: a warning before a retry;
- `Wait(delay)`: a pause;
- `Error(name, retries)`: the error logged on giving up.

Modules, one file each:

- `Events` (events.dfy): event names, trace entries, counting over traces.
- `Statistics` (statistics.dfy): the tally as `map<EventName, nat>` with
  default 0; counting a run of events.
- `Repository` (repository.dfy): the store oracle and
  `EventRepository.SaveEventData`.
- `Sync` (sync.dfy): the retry loop as a specification (`SyncFrom`,
  `SyncTrace`), an independent closed form of it (`ExpectedTrace`), and what
  one sync does.
- `Handler` (handler.dfy): the `EventHandler` class. `SetStats`,
  `IncrementEventCount`, `HandleEvent` and `HandleEvents` update its
  `stats` field. `SyncWithRepository` is the
  `while` loop with its local `retryCount`; it changes no field except the
  ghost effect log. Every method appends what it does to that log, so the
  order of the count write and the store calls is a property of the
  methods themselves.

Facts about the code that the model keeps as written:

- The pause between attempts is the constant 100 of line 93 (the unit is
  whatever `awaitTimeout` takes, assumed milliseconds). It does not
  grow from one retry to the next and has no cap.
- The bound of 5 calls is the local constant `maxRetries` of line 79. It is
  not configurable.
- `syncWithRepository` returns nothing. Whether a sync succeeded or gave up
  is read off its trace: the trace ends either in the accepted call or in
  the error entry.
- The error message says "after 5 retries", but the loop makes 5 calls in
  all: the first call and 4 retries. The model keeps the number of calls as
  coded and records the message's number (5) in `Error`.

## Model

| member | source | states |
|---|---|---|
| Statistics.Bump | emitter-sync-pattern.ts:73-75 | counting one event of a name raises that name's count (0 when absent) by exactly 1 and leaves every other name's count unchanged |
| Statistics.ReplayCounts | emitter-sync-pattern.ts:68-75 | after a run of events, each name's count has grown by exactly its number of occurrences in the run: nothing lost, nothing counted twice |
| Handler.EventHandler.constructor | emitter-sync-pattern.ts:56-58 | the handler keeps the given repository and starts with an empty tally and no effects |
| Handler.EventHandler.GetStats | emitter-sync-pattern.ts:74 | a name never counted reads 0; otherwise its stored count |
| Handler.EventHandler.SetStats | emitter-sync-pattern.ts:74 | writing a count replaces that name's entry of the tally and nothing else, and logs the write |
| Handler.EventHandler.IncrementEventCount | emitter-sync-pattern.ts:73-75 | the handled name's count goes up by 1 (from 0 when never counted); all other counts are unchanged; the one effect is the write of the new count |
| Handler.EventHandler.SyncWithRepository | emitter-sync-pattern.ts:77-97 | the loop, starting with a fresh retry counter of 0 and changing no handler field but the effect log, appends exactly the trace of the retry state machine for the given store answers |
| Handler.EventHandler.HandleEvent | emitter-sync-pattern.ts:68-71 | handling counts the event (+1 for its name, other names unchanged) whatever the store answers; the effect log gains the count write and then the sync's effects, in that order |
| Handler.EventHandler.HandleEvents | emitter-sync-pattern.ts:60-71 | over any run of events and any store answers, each name's count grows by exactly its number of events, and the effect log gains each event's count write and sync in turn |
| Handler.CountedBeforeSynced | emitter-sync-pattern.ts:68-71 | the first effect of handling is the new local count; every store call comes after it and carries the event's name and an increment of 1 |
| Handler.HandleTraceBounded | emitter-sync-pattern.ts:68-87 | handling one event writes the tally once and makes between 1 and 5 store calls |
| Handler.RunTraceBounded | emitter-sync-pattern.ts:60-87 | handling N events writes the tally N times and makes between N and 5N store calls, whatever the store answers |
| Repository.EventRepository.SaveEventData | emitter-sync-pattern.ts:100-107 | the store call carries the given name and increment unchanged, and fails exactly when the store rejects that call |
| Sync.FirstSuccess | emitter-sync-pattern.ts:81-87 | the index of the first accepted call within the budget: every earlier call is rejected, and the result is 5 exactly when the first five calls all fail |
| Sync.SyncTraceIsExpected | emitter-sync-pattern.ts:77-97 | the loop's trace equals the closed form: one call-warning-pause round per retried failure, then the successful call, or after four rounds the last call and the error |
| Sync.SyncFromShape | emitter-sync-pattern.ts:81-94 | from any number of earlier failures, the rest of the loop retries until the first accepted call or the budget ends, with one call, warning and pause of 100 per retried failure and an error only on giving up |
| Sync.SyncBounded | emitter-sync-pattern.ts:78-87 | every sync ends after 1 to 5 store calls, with one pause and one warning per retried call; it ends without error exactly when one of the first five calls succeeds, with at most one error, and never writes the local tally |
| Sync.SyncSucceedsAfterFailures | emitter-sync-pattern.ts:81-94 | if the store fails k < 5 times and then accepts, the sync makes k+1 calls, k pauses of 100 (100k in all), k warnings, no error, and ends on the accepted call |
| Sync.SyncGivesUp | emitter-sync-pattern.ts:86-94 | if the first five calls fail, the sync makes exactly 5 calls, 4 pauses and 4 warnings, and logs exactly one error; the error ends the trace right after the fifth call, with no pause after it |
| Sync.SyncFromEntries | emitter-sync-pattern.ts:81-93 | from any number of earlier failures, every remaining store call is for the synced name with increment 1, every later warning names a retry number above it and below 5, and the error names the event and the bound 5 |
| Sync.SyncCallsCarryNameAndOne | emitter-sync-pattern.ts:83-93 | every store call of a sync is for the synced name with increment 1; every warning and the error name that event; every pause is 100; a sync never writes the local tally |

## Left out

- Setup and event generation: `init`, `triggerRandomly`, `MAX_EVENTS` and
  the emitter subscriptions (lines 24-40, 60-65). The constructor only
  stores the repository and starts an empty tally. `HandleEvents` stands in
  for the emitter delivering events one at a time.
- `ResultsTester` and `showStats`: output only.
- `EventDelayedRepository.updateEventStatsBy`, with its random latency and
  random failures, is not part of this model. It is the scripted oracle
  `Repository.UpdateEventStatsBy`. The store's own totals are not modelled.
- The internals of `EventEmitter` and `EventStatistics` are not part of
  this model. The tally is a map whose missing keys read as 0.
- Real time (`awaitTimeout`) and `console.warn` / `console.error` are trace
  entries, not effects. The warning's error text is dropped.
- Async interleaving of several in-flight `handleEvent` calls. The emitter
  callbacks (lines 60-65) do not await `handleEvent`, so one event's count
  write can come before an earlier event's sync has finished. Each sync is
  a sequential run against its own script. The model does not show that
  the tally write stays atomic when syncs interleave.
- HandleEvents: handles the events one after another, each to completion.
  The order of its log (each count write followed by that event's whole
  sync) is this sequential abstraction, not the order the program
  guarantees.
- Counts are unbounded naturals. JavaScript numbers are exact up to 2^53,
  far above the 1000 events per name the emitter produces.
- The local constant `maxRetries` is the module constant `Sync.MaxRetries`
  (5). The pause of 100 is the literal `100` in the loop and
  `Sync.RetryDelay` in the specification.
