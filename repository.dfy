/**
 The durable store and the EventRepository adapter in front of it. The store
 itself (EventDelayedRepository.updateEventStatsBy, with its random latency
 and random failures) is replaced by a scripted oracle: `script[i]` is
 whether the i-th store call of one sync succeeds.
 */
module Repository {
  import opened Events

  /** What one store call does: it completes, or it rejects. */
  datatype StoreResult = Stored | Rejected

  /** The scripted store: the answer to call number `attempt` (counted from 0)
      of one sync. Calls past the end of the script are rejected. */
  function UpdateEventStatsBy(script: seq<bool>, attempt: nat): StoreResult
  {
    if attempt < |script| && script[attempt] then Stored else Rejected
  }

  class EventRepository {

    constructor ()
    {
    }

    /** Forwards the name and the increment to the store unchanged and
        passes its failure on to the caller. Also returns the trace entry
        that records the call. */
    method SaveEventData(name: EventName, increment: int, script: seq<bool>, attempt: nat)
      returns (r: StoreResult, call: TraceEntry)
      ensures call == Call(name, increment)
      ensures r == Stored <==> attempt < |script| && script[attempt]
    {
      call := Call(name, increment);
      r := UpdateEventStatsBy(script, attempt);
    }
  }
}
