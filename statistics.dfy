/**
 The local tally kept by the handler (the inherited EventStatistics state):
 a map from event name to count in which a name that was never written reads
 as 0.
 */
module Statistics {
  import opened Events

  type Stats = map<EventName, nat>

  /** The count recorded for `name`; 0 when the name has never been written. */
  function Get(stats: Stats, name: EventName): nat
  {
    if name in stats then stats[name] else 0
  }

  /** The tally after one more event of `name` has been counted. */
  function Bump(stats: Stats, name: EventName): (r: Stats)
    ensures Get(r, name) == Get(stats, name) + 1
    ensures forall other :: other != name ==> Get(r, other) == Get(stats, other)
    ensures r.Keys == stats.Keys + {name}
  {
    stats[name := Get(stats, name) + 1]
  }

  /** How many of `events` are `name`. */
  function Occurrences(events: seq<EventName>, name: EventName): nat
  {
    if events == [] then 0
    else Occurrences(events[..|events| - 1], name) + (if events[|events| - 1] == name then 1 else 0)
  }

  /** The tally after counting every event of `events`, in order. */
  function Replay(stats: Stats, events: seq<EventName>): Stats
  {
    if events == [] then stats
    else Bump(Replay(stats, events[..|events| - 1]), events[|events| - 1])
  }

  /** After a run of events, the count of each name has grown by exactly its
      number of occurrences: no event is lost or counted twice. */
  lemma {:induction false} ReplayCounts(stats: Stats, events: seq<EventName>, name: EventName)
    ensures Get(Replay(stats, events), name) == Get(stats, name) + Occurrences(events, name)
  {
    if events != [] {
      ReplayCounts(stats, events[..|events| - 1], name);
    }
  }
}
