/** The bounded action log: newest entry first, at most Capacity entries, the
    oldest dropped when a new one would exceed the capacity. */
module ActionLog {
  import opened PetRules

  const Capacity := 20

  datatype LogEntry = LogEntry(action: string, result: string, timestamp: Timestamp)

  /** The log after one entry is added: the entry goes to the head and, once
      the log has grown past Capacity, the last entry is removed. */
  function Push(log: seq<LogEntry>, e: LogEntry): (r: seq<LogEntry>)
    ensures |r| == if |log| < Capacity then |log| + 1 else |log|
    ensures r[0] == e
    ensures forall i :: 1 <= i < |r| ==> r[i] == log[i - 1]
  {
    var grown := [e] + log;
    if |grown| > Capacity then grown[..|grown| - 1] else grown
  }

  /** The log obtained by adding `entries` one after another to an empty log. */
  function Replay(entries: seq<LogEntry>): seq<LogEntry>
    decreases |entries|
  {
    if entries == [] then [] else Push(Replay(entries[..|entries| - 1]), entries[|entries| - 1])
  }

  /** After n additions the log holds the min(n, Capacity) most recent
      entries, newest first. */
  lemma {:induction false} ReplayKeepsNewest(entries: seq<LogEntry>)
    ensures |Replay(entries)| == Min(|entries|, Capacity)
    ensures forall i :: 0 <= i < |Replay(entries)| ==> Replay(entries)[i] == entries[|entries| - 1 - i]
    decreases |entries|
  {
    if entries != [] {
      var n := |entries|;
      ReplayKeepsNewest(entries[..n - 1]);
      var before := Replay(entries[..n - 1]);
      forall i | 0 <= i < |Replay(entries)|
        ensures Replay(entries)[i] == entries[n - 1 - i]
      {
        if i > 0 {
          assert Replay(entries)[i] == before[i - 1];
        }
      }
    }
  }

  /** A full log loses exactly its oldest entry when one is added. */
  lemma FullLogDropsOldest(log: seq<LogEntry>, e: LogEntry)
    requires |log| == Capacity
    ensures Push(log, e) == [e] + log[..Capacity - 1]
  {
  }

  /** A log with room left keeps every entry, behind the new one. */
  lemma RoomyLogKeepsAll(log: seq<LogEntry>, e: LogEntry)
    requires |log| < Capacity
    ensures Push(log, e) == [e] + log
  {
  }

  /** Twenty-five additions leave exactly the last twenty, newest first. */
  lemma {:induction false} TwentyFiveAdditions(entries: seq<LogEntry>)
    requires |entries| == 25
    ensures |Replay(entries)| == 20
    ensures Replay(entries)[0] == entries[24] && Replay(entries)[19] == entries[5]
  {
    ReplayKeepsNewest(entries);
  }
}
