/** The frame's append-only log list, as values. */
module LogList {
  import opened Common

  /** The list after `addLog` was called once per entry of `entries`, in order. */
  function AppendEach(logs: seq<LogEntry>, entries: seq<LogEntry>): seq<LogEntry>
    decreases |entries|
  {
    if entries == [] then logs else AppendEach(logs + [entries[0]], entries[1..])
  }

  /** The entries an `addLogs` argument contributes: none for null. */
  function Batch(entries: Option<seq<LogEntry>>): seq<LogEntry> {
    match entries
    case None => []
    case Some(xs) => xs
  }

  /** A batch append equals appending its entries one at a time. */
  lemma {:induction false} AppendEachIsConcat(logs: seq<LogEntry>, entries: seq<LogEntry>)
    ensures AppendEach(logs, entries) == logs + entries
    decreases |entries|
  {
    if entries != [] {
      AppendEachIsConcat(logs + [entries[0]], entries[1..]);
      assert (logs + [entries[0]]) + entries[1..] == logs + entries;
    }
  }
}
