/**
 The browser-storage slot that mirrors the daily log (App.tsx).

 The slot under the key `nutritrack_log` is abstracted to three shapes: no
 usable value (the key is missing, or holds the empty string, which is falsy),
 a value that does not decode, or a decoded sequence of entries. JSON
 encoding and the browser's storage object are not modelled.
 */
module Storage {
  import opened Types

  datatype Slot = Absent | Corrupt | Stored(entries: seq<LogEntry>)

  /** The load-on-mount effect: a decodable value replaces the log, anything
      else is swallowed and leaves the log at its initial empty value. */
  function Load(slot: Slot): seq<LogEntry> {
    match slot
    case Stored(entries) => entries
    case _ => []
  }

  /** The save effect: overwrite the slot with the whole log. What was saved
      loads back unchanged. */
  function Save(log: seq<LogEntry>): (slot: Slot)
    ensures Load(slot) == log
    ensures slot.Stored?
  {
    Stored(log)
  }

  /** A missing or undecodable value loads as the empty log; it never raises. */
  lemma LoadFallsBackToEmpty(slot: Slot)
    ensures !slot.Stored? ==> Load(slot) == []
    ensures slot.Stored? ==> Load(slot) == slot.entries
  {
  }

  /** Loading what was persisted and persisting it again writes the same
      content. */
  lemma PersistLoadIdempotent(log: seq<LogEntry>)
    ensures Save(Load(Save(log))) == Save(log)
  {
  }
}
