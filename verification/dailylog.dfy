/**
 The list operations the controller applies to the daily log (App.tsx):
 prepending a committed entry and filtering out every entry with a given
 identifier. The log is kept newest first.
 */
module DailyLog {
  import opened Types

  /** Some entry of `log` carries identifier `id`. */
  predicate HasId(log: seq<LogEntry>, id: string) {
    exists i :: 0 <= i < |log| && log[i].id == id
  }

  /** No two entries of `log` share an identifier. */
  predicate UniqueIds(log: seq<LogEntry>) {
    forall i, j :: 0 <= i < j < |log| ==> log[i].id != log[j].id
  }

  /** How many entries of `log` carry identifier `id`. */
  function CountId(log: seq<LogEntry>, id: string): (n: nat)
    ensures n <= |log|
    ensures n == 0 <==> !HasId(log, id)
    decreases |log|
  {
    if |log| == 0 then 0
    else
      assert forall i :: 1 <= i < |log| ==> log[i] == log[1..][i - 1];
      (if log[0].id == id then 1 else 0) + CountId(log[1..], id)
  }

  /** The entries of `log` that carry identifier `id`, in log order: the part
      that `RemoveId` takes out. */
  function KeepId(log: seq<LogEntry>, id: string): (r: seq<LogEntry>)
    ensures forall e :: e in r <==> e in log && e.id == id
    decreases |log|
  {
    if |log| == 0 then []
    else if log[0].id == id then [log[0]] + KeepId(log[1..], id)
    else KeepId(log[1..], id)
  }

  /** `log.filter(item => item.id !== id)`: every entry carrying `id` goes,
      every other entry stays, and the length drops by exactly the number of
      entries that carried it. */
  function RemoveId(log: seq<LogEntry>, id: string): (r: seq<LogEntry>)
    ensures |r| == |log| - CountId(log, id)
    ensures forall e :: e in r <==> e in log && e.id != id
    decreases |log|
  {
    if |log| == 0 then []
    else
      assert forall i :: 1 <= i < |log| ==> log[i] == log[1..][i - 1];
      if log[0].id == id then RemoveId(log[1..], id)
      else [log[0]] + RemoveId(log[1..], id)
  }

  /** Removing an identifier no entry carries leaves the log as it was. */
  lemma {:induction false} RemoveAbsentId(log: seq<LogEntry>, id: string)
    ensures !HasId(log, id) ==> RemoveId(log, id) == log
    decreases |log|
  {
    if |log| > 0 {
      assert forall i :: 1 <= i < |log| ==> log[i] == log[1..][i - 1];
      RemoveAbsentId(log[1..], id);
      assert [log[0]] + log[1..] == log;
    }
  }

  /** Filtering distributes over concatenation; together with the singleton
      case this says `RemoveId` keeps the surviving entries in their original
      relative order. */
  lemma {:induction false} RemoveIdAppend(a: seq<LogEntry>, b: seq<LogEntry>, id: string)
    ensures RemoveId(a + b, id) == RemoveId(a, id) + RemoveId(b, id)
    decreases |a|
  {
    if |a| == 0 {
      assert a + b == b;
    } else {
      var ab := a + b;
      assert ab[1..] == a[1..] + b;
      RemoveIdAppend(a[1..], b, id);
      var tail := RemoveId(a[1..], id);
      if a[0].id == id {
        assert RemoveId(ab, id) == RemoveId(a[1..] + b, id);
        assert RemoveId(a, id) == tail;
      } else {
        calc {
          RemoveId(ab, id);
          [a[0]] + RemoveId(a[1..] + b, id);
          [a[0]] + (tail + RemoveId(b, id));
          { assert [a[0]] + (tail + RemoveId(b, id)) == ([a[0]] + tail) + RemoveId(b, id); }
          RemoveId(a, id) + RemoveId(b, id);
        }
      }
    }
  }

  /** A single entry is dropped exactly when it carries the identifier. */
  lemma RemoveIdSingleton(e: LogEntry, id: string)
    ensures RemoveId([e], id) == if e.id == id then [] else [e]
  {
  }

  /** Removing the same identifier twice is the same as removing it once. */
  lemma RemoveIdIdempotent(log: seq<LogEntry>, id: string)
    ensures RemoveId(RemoveId(log, id), id) == RemoveId(log, id)
  {
    RemoveAbsentId(RemoveId(log, id), id);
  }

  /** Every entry carrying `id` goes to `KeepId`, every other to `RemoveId`:
      the two together account for the whole log, occurrence for occurrence. */
  lemma {:induction false} RemoveKeepPartition(log: seq<LogEntry>, id: string)
    ensures multiset(RemoveId(log, id)) + multiset(KeepId(log, id)) == multiset(log)
    ensures |RemoveId(log, id)| + |KeepId(log, id)| == |log|
    decreases |log|
  {
    if |log| > 0 {
      RemoveKeepPartition(log[1..], id);
      assert log == [log[0]] + log[1..];
    }
  }

  /** Identifiers of entries unique: `[e] + log` is unique exactly when `log`
      is and `e`'s identifier is not already in it. */
  lemma UniqueIdsCons(e: LogEntry, log: seq<LogEntry>)
    ensures UniqueIds([e] + log) <==> UniqueIds(log) && !HasId(log, e.id)
  {
    var l := [e] + log;
    assert forall i :: 0 <= i < |log| ==> l[i + 1] == log[i];
    if UniqueIds(l) {
      forall i | 0 <= i < |log| ensures log[i].id != e.id {
        assert l[0].id != l[i + 1].id;
      }
    }
  }

  /** In a log with unique identifiers, a present identifier occurs exactly
      once. */
  lemma {:induction false} UniquePresentCountsOnce(log: seq<LogEntry>, id: string)
    requires UniqueIds(log)
    requires HasId(log, id)
    ensures CountId(log, id) == 1
    decreases |log|
  {
    UniqueIdsCons(log[0], log[1..]);
    assert [log[0]] + log[1..] == log;
    if log[0].id == id {
      assert !HasId(log[1..], id);
    } else {
      var i :| 0 <= i < |log| && log[i].id == id;
      assert log[1..][i - 1].id == id;
      UniquePresentCountsOnce(log[1..], id);
    }
  }

  /** Removing a present identifier from a log with unique identifiers
      shortens it by exactly one. */
  lemma RemoveUniquePresent(log: seq<LogEntry>, id: string)
    requires UniqueIds(log)
    requires HasId(log, id)
    ensures |RemoveId(log, id)| == |log| - 1
  {
  }

  /** Removal never introduces a duplicate identifier. */
  lemma {:induction false} RemoveIdKeepsUnique(log: seq<LogEntry>, id: string)
    requires UniqueIds(log)
    ensures UniqueIds(RemoveId(log, id))
    decreases |log|
  {
    if |log| > 0 {
      UniqueIdsCons(log[0], log[1..]);
      assert [log[0]] + log[1..] == log;
      RemoveIdKeepsUnique(log[1..], id);
      if log[0].id != id {
        var rest := RemoveId(log[1..], id);
        forall i | 0 <= i < |rest| ensures rest[i].id != log[0].id {
          assert rest[i] in log[1..];
        }
        UniqueIdsCons(log[0], rest);
      }
    }
  }
}
