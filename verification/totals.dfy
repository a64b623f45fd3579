/**
 The daily totals shown in the sidebar (App.tsx): four `reduce` calls over the
 log, recomputed from the log on every render and never stored.

 Calories are summed as they are; protein, carbohydrates and fat are summed
 through `value || 0`, so an absent value contributes 0.
 */
module Totals {
  import opened Types
  import DailyLog

  /** `log.reduce((sum, item) => sum + f(item), acc)`: a left fold that adds
      each entry's value to the running sum, first entry first. */
  function Reduce(log: seq<LogEntry>, acc: real, f: LogEntry -> real): real
    decreases |log|
  {
    if |log| == 0 then acc else Reduce(log[1..], acc + f(log[0]), f)
  }

  /** The sum of `f` over the log, defined structurally: the reference that the
      left fold is proved against. */
  function Sum(log: seq<LogEntry>, f: LogEntry -> real): real
    decreases |log|
  {
    if |log| == 0 then 0.0 else f(log[0]) + Sum(log[1..], f)
  }

  /** What `reduce` computes from a starting value `acc` is `acc` plus the sum
      of the entries' values. */
  lemma {:induction false} ReduceIsSum(log: seq<LogEntry>, acc: real, f: LogEntry -> real)
    ensures Reduce(log, acc, f) == acc + Sum(log, f)
    decreases |log|
  {
    if |log| > 0 {
      ReduceIsSum(log[1..], acc + f(log[0]), f);
    }
  }

  /** The sum over a concatenation is the sum of the sums. */
  lemma {:induction false} SumAppend(a: seq<LogEntry>, b: seq<LogEntry>, f: LogEntry -> real)
    ensures Sum(a + b, f) == Sum(a, f) + Sum(b, f)
    decreases |a|
  {
    if |a| == 0 {
      assert a + b == b;
    } else {
      assert (a + b)[1..] == a[1..] + b;
      SumAppend(a[1..], b, f);
    }
  }

  /** `item.calories`: no fallback for an absent value. */
  function Calories(e: LogEntry): real {
    e.data.calories
  }

  /** `item.protein || 0`. */
  function Protein(e: LogEntry): real {
    e.data.protein.GetOr(0.0)
  }

  /** `item.carbohydrates || 0`. */
  function Carbs(e: LogEntry): real {
    e.data.carbohydrates.GetOr(0.0)
  }

  /** `item.fat || 0`. */
  function Fat(e: LogEntry): real {
    e.data.fat.GetOr(0.0)
  }

  /** The four figures of the totals widget. */
  datatype Summary = Summary(calories: real, protein: real, carbs: real, fat: real) {

    /** Component-wise sum. */
    function Plus(other: Summary): Summary {
      Summary(calories + other.calories, protein + other.protein,
              carbs + other.carbs, fat + other.fat)
    }
  }

  const Zero := Summary(0.0, 0.0, 0.0, 0.0)

  /** One entry's contribution to each of the four totals: a present value
      counts as it is, an absent protein, carbohydrate or fat value as 0. */
  function Contribution(e: LogEntry): (c: Summary)
    ensures e.data.protein.Some? ==> c.protein == e.data.protein.value
    ensures e.data.protein.None? ==> c.protein == 0.0
    ensures e.data.carbohydrates.Some? ==> c.carbs == e.data.carbohydrates.value
    ensures e.data.carbohydrates.None? ==> c.carbs == 0.0
    ensures e.data.fat.Some? ==> c.fat == e.data.fat.value
    ensures e.data.fat.None? ==> c.fat == 0.0
    ensures c.calories == e.data.calories
  {
    Summary(Calories(e), Protein(e), Carbs(e), Fat(e))
  }

  /** `totalCalories`, `totalProtein`, `totalCarbs` and `totalFat`, each a
      `reduce` starting from 0. */
  function DailyTotals(log: seq<LogEntry>): Summary {
    Summary(Reduce(log, 0.0, Calories), Reduce(log, 0.0, Protein),
            Reduce(log, 0.0, Carbs), Reduce(log, 0.0, Fat))
  }

  /** The totals are the entry-by-entry sums of the contributions. */
  lemma DailyTotalsAreSums(log: seq<LogEntry>)
    ensures DailyTotals(log) == Summary(Sum(log, Calories), Sum(log, Protein),
                                        Sum(log, Carbs), Sum(log, Fat))
  {
    ReduceIsSum(log, 0.0, Calories);
    ReduceIsSum(log, 0.0, Protein);
    ReduceIsSum(log, 0.0, Carbs);
    ReduceIsSum(log, 0.0, Fat);
  }

  /** Every total of the empty log is 0. */
  lemma DailyTotalsEmpty()
    ensures DailyTotals([]) == Zero
  {
  }

  /** Prepending an entry adds exactly its contribution to each total. */
  lemma DailyTotalsPrepend(e: LogEntry, log: seq<LogEntry>)
    ensures DailyTotals([e] + log) == Contribution(e).Plus(DailyTotals(log))
  {
    DailyTotalsAreSums([e] + log);
    DailyTotalsAreSums(log);
    assert ([e] + log)[1..] == log;
  }

  /** One `reduce` from 0 over a concatenation is the sum of the two parts'
      reductions. */
  lemma ReduceAppend(a: seq<LogEntry>, b: seq<LogEntry>, f: LogEntry -> real)
    ensures Reduce(a + b, 0.0, f) == Reduce(a, 0.0, f) + Reduce(b, 0.0, f)
  {
    ReduceIsSum(a + b, 0.0, f);
    ReduceIsSum(a, 0.0, f);
    ReduceIsSum(b, 0.0, f);
    SumAppend(a, b, f);
  }

  /** The totals of a concatenation are the sums of the parts' totals. */
  lemma DailyTotalsAppend(a: seq<LogEntry>, b: seq<LogEntry>)
    ensures DailyTotals(a + b).calories == DailyTotals(a).calories + DailyTotals(b).calories
    ensures DailyTotals(a + b).protein == DailyTotals(a).protein + DailyTotals(b).protein
    ensures DailyTotals(a + b).carbs == DailyTotals(a).carbs + DailyTotals(b).carbs
    ensures DailyTotals(a + b).fat == DailyTotals(a).fat + DailyTotals(b).fat
  {
    ReduceAppend(a, b, Calories);
    ReduceAppend(a, b, Protein);
    ReduceAppend(a, b, Carbs);
    ReduceAppend(a, b, Fat);
  }

  /** Per figure: the sum over the surviving entries plus the sum over the
      removed ones is the sum over the whole log. */
  lemma {:induction false} SumRemove(log: seq<LogEntry>, id: string, f: LogEntry -> real)
    ensures Sum(DailyLog.RemoveId(log, id), f) + Sum(DailyLog.KeepId(log, id), f) == Sum(log, f)
    decreases |log|
  {
    if |log| > 0 {
      var e := log[0];
      var tail := log[1..];
      SumRemove(tail, id, f);
      if e.id == id {
        assert DailyLog.KeepId(log, id) == [e] + DailyLog.KeepId(tail, id);
        assert ([e] + DailyLog.KeepId(tail, id))[1..] == DailyLog.KeepId(tail, id);
        assert DailyLog.RemoveId(log, id) == DailyLog.RemoveId(tail, id);
      } else {
        assert DailyLog.RemoveId(log, id) == [e] + DailyLog.RemoveId(tail, id);
        assert ([e] + DailyLog.RemoveId(tail, id))[1..] == DailyLog.RemoveId(tail, id);
        assert DailyLog.KeepId(log, id) == DailyLog.KeepId(tail, id);
      }
    }
  }

  /** `SumRemove` restated for one `reduce` from 0. */
  lemma ReduceRemove(log: seq<LogEntry>, id: string, f: LogEntry -> real)
    ensures Reduce(DailyLog.RemoveId(log, id), 0.0, f) + Reduce(DailyLog.KeepId(log, id), 0.0, f)
         == Reduce(log, 0.0, f)
  {
    ReduceIsSum(DailyLog.RemoveId(log, id), 0.0, f);
    ReduceIsSum(DailyLog.KeepId(log, id), 0.0, f);
    ReduceIsSum(log, 0.0, f);
    SumRemove(log, id, f);
  }

  /** Each of the four figures of `whole` is the sum of that figure in the
      two parts. */
  predicate SplitsInto(whole: Summary, part1: Summary, part2: Summary) {
    && part1.calories + part2.calories == whole.calories
    && part1.protein + part2.protein == whole.protein
    && part1.carbs + part2.carbs == whole.carbs
    && part1.fat + part2.fat == whole.fat
  }

  /** Removing an identifier subtracts exactly the contributions of the
      entries that carried it: the remaining totals plus the removed totals are
      the old totals. */
  lemma DailyTotalsRemove(log: seq<LogEntry>, id: string)
    ensures SplitsInto(DailyTotals(log), DailyTotals(DailyLog.RemoveId(log, id)),
                       DailyTotals(DailyLog.KeepId(log, id)))
  {
    ReduceRemove(log, id, Calories);
    ReduceRemove(log, id, Protein);
    ReduceRemove(log, id, Carbs);
    ReduceRemove(log, id, Fat);
  }

  /** The four figures the totals add up are non-negative where present. */
  predicate NonNegativeFigures(d: NutritionData) {
    d.calories >= 0.0 && NonNegativeOpt(d.protein) && NonNegativeOpt(d.carbohydrates)
    && NonNegativeOpt(d.fat)
  }

  /** With no negative figure in the log, no total is negative. */
  lemma {:induction false} DailyTotalsNonNegative(log: seq<LogEntry>)
    requires forall i :: 0 <= i < |log| ==> NonNegativeFigures(log[i].data)
    ensures var t := DailyTotals(log);
      t.calories >= 0.0 && t.protein >= 0.0 && t.carbs >= 0.0 && t.fat >= 0.0
    decreases |log|
  {
    if |log| > 0 {
      assert log == [log[0]] + log[1..];
      DailyTotalsPrepend(log[0], log[1..]);
      DailyTotalsNonNegative(log[1..]);
    }
  }
}
