/**
 The application controller (App.tsx): the state the page keeps and the
 transitions its handlers make.

 The analysis call is not performed here. A search is one atomic transition
 that is handed the call's outcome; the identifier and the clock reading a
 commit needs are handed in as well.
 */
module App {
  import opened Types
  import Whitespace
  import DailyLog

  /** The page's state, without the presentation-only sidebar flag. */
  datatype State = State(
    query: string,
    loading: bool,
    error: Option<string>,
    currentResult: Option<NutritionData>,
    dailyLog: seq<LogEntry>
  )

  /** The state at mount, before the stored log is loaded. */
  const Initial := State("", false, None, None, [])

  /** The single message every failed analysis is reported with. */
  const FetchErrorMessage := "Could not fetch nutrition data. Please check your connection and API key."

  /** What the analysis service reports back: a record, or any failure
      (network, credential, empty or undecodable reply), all alike. */
  datatype Outcome = Success(data: NutritionData) | Failure

  /** The text input's change handler: the query becomes the typed text and
      nothing else moves. */
  function SetQuery(s: State, text: string): (r: State)
    ensures r.query == text
    ensures r.dailyLog == s.dailyLog && r.currentResult == s.currentResult
    ensures r.loading == s.loading && r.error == s.error
  {
    s.(query := text)
  }

  /** The argument of the analysis call a search issues: none for a blank
      query, otherwise the query exactly as typed (it is not trimmed). */
  function SearchRequest(s: State): (call: Option<string>)
    ensures call.None? <==> Whitespace.AllWhitespace(s.query)
    ensures call.Some? ==> call.value == s.query
  {
    if Whitespace.IsBlank(s.query) then None else Some(s.query)
  }

  /** The state while the call is outstanding: loading, with any earlier
      error cleared. */
  function BeginSearch(s: State): (r: State)
    ensures r.loading && r.error.None?
    ensures r.currentResult == s.currentResult && r.dailyLog == s.dailyLog
  {
    s.(loading := true, error := None)
  }

  /** The state once the call has settled: the record on success, the fixed
      message on failure, and loading cleared in both cases. */
  function EndSearch(s: State, outcome: Outcome): (r: State)
    ensures !r.loading
    ensures r.query == s.query && r.dailyLog == s.dailyLog
    ensures outcome.Success? ==> r.currentResult == Some(outcome.data) && r.error == s.error
    ensures outcome.Failure? ==> r.currentResult == s.currentResult && r.error == Some(FetchErrorMessage)
  {
    match outcome
    case Success(data) => s.(currentResult := Some(data), loading := false)
    case Failure => s.(error := Some(FetchErrorMessage), loading := false)
  }

  /** `handleSearch` as one step. A blank query changes nothing and issues no
      call. Otherwise a success shows the record with no error, a failure
      shows the fixed message over the previous result, and either way the
      search ends not loading, with the query and the log untouched. */
  function Submit(s: State, outcome: Outcome): (r: State)
    ensures Whitespace.AllWhitespace(s.query) ==> r == s
    ensures !Whitespace.AllWhitespace(s.query) ==>
      && !r.loading
      && r.query == s.query
      && r.dailyLog == s.dailyLog
    ensures !Whitespace.AllWhitespace(s.query) && outcome.Success? ==>
      r.currentResult == Some(outcome.data) && r.error.None?
    ensures !Whitespace.AllWhitespace(s.query) && outcome.Failure? ==>
      r.currentResult == s.currentResult && r.error == Some(FetchErrorMessage)
  {
    match SearchRequest(s)
    case None => s
    case Some(_) => EndSearch(BeginSearch(s), outcome)
  }

  /** The quantity every committed entry starts with. */
  const InitialQuantity := 1

  /** `addToLog`, with the generated identifier and the clock reading passed
      in. With no current result nothing happens. Otherwise the log grows by
      one entry at the front carrying the whole record, the given identifier
      and time and quantity 1, the older entries follow unchanged, and the
      current result and the query are cleared. */
  function Commit(s: State, id: string, timestamp: int): (r: State)
    ensures s.currentResult.None? ==> r == s
    ensures s.currentResult.Some? ==>
      && |r.dailyLog| == |s.dailyLog| + 1
      && r.dailyLog[0].data == s.currentResult.value
      && r.dailyLog[0].id == id
      && r.dailyLog[0].timestamp == timestamp
      && r.dailyLog[0].quantity == 1
      && r.dailyLog[1..] == s.dailyLog
      && r.currentResult.None?
      && r.query == ""
      && r.loading == s.loading && r.error == s.error
  {
    match s.currentResult
    case None => s
    case Some(data) =>
      var entry := LogEntry(data, id, timestamp, InitialQuantity);
      s.(dailyLog := [entry] + s.dailyLog, currentResult := None, query := "")
  }

  /** `removeFromLog`: the log loses exactly the entries carrying `id`, the
      survivors keep their order (the log is the filter `DailyLog.RemoveId`,
      whose order lemmas then apply); nothing else in the state changes. */
  function Remove(s: State, id: string): (r: State)
    ensures r.dailyLog == DailyLog.RemoveId(s.dailyLog, id)
    ensures forall e :: e in r.dailyLog <==> e in s.dailyLog && e.id != id
    ensures |r.dailyLog| == |s.dailyLog| - DailyLog.CountId(s.dailyLog, id)
    ensures !DailyLog.HasId(s.dailyLog, id) ==> r == s
    ensures r.query == s.query && r.currentResult == s.currentResult
    ensures r.loading == s.loading && r.error == s.error
  {
    DailyLog.RemoveAbsentId(s.dailyLog, id);
    s.(dailyLog := DailyLog.RemoveId(s.dailyLog, id))
  }

  /** The "Reset Session" button: the log is emptied, whatever it held. */
  function Reset(s: State): (r: State)
    ensures r.dailyLog == []
    ensures r.query == s.query && r.currentResult == s.currentResult
    ensures r.loading == s.loading && r.error == s.error
  {
    s.(dailyLog := [])
  }

  /** Removal keeps the survivors in their original order: removing from a
      log split in two is removing from each part and joining the results. */
  lemma RemoveKeepsOrder(s: State, id: string, older: seq<LogEntry>, newer: seq<LogEntry>)
    requires s.dailyLog == newer + older
    ensures Remove(s, id).dailyLog == DailyLog.RemoveId(newer, id) + DailyLog.RemoveId(older, id)
  {
    DailyLog.RemoveIdAppend(newer, older, id);
  }

  /** A failed search never disturbs the result on display. */
  lemma FailureKeepsResult(s: State)
    ensures Submit(s, Failure).currentResult == s.currentResult
    ensures Submit(s, Failure).dailyLog == s.dailyLog
  {
  }

  /** A commit whose identifier is new keeps the log's identifiers unique. */
  lemma CommitFreshKeepsUnique(s: State, id: string, timestamp: int)
    requires DailyLog.UniqueIds(s.dailyLog)
    requires !DailyLog.HasId(s.dailyLog, id)
    ensures DailyLog.UniqueIds(Commit(s, id, timestamp).dailyLog)
  {
  }

  /** Nothing in the controller prevents a repeated identifier: committing
      under any identifier already in the log produces a duplicate. */
  lemma CommitDuplicateBreaksUnique(s: State, id: string, timestamp: int)
    requires s.currentResult.Some?
    requires DailyLog.HasId(s.dailyLog, id)
    ensures !DailyLog.UniqueIds(Commit(s, id, timestamp).dailyLog)
  {
    DailyLog.UniqueIdsCons(LogEntry(s.currentResult.value, id, timestamp, InitialQuantity), s.dailyLog);
  }

  /** A blank query sends nothing and changes nothing, whatever the outcome
      would have been. */
  lemma BlankSubmitIsNoOp(s: State, outcome: Outcome, text: string)
    requires Whitespace.AllWhitespace(text)
    ensures SearchRequest(SetQuery(s, text)).None?
    ensures Submit(SetQuery(s, text), outcome) == SetQuery(s, text)
  {
  }
}
