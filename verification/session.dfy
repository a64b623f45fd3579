/**
 A session of the page: the controller state together with the storage slot,
 driven by a sequence of user events (App.tsx).

 The save effect runs whenever the log is replaced, so every transition that
 sets the log also overwrites the slot with it. The load effect runs once, at
 mount.
 */
module Session {
  import opened Types
  import DailyLog
  import Whitespace
  import Totals
  import Storage
  import App

  /** The user's actions, each carrying what the environment supplies: the
      typed text, the analysis outcome, or the fresh identifier and clock
      reading of a commit. */
  datatype Event =
    | Type(text: string)
    | Search(outcome: App.Outcome)
    | Add(id: string, timestamp: int)
    | RemoveEntry(id: string)
    | ResetLog

  datatype Session = Session(state: App.State, slot: Storage.Slot)

  /** The durable copy equals the log in memory. */
  predicate Mirrored(s: Session) {
    s.slot == Storage.Stored(s.state.dailyLog)
  }

  /** Mount: the load effect runs first and decodes the slot it found; the
      save effect then writes the still-initial empty log; at the next render
      the decoded log is installed and the save effect writes it back. The
      slot ends up holding the loaded log. An absent or undecodable value
      leaves the log empty, so the slot is overwritten with the empty log. */
  function Start(slot: Storage.Slot): (s: Session)
    ensures Mirrored(s)
    ensures slot.Stored? ==> s.state.dailyLog == slot.entries
    ensures !slot.Stored? ==> s.state.dailyLog == [] && s.slot == Storage.Stored([])
    ensures s.state.query == "" && s.state.currentResult.None?
    ensures !s.state.loading && s.state.error.None?
  {
    var log := Storage.Load(slot);
    Session(App.Initial.(dailyLog := log), Storage.Save(log))
  }

  /** A transition that replaces the log, followed by the save effect. */
  function Persist(st: App.State): (s: Session)
    ensures Mirrored(s) && s.state == st
  {
    Session(st, Storage.Save(st.dailyLog))
  }

  /** One event. Typing and searching leave the log, and so the slot, alone; a
      commit with no current result returns before touching the log, so
      nothing is saved either. Every other log change is saved at once. */
  function Step(s: Session, ev: Event): (r: Session)
    ensures Mirrored(s) ==> Mirrored(r)
    ensures !r.state.loading <== !s.state.loading
  {
    match ev
    case Type(text) => s.(state := App.SetQuery(s.state, text))
    case Search(outcome) => s.(state := App.Submit(s.state, outcome))
    case Add(id, timestamp) =>
      if s.state.currentResult.None? then s
      else Persist(App.Commit(s.state, id, timestamp))
    case RemoveEntry(id) => Persist(App.Remove(s.state, id))
    case ResetLog => Persist(App.Reset(s.state))
  }

  /** A sequence of events, in order. */
  function Run(s: Session, evs: seq<Event>): (r: Session)
    ensures Mirrored(s) ==> Mirrored(r)
    ensures !s.state.loading ==> !r.state.loading
    decreases |evs|
  {
    if |evs| == 0 then s else Run(Step(s, evs[0]), evs[1..])
  }

  /** After mount and any events, the slot holds the log in memory. */
  lemma MirroredAfterAnyRun(slot: Storage.Slot, evs: seq<Event>)
    ensures Mirrored(Run(Start(slot), evs))
    ensures !Run(Start(slot), evs).state.loading
  {
  }

  /** Reloading the page after any session restores the log it ended with. */
  lemma ReloadRestoresLog(slot: Storage.Slot, evs: seq<Event>)
    ensures var s := Run(Start(slot), evs);
      Start(s.slot).state.dailyLog == s.state.dailyLog
  {
  }

  /** Resetting empties the log, and the empty log is what a reload then
      finds. */
  lemma ResetIsDurable(s: Session)
    ensures Step(s, ResetLog).state.dailyLog == []
    ensures Start(Step(s, ResetLog).slot).state.dailyLog == []
  {
  }

  /** Removing an identifier filters it out of the log, and a reload then
      finds the filtered log, with no entry carrying that identifier. */
  lemma RemoveIsDurable(s: Session, id: string)
    ensures Step(s, RemoveEntry(id)).state.dailyLog == DailyLog.RemoveId(s.state.dailyLog, id)
    ensures var reloaded := Start(Step(s, RemoveEntry(id)).slot).state.dailyLog;
      reloaded == DailyLog.RemoveId(s.state.dailyLog, id) && !DailyLog.HasId(reloaded, id)
  {
  }

  /** Typing and searching leave the slot as it was. */
  lemma TypeAndSearchKeepSlot(s: Session, text: string, outcome: App.Outcome)
    ensures Step(s, Type(text)).slot == s.slot
    ensures Step(s, Search(outcome)).slot == s.slot
    ensures Step(s, Type(text)).state.query == text
  {
  }

  /** Every commit in `evs` that would add an entry uses an identifier not yet
      in the log at that point. The controller does not guarantee this; it is
      what a collision-free identifier source would provide. */
  predicate FreshCommits(s: Session, evs: seq<Event>)
    decreases |evs|
  {
    if |evs| == 0 then true
    else
      && (evs[0].Add? && s.state.currentResult.Some? ==>
            !DailyLog.HasId(s.state.dailyLog, evs[0].id))
      && FreshCommits(Step(s, evs[0]), evs[1..])
  }

  /** One event with a fresh identifier keeps identifiers unique. */
  lemma StepKeepsUnique(s: Session, ev: Event)
    requires DailyLog.UniqueIds(s.state.dailyLog)
    requires ev.Add? && s.state.currentResult.Some? ==> !DailyLog.HasId(s.state.dailyLog, ev.id)
    ensures DailyLog.UniqueIds(Step(s, ev).state.dailyLog)
  {
    match ev
    case Add(id, timestamp) =>
      if s.state.currentResult.Some? {
        App.CommitFreshKeepsUnique(s.state, id, timestamp);
      }
    case RemoveEntry(id) =>
      DailyLog.RemoveIdKeepsUnique(s.state.dailyLog, id);
    case _ =>
  }

  /** As long as every commit's identifier is fresh, the log's identifiers
      stay unique through any sequence of events. */
  lemma {:induction false} RunKeepsUnique(s: Session, evs: seq<Event>)
    requires DailyLog.UniqueIds(s.state.dailyLog)
    requires FreshCommits(s, evs)
    ensures DailyLog.UniqueIds(Run(s, evs).state.dailyLog)
    decreases |evs|
  {
    if |evs| > 0 {
      StepKeepsUnique(s, evs[0]);
      RunKeepsUnique(Step(s, evs[0]), evs[1..]);
    }
  }

  /** The worked scenario: a successful search for a non-blank query followed
      by a commit puts the record at the head of the log with quantity 1,
      clears the query, and raises every total by the record's contribution. */
  lemma SearchThenCommit(s: Session, query: string, d: NutritionData, id: string, timestamp: int)
    requires !Whitespace.AllWhitespace(query)
    ensures var r := Run(s, [Type(query), Search(App.Success(d)), Add(id, timestamp)]);
      && r.state.dailyLog == [LogEntry(d, id, timestamp, 1)] + s.state.dailyLog
      && r.state.currentResult.None?
      && r.state.query == ""
      && Totals.DailyTotals(r.state.dailyLog)
         == Totals.Contribution(LogEntry(d, id, timestamp, 1)).Plus(Totals.DailyTotals(s.state.dailyLog))
      && Totals.DailyTotals(r.state.dailyLog).calories
         == d.calories + Totals.DailyTotals(s.state.dailyLog).calories
  {
    var evs := [Type(query), Search(App.Success(d)), Add(id, timestamp)];
    var s1 := Step(s, evs[0]);
    var s2 := Step(s1, evs[1]);
    var s3 := Step(s2, evs[2]);
    assert evs[1..][1..] == [evs[2]];
    assert Run(s2, [evs[2]]) == Run(s3, []) by { assert [evs[2]][1..] == []; }
    assert Run(s, evs) == Run(s1, evs[1..]) == Run(s2, [evs[2]]);
    Totals.DailyTotalsPrepend(LogEntry(d, id, timestamp, 1), s.state.dailyLog);
  }
}
