/** The bounded event history of every run, and the unbounded log it stands for. */
module RunStream {
  import opened Domain

  const DEFAULT_HISTORY_LIMIT := 32

  datatype StreamEvent = StreamEvent(id: int, event: Event)

  datatype CursorError = RunIDRequired | CursorInvalid | CursorExpired

  datatype Answer = Events(events: seq<StreamEvent>) | NoEvents(error: CursorError)

  /** The events of a log numbered from 1. */
  function Numbered(log: seq<Event>): (events: seq<StreamEvent>)
    ensures |events| == |log|
    ensures forall k | 0 <= k < |events| :: events[k] == StreamEvent(k + 1, log[k])
  {
    seq(|log|, k requires 0 <= k < |log| => StreamEvent(k + 1, log[k]))
  }

  function Min(a: int, b: int): int {
    if a < b then a else b
  }

  /** The part of the log a history of that limit retains. */
  function Retained(log: seq<Event>, limit: nat): seq<StreamEvent> {
    Numbered(log)[|log| - Min(|log|, limit)..]
  }

  function CutTo(events: seq<StreamEvent>, limit: nat): seq<StreamEvent> {
    if |events| > limit then events[|events| - limit..] else events
  }

  /** The answer in terms of the unbounded log: invalid beyond its end, expired when the history does
      not reach back to the cursor, and otherwise all events after the cursor. */
  function LogAnswer(log: seq<Event>, limit: nat, cursor: int): Answer
    requires cursor >= 0
  {
    if cursor > |log| then NoEvents(CursorInvalid)
    else if |log| - cursor > limit then NoEvents(CursorExpired)
    else Events(Numbered(log)[cursor..])
  }

  // ---------------------------------------------------------------- the history of one run

  class RunHistory {
    var nextID: int
    var events: seq<StreamEvent>

    /** The history is its log truncated to the limit, and knows the log's length. */
    ghost predicate Holds(log: seq<Event>, limit: nat)
      reads this
    {
      nextID == |log| + 1 && events == Retained(log, limit)
    }

    constructor ()
      ensures nextID == 1 && events == []
    {
      nextID := 1;
      events := [];
    }

    method Append(event: Event, historyLimit: nat, ghost log: seq<Event>)
      requires historyLimit >= 1 && Holds(log, historyLimit)
      modifies this
      ensures Holds(log + [event], historyLimit)
    {
      RetainedGrows(log, event, historyLimit);
      var next := StreamEvent(nextID, event);
      nextID := nextID + 1;
      events := events + [next];
      if |events| > historyLimit {
        var drop := |events| - historyLimit;
        events := events[drop..];
      }
    }

    method After(cursor: int, ghost log: seq<Event>, ghost limit: nat) returns (answer: Answer)
      requires limit >= 1 && log != [] && Holds(log, limit) && cursor >= 0
      ensures answer == LogAnswer(log, limit, cursor)
    {
      if cursor >= nextID {
        return NoEvents(CursorInvalid);
      }
      RetainedShape(log, limit);
      if |events| > 0 {
        var oldestAvailable := events[0].id - 1;
        if cursor < oldestAvailable {
          return NoEvents(CursorExpired);
        }
      }
      var start := 0;
      while start < |events| && events[start].id <= cursor
        invariant 0 <= start <= |events|
        invariant start <= cursor - (|log| - |events|)
      {
        start := start + 1;
      }
      var out: seq<StreamEvent> := [];
      for i := start to |events|
        invariant out == events[start..i]
      {
        out := out + [events[i]];
      }
      assert start == cursor - (|log| - |events|);
      answer := Events(out);
    }
  }

  // ---------------------------------------------------------------- the broker

  class Broker {
    const historyLimit: nat
    var runs: map<RunID, RunHistory>
    /** Everything ever published, by run. */
    ghost var logs: map<RunID, seq<Event>>

    ghost predicate Valid()
      reads this, runs.Values
    {
      && historyLimit >= 1
      && runs.Keys == logs.Keys
      && Separate(runs)
      && (forall r | r in runs :: runs[r].Holds(logs[r], historyLimit))
      && (forall r | r in logs :: Logged(r, logs[r]))
    }

    /** What a run's log holds: valid events of that run, and at least one. */
    static ghost predicate Logged(r: RunID, log: seq<Event>) {
      log != [] && forall k | 0 <= k < |log| :: ValidateEvent(log[k]) == {} && log[k].runID == r
    }

    static ghost predicate Separate(runs: map<RunID, RunHistory>) {
      forall r, q | r in runs && q in runs && r != q :: runs[r] != runs[q]
    }

    static ghost function LogOf(logs: map<RunID, seq<Event>>, r: RunID): seq<Event> {
      if r in logs then logs[r] else []
    }

    constructor (limit: int)
      ensures Valid() && runs == map[] && logs == map[]
      ensures historyLimit == if limit <= 0 then DEFAULT_HISTORY_LIMIT else limit
    {
      historyLimit := if limit <= 0 then DEFAULT_HISTORY_LIMIT else limit;
      runs := map[];
      logs := map[];
    }

    /** `ctxErr` is what the context's Err() answers. */
    method Publish(ctxErr: Errors, event: Event) returns (err: Errors)
      requires Valid()
      modifies this, runs.Values
      ensures Valid()
      ensures err == if ctxErr != {} then ctxErr else ValidateEvent(event)
      ensures err != {} ==> logs == old(logs)
      ensures err == {} ==> logs == old(logs)[event.runID := LogOf(old(logs), event.runID) + [event]]
      ensures forall h | h in runs.Values :: h in old(runs.Values) || fresh(h)
    {
      hide RunHistory.Holds, ValidateEvent;
      if ctxErr != {} {
        return ctxErr;
      }
      if ValidateEvent(event) != {} {
        return ValidateEvent(event);
      }
      var history := RunLocked(event.runID);
      ghost var log := LogOf(logs, event.runID);
      label Found:
      history.Append(event, historyLimit, log);
      logs := logs[event.runID := log + [event]];
      forall r | r in runs && r != event.runID
        ensures runs[r].Holds(logs[r], historyLimit)
      {
        assert runs[r] != history;
        assert old@Found(runs[r].Holds(logs[r], historyLimit));
      }
      assert Logged(event.runID, log + [event]);
      err := {};
    }

    /** The history of the run, created if there is none. */
    method RunLocked(runID: RunID) returns (history: RunHistory)
      requires Valid()
      modifies this`runs
      ensures runs == old(runs)[runID := history] && Separate(runs)
      ensures forall r | r in runs :: runs[r].Holds(LogOf(logs, r), historyLimit)
      ensures history in old(runs.Values) || fresh(history)
    {
      if runID in runs {
        return runs[runID];
      }
      history := new RunHistory();
      runs := runs[runID := history];
    }

    /** What the log of the run answers to a cursor. */
    ghost function AnswerFor(runID: RunID, cursor: int): Answer
      reads this
    {
      if runID == "" then NoEvents(RunIDRequired)
      else if cursor < 0 then NoEvents(CursorInvalid)
      else LogAnswer(LogOf(logs, runID), historyLimit, cursor)
    }

    method EventsAfter(runID: RunID, cursor: int) returns (answer: Answer)
      requires Valid()
      ensures answer == AnswerFor(runID, cursor)
    {
      if runID == "" {
        return NoEvents(RunIDRequired);
      }
      if cursor < 0 {
        return NoEvents(CursorInvalid);
      }
      if runID !in runs {
        return if cursor == 0 then Events([]) else NoEvents(CursorInvalid);
      }
      assert Logged(runID, logs[runID]);
      answer := runs[runID].After(cursor, logs[runID], historyLimit);
    }
  }

  // ---------------------------------------------------------------- laws

  /** Appending and then cutting the history is cutting the longer log. */
  lemma RetainedGrows(log: seq<Event>, event: Event, limit: nat)
    requires limit >= 1
    ensures Retained(log + [event], limit) == CutTo(Retained(log, limit) + [StreamEvent(|log| + 1, event)], limit)
  {
    assert Numbered(log + [event]) == Numbered(log) + [StreamEvent(|log| + 1, event)];
  }

  /** Retained identifiers are contiguous and end with the last one given out; there are as many as
      the limit allows. */
  lemma RetainedShape(log: seq<Event>, limit: nat)
    ensures var kept := Retained(log, limit);
      && |kept| == Min(|log|, limit)
      && forall k | 0 <= k < |kept| :: kept[k].id == |log| - |kept| + k + 1 && kept[k].event == log[kept[k].id - 1]
  {
  }

  ghost predicate Keeps(log: seq<Event>, limit: nat, id: int) {
    exists k :: 0 <= k < |Retained(log, limit)| && Retained(log, limit)[k].id == id
  }

  /** Expired if and only if some event after the cursor is not retained any more; invalid if and
      only if the cursor lies beyond the latest identifier; otherwise nothing is missing. */
  lemma AnswerMeans(log: seq<Event>, limit: nat, cursor: int)
    requires cursor >= 0
    ensures LogAnswer(log, limit, cursor) == NoEvents(CursorInvalid) <==> cursor > |log|
    ensures LogAnswer(log, limit, cursor) == NoEvents(CursorExpired) <==>
      exists id | cursor < id <= |log| :: !Keeps(log, limit, id)
    ensures LogAnswer(log, limit, cursor).Events? ==>
      var events := LogAnswer(log, limit, cursor).events;
      && |events| == |log| - cursor
      && forall k | 0 <= k < |events| :: events[k] == StreamEvent(cursor + k + 1, log[cursor + k])
  {
    RetainedShape(log, limit);
    var kept := Retained(log, limit);
    if |log| - cursor > limit {
      assert !Keeps(log, limit, cursor + 1);
    } else {
      forall id | cursor < id <= |log|
        ensures Keeps(log, limit, id)
      {
        assert kept[id - (|log| - |kept|) - 1].id == id;
      }
    }
  }
}
