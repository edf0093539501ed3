/** The in-memory run store: optimistic versions, one entry a run. */
module Store {
  import opened Domain

  /** What Save answers for `state`; a live context is assumed. */
  function SaveErr(states: map<RunID, RunState>, state: RunState): Errors {
    if ValidateRunState(state) != {} then ValidateRunState(state)
    else if state.id !in states then if state.version != 0 then {ErrRunVersionConflict} else {}
    else if state.version != states[state.id].version then {ErrRunVersionConflict}
    else {}
  }

  /** The entry a successful Save writes. */
  function SavedState(states: map<RunID, RunState>, state: RunState): RunState {
    state.(version := if state.id in states then states[state.id].version + 1 else 1)
  }

  function LoadErr(states: map<RunID, RunState>, runID: RunID): Errors {
    if runID == "" then {ErrInvalidRunID} else if runID !in states then {ErrRunNotFound} else {}
  }

  /** normalizeCommandSaveError; Steer does not use it. */
  function NormalizeSaveErr(err: Errors): Errors {
    if ErrRunVersionConflict in err then err + {ErrCommandConflict} else err
  }

  class RunStore {
    var states: map<RunID, RunState>

    /** Every entry is a valid state under its own identifier, at version 1 or later. */
    ghost predicate Valid()
      reads this
    {
      forall id | id in states ::
        states[id].id == id && states[id].version >= 1 && ValidateRunState(states[id]) == {}
    }

    constructor ()
      ensures Valid() && states == map[]
    {
      states := map[];
    }

    /** `ctxErr` is what the context's Err() answers. */
    method Save(ctxErr: Errors, state: RunState) returns (err: Errors)
      requires Valid()
      modifies this
      ensures Valid()
      ensures err == if ctxErr != {} then ctxErr else SaveErr(old(states), state)
      ensures err != {} ==> states == old(states)
      ensures err == {} ==> states == old(states)[state.id := SavedState(old(states), state)]
      ensures err == {} ==> states[state.id].version == state.version + 1
    {
      if ctxErr != {} {
        return ctxErr;
      }
      if ValidateRunState(state) != {} {
        return ValidateRunState(state);
      }
      if state.id !in states {
        if state.version != 0 {
          return {ErrRunVersionConflict};
        }
        var next := state.(version := 1);
        states := states[state.id := next];
        return {};
      }
      var current := states[state.id];
      if state.version != current.version {
        return {ErrRunVersionConflict};
      }
      var next := state.(version := current.version + 1);
      states := states[state.id := next];
      err := {};
    }

    method Load(ctxErr: Errors, runID: RunID) returns (state: Option<RunState>, err: Errors)
      requires Valid()
      ensures err == if ctxErr != {} then ctxErr else LoadErr(states, runID)
      ensures err == {} ==> runID in states && state == Some(states[runID])
      ensures err != {} ==> state == None
    {
      if ctxErr != {} {
        return None, ctxErr;
      }
      if runID == "" {
        return None, {ErrInvalidRunID};
      }
      if runID !in states {
        return None, {ErrRunNotFound};
      }
      state, err := Some(states[runID]), {};
    }
  }
}
