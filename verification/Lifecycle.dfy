/** Moving a run's status in place, as the runtime does through a pointer to the state. */
module Lifecycle {
  import opened Domain

  class RunCell {
    var state: RunState

    constructor (state: RunState)
      ensures this.state == state
    {
      this.state := state;
    }
  }

  /** TransitionRunStatus: writes the status and takes it back if the suspension invariant fails. */
  method TransitionRunStatus(run: RunCell, to: RunStatus) returns (err: Errors)
    modifies run
    ensures (run.state, err) == Transition(old(run.state), to)
  {
    var from := run.state.status;
    if ValidateTransition(from, to) != {} {
      return ValidateTransition(from, to);
    }
    run.state := run.state.(status := to);
    err := ValidateSuspension(run.state);
    if err != {} {
      run.state := run.state.(status := from);
    }
  }

  /** A transition succeeds exactly along the table, into a state whose requirement fits its status;
      otherwise nothing has changed. */
  lemma TransitionLaw(state: RunState, to: RunStatus)
    ensures var (moved, err) := Transition(state, to);
      && (err == {} <==>
            && (state.status == to || AllowedEdge(state.status, to))
            && ValidateSuspension(state.(status := to)) == {})
      && moved == (if err == {} then state.(status := to) else state)
      && (err == {} && to != Suspended ==> state.pendingRequirement.None?)
      && (err == {} && IsTerminal(state.status) ==> moved == state)
  {
  }
}
