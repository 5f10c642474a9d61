/**
 * WorkflowContext: the research-run lifecycle reducer, the provider that dispatches into
 * it, the delayed poll of the run status, and the 10-entry research history.
 */
module WorkflowContext {
  import opened Wrappers
  import opened Lifecycle
  import opened WorkflowTypes
  import opened History
  import opened Dispatching

  /** initialState: idle, nothing recorded. */
  const Initial: WorkflowState := WorkflowState(Idle, None, None, None, None)

  /** The research history keeps the 10 most recent results. */
  const HistoryCapacity: nat := 10

  const ExecutionFailedMessage := "Workflow execution failed"
  const UnknownErrorMessage := "Unknown error"

  /**
   * What every reachable state satisfies: idle means no run id, input, results or error (the progress
   * label is left free: a poll still in flight can announce an agent after RESET), running means a
   * run id and an input and no error, done means results and no error, error means a message.
   */
  predicate Consistent(s: WorkflowState)
  {
    && (s.phase == Idle ==> s.runId.None? && s.input.None? && s.results.None? && s.error.None?)
    && (s.phase == Running ==> s.runId.Some? && s.input.Some? && s.error.None?)
    && (s.phase == Done ==> s.results.Some? && s.error.None?)
    && (s.phase == Error ==> s.error.Some?)
  }

  /** workflowReducer */
  function Reduce(s: WorkflowState, a: WorkflowAction): (r: WorkflowState)
    ensures Consistent(s) ==> Consistent(r)
  {
    match a
    case StartRun(id, input) => s.(phase := Running, runId := Some(id), input := Some(input), error := None)
    case RunComplete(results) => s.(phase := Done, results := Some(results), error := None)
    case RunError(message) => s.(phase := Error, error := Some(message))
    case Reset => Initial
  }

  /** The state after dispatching `actions` in order, starting from `s`. */
  function RunActions(s: WorkflowState, actions: seq<WorkflowAction>): WorkflowState
  {
    Fold(Reduce, s, actions)
  }

  /** Every state reachable from initialState by dispatching actions is Consistent. */
  lemma {:induction false} ReachableIsConsistent(actions: seq<WorkflowAction>)
    ensures Consistent(RunActions(Initial, actions))
  {
    if actions != [] {
      ReachableIsConsistent(actions[..|actions| - 1]);
    }
  }

  /** RESET from any state yields exactly initialState. */
  lemma ResetRestoresInitial(s: WorkflowState)
    ensures var r := Reduce(s, Reset);
      r.phase == Idle && r.runId.None? && r.input.None? && r.results.None? && r.error.None?
  {
  }

  /** START_RUN: running, run id and input recorded, error cleared, results kept. */
  lemma StartRunEffect(s: WorkflowState, id: string, input: ResearchInput)
    ensures var r := Reduce(s, StartRun(id, input));
      r.phase == Running && r.runId == Some(id) && r.input == Some(input) && r.error.None? && r.results == s.results
  {
  }

  /** RUN_COMPLETE: done with the results, error cleared, run id and input kept. */
  lemma CompleteEffect(s: WorkflowState, results: ResearchResults)
    ensures var r := Reduce(s, RunComplete(results));
      r.phase == Done && r.results == Some(results) && r.error.None? && r.runId == s.runId && r.input == s.input
  {
  }

  /** RUN_ERROR: error with the message; results, run id and input kept. */
  lemma ErrorEffect(s: WorkflowState, message: string)
    ensures var r := Reduce(s, RunError(message));
      r.phase == Error && r.error == Some(message) && r.results == s.results && r.runId == s.runId && r.input == s.input
  {
  }

  // ----- the poll -----

  /** Everything one pollRunStatus call dispatches, given the status reply and the history slot. */
  function PollTrace(reply: StatusReply<ResearchResults>, slot: Stored<ResearchResults>): seq<WorkflowAction>
  {
    match reply
    case StatusThrew(t) => [RunError(MessageOr(t, UnknownErrorMessage))]
    case Replied(status, results) =>
      if status == Done && results.Some? then
        // saveToHistory runs inside the same try: a parse error is caught after RUN_COMPLETE
        [RunComplete(results.value)] + (if slot.Unparsable? then [RunError(slot.parseError)] else [])
      else if status == Error then [RunError(ExecutionFailedMessage)]
      else []
  }

  /** The history slot after one poll: saved to only on a done status that carries results. */
  function SlotAfterPoll(reply: StatusReply<ResearchResults>, slot: Stored<ResearchResults>): Stored<ResearchResults>
  {
    if reply.Replied? && reply.status == Done && reply.results.Some? then
      Saved(slot, reply.results.value, HistoryCapacity)
    else slot
  }

  /**
   * Where one poll leaves the state: a thrown status call or an error status ends in
   * error with the thrown or fixed message, a done status with results ends in done (or
   * in error when saving throws) holding those results and records them at the head of
   * the history, and any other reply dispatches nothing.
   */
  lemma PollOutcome(s: WorkflowState, reply: StatusReply<ResearchResults>, slot: Stored<ResearchResults>)
    ensures var r := RunActions(s, PollTrace(reply, slot));
      && r.runId == s.runId && r.input == s.input
      && match reply
        case StatusThrew(t) =>
          r.phase == Error && r.error == Some(MessageOr(t, UnknownErrorMessage)) && r.results == s.results
        case Replied(status, results) =>
          if status == Done && results.Some? then
            && r.results == results
            && (if slot.Unparsable? then r.phase == Error && r.error == Some(slot.parseError)
                else r.phase == Done && r.error.None?
                     && Listed(SlotAfterPoll(reply, slot)).value[0] == results.value)
          else if status == Error then
            r.phase == Error && r.error == Some(ExecutionFailedMessage) && r.results == s.results
          else
            PollTrace(reply, slot) == [] && r == s
  {
    var o := PollTrace(reply, slot);
    if |o| == 2 {
      assert o == [o[0], o[1]];
      FoldTwo(Reduce, s, o[0], o[1]);
    } else if |o| == 1 {
      assert o == [o[0]];
      FoldOne(Reduce, s, o[0]);
    }
  }

  /** The auto-poll effect's condition: the phase is running and the run id is truthy. */
  predicate PollGuard(s: WorkflowState)
  {
    s.phase == Running && s.runId.Some? && s.runId.value != ""
  }

  /** The effect's dependency list: it is re-evaluated only when one of these changes. */
  function PollDeps(s: WorkflowState): (Phase, Option<string>)
  {
    (s.phase, s.runId)
  }

  /** START_RUN changes the dependencies to (running, id), and the effect polls exactly when the id is not empty. */
  lemma StartSchedulesPoll(s: WorkflowState, id: string, input: ResearchInput)
    ensures PollDeps(Reduce(s, StartRun(id, input))) == (Running, Some(id))
    ensures PollGuard(Reduce(s, StartRun(id, input))) <==> id != ""
  {
  }

  /** RUN_COMPLETE, RUN_ERROR and RESET leave the running phase, so no further poll is scheduled. */
  lemma LeavingRunningStopsPolling(s: WorkflowState, a: WorkflowAction)
    requires !a.StartRun?
    ensures !PollGuard(Reduce(s, a))
  {
  }

  /**
   * A poll whose reply is neither done-with-results nor error nor a throw dispatches
   * nothing: the dependencies stay as they were and the effect does not fire again.
   */
  lemma UnfinishedPollIsNotRepeated(s: WorkflowState, reply: StatusReply<ResearchResults>, slot: Stored<ResearchResults>)
    requires reply.Replied? && !(reply.status == Done && reply.results.Some?) && reply.status != Error
    ensures PollDeps(RunActions(s, PollTrace(reply, slot))) == PollDeps(s)
    ensures PollGuard(RunActions(s, PollTrace(reply, slot))) == PollGuard(s)
  {
    PollOutcome(s, reply, slot);
  }

  /** The provider: the reducer's current state, the actions dispatched so far, and the history slot. */
  class WorkflowProvider {
    var state: WorkflowState
    var dispatched: seq<WorkflowAction>
    const history: HistoryStore<ResearchResults>

    constructor (stored: Stored<ResearchResults>)
      ensures state == Initial && dispatched == []
      ensures fresh(history) && history.capacity == HistoryCapacity && history.slot == stored
    {
      state := Initial;
      dispatched := [];
      history := new HistoryStore(HistoryCapacity, stored);
    }

    /** The delayed auto-poll effect fires for the current state. */
    predicate SchedulesPoll()
      reads this
    {
      PollGuard(state)
    }

    /** `dispatch`: run the reducer and record the action. */
    method Dispatch(a: WorkflowAction)
      modifies this
      ensures state == Reduce(old(state), a)
      ensures dispatched == old(dispatched) + [a]
    {
      state := Reduce(state, a);
      dispatched := dispatched + [a];
    }

    /** pollRunStatus: act on the status reply; a done status with results is saved after RUN_COMPLETE. */
    method PollRunStatus(reply: StatusReply<ResearchResults>)
      requires history.capacity == HistoryCapacity
      modifies this, history
      ensures dispatched == old(dispatched) + PollTrace(reply, old(history.slot))
      ensures state == RunActions(old(state), PollTrace(reply, old(history.slot)))
      ensures history.slot == SlotAfterPoll(reply, old(history.slot))
    {
      ghost var s0, slot0 := state, history.slot;
      ghost var trace := PollTrace(reply, slot0);
      match reply {
        case StatusThrew(t) =>
          Dispatch(RunError(MessageOr(t, UnknownErrorMessage)));
        case Replied(status, results) =>
          if status == Done && results.Some? {
            Dispatch(RunComplete(results.value));
            var thrown := history.Save(results.value);
            if thrown.Some? {
              Dispatch(RunError(thrown.value));
            }
          } else if status == Error {
            Dispatch(RunError(ExecutionFailedMessage));
          }
      }
      if |trace| == 2 {
        assert trace == [trace[0], trace[1]];
        FoldTwo(Reduce, s0, trace[0], trace[1]);
      } else if |trace| == 1 {
        assert trace == [trace[0]];
        FoldOne(Reduce, s0, trace[0]);
      }
    }
  }
}
