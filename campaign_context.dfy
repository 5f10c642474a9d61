/**
 * CampaignContext: the campaign lifecycle reducer, the provider that dispatches into
 * it, the poll that reports agent progress and the final status, and the 20-entry
 * campaign history.
 */
module CampaignContext {
  import opened Wrappers
  import opened Lifecycle
  import opened CampaignTypes
  import opened History
  import opened Dispatching

  /** initialState: idle, nothing recorded. */
  const Initial: CampaignState := CampaignState(Idle, None, None, None, None, None)

  /** The campaign history keeps the 20 most recent results. */
  const HistoryCapacity: nat := 20

  const WorkflowFailedMessage := "Campaign planning workflow failed"
  const UnknownErrorMessage := "Unknown error"

  /** The stages the poll reports, in pipeline order. */
  const AgentSteps: seq<AgentStep> := [
    AgentStep("Trend Agent", "Analyzing trends..."),
    AgentStep("Audience Agent", "Modeling audience..."),
    AgentStep("Influencer Agent", "Scoring influencers..."),
    AgentStep("Performance Agent", "Forecasting performance...")
  ]

  /**
   * What every reachable state satisfies: idle means no id, brief, results or error (the progress
   * label is left free: a poll still in flight can announce an agent after RESET), running means an
   * id and a brief and no error, done means results and no error, error means a message.
   */
  predicate Consistent(s: CampaignState)
  {
    && (s.phase == Idle ==> s.campaignId.None? && s.brief.None? && s.results.None? && s.error.None?)
    && (s.phase == Running ==> s.campaignId.Some? && s.brief.Some? && s.error.None?)
    && (s.phase == Done ==> s.results.Some? && s.error.None?)
    && (s.phase == Error ==> s.error.Some?)
  }

  /** campaignReducer */
  function Reduce(s: CampaignState, a: CampaignAction): (r: CampaignState)
    ensures Consistent(s) ==> Consistent(r)
  {
    match a
    case StartCampaign(id, brief) =>
      s.(phase := Running, campaignId := Some(id), brief := Some(brief), error := None, currentAgent := None)
    case UpdateProgress(agent) =>
      s.(currentAgent := Some(agent))
    case CampaignComplete(results) =>
      s.(phase := Done, results := Some(results), error := None, currentAgent := None)
    case CampaignError(message) =>
      s.(phase := Error, error := Some(message), currentAgent := None)
    case Reset =>
      Initial
  }

  /** The state after dispatching `actions` in order, starting from `s`. */
  function RunActions(s: CampaignState, actions: seq<CampaignAction>): CampaignState
  {
    Fold(Reduce, s, actions)
  }

  /** Every state reachable from initialState by dispatching actions is Consistent. */
  lemma {:induction false} ReachableIsConsistent(actions: seq<CampaignAction>)
    ensures Consistent(RunActions(Initial, actions))
  {
    if actions != [] {
      ReachableIsConsistent(actions[..|actions| - 1]);
    }
  }

  /** RESET from any state yields exactly initialState. */
  lemma ResetRestoresInitial(s: CampaignState)
    ensures var r := Reduce(s, Reset);
      r.phase == Idle && r.campaignId.None? && r.brief.None? && r.results.None? && r.error.None? && r.currentAgent.None?
  {
  }

  /** START_CAMPAIGN: running, id and brief recorded, error and agent cleared, results kept. */
  lemma StartCampaignEffect(s: CampaignState, id: string, brief: CampaignBrief)
    ensures var r := Reduce(s, StartCampaign(id, brief));
      && r.phase == Running && r.campaignId == Some(id) && r.brief == Some(brief)
      && r.error.None? && r.currentAgent.None? && r.results == s.results
  {
  }

  /** UPDATE_PROGRESS changes the progress label and nothing else. */
  lemma UpdateProgressOnlyMovesAgent(s: CampaignState, agent: string)
    ensures var r := Reduce(s, UpdateProgress(agent));
      && r.currentAgent == Some(agent)
      && r.phase == s.phase && r.campaignId == s.campaignId && r.brief == s.brief
      && r.results == s.results && r.error == s.error
  {
  }

  /** CAMPAIGN_COMPLETE: done with the results, error and agent cleared, id and brief kept. */
  lemma CompleteEffect(s: CampaignState, results: CampaignResults)
    ensures var r := Reduce(s, CampaignComplete(results));
      && r.phase == Done && r.results == Some(results) && r.error.None? && r.currentAgent.None?
      && r.campaignId == s.campaignId && r.brief == s.brief
  {
  }

  /** CAMPAIGN_ERROR: error with the message, agent cleared, results, id and brief kept. */
  lemma ErrorEffect(s: CampaignState, message: string)
    ensures var r := Reduce(s, CampaignError(message));
      && r.phase == Error && r.error == Some(message) && r.currentAgent.None?
      && r.results == s.results && r.campaignId == s.campaignId && r.brief == s.brief
  {
  }

  /**
   * Results are not cleared by a new start: a running state can still carry the
   * previous campaign's results, so "results present" does not imply "done".
   */
  lemma RunningWithStaleResults(results: CampaignResults, id: string, brief: CampaignBrief)
    ensures var s := RunActions(Initial, [CampaignComplete(results), StartCampaign(id, brief)]);
      s.phase == Running && s.results == Some(results)
  {
    FoldTwo(Reduce, Initial, CampaignComplete(results), StartCampaign(id, brief));
  }

  // ----- the poll -----

  /** The UPDATE_PROGRESS actions of the progress loop, one per agent in order. */
  function ProgressActions(): (acts: seq<CampaignAction>)
    ensures |acts| == |AgentSteps|
    ensures forall i :: 0 <= i < |acts| ==> acts[i] == UpdateProgress(AgentSteps[i].name)
  {
    seq(|AgentSteps|, i requires 0 <= i < |AgentSteps| => UpdateProgress(AgentSteps[i].name))
  }

  /** What the poll dispatches after the progress loop, given the status reply and the history slot. */
  function Outcome(reply: StatusReply<CampaignResults>, slot: Stored<CampaignResults>): seq<CampaignAction>
  {
    match reply
    case StatusThrew(t) => [CampaignError(MessageOr(t, UnknownErrorMessage))]
    case Replied(status, results) =>
      if status == Done && results.Some? then
        // saveToHistory runs inside the same try: a parse error is caught after COMPLETE
        [CampaignComplete(results.value)] + (if slot.Unparsable? then [CampaignError(slot.parseError)] else [])
      else if status == Error then [CampaignError(WorkflowFailedMessage)]
      else []
  }

  /** The full ordered trace of one pollCampaignStatus call. */
  function PollTrace(reply: StatusReply<CampaignResults>, slot: Stored<CampaignResults>): seq<CampaignAction>
  {
    ProgressActions() + Outcome(reply, slot)
  }

  /** The history slot after one poll: saved to only on a done status that carries results. */
  function SlotAfterPoll(reply: StatusReply<CampaignResults>, slot: Stored<CampaignResults>): Stored<CampaignResults>
  {
    if reply.Replied? && reply.status == Done && reply.results.Some? then
      Saved(slot, reply.results.value, HistoryCapacity)
    else slot
  }

  /**
   * The poll trace is the four progress updates, Trend, Audience, Influencer and
   * Performance, followed by at most one terminal action, or by COMPLETE and then the
   * error that saving to an unparsable history throws.
   */
  lemma PollTraceShape(reply: StatusReply<CampaignResults>, slot: Stored<CampaignResults>)
    ensures var t := PollTrace(reply, slot);
      && 4 <= |t| <= 6
      && t[0] == UpdateProgress("Trend Agent") && t[1] == UpdateProgress("Audience Agent")
      && t[2] == UpdateProgress("Influencer Agent") && t[3] == UpdateProgress("Performance Agent")
      && (|t| == 6 <==> reply.Replied? && reply.status == Done && reply.results.Some? && slot.Unparsable?)
      && (|t| == 4 <==> reply.Replied? && !(reply.status == Done && reply.results.Some?) && reply.status != Error)
      && (forall i :: 4 <= i < |t| ==> !t[i].UpdateProgress?)
  {
  }

  /** The four progress updates only move the progress label, ending at the last agent. */
  lemma ProgressOnlyMovesAgent(s: CampaignState)
    ensures RunActions(s, ProgressActions()) == s.(currentAgent := Some("Performance Agent"))
  {
    var p := ProgressActions();
    assert p == [p[0], p[1]] + [p[2], p[3]];
    FoldConcat(Reduce, s, [p[0], p[1]], [p[2], p[3]]);
    FoldTwo(Reduce, s, p[0], p[1]);
    FoldTwo(Reduce, RunActions(s, [p[0], p[1]]), p[2], p[3]);
  }

  /**
   * Where one poll leaves the state: a thrown status call or an error status ends in
   * error with the fixed or thrown message, a done status with results ends in done
   * (or in error when saving throws) with those results, anything else leaves the phase
   * as it was. The campaign id and brief are never touched.
   */
  lemma {:induction false} PollOutcome(s: CampaignState, reply: StatusReply<CampaignResults>, slot: Stored<CampaignResults>)
    ensures var r := RunActions(s, PollTrace(reply, slot));
      && r.campaignId == s.campaignId && r.brief == s.brief
      && match reply
        case StatusThrew(t) =>
          r.phase == Error && r.error == Some(MessageOr(t, UnknownErrorMessage)) && r.results == s.results
        case Replied(status, results) =>
          if status == Done && results.Some? then
            && r.results == results
            && (if slot.Unparsable? then r.phase == Error && r.error == Some(slot.parseError)
                else r.phase == Done && r.error.None?
                     && Listed(SlotAfterPoll(reply, slot)).value[0] == results.value)
          else if status == Error then
            r.phase == Error && r.error == Some(WorkflowFailedMessage) && r.results == s.results
          else
            r == s.(currentAgent := Some("Performance Agent"))
  {
    var p := ProgressActions();
    var o := Outcome(reply, slot);
    FoldConcat(Reduce, s, p, o);
    ProgressOnlyMovesAgent(s);
    var mid := s.(currentAgent := Some("Performance Agent"));
    if |o| == 2 {
      assert o == [o[0], o[1]];
      FoldTwo(Reduce, mid, o[0], o[1]);
    } else if |o| == 1 {
      assert o == [o[0]];
      FoldOne(Reduce, mid, o[0]);
    }
  }

  /** The auto-poll effect's condition: the phase is running and the campaign id is truthy. */
  predicate PollGuard(s: CampaignState)
  {
    s.phase == Running && s.campaignId.Some? && s.campaignId.value != ""
  }

  /** The effect's dependency list: it is re-evaluated only when one of these changes. */
  function PollDeps(s: CampaignState): (Phase, Option<string>)
  {
    (s.phase, s.campaignId)
  }

  /** START_CAMPAIGN changes the dependencies to (running, id), and the effect polls exactly when the id is not empty. */
  lemma StartSchedulesPoll(s: CampaignState, id: string, brief: CampaignBrief)
    ensures PollDeps(Reduce(s, StartCampaign(id, brief))) == (Running, Some(id))
    ensures PollGuard(Reduce(s, StartCampaign(id, brief))) <==> id != ""
  {
  }

  /** COMPLETE, ERROR and RESET leave the running phase, so no further poll is scheduled. */
  lemma LeavingRunningStopsPolling(s: CampaignState, a: CampaignAction)
    requires !a.StartCampaign? && !a.UpdateProgress?
    ensures !PollGuard(Reduce(s, a))
  {
  }

  /**
   * A poll whose reply is neither done-with-results nor error nor a throw dispatches only
   * progress, which leaves the effect's dependencies as they were: the campaign stays
   * running and the effect does not fire again.
   */
  lemma UnfinishedPollIsNotRepeated(s: CampaignState, reply: StatusReply<CampaignResults>, slot: Stored<CampaignResults>)
    requires reply.Replied? && !(reply.status == Done && reply.results.Some?) && reply.status != Error
    ensures PollDeps(RunActions(s, PollTrace(reply, slot))) == PollDeps(s)
    ensures PollGuard(RunActions(s, PollTrace(reply, slot))) == PollGuard(s)
  {
    PollOutcome(s, reply, slot);
  }

  /** The provider: the reducer's current state, the actions dispatched so far, and the history slot. */
  class CampaignProvider {
    var state: CampaignState
    var dispatched: seq<CampaignAction>
    const history: HistoryStore<CampaignResults>

    constructor (stored: Stored<CampaignResults>)
      ensures state == Initial && dispatched == []
      ensures fresh(history) && history.capacity == HistoryCapacity && history.slot == stored
    {
      state := Initial;
      dispatched := [];
      history := new HistoryStore(HistoryCapacity, stored);
    }

    /** The auto-poll effect fires for the current state. */
    predicate SchedulesPoll()
      reads this
    {
      PollGuard(state)
    }

    /** `dispatch`: run the reducer and record the action. */
    method Dispatch(a: CampaignAction)
      modifies this
      ensures state == Reduce(old(state), a)
      ensures dispatched == old(dispatched) + [a]
    {
      state := Reduce(state, a);
      dispatched := dispatched + [a];
    }

    /**
     * pollCampaignStatus: report each agent in turn, then act on the status reply;
     * a done status with results is saved to the history after COMPLETE.
     */
    method PollCampaignStatus(reply: StatusReply<CampaignResults>)
      requires history.capacity == HistoryCapacity
      modifies this, history
      ensures dispatched == old(dispatched) + PollTrace(reply, old(history.slot))
      ensures state == RunActions(old(state), PollTrace(reply, old(history.slot)))
      ensures history.slot == SlotAfterPoll(reply, old(history.slot))
    {
      ghost var s0, slot0 := state, history.slot;
      ghost var progress := ProgressActions();
      for i := 0 to |AgentSteps|
        invariant dispatched == old(dispatched) + progress[..i]
        invariant state == RunActions(s0, progress[..i])
        invariant history.slot == slot0
      {
        Dispatch(UpdateProgress(AgentSteps[i].name));
        assert progress[..i + 1] == progress[..i] + [progress[i]];
        assert progress[..i + 1][..i] == progress[..i];
      }
      assert progress[..|AgentSteps|] == progress;
      ghost var mid := state;
      ghost var outcome := Outcome(reply, slot0);
      match reply {
        case StatusThrew(t) =>
          Dispatch(CampaignError(MessageOr(t, UnknownErrorMessage)));
        case Replied(status, results) =>
          if status == Done && results.Some? {
            Dispatch(CampaignComplete(results.value));
            var thrown := history.Save(results.value);
            if thrown.Some? {
              Dispatch(CampaignError(thrown.value));
              assert outcome[..1] == [CampaignComplete(results.value)];
            }
          } else if status == Error {
            Dispatch(CampaignError(WorkflowFailedMessage));
          }
      }
      assert dispatched == old(dispatched) + progress + outcome;
      assert state == RunActions(mid, outcome) by {
        if |outcome| == 2 {
          assert outcome == [outcome[0], outcome[1]];
          FoldTwo(Reduce, mid, outcome[0], outcome[1]);
        } else if |outcome| == 1 {
          assert outcome == [outcome[0]];
          FoldOne(Reduce, mid, outcome[0]);
        }
      }
      FoldConcat(Reduce, s0, progress, outcome);
    }
  }
}
