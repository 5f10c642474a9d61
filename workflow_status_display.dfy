/**
 * WorkflowStatusDisplay: the progress panel of a campaign. It locates the current
 * agent in its own list of steps and marks each step active, completed or pending,
 * and it is shown only once a campaign has left the idle phase.
 */
module StatusDisplay {
  import opened Wrappers
  import opened Lifecycle
  import opened CampaignTypes
  import opened ContextBinding
  import CampaignContext

  /** The component's own copy of the four steps, in the order the agents run. */
  const AgentSteps: seq<AgentStep> := [
    AgentStep("Trend Agent", "Analyzing trends..."),
    AgentStep("Audience Agent", "Modeling audience..."),
    AgentStep("Influencer Agent", "Scoring influencers..."),
    AgentStep("Performance Agent", "Forecasting performance...")
  ]

  /** `steps.findIndex(step => step.name === name)`: the first position holding the name, or -1. */
  function FindIndex(steps: seq<AgentStep>, name: string): (r: int)
    ensures -1 <= r < |steps|
    ensures r >= 0 ==> steps[r].name == name && forall k :: 0 <= k < r ==> steps[k].name != name
    ensures r == -1 <==> forall k :: 0 <= k < |steps| ==> steps[k].name != name
  {
    if steps == [] then -1
    else if steps[0].name == name then 0
    else
      var r := FindIndex(steps[1..], name);
      assert forall k :: 1 <= k < |steps| ==> steps[k] == steps[1..][k - 1];
      if r == -1 then -1 else r + 1
  }

  /** getCurrentStepIndex: -1 without a current agent (absent or empty), else its position in the steps. */
  function CurrentStepIndex(currentAgent: Option<string>): int
  {
    if currentAgent.None? || currentAgent.value == "" then -1
    else FindIndex(AgentSteps, currentAgent.value)
  }

  /** The step names are pairwise different. */
  lemma StepNamesDistinct()
    ensures forall a, b :: 0 <= a < b < |AgentSteps| ==> AgentSteps[a].name != AgentSteps[b].name
  {
    assert AgentSteps[0].name[0] == 'T' && AgentSteps[1].name[0] == 'A';
    assert AgentSteps[2].name[0] == 'I' && AgentSteps[3].name[0] == 'P';
  }

  /** A known name gives its own position; any other value gives -1. */
  lemma StepIndexOfName(currentAgent: Option<string>)
    ensures currentAgent.None? ==> CurrentStepIndex(currentAgent) == -1
    ensures forall i :: 0 <= i < |AgentSteps| ==> CurrentStepIndex(Some(AgentSteps[i].name)) == i
    ensures currentAgent.Some? && (forall i :: 0 <= i < |AgentSteps| ==> AgentSteps[i].name != currentAgent.value) ==>
      CurrentStepIndex(currentAgent) == -1
  {
    StepNamesDistinct();
    forall i | 0 <= i < |AgentSteps| ensures CurrentStepIndex(Some(AgentSteps[i].name)) == i {
      assert AgentSteps[i].name != "";
    }
  }

  /** The context's progress loop and this panel list the same agents, so every announced agent is found. */
  lemma ProgressAgentsResolve()
    ensures |CampaignContext.AgentSteps| == |AgentSteps|
    ensures forall i :: 0 <= i < |CampaignContext.AgentSteps| ==>
      CurrentStepIndex(Some(CampaignContext.AgentSteps[i].name)) == i
  {
    assert CampaignContext.AgentSteps == AgentSteps;
    StepIndexOfName(None);
  }

  /** `index === currentStepIndex` */
  predicate IsActive(index: int, current: int)
  {
    index == current
  }

  /** `currentStepIndex > index` */
  predicate IsCompleted(index: int, current: int)
  {
    current > index
  }

  /** Exactly the steps before the current one are completed, at most one step is active, and none is both. */
  lemma StepClassification(current: int)
    requires -1 <= current < |AgentSteps|
    ensures forall i, j :: 0 <= i < j < |AgentSteps| ==> !(IsActive(i, current) && IsActive(j, current))
    ensures forall i :: 0 <= i < |AgentSteps| ==> !(IsActive(i, current) && IsCompleted(i, current))
    ensures forall i :: 0 <= i < |AgentSteps| ==> (IsCompleted(i, current) <==> i < current)
    ensures current >= 0 ==> IsActive(current, current)
    ensures current == -1 ==> forall i :: 0 <= i < |AgentSteps| ==> !IsActive(i, current) && !IsCompleted(i, current)
  {
  }

  /** After the context announces agent k, steps 0..k-1 show as completed, step k as active and the rest as pending. */
  lemma ProgressAfterAnnouncement(k: int)
    requires 0 <= k < |CampaignContext.AgentSteps|
    ensures var current := CurrentStepIndex(Some(CampaignContext.AgentSteps[k].name));
      && IsActive(k, current)
      && (forall i :: 0 <= i < |AgentSteps| ==> (IsCompleted(i, current) <==> i < k))
      && (forall i :: 0 <= i < |AgentSteps| && i != k ==> !IsActive(i, current))
  {
    ProgressAgentsResolve();
  }

  /** The visibility guard over the bound value: nothing unless the state is running, done or error. */
  predicate VisibleWith(state: JsValue)
  {
    !(!StrictEquals(state, "running") && !StrictEquals(state, "done") && !StrictEquals(state, "error"))
  }

  /** As written: `state` is the context record. */
  predicate VisibleAsWritten(s: CampaignState)
  {
    VisibleWith(CampaignBindingAsWritten(s, "state"))
  }

  /** As intended: `state` is the phase. */
  predicate Visible(s: CampaignState)
  {
    VisibleWith(CampaignBinding(s, "state"))
  }

  /** As written, the panel never shows, not even while a campaign runs. */
  lemma NeverVisibleAsWritten(s: CampaignState)
    ensures !VisibleAsWritten(s)
    ensures s.phase != Idle ==> Visible(s) != VisibleAsWritten(s)
  {
    PhaseComparison(s.phase, Running);
    PhaseComparison(s.phase, Done);
    PhaseComparison(s.phase, Error);
  }

  /** As intended, the panel shows in every phase but idle. */
  lemma VisibleIffStarted(s: CampaignState)
    ensures Visible(s) <==> s.phase != Idle
  {
    PhaseComparison(s.phase, Running);
    PhaseComparison(s.phase, Done);
    PhaseComparison(s.phase, Error);
  }

  /** The step index the panel reads as written: `currentAgent` is not a property of the context value. */
  lemma StepIndexAsWritten(s: CampaignState)
    ensures CurrentStepIndex(AgentOf(CampaignBindingAsWritten(s, "currentAgent"))) == -1
    ensures CurrentStepIndex(AgentOf(CampaignBinding(s, "currentAgent"))) == CurrentStepIndex(s.currentAgent)
  {
  }

  const CaptionLimit := 60

  /** The running caption: the first 60 characters of the objectives, or a placeholder without them. */
  function RunningCaption(brief: Option<CampaignBrief>): (r: string)
    ensures brief.None? || brief.value.objectives == "" ==> r == "Processing campaign brief"
    ensures brief.Some? && brief.value.objectives != "" ==>
      && |r| >= 15 && r[..12] == "Objectives: " && r[|r| - 3..] == "..."
      && r[12..|r| - 3] <= brief.value.objectives
      && |r| - 15 == (if |brief.value.objectives| < CaptionLimit then |brief.value.objectives| else CaptionLimit)
  {
    if brief.Some? && brief.value.objectives != "" then
      var o := brief.value.objectives;
      var shown := o[..if |o| < CaptionLimit then |o| else CaptionLimit];
      var r := "Objectives: " + shown + "...";
      assert r[12..|r| - 3] == shown;
      r
    else "Processing campaign brief"
  }
}
