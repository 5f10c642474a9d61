/**
 * The JavaScript values that a component reads out of a context, and how the
 * components bind them. `useCampaign()` and `useWorkflow()` return an object whose
 * `state` property is the reducer's whole state record; the components destructure
 * `state` (and, in two of them, `results`, `currentAgent`, `brief`) from that object
 * as if its properties were the record's fields. These functions give both the binding
 * the code performs and the one it evidently means.
 */
module ContextBinding {
  import opened Wrappers
  import opened Lifecycle
  import CampaignTypes
  import WorkflowTypes

  /** The kinds of JavaScript value the guards compare and test. */
  datatype JsValue = JsString(text: string) | JsObject | JsNull | JsUndefined

  /** `v === lit` for a string literal: only a string with the same characters is equal. */
  predicate StrictEquals(v: JsValue, lit: string)
  {
    v.JsString? && v.text == lit
  }

  /** JavaScript truthiness: objects and non-empty strings. */
  predicate Truthy(v: JsValue)
  {
    v.JsObject? || (v.JsString? && v.text != "")
  }

  /** `isDisabled = state === 'running'` of both forms, over whatever value the form bound to `state`. */
  predicate DisabledWhen(state: JsValue)
  {
    StrictEquals(state, "running")
  }

  function OptionalObject<T>(o: Option<T>): JsValue
  {
    if o.Some? then JsObject else JsNull
  }

  // ----- the campaign context -----

  /** The properties of the value `useCampaign()` returns: `state`, `dispatch`, `pollCampaignStatus`. */
  function CampaignContextProperty(name: string): (v: JsValue)
    ensures name == "state" ==> v.JsObject?
    ensures name !in {"state", "dispatch", "pollCampaignStatus"} ==> v.JsUndefined?
  {
    if name in {"state", "dispatch", "pollCampaignStatus"} then JsObject else JsUndefined
  }

  /** What `const { <name> } = useCampaign()` binds, as the components are written. */
  function CampaignBindingAsWritten(s: CampaignTypes.CampaignState, name: string): JsValue
  {
    CampaignContextProperty(name)
  }

  /** What the components mean to bind: the phase literal and the record's own fields. */
  function CampaignBinding(s: CampaignTypes.CampaignState, name: string): JsValue
  {
    if name == "state" then JsString(PhaseLiteral(s.phase))
    else if name == "results" then OptionalObject(s.results)
    else if name == "brief" then OptionalObject(s.brief)
    else if name == "currentAgent" then (if s.currentAgent.Some? then JsString(s.currentAgent.value) else JsUndefined)
    else CampaignContextProperty(name)
  }

  /** The current agent as the status display reads it: absent unless bound to a string. */
  function AgentOf(v: JsValue): Option<string>
  {
    if v.JsString? then Some(v.text) else None
  }

  // ----- the workflow context -----

  /** The properties of the value `useWorkflow()` returns: `state`, `dispatch`, `pollRunStatus`. */
  function WorkflowContextProperty(name: string): (v: JsValue)
    ensures name == "state" ==> v.JsObject?
  {
    if name in {"state", "dispatch", "pollRunStatus"} then JsObject else JsUndefined
  }

  /** What `const { <name> } = useWorkflow()` binds, as the components are written. */
  function WorkflowBindingAsWritten(s: WorkflowTypes.WorkflowState, name: string): JsValue
  {
    WorkflowContextProperty(name)
  }

  /** What the components mean to bind. */
  function WorkflowBinding(s: WorkflowTypes.WorkflowState, name: string): JsValue
  {
    if name == "state" then JsString(PhaseLiteral(s.phase))
    else if name == "results" then OptionalObject(s.results)
    else if name == "input" then OptionalObject(s.input)
    else WorkflowContextProperty(name)
  }

  /** Comparing the intended `state` binding with a phase literal is comparing phases. */
  lemma PhaseComparison(p: Phase, q: Phase)
    ensures StrictEquals(JsString(PhaseLiteral(p)), PhaseLiteral(q)) <==> p == q
  {
    PhaseLiteralInjective(p, q);
  }
}
