/**
 * The status badge both forms draw in their header: its colour classes
 * (getStateColor) and its label, the state text with the first letter in upper case.
 * Both are given over whatever value the component bound to `state`.
 */
module StateBadge {
  import opened Wrappers
  import opened Lifecycle
  import opened ContextBinding
  import CampaignTypes
  import WorkflowTypes

  const GreyBadge := "bg-gray-100 text-gray-700"
  const BlueBadge := "bg-blue-100 text-blue-700"
  const GreenBadge := "bg-green-100 text-green-700"
  const RedBadge := "bg-red-100 text-red-700"

  /** The colour each phase is meant to get. */
  function PhaseColor(p: Phase): string
  {
    match p
    case Idle => GreyBadge
    case Running => BlueBadge
    case Done => GreenBadge
    case Error => RedBadge
  }

  /** getStateColor: a `switch` on `===` against the four literals, grey by default. */
  function StateColor(v: JsValue): (c: string)
    ensures !v.JsString? ==> c == GreyBadge
  {
    if StrictEquals(v, "idle") then GreyBadge
    else if StrictEquals(v, "running") then BlueBadge
    else if StrictEquals(v, "done") then GreenBadge
    else if StrictEquals(v, "error") then RedBadge
    else GreyBadge
  }

  /** Given a phase literal, getStateColor picks that phase's colour. */
  lemma StateColorOfPhase(p: Phase)
    ensures StateColor(JsString(PhaseLiteral(p))) == PhaseColor(p)
  {
  }

  /** Different phases get different colours. */
  lemma PhaseColorInjective(p: Phase, q: Phase)
    ensures PhaseColor(p) == PhaseColor(q) <==> p == q
  {
    if p != q {
      assert PhaseColor(p)[5] != PhaseColor(q)[5];
    }
  }

  /** As written, the badge of either form is grey whatever the phase. */
  lemma StateColorAsWrittenIsGrey(c: CampaignTypes.CampaignState, w: WorkflowTypes.WorkflowState)
    ensures StateColor(CampaignBindingAsWritten(c, "state")) == GreyBadge
    ensures StateColor(WorkflowBindingAsWritten(w, "state")) == GreyBadge
  {
  }

  /** `String.prototype.toUpperCase` on one character, for the ASCII letters. */
  function UpperAscii(ch: char): (u: char)
    ensures 'a' <= ch <= 'z' ==> 'A' <= u <= 'Z' && u as int == ch as int - 32
    ensures !('a' <= ch <= 'z') ==> u == ch
  {
    if 'a' <= ch <= 'z' then (ch as int - 32) as char else ch
  }

  /** `s.charAt(0).toUpperCase() + s.slice(1)` */
  function Capitalize(s: string): (r: string)
    ensures |r| == |s|
    ensures s != [] ==> r[0] == UpperAscii(s[0]) && r[1..] == s[1..]
  {
    if s == [] then [] else [UpperAscii(s[0])] + s[1..]
  }

  /** The thrown value when the label is computed from something that is not a string. */
  const NotAFunction := "TypeError: state.charAt is not a function"

  /** The label: calling `charAt` on anything but a string throws. */
  function BadgeLabel(v: JsValue): (r: Result<string>)
    ensures r.Ok? <==> v.JsString?
  {
    if v.JsString? then Ok(Capitalize(v.text)) else Err(NotAFunction)
  }

  function PhaseTitle(p: Phase): string
  {
    match p
    case Idle => "Idle"
    case Running => "Running"
    case Done => "Done"
    case Error => "Error"
  }

  /** Given a phase literal, the label is the phase's name in title case. */
  lemma BadgeLabelOfPhase(p: Phase)
    ensures BadgeLabel(JsString(PhaseLiteral(p))) == Ok(PhaseTitle(p))
  {
    match p
    case Idle => assert Capitalize("idle") == "Idle";
    case Running => assert Capitalize("running") == "Running";
    case Done => assert Capitalize("done") == "Done";
    case Error => assert Capitalize("error") == "Error";
  }

  /** As written, computing either form's label throws, whatever the phase. */
  lemma BadgeLabelAsWrittenThrows(c: CampaignTypes.CampaignState, w: WorkflowTypes.WorkflowState)
    ensures BadgeLabel(CampaignBindingAsWritten(c, "state")) == Err(NotAFunction)
    ensures BadgeLabel(WorkflowBindingAsWritten(w, "state")) == Err(NotAFunction)
  {
  }
}
