/**
 * CampaignBriefForm: validation of the campaign brief, the KPI and platform
 * checkbox toggles, and the submit handler that starts a campaign.
 */
module BriefFormComponent {
  import opened Wrappers
  import opened Lifecycle
  import opened Text
  import opened CampaignTypes
  import opened ContextBinding
  import opened FieldRules

  const DefaultScope := "Market Analysis"
  const DefaultDepth := "Standard"
  const StartFailedMessage := "Failed to start campaign planning"

  const ObjectivesMin: nat := 20
  const ObjectivesMax: nat := 1000
  const AudienceMin: nat := 10
  const AudienceMax: nat := 500

  /** The form's state variables, as `useState` holds them. */
  datatype FormFields = FormFields(
    objectives: string,
    targetAudience: string,
    budget: string,
    kpis: seq<string>,
    platforms: seq<string>,
    scope: string,
    depth: string)

  /** The fields as they are on first render and after a successful submit. */
  const EmptyForm := FormFields("", "", "", [], [], DefaultScope, DefaultDepth)

  // ----- validation -----

  /** The keys of the error record: "objectives", "targetAudience", "budget", "kpis", "platforms". */
  datatype Field = Objectives | TargetAudience | Budget | Kpis | Platforms

  /** The messages validate can record; MessageText gives the text shown under the field. */
  datatype Message =
    | ObjectivesRequired | ObjectivesTooShort | ObjectivesTooLong
    | AudienceRequired | AudienceTooShort | AudienceTooLong
    | BudgetNotPositive | NoKpiSelected | NoPlatformSelected

  function MessageText(m: Message): string
  {
    match m
    case ObjectivesRequired => "Objectives are required"
    case ObjectivesTooShort => "Objectives must be at least 20 characters"
    case ObjectivesTooLong => "Objectives must not exceed 1000 characters"
    case AudienceRequired => "Target audience is required"
    case AudienceTooShort => "Target audience must be at least 10 characters"
    case AudienceTooLong => "Target audience must not exceed 500 characters"
    case BudgetNotPositive => "Budget must be a positive number"
    case NoKpiSelected => "At least one KPI must be selected"
    case NoPlatformSelected => "At least one platform must be selected"
  }

  const ObjectivesMessages := TextMessages(ObjectivesRequired, ObjectivesTooShort, ObjectivesTooLong)
  const AudienceMessages := TextMessages(AudienceRequired, AudienceTooShort, AudienceTooLong)

  /** The five conditions a brief must meet to be submitted. */
  predicate BriefIsValid(f: FormFields, parsedBudget: Number)
  {
    && TextAccepted(f.objectives, ObjectivesMin, ObjectivesMax)
    && TextAccepted(f.targetAudience, AudienceMin, AudienceMax)
    && (f.budget == "" || !AtMostZero(parsedBudget))
    && |f.kpis| > 0
    && |f.platforms| > 0
  }

  function Lookup(errors: map<Field, Message>, key: Field): Option<Message>
  {
    if key in errors then Some(errors[key]) else None
  }

  /** `errors` holds, per field, exactly the error that field's rule gives, and nothing else. */
  predicate DescribesErrors(errors: map<Field, Message>, f: FormFields, parsedBudget: Number)
  {
    && Lookup(errors, Objectives) == TextFieldError(f.objectives, ObjectivesMin, ObjectivesMax, ObjectivesMessages)
    && Lookup(errors, TargetAudience) == TextFieldError(f.targetAudience, AudienceMin, AudienceMax, AudienceMessages)
    && Lookup(errors, Budget) == (if f.budget != "" && AtMostZero(parsedBudget) then Some(BudgetNotPositive) else None)
    && Lookup(errors, Kpis) == (if |f.kpis| == 0 then Some(NoKpiSelected) else None)
    && Lookup(errors, Platforms) == (if |f.platforms| == 0 then Some(NoPlatformSelected) else None)
  }

  /** One `if / else if / else if` block of validate: record the field's first broken rule, if any. */
  method CheckTextField(errors: map<Field, Message>, key: Field, value: string, min: nat, max: nat, m: TextMessages<Message>)
    returns (updated: map<Field, Message>)
    ensures TextFieldError(value, min, max, m).None? ==> updated == errors
    ensures TextFieldError(value, min, max, m).Some? ==> updated == errors[key := TextFieldError(value, min, max, m).value]
  {
    updated := errors;
    var trimmed := Trim(value);
    if trimmed == "" {
      updated := updated[key := m.required];
    } else if |trimmed| < min {
      updated := updated[key := m.tooShort];
    } else if |value| > max {
      updated := updated[key := m.tooLong];
    }
  }

  /**
   * validate: fill the error record field by field, then report whether it stayed
   * empty. `parsedBudget` is what `parseFloat(budget)` gives.
   */
  method Validate(f: FormFields, parsedBudget: Number) returns (errors: map<Field, Message>, ok: bool)
    ensures DescribesErrors(errors, f, parsedBudget)
    ensures ok <==> errors == map[]
    ensures ok <==> BriefIsValid(f, parsedBudget)
  {
    errors := map[];
    errors := CheckTextField(errors, Objectives, f.objectives, ObjectivesMin, ObjectivesMax, ObjectivesMessages);
    errors := CheckTextField(errors, TargetAudience, f.targetAudience, AudienceMin, AudienceMax, AudienceMessages);
    if f.budget != "" && AtMostZero(parsedBudget) {
      errors := errors[Budget := BudgetNotPositive];
    }
    if |f.kpis| == 0 {
      errors := errors[Kpis := NoKpiSelected];
    }
    if |f.platforms| == 0 {
      errors := errors[Platforms := NoPlatformSelected];
    }
    ok := |errors.Keys| == 0;
    NoKeysIffEmpty(errors);
    NoErrorsIffValid(errors, f, parsedBudget);
  }

  /** An error record that describes the form is empty exactly when the brief is valid. */
  lemma NoErrorsIffValid(errors: map<Field, Message>, f: FormFields, parsedBudget: Number)
    requires DescribesErrors(errors, f, parsedBudget)
    ensures errors == map[] <==> BriefIsValid(f, parsedBudget)
  {
    TextFieldErrorRules(f.objectives, ObjectivesMin, ObjectivesMax, ObjectivesMessages);
    TextFieldErrorRules(f.targetAudience, AudienceMin, AudienceMax, AudienceMessages);
    NoErrorsIffNoLookups(errors);
  }

  /** A record is empty exactly when none of the five fields has an entry. */
  lemma NoErrorsIffNoLookups(errors: map<Field, Message>)
    ensures errors == map[] <==>
      && Lookup(errors, Objectives) == None && Lookup(errors, TargetAudience) == None
      && Lookup(errors, Budget) == None && Lookup(errors, Kpis) == None && Lookup(errors, Platforms) == None
  {
    if errors != map[] {
      var k :| k in errors;
      assert Lookup(errors, k).Some?;
      match k {
        case Objectives =>
        case TargetAudience =>
        case Budget =>
        case Kpis =>
        case Platforms =>
      }
    }
  }

  /** `Object.keys(m).length === 0` holds exactly for the empty record. */
  lemma NoKeysIffEmpty(m: map<Field, Message>)
    ensures |m.Keys| == 0 <==> m == map[]
  {
    if m != map[] {
      var k :| k in m;
      assert k in m.Keys;
    }
  }

  /** The brief built from the fields: the budget is absent exactly when the budget text is empty. */
  function BriefOf(f: FormFields, parsedBudget: Number): (b: CampaignBrief)
    ensures b.budget.None? <==> f.budget == ""
    ensures b.objectives == f.objectives && b.targetAudience == f.targetAudience
    ensures b.kpis == f.kpis && b.platforms == f.platforms && b.scope == f.scope && b.depth == f.depth
  {
    CampaignBrief(f.objectives, f.targetAudience, if f.budget != "" then Some(parsedBudget) else None,
                  f.kpis, f.platforms, f.scope, f.depth)
  }

  // ----- the checkbox toggles -----

  /** `list.filter(k => k !== x)` */
  function Without(list: seq<string>, x: string): (r: seq<string>)
    ensures multiset(r) == multiset(list)[x := 0]
    ensures x !in r
  {
    if list == [] then []
    else
      var rest := Without(list[1..], x);
      assert list == [list[0]] + list[1..];
      if list[0] == x then rest else [list[0]] + rest
  }

  /** Filtering keeps the order: it distributes over concatenation. */
  lemma {:induction false} WithoutConcat(a: seq<string>, b: seq<string>, x: string)
    ensures Without(a + b, x) == Without(a, x) + Without(b, x)
  {
    if a != [] {
      WithoutConcat(a[1..], b, x);
      assert (a + b)[1..] == a[1..] + b;
    } else {
      assert a + b == b;
    }
  }

  lemma {:induction false} WithoutAbsent(list: seq<string>, x: string)
    requires x !in list
    ensures Without(list, x) == list
  {
    if list != [] {
      WithoutAbsent(list[1..], x);
    }
  }

  /** handleKpiChange / handlePlatformChange: remove every occurrence of a present item, append an absent one. */
  function Toggle(list: seq<string>, x: string): (r: seq<string>)
    ensures x in r <==> x !in list
    ensures forall y :: y != x ==> (y in r <==> y in list)
  {
    if x in list then
      var r := Without(list, x);
      assert forall y :: y in r <==> y in multiset(r);
      r
    else
      var r := list + [x];
      assert forall y :: y in r <==> y in list || y == x;
      r
  }

  /** Toggling an absent item twice gives back the original list. */
  lemma ToggleTwiceRestores(list: seq<string>, x: string)
    requires x !in list
    ensures Toggle(Toggle(list, x), x) == list
  {
    WithoutConcat(list, [x], x);
    WithoutAbsent(list, x);
  }

  /** Toggling a present item twice moves it to the end, after the other items in their order. */
  lemma ToggleTwiceMovesToEnd(list: seq<string>, x: string)
    requires x in list
    ensures Toggle(Toggle(list, x), x) == Without(list, x) + [x]
  {
  }

  predicate Distinct(list: seq<string>)
  {
    forall i, j :: 0 <= i < j < |list| ==> list[i] != list[j]
  }

  /** Toggles alone never put the same option into the list twice. */
  lemma ToggleKeepsDistinct(list: seq<string>, x: string)
    requires Distinct(list)
    ensures Distinct(Toggle(list, x))
  {
    if x in list {
      WithoutSublist(list, x);
    }
  }

  /** Every pair of items of the filtered list comes from a pair of items of the list in the same order. */
  lemma {:induction false} WithoutSublist(list: seq<string>, x: string)
    requires Distinct(list)
    ensures Distinct(Without(list, x))
  {
    if list != [] {
      WithoutSublist(list[1..], x);
      var rest := Without(list[1..], x);
      if list[0] != x {
        assert list[0] !in list[1..];
        assert multiset(rest)[list[0]] == 0;
        assert list[0] !in rest;
      }
    }
  }

  // ----- the component -----

  /** isDisabled as written: `state` is the whole context record. */
  predicate IsDisabledAsWritten(s: CampaignState)
  {
    DisabledWhen(CampaignBindingAsWritten(s, "state"))
  }

  /** isDisabled as intended: `state` is the phase. */
  predicate IsDisabled(s: CampaignState)
  {
    DisabledWhen(CampaignBinding(s, "state"))
  }

  /** As written, the form is never disabled, not even while a campaign is running. */
  lemma NeverDisabledAsWritten(s: CampaignState)
    ensures !IsDisabledAsWritten(s)
    ensures s.phase == Running ==> IsDisabled(s) != IsDisabledAsWritten(s)
  {
    PhaseComparison(s.phase, Running);
  }

  /** As intended, the form is disabled exactly while the phase is running. */
  lemma DisabledIffRunning(s: CampaignState)
    ensures IsDisabled(s) <==> s.phase == Running
  {
    PhaseComparison(s.phase, Running);
  }

  /** The form's `useState` variables and its error record. */
  class CampaignBriefForm {
    var objectives: string
    var targetAudience: string
    var budget: string
    var kpis: seq<string>
    var platforms: seq<string>
    var scope: string
    var depth: string
    var errors: map<Field, Message>

    function Fields(): FormFields
      reads this
    {
      FormFields(objectives, targetAudience, budget, kpis, platforms, scope, depth)
    }

    constructor ()
      ensures Fields() == EmptyForm && errors == map[]
    {
      objectives, targetAudience, budget := "", "", "";
      kpis, platforms := [], [];
      scope, depth := DefaultScope, DefaultDepth;
      errors := map[];
    }

    method HandleKpiChange(kpi: string)
      modifies this`kpis
      ensures kpis == Toggle(old(kpis), kpi)
    {
      kpis := if kpi in kpis then Without(kpis, kpi) else kpis + [kpi];
    }

    method HandlePlatformChange(platform: string)
      modifies this`platforms
      ensures platforms == Toggle(old(platforms), platform)
    {
      platforms := if platform in platforms then Without(platforms, platform) else platforms + [platform];
    }

    /**
     * handleSubmit: validate; when valid, call the start service (whose answer is
     * `reply`) and dispatch START_CAMPAIGN and clear the form, or dispatch
     * CAMPAIGN_ERROR if the call throws. `called` says whether the service was called.
     */
    method HandleSubmit(parsedBudget: Number, reply: StartReply) returns (called: bool, dispatched: Option<CampaignAction>)
      modifies this
      ensures DescribesErrors(errors, old(Fields()), parsedBudget)
      ensures called <==> BriefIsValid(old(Fields()), parsedBudget)
      ensures !called ==> dispatched.None? && Fields() == old(Fields())
      ensures called && reply.Started? ==>
        dispatched == Some(StartCampaign(reply.id, BriefOf(old(Fields()), parsedBudget))) && Fields() == EmptyForm
      ensures called && reply.StartThrew? ==>
        dispatched == Some(CampaignError(MessageOr(reply.thrown, StartFailedMessage))) && Fields() == old(Fields())
    {
      var fields := Fields();
      var newErrors, ok := Validate(fields, parsedBudget);
      errors := newErrors;
      if !ok {
        return false, None;
      }
      called := true;
      match reply {
        case Started(id) =>
          dispatched := Some(StartCampaign(id, BriefOf(fields, parsedBudget)));
          objectives, targetAudience, budget := "", "", "";
          kpis, platforms := [], [];
          scope, depth := DefaultScope, DefaultDepth;
        case StartThrew(t) =>
          dispatched := Some(CampaignError(MessageOr(t, StartFailedMessage)));
      }
    }
  }
}
