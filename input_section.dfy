/**
 * InputSection: validation of the research query and the submit handler that
 * starts a research run.
 */
module InputComponent {
  import opened Wrappers
  import opened Lifecycle
  import opened Text
  import opened WorkflowTypes
  import opened ContextBinding
  import opened FieldRules

  const DefaultScope := "Market Analysis"
  const DefaultDepth := "Standard"
  const StartFailedMessage := "Failed to start workflow"

  const QueryMin: nat := 10
  const QueryMax: nat := 500

  /** The messages validate can record under the error record's one key, `query`. */
  datatype QueryMessage = QueryRequired | QueryTooShort | QueryTooLong

  function MessageText(m: QueryMessage): string
  {
    match m
    case QueryRequired => "Query is required"
    case QueryTooShort => "Query must be at least 10 characters"
    case QueryTooLong => "Query must not exceed 500 characters"
  }

  const QueryMessages := TextMessages(QueryRequired, QueryTooShort, QueryTooLong)

  /**
   * validate: record the query's first broken rule, if any, and report whether the
   * error record stayed empty. The record `{ query?: string }` is `None` when empty.
   */
  method Validate(query: string) returns (error: Option<QueryMessage>, ok: bool)
    ensures error == TextFieldError(query, QueryMin, QueryMax, QueryMessages)
    ensures ok <==> error.None?
    ensures ok <==> TextAccepted(query, QueryMin, QueryMax)
  {
    error := None;
    var trimmed := Trim(query);
    if trimmed == "" {
      error := Some(QueryRequired);
    } else if |trimmed| < QueryMin {
      error := Some(QueryTooShort);
    } else if |query| > QueryMax {
      error := Some(QueryTooLong);
    }
    ok := error.None?;
    TextFieldErrorRules(query, QueryMin, QueryMax, QueryMessages);
  }

  /** isDisabled as written: `state` is the whole context record. */
  predicate IsDisabledAsWritten(s: WorkflowState)
  {
    DisabledWhen(WorkflowBindingAsWritten(s, "state"))
  }

  /** isDisabled as intended: `state` is the phase. */
  predicate IsDisabled(s: WorkflowState)
  {
    DisabledWhen(WorkflowBinding(s, "state"))
  }

  /** As written, the query form is never disabled, not even while a run is in progress. */
  lemma NeverDisabledAsWritten(s: WorkflowState)
    ensures !IsDisabledAsWritten(s)
    ensures s.phase == Running ==> IsDisabled(s) != IsDisabledAsWritten(s)
  {
    PhaseComparison(s.phase, Running);
  }

  /** As intended, the query form is disabled exactly while a run is in progress. */
  lemma DisabledIffRunning(s: WorkflowState)
    ensures IsDisabled(s) <==> s.phase == Running
  {
    PhaseComparison(s.phase, Running);
  }

  /** The component's `useState` variables. */
  class InputSection {
    var query: string
    var scope: string
    var depth: string
    var errors: Option<QueryMessage>

    function Input(): ResearchInput
      reads this
    {
      ResearchInput(query, scope, depth)
    }

    constructor ()
      ensures Input() == ResearchInput("", DefaultScope, DefaultDepth) && errors.None?
    {
      query, scope, depth := "", DefaultScope, DefaultDepth;
      errors := None;
    }

    /**
     * handleSubmit: validate; when valid, call the start service (whose answer is
     * `reply`) and dispatch START_RUN and clear the form, or dispatch RUN_ERROR if the
     * call throws. `called` says whether the service was called.
     */
    method HandleSubmit(reply: StartReply) returns (called: bool, dispatched: Option<WorkflowAction>)
      modifies this
      ensures errors == TextFieldError(old(query), QueryMin, QueryMax, QueryMessages)
      ensures called <==> TextAccepted(old(query), QueryMin, QueryMax)
      ensures !called ==> dispatched.None? && Input() == old(Input())
      ensures called && reply.Started? ==>
        dispatched == Some(StartRun(reply.id, old(Input()))) && Input() == ResearchInput("", DefaultScope, DefaultDepth)
      ensures called && reply.StartThrew? ==>
        dispatched == Some(RunError(MessageOr(reply.thrown, StartFailedMessage))) && Input() == old(Input())
    {
      var ok;
      errors, ok := Validate(query);
      if !ok {
        return false, None;
      }
      called := true;
      match reply {
        case Started(id) =>
          dispatched := Some(StartRun(id, ResearchInput(query, scope, depth)));
          query, scope, depth := "", DefaultScope, DefaultDepth;
        case StartThrew(t) =>
          dispatched := Some(RunError(MessageOr(t, StartFailedMessage)));
      }
    }
  }
}
