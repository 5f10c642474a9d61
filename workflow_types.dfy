/** The records and actions of the research-workflow dashboard. */
module WorkflowTypes {
  import opened Wrappers
  import opened Lifecycle

  datatype ResearchInput = ResearchInput(query: string, scope: string, depth: string)

  datatype ResearchResults = ResearchResults(
    summary: string,
    findings: seq<string>,
    recommendations: seq<string>,
    sources: seq<string>,
    runId: string,
    timestamp: int,
    duration: int,
    query: string)

  /** WorkflowContextState */
  datatype WorkflowState = WorkflowState(
    phase: Phase,
    runId: Option<string>,
    input: Option<ResearchInput>,
    results: Option<ResearchResults>,
    error: Option<string>)

  datatype WorkflowAction =
    | StartRun(runId: string, input: ResearchInput)
    | RunComplete(results: ResearchResults)
    | RunError(error: string)
    | Reset
}
