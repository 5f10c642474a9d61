/**
 * What the campaign and research dashboards have in common: the four lifecycle
 * phases, the values a `catch` clause can receive, and the answers of the two
 * backend services, which the model treats as oracles.
 */
module Lifecycle {
  import opened Wrappers

  /** `'idle' | 'running' | 'done' | 'error'` (CampaignState and WorkflowState). */
  datatype Phase = Idle | Running | Done | Error

  /** The string literal TypeScript uses for each phase. */
  function PhaseLiteral(p: Phase): (lit: string)
    ensures |lit| >= 4
  {
    match p
    case Idle => "idle"
    case Running => "running"
    case Done => "done"
    case Error => "error"
  }

  /** The value a `catch (error)` clause receives: an `Error` object, or anything else that was thrown. */
  datatype Thrown = ErrorInstance(message: string) | NonErrorValue

  /** `error instanceof Error ? error.message : fallback` */
  function MessageOr(t: Thrown, fallback: string): string
  {
    match t
    case ErrorInstance(m) => m
    case NonErrorValue => fallback
  }

  /** What awaiting a start call (`startCampaignPlanning`, `startRun`) gives: an identifier, or a throw. */
  datatype StartReply = Started(id: string) | StartThrew(thrown: Thrown)

  /**
   * What awaiting a status call (`getCampaignStatus`, `getRunStatus`) gives: a status with
   * optional results, or a throw.
   */
  datatype StatusReply<R> = Replied(status: Phase, results: Option<R>) | StatusThrew(thrown: Thrown)

  lemma PhaseLiteralInjective(p: Phase, q: Phase)
    ensures PhaseLiteral(p) == PhaseLiteral(q) <==> p == q
  {
    if p != q {
      assert PhaseLiteral(p)[0] != PhaseLiteral(q)[0] || |PhaseLiteral(p)| != |PhaseLiteral(q)|;
    }
  }
}
