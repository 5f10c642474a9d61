/** The records and actions of the campaign-planning dashboard. */
module CampaignTypes {
  import opened Wrappers
  import opened Lifecycle

  /** A JavaScript number as `parseFloat` can produce it. */
  datatype Number = Finite(value: real) | Infinite(positive: bool) | NaN

  /** `n <= 0` under IEEE comparison: false for NaN. */
  predicate AtMostZero(n: Number)
  {
    match n
    case Finite(v) => v <= 0.0
    case Infinite(positive) => !positive
    case NaN => false
  }

  datatype CampaignBrief = CampaignBrief(
    objectives: string,
    targetAudience: string,
    budget: Option<Number>,
    kpis: seq<string>,
    platforms: seq<string>,
    scope: string,
    depth: string)

  datatype EngagementMetrics = EngagementMetrics(likes: int, comments: int, shares: int, views: int)

  datatype ConversionMetrics = ConversionMetrics(clicks: int, leads: int, sales: int)

  datatype ConfidenceIntervals = ConfidenceIntervals(p10: real, p50: real, p90: real)

  datatype ContentStrategy = ContentStrategy(format: string, messaging: string, timing: string)

  datatype Platform = Instagram | TikTok

  function PlatformName(p: Platform): string
  {
    match p
    case Instagram => "instagram"
    case TikTok => "tiktok"
  }

  datatype Recommendation = Recommendation(
    influencerId: string,
    platform: Platform,
    fitScore: int,
    confidence: real,
    rationale: string,
    predictedEngagement: EngagementMetrics,
    contentStrategy: Option<ContentStrategy>)

  datatype PerformanceForecast = PerformanceForecast(
    predictedEngagement: EngagementMetrics,
    predictedConversion: Option<ConversionMetrics>,
    predictedROI: Option<real>,
    confidenceIntervals: Option<ConfidenceIntervals>,
    riskIndicators: seq<string>)

  datatype CampaignResults = CampaignResults(
    campaignId: string,
    recommendations: seq<Recommendation>,
    performanceForecast: PerformanceForecast,
    createdAt: int,
    completedAt: int,
    duration: int)

  /** CampaignContextState; `currentAgent` is the optional progress label. */
  datatype CampaignState = CampaignState(
    phase: Phase,
    campaignId: Option<string>,
    brief: Option<CampaignBrief>,
    results: Option<CampaignResults>,
    error: Option<string>,
    currentAgent: Option<string>)

  datatype CampaignAction =
    | StartCampaign(campaignId: string, brief: CampaignBrief)
    | UpdateProgress(agent: string)
    | CampaignComplete(results: CampaignResults)
    | CampaignError(error: string)
    | Reset

  /** One entry of an `agentSteps` list: the agent's name and its progress message. */
  datatype AgentStep = AgentStep(name: string, message: string)
}
