/** The records exchanged by the metering core. Optional fields of the
    original records are `Option`s; JavaScript numbers are `real` for money
    and token counts and `int` for millisecond times. */
module Types {
  import opened Wrappers

  /** Price of one model, in US dollars per million tokens. */
  datatype ModelPricing = ModelPricing(inputPerMillionUsd: real, outputPerMillionUsd: real)

  type PricingCatalog = map<string, ModelPricing>

  datatype ScopeBy = Global | User | Feature | UserFeature

  datatype BudgetRule = BudgetRule(
    id: Option<string>,
    limitUsd: real,
    windowMs: int,
    model: Option<string>,
    userId: Option<string>,
    feature: Option<string>,
    scopeBy: Option<ScopeBy>,
    killSwitch: Option<bool>)

  datatype TrackRequest = TrackRequest(
    model: string,
    inputTokens: real,
    outputTokens: real,
    userId: Option<string>,
    feature: Option<string>,
    timestamp: Option<int>)

  datatype UsageEvent = UsageEvent(
    model: string,
    inputTokens: real,
    outputTokens: real,
    userId: Option<string>,
    feature: Option<string>,
    timestamp: int,
    costUsd: real,
    createdAt: int)

  /** A usage query; the ledger ignores `windowMs`, which only the guard's
      `getUsage` resolves into `since`. */
  datatype UsageFilter = UsageFilter(
    model: Option<string>,
    userId: Option<string>,
    feature: Option<string>,
    since: Option<int>,
    until: Option<int>,
    windowMs: Option<int>)

  type StorageQuery = UsageFilter

  const NoFilter := UsageFilter(None, None, None, None, None, None)

  datatype UsageSummary = UsageSummary(
    totalSpendUsd: real,
    totalCalls: nat,
    totalInputTokens: real,
    totalOutputTokens: real,
    byModel: map<string, real>,
    byUser: map<string, real>,
    byFeature: map<string, real>)

  datatype BudgetAlert = BudgetAlert(
    rule: BudgetRule,
    thresholdPercent: int,
    usageUsd: real,
    limitUsd: real,
    scopeKey: string)

  datatype BudgetKillEvent = BudgetKillEvent(
    rule: BudgetRule,
    usageUsd: real,
    limitUsd: real,
    scopeKey: string)

  datatype TrackResult = TrackResult(event: UsageEvent, alerts: seq<BudgetAlert>, killTriggered: bool)

  datatype UnknownModelPolicy = Error | Zero

  /** The two exceptions `track` can throw. */
  datatype GuardError =
    | UnknownModelPricingError(model: string)
    | BudgetExceededError(event: BudgetKillEvent)

  datatype GuardConfig = GuardConfig(
    budgets: seq<BudgetRule>,
    pricing: Option<PricingCatalog>,
    throwOnKill: Option<bool>,
    onUnknownModel: Option<UnknownModelPolicy>)

  /** Static attribution given to `wrap`, or returned by its metadata extractor. */
  datatype Attribution = Attribution(userId: Option<string>, feature: Option<string>)
}
