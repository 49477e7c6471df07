/** `createGuard` (src/guard.ts): the metering facade. Each `track` prices a
    call, appends it to the ledger and runs the budget rules; `getUsage`
    summarises a ledger query. The clock is a parameter of each call, and
    subscriber callbacks are identities whose deliveries a ghost trace records. */
module Guard {
  import opened Wrappers
  import opened Types
  import opened Pricing
  import opened Storage
  import opened Summary
  import opened Rules

  /** The identity of a subscribed callback. */
  type CallbackId = nat

  /** One callback invocation, in the order the guard makes them. */
  datatype Delivery =
    | AlertDelivered(callback: CallbackId, alert: BudgetAlert)
    | KillDelivered(callback: CallbackId, kill: BudgetKillEvent)

  /** `callbacks.forEach(cb => cb(alert))` for one alert. */
  function AlertToEach(callbacks: seq<CallbackId>, alert: BudgetAlert): seq<Delivery> {
    seq(|callbacks|, k requires 0 <= k < |callbacks| => AlertDelivered(callbacks[k], alert))
  }

  /** Every alert, in order, handed to every subscriber, in registration order. */
  function AlertDeliveries(callbacks: seq<CallbackId>, alerts: seq<BudgetAlert>): seq<Delivery> {
    if alerts == [] then []
    else AlertDeliveries(callbacks, alerts[..|alerts| - 1]) + AlertToEach(callbacks, alerts[|alerts| - 1])
  }

  /** The kill event, if any, handed to every kill subscriber. */
  function KillDeliveries(callbacks: seq<CallbackId>, kill: Option<BudgetKillEvent>): seq<Delivery> {
    if kill.None? then [] else seq(|callbacks|, k requires 0 <= k < |callbacks| => KillDelivered(callbacks[k], kill.value))
  }

  /** Proof helper: associativity of delivery sequences, kept as a lemma of
      its own so that EvaluateBudgets' loop does not pay for it inline. */
  lemma AppendAssociates(a: seq<Delivery>, b: seq<Delivery>, c: seq<Delivery>)
    ensures (a + b) + c == a + (b + c)
  {
  }

  /** Proof helper: appending nothing to the delivery log. */
  lemma AppendEmpty(a: seq<Delivery>)
    ensures a + [] == a
  {
  }

  lemma {:induction false} AlertDeliveriesConcat(callbacks: seq<CallbackId>, a: seq<BudgetAlert>, b: seq<BudgetAlert>)
    ensures AlertDeliveries(callbacks, a + b) == AlertDeliveries(callbacks, a) + AlertDeliveries(callbacks, b)
    decreases |b|
  {
    if b == [] {
      assert a + b == a;
    } else {
      var b', x := b[..|b| - 1], b[|b| - 1];
      assert (a + b)[..|a + b| - 1] == a + b';
      assert (a + b)[|a + b| - 1] == x;
      AlertDeliveriesConcat(callbacks, a, b');
    }
  }

  predicate NoDuplicates(s: seq<CallbackId>) {
    forall a, b :: 0 <= a < b < |s| ==> s[a] != s[b]
  }

  /** `set.add(callback)`: a JavaScript Set keeps insertion order and ignores re-adds. */
  function Register(callbacks: seq<CallbackId>, callback: CallbackId): (r: seq<CallbackId>)
    ensures callbacks <= r && callback in r
    ensures callback in callbacks ==> r == callbacks
  {
    if callback in callbacks then callbacks else callbacks + [callback]
  }

  /** `set.delete(callback)`. */
  function Unregister(callbacks: seq<CallbackId>, callback: CallbackId): (r: seq<CallbackId>)
    ensures callback !in r
    ensures forall c :: c in r <==> c in callbacks && c != callback
  {
    if callbacks == [] then []
    else
      var rest := Unregister(callbacks[..|callbacks| - 1], callback);
      var last := callbacks[|callbacks| - 1];
      assert forall c :: c in callbacks <==> c in callbacks[..|callbacks| - 1] || c == last;
      if last == callback then rest else rest + [last]
  }

  /** Unsubscribing is idempotent. */
  lemma {:induction false} UnregisterIdempotent(callbacks: seq<CallbackId>, callback: CallbackId)
    ensures Unregister(Unregister(callbacks, callback), callback) == Unregister(callbacks, callback)
  {
    UnregisterAbsent(Unregister(callbacks, callback), callback);
  }

  /** Removing a callback that is not registered changes nothing. */
  lemma {:induction false} UnregisterAbsent(callbacks: seq<CallbackId>, callback: CallbackId)
    requires callback !in callbacks
    ensures Unregister(callbacks, callback) == callbacks
  {
    if callbacks != [] {
      UnregisterAbsent(callbacks[..|callbacks| - 1], callback);
      assert callbacks[..|callbacks| - 1] + [callbacks[|callbacks| - 1]] == callbacks;
    }
  }

  /** Unsubscribing removes the callback where it stands and keeps the
      others in their registration order: it distributes over
      concatenation. */
  lemma {:induction false} UnregisterConcat(a: seq<CallbackId>, b: seq<CallbackId>, callback: CallbackId)
    ensures Unregister(a + b, callback) == Unregister(a, callback) + Unregister(b, callback)
    decreases |b|
  {
    if b == [] {
      assert a + b == a;
    } else {
      var front := b[..|b| - 1];
      var last := b[|b| - 1];
      assert (a + b)[..|a + b| - 1] == a + front;
      assert (a + b)[|a + b| - 1] == last;
      UnregisterConcat(a, front, callback);
      if last != callback {
        assert (Unregister(a, callback) + Unregister(front, callback)) + [last]
            == Unregister(a, callback) + (Unregister(front, callback) + [last]);
      }
    }
  }

  /** Subscribing a new callback and then unsubscribing it restores the
      subscriber list exactly, order included. */
  lemma SubscribeThenUnsubscribe(callbacks: seq<CallbackId>, callback: CallbackId)
    requires callback !in callbacks
    ensures Unregister(Register(callbacks, callback), callback) == callbacks
  {
    assert (callbacks + [callback])[..|callbacks|] == callbacks;
    UnregisterAbsent(callbacks, callback);
  }

  /** Registration keeps the subscriber list free of duplicates. */
  lemma RegisterKeepsNoDuplicates(callbacks: seq<CallbackId>, callback: CallbackId)
    requires NoDuplicates(callbacks)
    ensures NoDuplicates(Register(callbacks, callback))
  {
  }

  lemma {:induction false} UnregisterKeepsNoDuplicates(callbacks: seq<CallbackId>, callback: CallbackId)
    requires NoDuplicates(callbacks)
    ensures NoDuplicates(Unregister(callbacks, callback))
  {
    if callbacks != [] {
      var prefix := callbacks[..|callbacks| - 1];
      assert NoDuplicates(prefix) by {
        forall a, b | 0 <= a < b < |prefix| ensures prefix[a] != prefix[b] {
          assert prefix[a] == callbacks[a] && prefix[b] == callbacks[b];
        }
      }
      UnregisterKeepsNoDuplicates(prefix, callback);
      var last := callbacks[|callbacks| - 1];
      assert last !in prefix by {
        forall a | 0 <= a < |prefix| ensures prefix[a] != last {
          assert prefix[a] == callbacks[a];
        }
      }
    }
  }

  /** The event `track` records: `timestamp ?? now()` as both timestamp and
      creation time, and `costUsd ?? 0`. */
  function NewEvent(input: TrackRequest, now: int, cost: Option<real>): (e: UsageEvent)
    ensures e.model == input.model && e.inputTokens == input.inputTokens && e.outputTokens == input.outputTokens
    ensures e.userId == input.userId && e.feature == input.feature
    ensures e.createdAt == e.timestamp == (if input.timestamp.Some? then input.timestamp.value else now)
    ensures e.costUsd == (if cost.Some? then cost.value else 0.0)
  {
    var timestamp := if input.timestamp.Some? then input.timestamp.value else now;
    UsageEvent(input.model, input.inputTokens, input.outputTokens, input.userId, input.feature,
      timestamp, if cost.Some? then cost.value else 0.0, timestamp)
  }

  /** `getUsage`'s filter: a `windowMs` replaces `since` by `now - windowMs`. */
  function ResolveFilter(filter: Option<UsageFilter>, now: int): (f: UsageFilter)
    ensures var given := if filter.Some? then filter.value else NoFilter;
      f.since == (if given.windowMs.Some? then Some(now - given.windowMs.value) else given.since)
    ensures var given := if filter.Some? then filter.value else NoFilter;
      f.(since := given.since) == given
  {
    var given := if filter.Some? then filter.value else NoFilter;
    if given.windowMs.Some? then given.(since := Some(now - given.windowMs.value)) else given
  }

  /** A rolling-window query excludes every event created before `now - windowMs`. */
  lemma RollingWindowExcludesOld(ledger: seq<UsageEvent>, filter: UsageFilter, now: int, e: UsageEvent)
    requires filter.windowMs.Some? && e.createdAt < now - filter.windowMs.value
    ensures e !in FilterEvents(ledger, Some(ResolveFilter(Some(filter), now)))
  {
    FilterMembership(ledger, Some(ResolveFilter(Some(filter), now)));
  }

  /** Without a filter, the summary's spend is the exact sum of every recorded cost. */
  lemma UnfilteredSpendIsTotal(ledger: seq<UsageEvent>, now: int)
    ensures Summarize(FilterEvents(ledger, Some(ResolveFilter(None, now)))).totalSpendUsd == SumCost(ledger)
    ensures Summarize(FilterEvents(ledger, Some(ResolveFilter(None, now)))).totalCalls == |ledger|
  {
    NoFilterKeepsAll(ledger);
    SummaryTotals(ledger);
  }

  /** The highest-threshold loop of `evaluateBudgets`. */
  method HighestTriggered(percent: real) returns (highest: int)
    ensures highest == Reached(percent)
  {
    highest := 0;
    for k := 0 to |Thresholds|
      invariant highest == 0 || (highest in Thresholds[..k] && highest as real <= percent)
      invariant forall j :: 0 <= j < k && Thresholds[j] as real <= percent ==> Thresholds[j] <= highest
    {
      var threshold := Thresholds[k];
      if percent >= threshold as real {
        highest := threshold;
      }
    }
    assert Thresholds[..|Thresholds|] == Thresholds;
    ReachedIsHighest(percent);
  }

  /** The alert loop of `evaluateBudgets`: one alert per threshold above
      `previous` and at most `highest`, in ascending order. */
  method CollectAlerts(rule: BudgetRule, previous: int, highest: int, usage: real, scopeKey: string)
    returns (alerts: seq<BudgetAlert>)
    ensures alerts == AlertsFor(rule, Fired(previous, highest), usage, scopeKey)
  {
    alerts := [];
    for k := 0 to |Thresholds|
      invariant alerts == AlertsFor(rule, FiredAmong(Thresholds[..k], previous, highest), usage, scopeKey)
    {
      var threshold := Thresholds[k];
      ghost var before := FiredAmong(Thresholds[..k], previous, highest);
      assert Thresholds[..k + 1][..k] == Thresholds[..k];
      if threshold > previous && threshold <= highest {
        assert (before + [threshold])[..|before|] == before;
        alerts := alerts + [BudgetAlert(rule, threshold, usage, rule.limitUsd, scopeKey)];
      } else {
        assert before + [] == before;
      }
    }
    assert Thresholds[..|Thresholds|] == Thresholds;
  }

  /** The object `createGuard` returns, with the state its closures share. */
  class LlmCostGuard {
    const storage: MemoryStorageAdapter
    const budgets: seq<BudgetRule>
    const pricing: PricingCatalog
    const throwOnKill: bool
    const onUnknownModel: UnknownModelPolicy
    /** Highest threshold fired per `${ruleIndex}:${scopeKey}`. */
    var alertState: map<string, int>
    var budgetAlertCallbacks: seq<CallbackId>
    var killCallbacks: seq<CallbackId>
    /** Every callback invocation made so far, in order. */
    ghost var delivered: seq<Delivery>

    ghost predicate Valid()
      reads this
    {
      PositiveLimits(budgets) && NoDuplicates(budgetAlertCallbacks) && NoDuplicates(killCallbacks)
    }

    /** `createGuard(config)`, over the built-in catalog `builtIn` and a fresh
        in-memory ledger. Every limit must be positive. */
    constructor (config: GuardConfig, builtIn: PricingCatalog)
      requires PositiveLimits(config.budgets)
      ensures Valid() && fresh(storage) && storage.events == []
      ensures budgets == config.budgets
      ensures pricing == MergeCatalog(builtIn, if config.pricing.Some? then config.pricing.value else map[])
      ensures throwOnKill == (config.throwOnKill != Some(false))
      ensures onUnknownModel == (if config.onUnknownModel.Some? then config.onUnknownModel.value else Error)
      ensures alertState == map[] && budgetAlertCallbacks == [] && killCallbacks == [] && delivered == []
    {
      storage := new MemoryStorageAdapter();
      budgets := config.budgets;
      pricing := MergeCatalog(builtIn, if config.pricing.Some? then config.pricing.value else map[]);
      throwOnKill := if config.throwOnKill.Some? then config.throwOnKill.value else true;
      onUnknownModel := if config.onUnknownModel.Some? then config.onUnknownModel.value else Error;
      alertState := map[];
      budgetAlertCallbacks := [];
      killCallbacks := [];
      delivered := [];
    }

    /** `evaluateBudgets`: every rule in order, against the current ledger. */
    method EvaluateBudgets(event: UsageEvent, now: int) returns (alerts: seq<BudgetAlert>, killEvent: Option<BudgetKillEvent>)
      requires Valid()
      modifies this
      ensures Valid()
      ensures budgetAlertCallbacks == old(budgetAlertCallbacks) && killCallbacks == old(killCallbacks)
      ensures var ev := Evaluate(budgets, |budgets|, event, storage.events, now, old(alertState));
        && alertState == ev.alertState && alerts == ev.alerts && killEvent == ev.kill
        && delivered == old(delivered) + AlertDeliveries(budgetAlertCallbacks, ev.alerts) + KillDeliveries(killCallbacks, ev.kill)
    {
      alerts, killEvent := [], None;
      var i := 0;
      while i < |budgets|
        invariant 0 <= i <= |budgets|
        invariant budgetAlertCallbacks == old(budgetAlertCallbacks) && killCallbacks == old(killCallbacks)
        invariant Evaluation(alertState, alerts, killEvent) == Evaluate(budgets, i, event, storage.events, now, old(alertState))
        invariant delivered == old(delivered) + AlertDeliveries(budgetAlertCallbacks, alerts)
      {
        EvaluateNext(budgets, i, event, storage.events, now, old(alertState), Evaluation(alertState, alerts, killEvent));
        var newAlerts;
        newAlerts, killEvent := EvaluateRuleAt(i, event, now, alerts, killEvent);
        AlertDeliveriesConcat(budgetAlertCallbacks, alerts, newAlerts);
        AppendAssociates(old(delivered), AlertDeliveries(budgetAlertCallbacks, alerts), AlertDeliveries(budgetAlertCallbacks, newAlerts));
        alerts := alerts + newAlerts;
        i := i + 1;
      }
      if killEvent.Some? {
        delivered := delivered + KillDeliveries(killCallbacks, killEvent);
      }
    }

    /** One iteration of the rule loop of `evaluateBudgets`, for rule `i`,
        after `alerts` and `killEvent` from the earlier rules. */
    method EvaluateRuleAt(i: nat, event: UsageEvent, now: int, alerts: seq<BudgetAlert>, killEvent: Option<BudgetKillEvent>)
      returns (newAlerts: seq<BudgetAlert>, kill: Option<BudgetKillEvent>)
      requires Valid() && i < |budgets|
      modifies this`alertState, this`delivered
      ensures EvaluateRule(budgets, i, event, storage.events, now, Evaluation(old(alertState), alerts, killEvent))
           == Evaluation(alertState, alerts + newAlerts, kill)
      ensures delivered == old(delivered) + AlertDeliveries(budgetAlertCallbacks, newAlerts)
    {
      newAlerts, kill := [], killEvent;
      AppendEmpty(delivered);
      var scope, usageUsd := MeasureRule(i, event, now);
      if scope.None? {
        assert alerts + [] == alerts;
        return;
      }
      var rule := budgets[i];
      var percent := usageUsd / rule.limitUsd * 100.0;
      var stateKey := StateKey(i, scope.value.key);
      var previous := if stateKey in alertState then alertState[stateKey] else 0;
      var highestTriggered := HighestTriggered(percent);
      assert percent == Percent(usageUsd, rule.limitUsd);
      ghost var acc := Evaluation(alertState, alerts, killEvent);
      RuleStep(budgets, i, event, storage.events, now, acc, scope.value, usageUsd, highestTriggered, previous);
      newAlerts, kill := ApplyThresholds(rule, stateKey, previous, highestTriggered, usageUsd, scope.value, killEvent);
    }

    /** The measuring half of one iteration of `evaluateBudgets`: whether rule
        `i` applies to the event and in which scope, and that scope's spend in
        the rule's window, read from the ledger. */
    method MeasureRule(i: nat, event: UsageEvent, now: int) returns (scope: Option<ScopeIdentity>, usageUsd: real)
      requires i < |budgets|
      ensures scope == RuleScope(budgets, i, event)
      ensures scope.Some? ==> usageUsd == WindowUsage(storage.events, budgets[i], scope.value, now)
    {
      var rule := budgets[i];
      usageUsd := 0.0;
      if !BaseRuleMatch(rule, event) {
        return None, 0.0;
      }
      scope := GetScopeIdentity(WithDefaultId(rule, i), event);
      if scope.None? {
        return;
      }
      var windowStart := now - rule.windowMs;
      var query := UsageFilter(rule.model, scope.value.userId, scope.value.feature, Some(windowStart), Some(now), None);
      assert query == WindowQuery(rule, scope.value, now);
      var events := storage.List(Some(query));
      assert events == FilterEvents(storage.events, Some(query));
      usageUsd := SumCost(events);
    }

    /** The tail of one iteration of `evaluateBudgets`, once the rule's window
        usage has reached level `highest` and its scope last stood at
        `previous`: fire and deliver the thresholds crossed, record the level,
        and take the kill candidate unless an earlier rule already did. */
    method ApplyThresholds(rule: BudgetRule, stateKey: string, previous: int, highest: int, usage: real,
                           scope: ScopeIdentity, killEvent: Option<BudgetKillEvent>)
      returns (newAlerts: seq<BudgetAlert>, kill: Option<BudgetKillEvent>)
      requires IsLevel(highest)
      modifies this`alertState, this`delivered
      ensures newAlerts == AlertsFor(rule, Fired(previous, highest), usage, scope.key)
      ensures alertState == old(alertState)[stateKey := highest]
      ensures kill == if killEvent.Some? then killEvent else KillCandidate(rule, scope, usage)
      ensures delivered == old(delivered) + AlertDeliveries(budgetAlertCallbacks, newAlerts)
    {
      newAlerts, kill := [], killEvent;
      if highest > previous {
        newAlerts := CollectAlerts(rule, previous, highest, usage, scope.key);
        delivered := delivered + AlertDeliveries(budgetAlertCallbacks, newAlerts);
      } else {
        FiredNothingUnlessAbove(previous, highest);
        AppendEmpty(delivered);
      }
      if highest < 80 {
        alertState := alertState[stateKey := 0];
      } else {
        alertState := alertState[stateKey := highest];
      }
      if kill.None? && usage > rule.limitUsd && (if rule.killSwitch.Some? then rule.killSwitch.value else true) {
        kill := Some(BudgetKillEvent(rule, usage, rule.limitUsd, scope.key));
      }
    }

    /** `track`: price the call, reject an unknown model under the "error"
        policy before touching the ledger, otherwise append the event (cost 0
        for an unknown model) and evaluate the budgets, which count it; a kill
        fails the call when `throwOnKill`, and is flagged otherwise. */
    method Track(input: TrackRequest, now: int) returns (r: Result<TrackResult, GuardError>)
      requires Valid()
      modifies this, storage
      ensures Valid()
      ensures budgetAlertCallbacks == old(budgetAlertCallbacks) && killCallbacks == old(killCallbacks)
      ensures var cost := CalculateCostUsd(pricing, input.model, input.inputTokens, input.outputTokens);
        cost.None? && onUnknownModel == Error ==>
          && r == Failure(UnknownModelPricingError(input.model))
          && storage.events == old(storage.events)
          && alertState == old(alertState) && delivered == old(delivered)
      ensures var cost := CalculateCostUsd(pricing, input.model, input.inputTokens, input.outputTokens);
        !(cost.None? && onUnknownModel == Error) ==>
          var event := NewEvent(input, now, cost);
          var ev := Evaluate(budgets, |budgets|, event, old(storage.events) + [event], now, old(alertState));
          && storage.events == old(storage.events) + [event]
          && alertState == ev.alertState
          && delivered == old(delivered) + AlertDeliveries(budgetAlertCallbacks, ev.alerts) + KillDeliveries(killCallbacks, ev.kill)
          && r == (if ev.kill.Some? && throwOnKill then Failure(BudgetExceededError(ev.kill.value))
                   else Success(TrackResult(event, ev.alerts, ev.kill.Some?)))
    {
      var costUsd := CalculateCostUsd(pricing, input.model, input.inputTokens, input.outputTokens);
      if costUsd.None? && onUnknownModel == Error {
        return Failure(UnknownModelPricingError(input.model));
      }
      var event := NewEvent(input, now, costUsd);
      storage.Append(event);
      var alerts, killEvent := EvaluateBudgets(event, now);
      if killEvent.Some? && throwOnKill {
        return Failure(BudgetExceededError(killEvent.value));
      }
      r := Success(TrackResult(event, alerts, killEvent.Some?));
    }

    /** `getUsage`: the summary of the ledger events matching the resolved filter. */
    method GetUsage(filter: Option<UsageFilter>, now: int) returns (summary: UsageSummary)
      ensures summary == Summarize(FilterEvents(storage.events, Some(ResolveFilter(filter, now))))
    {
      var resolved := ResolveFilter(filter, now);
      var events := storage.List(Some(resolved));
      summary := UsageSummaryFromEvents(events);
    }

    /** `onBudgetAlert(callback)`. */
    method OnBudgetAlert(callback: CallbackId)
      requires Valid()
      modifies this
      ensures Valid()
      ensures budgetAlertCallbacks == Register(old(budgetAlertCallbacks), callback)
      ensures killCallbacks == old(killCallbacks) && alertState == old(alertState) && delivered == old(delivered)
    {
      RegisterKeepsNoDuplicates(budgetAlertCallbacks, callback);
      budgetAlertCallbacks := Register(budgetAlertCallbacks, callback);
    }

    /** The unsubscribe function `onBudgetAlert` returns. */
    method OffBudgetAlert(callback: CallbackId)
      requires Valid()
      modifies this
      ensures Valid()
      ensures budgetAlertCallbacks == Unregister(old(budgetAlertCallbacks), callback)
      ensures killCallbacks == old(killCallbacks) && alertState == old(alertState) && delivered == old(delivered)
    {
      UnregisterKeepsNoDuplicates(budgetAlertCallbacks, callback);
      budgetAlertCallbacks := Unregister(budgetAlertCallbacks, callback);
    }

    /** `onKill(callback)`. */
    method OnKill(callback: CallbackId)
      requires Valid()
      modifies this
      ensures Valid()
      ensures killCallbacks == Register(old(killCallbacks), callback)
      ensures budgetAlertCallbacks == old(budgetAlertCallbacks) && alertState == old(alertState) && delivered == old(delivered)
    {
      RegisterKeepsNoDuplicates(killCallbacks, callback);
      killCallbacks := Register(killCallbacks, callback);
    }

    /** The unsubscribe function `onKill` returns. */
    method OffKill(callback: CallbackId)
      requires Valid()
      modifies this
      ensures Valid()
      ensures killCallbacks == Unregister(old(killCallbacks), callback)
      ensures budgetAlertCallbacks == old(budgetAlertCallbacks) && alertState == old(alertState) && delivered == old(delivered)
    {
      UnregisterKeepsNoDuplicates(killCallbacks, callback);
      killCallbacks := Unregister(killCallbacks, callback);
    }
  }
}
