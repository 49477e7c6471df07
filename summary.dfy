/** Aggregation of usage events into a summary (`usageSummaryFromEvents`,
    src/guard.ts). */
module Summary {
  import opened Wrappers
  import opened Types

  /** Sum of `costUsd`, added left to right as `reduce` and the loop do. */
  function SumCost(events: seq<UsageEvent>): real {
    if events == [] then 0.0 else SumCost(events[..|events| - 1]) + events[|events| - 1].costUsd
  }

  function SumInputTokens(events: seq<UsageEvent>): real {
    if events == [] then 0.0 else SumInputTokens(events[..|events| - 1]) + events[|events| - 1].inputTokens
  }

  function SumOutputTokens(events: seq<UsageEvent>): real {
    if events == [] then 0.0 else SumOutputTokens(events[..|events| - 1]) + events[|events| - 1].outputTokens
  }

  const EmptySummary := UsageSummary(0.0, 0, 0.0, 0.0, map[], map[], map[])

  /** `m[k] = (m[k] ?? 0) + amount`. */
  function AddTo(m: map<string, real>, k: string, amount: real): map<string, real> {
    m[k := (if k in m then m[k] else 0.0) + amount]
  }

  /** One iteration of the aggregation loop. */
  function Accumulate(s: UsageSummary, e: UsageEvent): UsageSummary {
    UsageSummary(
      s.totalSpendUsd + e.costUsd,
      s.totalCalls + 1,
      s.totalInputTokens + e.inputTokens,
      s.totalOutputTokens + e.outputTokens,
      AddTo(s.byModel, e.model, e.costUsd),
      if Present(e.userId) then AddTo(s.byUser, e.userId.value, e.costUsd) else s.byUser,
      if Present(e.feature) then AddTo(s.byFeature, e.feature.value, e.costUsd) else s.byFeature)
  }

  /** The summary of `events`: every event folded into the empty summary in order. */
  function Summarize(events: seq<UsageEvent>): UsageSummary {
    if events == [] then EmptySummary else Accumulate(Summarize(events[..|events| - 1]), events[|events| - 1])
  }

  /** `usageSummaryFromEvents`: the for-of loop over the events. */
  method UsageSummaryFromEvents(events: seq<UsageEvent>) returns (summary: UsageSummary)
    ensures summary == Summarize(events)
  {
    summary := EmptySummary;
    var i := 0;
    while i < |events|
      invariant 0 <= i <= |events|
      invariant summary == Summarize(events[..i])
    {
      var event := events[i];
      var byUser, byFeature := summary.byUser, summary.byFeature;
      if Present(event.userId) {
        byUser := AddTo(byUser, event.userId.value, event.costUsd);
      }
      if Present(event.feature) {
        byFeature := AddTo(byFeature, event.feature.value, event.costUsd);
      }
      ghost var expected := Accumulate(summary, event);
      summary := UsageSummary(
        summary.totalSpendUsd + event.costUsd,
        summary.totalCalls + 1,
        summary.totalInputTokens + event.inputTokens,
        summary.totalOutputTokens + event.outputTokens,
        AddTo(summary.byModel, event.model, event.costUsd),
        byUser,
        byFeature);
      assert summary == expected;
      assert events[..i + 1][..i] == events[..i];
      i := i + 1;
    }
    assert events[..i] == events;
  }

  /** The three breakdowns of a summary. */
  datatype Dimension = ByModel | ByUser | ByFeature

  /** The breakdown key an event contributes to: its model always; its user
      or feature only when non-empty. */
  function KeyOf(e: UsageEvent, d: Dimension): Option<string> {
    match d
    case ByModel => Some(e.model)
    case ByUser => if Present(e.userId) then e.userId else None
    case ByFeature => if Present(e.feature) then e.feature else None
  }

  function Breakdown(s: UsageSummary, d: Dimension): map<string, real> {
    match d
    case ByModel => s.byModel
    case ByUser => s.byUser
    case ByFeature => s.byFeature
  }

  /** Total cost of the events whose `d` key is `k`. */
  function SpendWhere(events: seq<UsageEvent>, d: Dimension, k: string): real {
    if events == [] then 0.0
    else
      SpendWhere(events[..|events| - 1], d, k)
        + (if KeyOf(events[|events| - 1], d) == Some(k) then events[|events| - 1].costUsd else 0.0)
  }

  /** The totals are exact: one call per event, and spend and token totals
      are the sums over all events. */
  lemma {:induction false} SummaryTotals(events: seq<UsageEvent>)
    ensures Summarize(events).totalCalls == |events|
    ensures Summarize(events).totalSpendUsd == SumCost(events)
    ensures Summarize(events).totalInputTokens == SumInputTokens(events)
    ensures Summarize(events).totalOutputTokens == SumOutputTokens(events)
  {
    if events != [] {
      SummaryTotals(events[..|events| - 1]);
    }
  }

  /** Each breakdown has a key exactly for the keys some event carries: the
      model always, users and features only when non-empty. */
  lemma {:induction false} BreakdownKeys(events: seq<UsageEvent>, d: Dimension, k: string)
    ensures k in Breakdown(Summarize(events), d) <==> exists i :: 0 <= i < |events| && KeyOf(events[i], d) == Some(k)
  {
    if events != [] {
      var prefix, last := events[..|events| - 1], events[|events| - 1];
      BreakdownKeys(prefix, d, k);
      assert Breakdown(Summarize(events), d) == Step(Breakdown(Summarize(prefix), d), last, d);
      if exists i :: 0 <= i < |prefix| && KeyOf(prefix[i], d) == Some(k) {
        var i :| 0 <= i < |prefix| && KeyOf(prefix[i], d) == Some(k);
        assert events[i] == prefix[i];
      }
      if exists i :: 0 <= i < |events| && KeyOf(events[i], d) == Some(k) {
        var i :| 0 <= i < |events| && KeyOf(events[i], d) == Some(k);
        if i < |prefix| {
          assert prefix[i] == events[i];
        }
      }
    }
  }

  /** One event's effect on one breakdown. */
  function Step(m: map<string, real>, e: UsageEvent, d: Dimension): map<string, real> {
    if KeyOf(e, d).Some? then AddTo(m, KeyOf(e, d).value, e.costUsd) else m
  }

  /** Each breakdown entry is the total cost of the events with that key. */
  lemma {:induction false} BreakdownSpend(events: seq<UsageEvent>, d: Dimension, k: string)
    requires k in Breakdown(Summarize(events), d)
    ensures Breakdown(Summarize(events), d)[k] == SpendWhere(events, d, k)
  {
    var prefix, last := events[..|events| - 1], events[|events| - 1];
    var before := Breakdown(Summarize(prefix), d);
    assert Breakdown(Summarize(events), d) == Step(before, last, d);
    if k in before {
      BreakdownSpend(prefix, d, k);
    } else {
      BreakdownKeys(prefix, d, k);
      SpendWhereAbsent(prefix, d, k);
    }
  }

  /** No event with key `k`, no spend under `k`. */
  lemma {:induction false} SpendWhereAbsent(events: seq<UsageEvent>, d: Dimension, k: string)
    requires forall i :: 0 <= i < |events| ==> KeyOf(events[i], d) != Some(k)
    ensures SpendWhere(events, d, k) == 0.0
  {
    if events != [] {
      var prefix := events[..|events| - 1];
      assert forall i :: 0 <= i < |prefix| ==> prefix[i] == events[i];
      SpendWhereAbsent(prefix, d, k);
    }
  }
}
