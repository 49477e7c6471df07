/** The budget policy of `createGuard` (src/guard.ts): rule matching, scope
    keys, the 80/90/100 escalation ladder and the kill decision, with
    `Evaluate` as the specification of one `evaluateBudgets` pass. */
module Rules {
  import opened Wrappers
  import opened Types
  import opened Decimal
  import opened Storage
  import opened Summary

  /** `baseRuleMatch`: each filter the rule sets must equal the event's field. */
  predicate BaseRuleMatch(rule: BudgetRule, event: UsageEvent) {
    if Present(rule.model) && rule.model.value != event.model then false
    else if Present(rule.userId) && rule.userId != event.userId then false
    else if Present(rule.feature) && rule.feature != event.feature then false
    else true
  }

  /** A rule applies iff every filter it sets agrees with the event. */
  lemma BaseRuleMatchMeaning(rule: BudgetRule, event: UsageEvent)
    ensures BaseRuleMatch(rule, event) <==>
      && (Present(rule.model) ==> rule.model == Some(event.model))
      && (Present(rule.userId) ==> rule.userId == event.userId)
      && (Present(rule.feature) ==> rule.feature == event.feature)
  {
  }

  /** The concrete budget scope an event falls into under a rule. */
  datatype ScopeIdentity = ScopeIdentity(key: string, userId: Option<string>, feature: Option<string>)

  predicate NeedsUser(mode: ScopeBy) { mode == User || mode == UserFeature }
  predicate NeedsFeature(mode: ScopeBy) { mode == Feature || mode == UserFeature }

  function ScopeMode(rule: BudgetRule): ScopeBy {
    if rule.scopeBy.Some? then rule.scopeBy.value else Global
  }

  /** `parts.join(sep)`. */
  function Join(parts: seq<string>, sep: string): string {
    if parts == [] then ""
    else if |parts| == 1 then parts[0]
    else Join(parts[..|parts| - 1], sep) + sep + parts[|parts| - 1]
  }

  lemma JoinKey(mode: ScopeBy, parts: seq<string>, id: string, userPart: seq<string>, featurePart: seq<string>, globalPart: seq<string>)
    requires parts == [id] + userPart + featurePart + globalPart
    requires |userPart| == (if NeedsUser(mode) then 1 else 0)
    requires |featurePart| == (if NeedsFeature(mode) then 1 else 0)
    requires |globalPart| == (if mode == Global then 1 else 0)
    ensures Join(parts, "|") == (match mode
      case Global => id + "|" + globalPart[0]
      case User => id + "|" + userPart[0]
      case Feature => id + "|" + featurePart[0]
      case UserFeature => id + "|" + userPart[0] + "|" + featurePart[0])
  {
    match mode
    case Global =>
      assert parts == [id, globalPart[0]];
      assert parts[..1] == [id];
    case User =>
      assert parts == [id, userPart[0]];
      assert parts[..1] == [id];
    case Feature =>
      assert parts == [id, featurePart[0]];
      assert parts[..1] == [id];
    case UserFeature =>
      assert parts == [id, userPart[0], featurePart[0]];
      assert parts[..2] == [id, userPart[0]];
      assert parts[..2][..1] == [id];
      assert Join(parts[..2], "|") == id + "|" + userPart[0];
  }

  /** `getScopeIdentity`: `None` when the scope needs a user or feature the
      event lacks; otherwise the key `id|user:u|feature:f` (or `id|global`)
      and the user and feature the window query is restricted to. */
  function GetScopeIdentity(rule: BudgetRule, event: UsageEvent): (r: Option<ScopeIdentity>)
    ensures var mode := ScopeMode(rule);
      r.None? <==> (NeedsUser(mode) && !Present(event.userId)) || (NeedsFeature(mode) && !Present(event.feature))
    ensures var mode := ScopeMode(rule);
      var id := if rule.id.Some? then rule.id.value else "rule";
      r.Some? ==>
        && r.value.key == (match mode
             case Global => id + "|" + "global"
             case User => id + "|" + ("user:" + event.userId.value)
             case Feature => id + "|" + ("feature:" + event.feature.value)
             case UserFeature => id + "|" + ("user:" + event.userId.value) + "|" + ("feature:" + event.feature.value))
        && r.value.userId == (if NeedsUser(mode) then event.userId else rule.userId)
        && r.value.feature == (if NeedsFeature(mode) then event.feature else rule.feature)
  {
    var mode := ScopeMode(rule);
    var id := if rule.id.Some? then rule.id.value else "rule";
    if NeedsUser(mode) && !Present(event.userId) then None
    else if NeedsFeature(mode) && !Present(event.feature) then None
    else
      var userPart := if NeedsUser(mode) then ["user:" + event.userId.value] else [];
      var featurePart := if NeedsFeature(mode) then ["feature:" + event.feature.value] else [];
      var globalPart := if mode == Global then ["global"] else [];
      var parts := [id] + userPart + featurePart + globalPart;
      JoinKey(mode, parts, id, userPart, featurePart, globalPart);
      Some(ScopeIdentity(
        Join(parts, "|"),
        if NeedsUser(mode) then event.userId else rule.userId,
        if NeedsFeature(mode) then event.feature else rule.feature))
  }

  /** `{ ...rule, id: rule.id ?? `rule-${i}` }`: the identity used for scope
      keys. `??` keeps an explicit empty id. */
  function WithDefaultId(rule: BudgetRule, i: nat): (r: BudgetRule)
    ensures rule.id.Some? ==> r.id == rule.id
    ensures rule.id.None? ==> r.id == Some("rule-" + NatToString(i))
    ensures r.(id := rule.id) == rule
  {
    rule.(id := if rule.id.Some? then rule.id else Some("rule-" + NatToString(i)))
  }

  /** Rules without an explicit id at different positions get different
      default ids, so their scopes never share a key. */
  lemma DefaultIdsDistinct(a: BudgetRule, i: nat, b: BudgetRule, j: nat)
    requires a.id.None? && b.id.None? && i != j
    ensures WithDefaultId(a, i).id != WithDefaultId(b, j).id
  {
    var x, y := "rule-" + NatToString(i), "rule-" + NatToString(j);
    if x == y {
      assert NatToString(i) == x[5..] == y[5..] == NatToString(j);
      NatToStringInjective(i, j);
    }
  }

  /** Per-user budgets are isolated: under `scopeBy: "user"`, two different
      users of one rule never share a scope key. */
  lemma UserScopesAreIsolated(rule: BudgetRule, e1: UsageEvent, e2: UsageEvent)
    requires ScopeMode(rule) == User
    requires GetScopeIdentity(rule, e1).Some? && GetScopeIdentity(rule, e2).Some?
    requires GetScopeIdentity(rule, e1).value.key == GetScopeIdentity(rule, e2).value.key
    ensures e1.userId == e2.userId
  {
    var id := if rule.id.Some? then rule.id.value else "rule";
    var k := GetScopeIdentity(rule, e1).value.key;
    var n := |id + "|user:"|;
    assert k[n..] == e1.userId.value;
    assert k[n..] == e2.userId.value;
  }

  /** Moving a "|feature:" segment from the end of the user part to the
      front of the feature part leaves a user_feature key unchanged. */
  lemma UserFeatureRegroup(id: string, a: string, b: string, c: string)
    ensures id + "|" + ("user:" + (a + "|feature:" + b)) + "|" + ("feature:" + c)
         == id + "|" + ("user:" + a) + "|" + ("feature:" + (b + "|feature:" + c))
  {
    var flat := id + "|" + "user:" + a + "|" + "feature:" + b + "|" + "feature:" + c;
    assert "|feature:" == "|" + "feature:";
    assert id + "|" + ("user:" + (a + "|feature:" + b)) + "|" + ("feature:" + c) == flat;
    assert id + "|" + ("user:" + a) + "|" + ("feature:" + (b + "|feature:" + c)) == flat;
  }

  /** Under `scopeBy: "user_feature"` the key is not injective: a user id that
      itself contains "|feature:" makes two different user/feature pairs
      share one scope key, and so one alert state. */
  lemma UserFeatureKeysCanCollide()
    ensures var rule := BudgetRule(Some("r"), 1.0, 1000, None, None, None, Some(UserFeature), None);
      var e1 := UsageEvent("m", 0.0, 0.0, Some("a|feature:b"), Some("c"), 0, 0.0, 0);
      var e2 := UsageEvent("m", 0.0, 0.0, Some("a"), Some("b|feature:c"), 0, 0.0, 0);
      && GetScopeIdentity(rule, e1).Some? && GetScopeIdentity(rule, e2).Some?
      && GetScopeIdentity(rule, e1).value.key == GetScopeIdentity(rule, e2).value.key
      && e1.userId != e2.userId
  {
    var rule := BudgetRule(Some("r"), 1.0, 1000, None, None, None, Some(UserFeature), None);
    var e1 := UsageEvent("m", 0.0, 0.0, Some("a|feature:b"), Some("c"), 0, 0.0, 0);
    var e2 := UsageEvent("m", 0.0, 0.0, Some("a"), Some("b|feature:c"), 0, 0.0, 0);
    assert ScopeMode(rule) == UserFeature;
    assert Present(e1.userId) && Present(e1.feature) by {
      assert "a|feature:b" != "" && "c" != "";
    }
    assert Present(e2.userId) && Present(e2.feature) by {
      assert "a" != "" && "b|feature:c" != "";
    }
    var k1 := GetScopeIdentity(rule, e1).value.key;
    var k2 := GetScopeIdentity(rule, e2).value.key;
    assert "a|feature:b" == "a" + "|feature:" + "b";
    assert "b|feature:c" == "b" + "|feature:" + "c";
    assert k1 == "r" + "|" + ("user:" + ("a" + "|feature:" + "b")) + "|" + ("feature:" + "c");
    assert k2 == "r" + "|" + ("user:" + "a") + "|" + ("feature:" + ("b" + "|feature:" + "c"));
    UserFeatureRegroup("r", "a", "b", "c");
  }

  /** The alert-state key `${i}:${scope.key}`. */
  function StateKey(i: nat, scopeKey: string): string {
    NatToString(i) + ":" + scopeKey
  }

  /** Different (rule index, scope key) pairs never share alert state: the
      digits of the index end at the first ':'. */
  lemma StateKeyInjective(i: nat, k: string, j: nat, l: string)
    requires StateKey(i, k) == StateKey(j, l)
    ensures i == j && k == l
  {
    var s := StateKey(i, k);
    var a, b := NatToString(i), NatToString(j);
    assert s[|a|] == ':' && s[|b|] == ':';
    assert forall p :: 0 <= p < |a| ==> s[p] == a[p] && IsDigit(s[p]);
    assert forall p :: 0 <= p < |b| ==> s[p] == b[p] && IsDigit(s[p]);
    assert |a| == |b|;
    assert a == s[..|a|] == b;
    NatToStringInjective(i, j);
    assert k == s[|a| + 1..] == l;
  }

  /** The alert thresholds, in percent of the limit, in firing order. */
  const Thresholds: seq<int> := [80, 90, 100]

  /** `usageUsd / limitUsd * 100`. */
  function Percent(usage: real, limit: real): real
    requires limit > 0.0
  {
    usage / limit * 100.0
  }

  /** The highest threshold `percent` has reached, or 0 below 80. */
  function Reached(percent: real): (r: int)
    ensures IsLevel(r)
  {
    if percent >= 100.0 then 100 else if percent >= 90.0 then 90 else if percent >= 80.0 then 80 else 0
  }

  /** `Reached` is the largest threshold at most `percent`, and 0 when there is none. */
  lemma ReachedIsHighest(percent: real)
    ensures var h := Reached(percent);
      && (h == 0 || (h in Thresholds && h as real <= percent))
      && (forall t :: t in Thresholds && t as real <= percent ==> t <= h)
  {
  }

  /** The thresholds of `ts` strictly above `previous` and at most `highest`, in `ts` order. */
  function FiredAmong(ts: seq<int>, previous: int, highest: int): seq<int> {
    if ts == [] then []
    else
      FiredAmong(ts[..|ts| - 1], previous, highest)
        + (if previous < ts[|ts| - 1] <= highest then [ts[|ts| - 1]] else [])
  }

  /** The alerts one evaluation fires for a scope that had already fired
      `previous` and now reaches `highest`. */
  function Fired(previous: int, highest: int): seq<int> {
    FiredAmong(Thresholds, previous, highest)
  }

  /** A scope fires exactly the thresholds above its stored one and at most
      the one reached, in strictly ascending order. */
  lemma FiredMeaning(previous: int, highest: int)
    ensures forall t :: t in Fired(previous, highest) <==> t in Thresholds && previous < t <= highest
    ensures var r := Fired(previous, highest);
      forall a, b :: 0 <= a < b < |r| ==> r[a] < r[b]
  {
    FiredClosedForm(previous, highest);
  }

  /** Proof helper: one threshold's contribution to `Fired`. */
  function When(c: bool, t: int): seq<int> {
    if c then [t] else []
  }

  lemma FiredClosedForm(previous: int, highest: int)
    ensures FiredAmong(Thresholds, previous, highest)
         == When(previous < 80 <= highest, 80) + When(previous < 90 <= highest, 90) + When(previous < 100 <= highest, 100)
  {
    assert FiredAmong([80], previous, highest) == When(previous < 80 <= highest, 80) by {
      assert [80][..0] == [];
    }
    assert FiredAmong([80, 90], previous, highest)
        == FiredAmong([80], previous, highest) + When(previous < 90 <= highest, 90) by {
      assert [80, 90][..1] == [80];
    }
    assert Thresholds[..2] == [80, 90];
  }

  /** Nothing fires unless the reached threshold is above the stored one. */
  lemma FiredNothingUnlessAbove(previous: int, highest: int)
    requires highest <= previous
    ensures Fired(previous, highest) == []
  {
    FiredClosedForm(previous, highest);
  }

  /** The alerts for a list of fired thresholds. */
  function AlertsFor(rule: BudgetRule, fired: seq<int>, usage: real, scopeKey: string): seq<BudgetAlert> {
    if fired == [] then []
    else AlertsFor(rule, fired[..|fired| - 1], usage, scopeKey) + [BudgetAlert(rule, fired[|fired| - 1], usage, rule.limitUsd, scopeKey)]
  }

  /** The ledger query for a rule's rolling window in a scope. */
  function WindowQuery(rule: BudgetRule, scope: ScopeIdentity, now: int): StorageQuery {
    UsageFilter(rule.model, scope.userId, scope.feature, Some(now - rule.windowMs), Some(now), None)
  }

  /** Spend of the scope in the window `[now - windowMs, now]`. */
  function WindowUsage(ledger: seq<UsageEvent>, rule: BudgetRule, scope: ScopeIdentity, now: int): real {
    SumCost(FilterEvents(ledger, Some(WindowQuery(rule, scope, now))))
  }

  /** The scope of rule `i` for `event`, when the rule applies at all. */
  function RuleScope(rules: seq<BudgetRule>, i: nat, event: UsageEvent): Option<ScopeIdentity>
    requires i < |rules|
  {
    if BaseRuleMatch(rules[i], event) then GetScopeIdentity(WithDefaultId(rules[i], i), event) else None
  }

  /** A rule's kill candidate: usage strictly above the limit, kill switch not off. */
  function KillCandidate(rule: BudgetRule, scope: ScopeIdentity, usage: real): (r: Option<BudgetKillEvent>)
    ensures r.Some? <==> usage > rule.limitUsd && rule.killSwitch != Some(false)
    ensures r.Some? ==> r.value == BudgetKillEvent(rule, usage, rule.limitUsd, scope.key)
  {
    if usage > rule.limitUsd && (if rule.killSwitch.Some? then rule.killSwitch.value else true)
    then Some(BudgetKillEvent(rule, usage, rule.limitUsd, scope.key))
    else None
  }

  /** The kill event rule `i` would raise for `event`, independent of alert state. */
  function RuleKill(rules: seq<BudgetRule>, i: nat, event: UsageEvent, ledger: seq<UsageEvent>, now: int): Option<BudgetKillEvent>
    requires i < |rules|
  {
    match RuleScope(rules, i, event)
    case None => None
    case Some(scope) => KillCandidate(rules[i], scope, WindowUsage(ledger, rules[i], scope, now))
  }

  predicate PositiveLimits(rules: seq<BudgetRule>) {
    forall i :: 0 <= i < |rules| ==> rules[i].limitUsd > 0.0
  }

  /** What an `evaluateBudgets` pass has produced so far. */
  datatype Evaluation = Evaluation(alertState: map<string, int>, alerts: seq<BudgetAlert>, kill: Option<BudgetKillEvent>)

  /** One iteration of the rule loop, for rule `i`. */
  function EvaluateRule(rules: seq<BudgetRule>, i: nat, event: UsageEvent, ledger: seq<UsageEvent>, now: int, acc: Evaluation): Evaluation
    requires i < |rules| && PositiveLimits(rules)
  {
    match RuleScope(rules, i, event)
    case None => acc
    case Some(scope) =>
      var rule := rules[i];
      var usage := WindowUsage(ledger, rule, scope, now);
      var key := StateKey(i, scope.key);
      var previous := if key in acc.alertState then acc.alertState[key] else 0;
      var highest := Reached(Percent(usage, rule.limitUsd));
      Evaluation(
        acc.alertState[key := highest],
        acc.alerts + AlertsFor(rule, Fired(previous, highest), usage, scope.key),
        if acc.kill.Some? then acc.kill else KillCandidate(rule, scope, usage))
  }

  /** Proof helper: one iteration for a rule that applies, with its pieces named. */
  lemma RuleStep(rules: seq<BudgetRule>, i: nat, event: UsageEvent, ledger: seq<UsageEvent>, now: int, acc: Evaluation,
                 scope: ScopeIdentity, usage: real, highest: int, previous: int)
    requires i < |rules| && PositiveLimits(rules)
    requires RuleScope(rules, i, event) == Some(scope)
    requires usage == WindowUsage(ledger, rules[i], scope, now)
    requires highest == Reached(Percent(usage, rules[i].limitUsd))
    requires previous == if StateKey(i, scope.key) in acc.alertState then acc.alertState[StateKey(i, scope.key)] else 0
    ensures EvaluateRule(rules, i, event, ledger, now, acc) == Evaluation(
      acc.alertState[StateKey(i, scope.key) := highest],
      acc.alerts + AlertsFor(rules[i], Fired(previous, highest), usage, scope.key),
      if acc.kill.Some? then acc.kill else KillCandidate(rules[i], scope, usage))
  {
  }

  /** The effect of evaluating the first `n` rules, in list order, from alert state `state`. */
  function Evaluate(rules: seq<BudgetRule>, n: nat, event: UsageEvent, ledger: seq<UsageEvent>, now: int, state: map<string, int>): Evaluation
    requires n <= |rules| && PositiveLimits(rules)
  {
    if n == 0 then Evaluation(state, [], None)
    else EvaluateRule(rules, n - 1, event, ledger, now, Evaluate(rules, n - 1, event, ledger, now, state))
  }

  /** Proof helper: a pass over `n + 1` rules is a pass over `n` followed by rule `n`. */
  lemma EvaluateNext(rules: seq<BudgetRule>, n: nat, event: UsageEvent, ledger: seq<UsageEvent>, now: int, state: map<string, int>, acc: Evaluation)
    requires n < |rules| && PositiveLimits(rules)
    requires acc == Evaluate(rules, n, event, ledger, now, state)
    ensures Evaluate(rules, n + 1, event, ledger, now, state) == EvaluateRule(rules, n, event, ledger, now, acc)
  {
  }

  /** Proof helper: one iteration keeps an earlier kill, or else takes this rule's candidate. */
  lemma KillStep(rules: seq<BudgetRule>, n: nat, event: UsageEvent, ledger: seq<UsageEvent>, now: int, state: map<string, int>)
    requires 0 < n <= |rules| && PositiveLimits(rules)
    ensures var before := Evaluate(rules, n - 1, event, ledger, now, state).kill;
      Evaluate(rules, n, event, ledger, now, state).kill
        == if before.Some? then before else RuleKill(rules, n - 1, event, ledger, now)
  {
  }

  /** At most one kill per pass, and it is the first rule in list order
      whose kill candidate exists. */
  lemma {:induction false} KillIsFirstCandidate(rules: seq<BudgetRule>, n: nat, event: UsageEvent, ledger: seq<UsageEvent>, now: int, state: map<string, int>)
    requires n <= |rules| && PositiveLimits(rules)
    ensures var kill := Evaluate(rules, n, event, ledger, now, state).kill;
      kill.None? <==> forall i :: 0 <= i < n ==> RuleKill(rules, i, event, ledger, now).None?
    ensures var kill := Evaluate(rules, n, event, ledger, now, state).kill;
      kill.Some? ==> exists i :: 0 <= i < n && kill == RuleKill(rules, i, event, ledger, now)
                       && forall j :: 0 <= j < i ==> RuleKill(rules, j, event, ledger, now).None?
  {
    if n > 0 {
      KillIsFirstCandidate(rules, n - 1, event, ledger, now, state);
      var before := Evaluate(rules, n - 1, event, ledger, now, state).kill;
      var after := Evaluate(rules, n, event, ledger, now, state).kill;
      var last := RuleKill(rules, n - 1, event, ledger, now);
      KillStep(rules, n, event, ledger, now, state);
      if before.Some? {
        var i :| 0 <= i < n - 1 && before == RuleKill(rules, i, event, ledger, now)
                 && forall j :: 0 <= j < i ==> RuleKill(rules, j, event, ledger, now).None?;
        assert 0 <= i < n && after == RuleKill(rules, i, event, ledger, now);
      } else if last.Some? {
        assert after == RuleKill(rules, n - 1, event, ledger, now);
      }
    }
  }

  /** Proof helper: one iteration sets the applying rule's own alert-state entry, and no other. */
  lemma StateStep(rules: seq<BudgetRule>, n: nat, event: UsageEvent, ledger: seq<UsageEvent>, now: int, state: map<string, int>)
    requires 0 < n <= |rules| && PositiveLimits(rules)
    ensures var before := Evaluate(rules, n - 1, event, ledger, now, state).alertState;
      Evaluate(rules, n, event, ledger, now, state).alertState == match RuleScope(rules, n - 1, event)
        case None => before
        case Some(scope) =>
          before[StateKey(n - 1, scope.key) := Reached(Percent(WindowUsage(ledger, rules[n - 1], scope, now), rules[n - 1].limitUsd))]
  {
  }

  /** After a pass, every applying rule's scope stores the highest threshold
      its window usage reached (0 below 80): later rules never overwrite it. */
  lemma {:induction false} StateRecordsHighest(rules: seq<BudgetRule>, n: nat, event: UsageEvent, ledger: seq<UsageEvent>, now: int, state: map<string, int>, i: nat)
    requires n <= |rules| && PositiveLimits(rules)
    requires i < n && RuleScope(rules, i, event).Some?
    ensures var scope := RuleScope(rules, i, event).value;
      var after := Evaluate(rules, n, event, ledger, now, state).alertState;
      && StateKey(i, scope.key) in after
      && after[StateKey(i, scope.key)] == Reached(Percent(WindowUsage(ledger, rules[i], scope, now), rules[i].limitUsd))
  {
    StateStep(rules, n, event, ledger, now, state);
    var scope := RuleScope(rules, i, event).value;
    var key := StateKey(i, scope.key);
    if i < n - 1 {
      StateRecordsHighest(rules, n - 1, event, ledger, now, state, i);
      var before := Evaluate(rules, n - 1, event, ledger, now, state).alertState;
      match RuleScope(rules, n - 1, event)
      case None =>
      case Some(other) =>
        if StateKey(n - 1, other.key) == key {
          StateKeyInjective(n - 1, other.key, i, scope.key);
        }
    }
  }

  /** Alert state of keys no applying rule owns is left as it was. */
  lemma {:induction false} OtherStateUnchanged(rules: seq<BudgetRule>, n: nat, event: UsageEvent, ledger: seq<UsageEvent>, now: int, state: map<string, int>, key: string)
    requires n <= |rules| && PositiveLimits(rules)
    requires forall i :: 0 <= i < n && RuleScope(rules, i, event).Some? ==> key != StateKey(i, RuleScope(rules, i, event).value.key)
    ensures var after := Evaluate(rules, n, event, ledger, now, state).alertState;
      (key in after <==> key in state) && (key in state ==> after[key] == state[key])
  {
    if n > 0 {
      StateStep(rules, n, event, ledger, now, state);
      OtherStateUnchanged(rules, n - 1, event, ledger, now, state, key);
    }
  }

  /** The alerts of consecutive evaluations in one episode: each fires the
      thresholds above what the previous evaluation stored. */
  function EpisodeAlerts(previous: int, percents: seq<real>): seq<int>
    decreases |percents|
  {
    if percents == [] then []
    else Fired(previous, Reached(percents[0])) + EpisodeAlerts(Reached(percents[0]), percents[1..])
  }

  predicate IsLevel(h: int) { h == 0 || h == 80 || h == 90 || h == 100 }

  /** Crossing from `a` to `b` and then to `c` fires what crossing from `a`
      to `c` at once would. */
  lemma FiredTelescopes(a: int, b: int, c: int)
    requires a <= b <= c && IsLevel(b)
    ensures Fired(a, b) + Fired(b, c) == Fired(a, c)
  {
    FiredClosedForm(a, b);
    FiredClosedForm(b, c);
    FiredClosedForm(a, c);
  }

  /** While usage does not fall, each threshold fires exactly once, in
      ascending order, over the whole episode: the alerts are those of a
      single jump from the starting state to the final percentage. */
  lemma {:induction false} MonotoneEpisodeFiresOnce(previous: int, percents: seq<real>)
    requires IsLevel(previous) && |percents| > 0
    requires previous <= Reached(percents[0])
    requires forall a, b :: 0 <= a < b < |percents| ==> percents[a] <= percents[b]
    ensures EpisodeAlerts(previous, percents) == Fired(previous, Reached(percents[|percents| - 1]))
    decreases |percents|
  {
    var h := Reached(percents[0]);
    var rest := percents[1..];
    assert EpisodeAlerts(previous, percents) == Fired(previous, h) + EpisodeAlerts(h, rest);
    if |percents| == 1 {
      assert EpisodeAlerts(h, rest) == [];
      assert Fired(previous, h) + [] == Fired(previous, h);
    } else {
      assert rest[0] == percents[1] && percents[0] <= percents[1];
      assert forall a, b :: 0 <= a < b < |rest| ==> rest[a] <= rest[b] by {
        forall a, b | 0 <= a < b < |rest| ensures rest[a] <= rest[b] {
          assert rest[a] == percents[a + 1] && rest[b] == percents[b + 1];
        }
      }
      MonotoneEpisodeFiresOnce(h, rest);
      assert rest[|rest| - 1] == percents[|percents| - 1];
      FiredTelescopes(previous, h, Reached(percents[|percents| - 1]));
    }
  }

  /** Usage stepping 80% -> 90% -> 100% of the limit fires 80, 90 and 100,
      once each; a single jump to 250% fires all three in one pass. */
  lemma EscalationExample()
    ensures EpisodeAlerts(0, [80.0, 90.0, 100.0]) == [80, 90, 100]
    ensures Fired(0, Reached(250.0)) == [80, 90, 100]
  {
    var ps := [80.0, 90.0, 100.0];
    assert forall a, b :: 0 <= a < b < |ps| ==> ps[a] <= ps[b];
    assert Reached(ps[0]) == 80;
    MonotoneEpisodeFiresOnce(0, ps);
    assert Reached(ps[|ps| - 1]) == 100 && Reached(250.0) == 100;
    FiredClosedForm(0, 100);
    assert When(0 < 80 <= 100, 80) + When(0 < 90 <= 100, 90) + When(0 < 100 <= 100, 100) == [80, 90, 100];
  }

  /** Dropping below 80% re-arms the scope: a new episode fires 80 again. */
  lemma ReArmExample()
    ensures EpisodeAlerts(0, [85.0, 50.0, 85.0]) == [80, 80]
  {
    FiredClosedForm(0, 80);
    FiredClosedForm(80, 0);
    assert [85.0, 50.0, 85.0][1..] == [50.0, 85.0];
    assert [50.0, 85.0][1..] == [85.0];
    assert [85.0][1..] == [];
  }

  /** A threshold already fired is not fired again while usage stays at or above it. */
  lemma NoRefireWhileAbove(previous: int, percent: real, t: int)
    requires t <= previous
    ensures t !in Fired(previous, Reached(percent))
  {
    FiredMeaning(previous, Reached(percent));
  }

  /** One alert per fired threshold, in the same order, each carrying the
      rule, the usage, the limit and the scope key. */
  lemma {:induction false} AlertsForMeaning(rule: BudgetRule, fired: seq<int>, usage: real, scopeKey: string)
    ensures |AlertsFor(rule, fired, usage, scopeKey)| == |fired|
    ensures forall k :: 0 <= k < |fired| ==>
      AlertsFor(rule, fired, usage, scopeKey)[k] == BudgetAlert(rule, fired[k], usage, rule.limitUsd, scopeKey)
  {
    if fired != [] {
      AlertsForMeaning(rule, fired[..|fired| - 1], usage, scopeKey);
    }
  }

  /** A pass of a guard with a single rule that applies to the event: its
      alerts are the thresholds above the level stored for the scope, up to
      the level now reached; that level is stored under the scope's key; and
      the kill is the rule's candidate. */
  lemma SingleRulePass(rule: BudgetRule, scope: ScopeIdentity, event: UsageEvent, ledger: seq<UsageEvent>, now: int, state: map<string, int>)
    requires rule.limitUsd > 0.0 && RuleScope([rule], 0, event) == Some(scope)
    ensures var key := StateKey(0, scope.key);
      var usage := WindowUsage(ledger, rule, scope, now);
      var highest := Reached(Percent(usage, rule.limitUsd));
      Evaluate([rule], 1, event, ledger, now, state) == Evaluation(
        state[key := highest],
        AlertsFor(rule, Fired(if key in state then state[key] else 0, highest), usage, scope.key),
        KillCandidate(rule, scope, usage))
  {
    var key := StateKey(0, scope.key);
    var usage := WindowUsage(ledger, rule, scope, now);
    var fired := Fired(if key in state then state[key] else 0, Reached(Percent(usage, rule.limitUsd)));
    assert [] + AlertsFor(rule, fired, usage, scope.key) == AlertsFor(rule, fired, usage, scope.key);
  }

  /** A pass of a guard with a single rule that does not apply to the event
      changes nothing and reports nothing. */
  lemma SingleRuleSkips(rule: BudgetRule, event: UsageEvent, ledger: seq<UsageEvent>, now: int, state: map<string, int>)
    requires rule.limitUsd > 0.0 && RuleScope([rule], 0, event).None?
    ensures Evaluate([rule], 1, event, ledger, now, state) == Evaluation(state, [], None)
  {
  }

  /** One input of an `evaluateBudgets` pass: the new event, the ledger
      that already holds it, and the clock. */
  datatype Pass = Pass(event: UsageEvent, ledger: seq<UsageEvent>, now: int)

  /** Proof helper: the thresholds of a list of alerts. */
  function ThresholdsOf(alerts: seq<BudgetAlert>): seq<int> {
    seq(|alerts|, k requires 0 <= k < |alerts| => alerts[k].thresholdPercent)
  }

  /** The thresholds alerted by successive passes of a guard with a single
      rule, each pass starting from the alert state the previous one left. */
  function PassAlerts(rule: BudgetRule, passes: seq<Pass>, state: map<string, int>): seq<int>
    requires rule.limitUsd > 0.0
    decreases |passes|
  {
    if passes == [] then []
    else
      var pass := Evaluate([rule], 1, passes[0].event, passes[0].ledger, passes[0].now, state);
      ThresholdsOf(pass.alerts) + PassAlerts(rule, passes[1..], pass.alertState)
  }

  /** The usage percentages of `scope` those passes measure. */
  function PassPercents(rule: BudgetRule, scope: ScopeIdentity, passes: seq<Pass>): seq<real>
    requires rule.limitUsd > 0.0
    decreases |passes|
  {
    if passes == [] then []
    else [Percent(WindowUsage(passes[0].ledger, rule, scope, passes[0].now), rule.limitUsd)] + PassPercents(rule, scope, passes[1..])
  }

  /** Proof helper: the thresholds of the alerts built for `fired` are `fired`. */
  lemma ThresholdsOfAlertsFor(rule: BudgetRule, fired: seq<int>, usage: real, scopeKey: string)
    ensures ThresholdsOf(AlertsFor(rule, fired, usage, scopeKey)) == fired
  {
    AlertsForMeaning(rule, fired, usage, scopeKey);
  }

  /** Proof helper: one pass whose event falls in `scope`, in thresholds. */
  lemma PassInScope(rule: BudgetRule, scope: ScopeIdentity, p: Pass, state: map<string, int>)
    requires rule.limitUsd > 0.0 && RuleScope([rule], 0, p.event) == Some(scope)
    ensures var key := StateKey(0, scope.key);
      var pass := Evaluate([rule], 1, p.event, p.ledger, p.now, state);
      var highest := Reached(Percent(WindowUsage(p.ledger, rule, scope, p.now), rule.limitUsd));
      && ThresholdsOf(pass.alerts) == Fired(if key in state then state[key] else 0, highest)
      && key in pass.alertState && pass.alertState[key] == highest
  {
    var key := StateKey(0, scope.key);
    var usage := WindowUsage(p.ledger, rule, scope, p.now);
    SingleRulePass(rule, scope, p.event, p.ledger, p.now, state);
    ThresholdsOfAlertsFor(rule, Fired(if key in state then state[key] else 0, Reached(Percent(usage, rule.limitUsd))), usage, scope.key);
  }

  /** Successive passes whose events all fall in one scope of the rule alert
      exactly the episode of the percentages they measure: the alert state
      carried from pass to pass is the `previous` of `EpisodeAlerts`. */
  lemma {:induction false} PassesFollowEpisode(rule: BudgetRule, scope: ScopeIdentity, passes: seq<Pass>, state: map<string, int>)
    requires rule.limitUsd > 0.0
    requires forall j :: 0 <= j < |passes| ==> RuleScope([rule], 0, passes[j].event) == Some(scope)
    ensures var key := StateKey(0, scope.key);
      PassAlerts(rule, passes, state) == EpisodeAlerts(if key in state then state[key] else 0, PassPercents(rule, scope, passes))
    decreases |passes|
  {
    if passes != [] {
      var p, rest := passes[0], passes[1..];
      var pass := Evaluate([rule], 1, p.event, p.ledger, p.now, state);
      PassInScope(rule, scope, p, state);
      assert forall j :: 0 <= j < |rest| ==> RuleScope([rule], 0, rest[j].event) == Some(scope) by {
        forall j | 0 <= j < |rest| ensures RuleScope([rule], 0, rest[j].event) == Some(scope) {
          assert rest[j] == passes[j + 1];
        }
      }
      PassesFollowEpisode(rule, scope, rest, pass.alertState);
      var percents := PassPercents(rule, scope, passes);
      assert percents[1..] == PassPercents(rule, scope, rest);
    }
  }

  /** A rule's window holds exactly the ledger events of its scope: the
      rule's model and the scope's user and feature, created inside
      `[now - windowMs, now]`, both ends included. */
  lemma WindowMembership(ledger: seq<UsageEvent>, rule: BudgetRule, scope: ScopeIdentity, now: int, e: UsageEvent)
    ensures e in FilterEvents(ledger, Some(WindowQuery(rule, scope, now))) <==>
      && e in ledger
      && now - rule.windowMs <= e.createdAt <= now
      && (Present(rule.model) ==> e.model == rule.model.value)
      && (Present(scope.userId) ==> e.userId == scope.userId)
      && (Present(scope.feature) ==> e.feature == scope.feature)
  {
    FilterMembership(ledger, Some(WindowQuery(rule, scope, now)));
    MatchesFilterMeaning(e, WindowQuery(rule, scope, now));
  }

  /** The triggering event counts toward its own rule's window: when a rule
      applies to a freshly appended event created inside `[now - windowMs, now]`,
      the window query returns it. */
  lemma OwnEventInWindow(rules: seq<BudgetRule>, i: nat, ledger: seq<UsageEvent>, event: UsageEvent, now: int)
    requires i < |rules| && RuleScope(rules, i, event).Some?
    requires now - rules[i].windowMs <= event.createdAt <= now
    ensures event in FilterEvents(ledger + [event], Some(WindowQuery(rules[i], RuleScope(rules, i, event).value, now)))
  {
    var q := Some(WindowQuery(rules[i], RuleScope(rules, i, event).value, now));
    assert MatchesFilter(event, q);
    FilterAppend(ledger, event, q);
  }
}
