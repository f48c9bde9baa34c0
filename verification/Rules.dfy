/** Rule evaluation over the samples a rule worker records. */
module Rules {
  import opened Base
  import opened Decimals
  import opened DecimalTheorems

  datatype EventType =
    | PriceAbove | PriceBelow | FundingAbove | FundingBelow | MarginRisk | LiquidationRisk
    | Fill | Cancellation | Rejection

  datatype Metric = Price | Funding | Margin | Liquidation
  datatype Direction = Above | Below

  datatype Rule = Rule(account: bool, network: string, market: string, link: Option<string>, eventType: EventType, threshold: string)

  datatype Event =
    | Execution(eventType: EventType, network: string, market: string, link: Option<string>)
    | Sample(metric: Metric, network: string, market: string, link: Option<string>, previous: Option<string>, current: string)

  datatype Category = ExecutionAlert | RiskAlert | PriceAlert | FundingAlert

  function RuleDirection(eventType: EventType, metric: Metric): Option<Direction> {
    match (metric, eventType)
    case (Price, PriceAbove) => Some(Above)
    case (Price, PriceBelow) => Some(Below)
    case (Funding, FundingAbove) => Some(Above)
    case (Funding, FundingBelow) => Some(Below)
    case (Margin, MarginRisk) => Some(Above)
    case (Liquidation, LiquidationRisk) => Some(Below)
    case _ => None
  }

  /** validateRule, apart from the formats of identifiers. */
  predicate RuleValid(rule: Rule) {
    IsDecimal(rule.threshold) && (rule.account <==> rule.link.Some?)
  }

  predicate EventValid(event: Event) {
    event.Sample? ==> IsDecimal(event.current) && (event.previous.Some? ==> IsDecimal(event.previous.value))
  }

  predicate Concerns(rule: Rule, event: Event) {
    && rule.network == event.network && rule.market == event.market
    && (rule.account ==> rule.link == event.link)
    && (!rule.account ==> event.link.None?)
  }

  /** evaluateNotificationRule: Err when it throws, None when there is no match. */
  function Evaluate(rule: Rule, event: Event): Result<Option<Category>> {
    if !RuleValid(rule) then Err("notification rule is invalid")
    else if !EventValid(event) then Err("notification decimal is invalid")
    else if !Concerns(rule, event) then Ok(None)
    else if event.Execution? then Ok(if rule.eventType == event.eventType then Some(ExecutionAlert) else None)
    else if event.previous.None? || RuleDirection(rule.eventType, event.metric).None? then Ok(None)
    else
      var crossed :- Crossed(RuleDirection(rule.eventType, event.metric).value, event.previous.value, event.current, rule.threshold);
      Ok(if crossed then Some(CategoryOf(event.metric)) else None)
  }

  function CategoryOf(metric: Metric): Category {
    match metric case Price => PriceAlert case Funding => FundingAlert case _ => RiskAlert
  }

  function Crossed(direction: Direction, previous: string, current: string, threshold: string): Result<bool> {
    var before :- CompareExact(previous, threshold);
    var now :- CompareExact(current, threshold);
    Ok(if direction == Above then before < 0 && now >= 0 else before > 0 && now <= 0)
  }

  /* ---- the samples of a rule ------------------------------------------------------- */

  /** A monitor update as the decoders read it for a rule: the metric in it, and how many of its executions concern the rule. */
  datatype Update =
    | BaselineUpdate(sample: Option<string>)
    | DeltaUpdate(executions: nat, sample: Option<string>)

  function MetricOf(eventType: EventType): Option<Metric> {
    match eventType
    case PriceAbove => Some(Price)
    case PriceBelow => Some(Price)
    case FundingAbove => Some(Funding)
    case FundingBelow => Some(Funding)
    case MarginRisk => Some(Margin)
    case LiquidationRisk => Some(Liquidation)
    case _ => None
  }

  type Metrics = map<EventType, string>

  function ExecutionEvents(rule: Rule, n: nat): seq<Event> {
    if MetricOf(rule.eventType).Some? || rule.link.None? then []
    else seq(n, i => Execution(rule.eventType, rule.network, rule.market, rule.link))
  }

  /** normalizeRuleUpdate: the events, and the metrics it leaves. */
  function Normalize(rule: Rule, metrics: Metrics, update: Update): (seq<Event>, Metrics) {
    match update
    case BaselineUpdate(sample) =>
      ([], if sample.Some? && MetricOf(rule.eventType).Some? then metrics[rule.eventType := sample.value] else metrics)
    case DeltaUpdate(executions, sample) =>
      var events := ExecutionEvents(rule, executions);
      if events != [] then (events, metrics)
      else if sample.None? || MetricOf(rule.eventType).None? then ([], metrics)
      else
        var previous := if rule.eventType in metrics then Some(metrics[rule.eventType]) else None;
        ([Sample(MetricOf(rule.eventType).value, rule.network, rule.market, rule.link, previous, sample.value)],
         metrics[rule.eventType := sample.value])
  }

  function Alert(r: Result<Option<Category>>): seq<Category> {
    if r.Ok? && r.value.Some? then [r.value.value] else []
  }

  function Matching(rule: Rule, events: seq<Event>): seq<Category> {
    if events == [] then [] else Matching(rule, events[..|events| - 1]) + Alert(Evaluate(rule, events[|events| - 1]))
  }

  /** The loop over the events of an update. */
  method EvaluateAll(rule: Rule, events: seq<Event>) returns (alerts: seq<Category>)
    ensures alerts == Matching(rule, events)
  {
    alerts := [];
    for i := 0 to |events|
      invariant alerts == Matching(rule, events[..i])
    {
      assert events[..i + 1][..i] == events[..i];
      alerts := alerts + Alert(Evaluate(rule, events[i]));
    }
    assert events[..|events|] == events;
  }

  /* ---- whole runs ---------------------------------------------------------------------- */

  function MetricsAfter(rule: Rule, updates: seq<Update>): Metrics {
    if updates == [] then map[]
    else Normalize(rule, MetricsAfter(rule, updates[..|updates| - 1]), updates[|updates| - 1]).1
  }

  /** The alerts of update `i` of a run. */
  function AlertsAt(rule: Rule, updates: seq<Update>, i: nat): seq<Category>
    requires i < |updates|
  {
    Matching(rule, Normalize(rule, MetricsAfter(rule, updates[..i]), updates[i]).0)
  }

  predicate Recorded(updates: seq<Update>, j: nat) {
    j < |updates| && updates[j].sample.Some?
  }

  /** `j` is the recorded sample immediately before `i`. */
  predicate Precedes(updates: seq<Update>, j: nat, i: nat) {
    j < i && Recorded(updates, j) && forall k: nat :: j < k < i ==> !Recorded(updates, k)
  }

  function DirectionOf(rule: Rule): Direction
    requires MetricOf(rule.eventType).Some?
  {
    if rule.eventType in {PriceBelow, FundingBelow, LiquidationRisk} then Below else Above
  }

  /** At or past the threshold. */
  predicate AtOrPast(rule: Rule, v: string)
    requires MetricOf(rule.eventType).Some? && RuleValid(rule)
  {
    IsDecimal(v) && if DirectionOf(rule) == Above then Value(v) >= Value(rule.threshold) else Value(v) <= Value(rule.threshold)
  }

  /** Strictly on the other side. */
  predicate FarSide(rule: Rule, v: string)
    requires MetricOf(rule.eventType).Some? && RuleValid(rule)
  {
    IsDecimal(v) && if DirectionOf(rule) == Above then Value(v) < Value(rule.threshold) else Value(v) > Value(rule.threshold)
  }

  lemma {:induction false} LastRecorded(rule: Rule, updates: seq<Update>)
    requires MetricOf(rule.eventType).Some?
    ensures rule.eventType in MetricsAfter(rule, updates) ==>
      exists j: nat :: Precedes(updates, j, |updates|) && updates[j].sample == Some(MetricsAfter(rule, updates)[rule.eventType])
    ensures rule.eventType !in MetricsAfter(rule, updates) ==> forall k: nat :: k < |updates| ==> !Recorded(updates, k)
  {
    if updates != [] {
      var init := updates[..|updates| - 1];
      LastRecorded(rule, init);
      assert forall k: nat :: k < |init| ==> init[k] == updates[k];
      if Recorded(updates, |init|) {
        assert Precedes(updates, |init|, |updates|);
      } else if rule.eventType in MetricsAfter(rule, init) {
        var j: nat :| Precedes(init, j, |init|) && init[j].sample == Some(MetricsAfter(rule, init)[rule.eventType]);
        assert Precedes(updates, j, |updates|) by {
          forall k: nat | j < k < |updates|
            ensures !Recorded(updates, k)
          {
            assert k < |init| ==> (Recorded(init, k) <==> Recorded(updates, k));
          }
        }
      } else {
        forall k: nat | k < |updates|
          ensures !Recorded(updates, k)
        {
          assert k < |init| ==> (Recorded(init, k) <==> Recorded(updates, k));
        }
      }
    }
  }

  lemma CrossedMeans(direction: Direction, previous: string, current: string, threshold: string)
    requires IsDecimal(previous) && IsDecimal(current) && IsDecimal(threshold)
    ensures Crossed(direction, previous, current, threshold) == Ok(
      if direction == Above then Value(previous) < Value(threshold) <= Value(current)
      else Value(previous) > Value(threshold) >= Value(current))
  {
    CompareIsOrder(previous, threshold);
    CompareIsOrder(current, threshold);
  }

  function OwnSample(rule: Rule, previous: Option<string>, current: string): Event
    requires MetricOf(rule.eventType).Some?
  {
    Sample(MetricOf(rule.eventType).value, rule.network, rule.market, rule.link, previous, current)
  }

  lemma DirectionAgrees(rule: Rule)
    requires MetricOf(rule.eventType).Some?
    ensures RuleDirection(rule.eventType, MetricOf(rule.eventType).value) == Some(DirectionOf(rule))
  {
  }

  /** The evaluator on a sample of the rule itself. */
  lemma SampleCrosses(rule: Rule, previous: Option<string>, current: string)
    requires MetricOf(rule.eventType).Some? && RuleValid(rule)
    ensures Alert(Evaluate(rule, OwnSample(rule, previous, current))) != [] <==>
      previous.Some? && FarSide(rule, previous.value) && AtOrPast(rule, current)
  {
    DirectionAgrees(rule);
    if previous.Some? && IsDecimal(previous.value) && IsDecimal(current) {
      CrossedMeans(DirectionOf(rule), previous.value, current, rule.threshold);
    }
  }

  /** Rule and event are about the same market, and about the same account or about none. */
  predicate SameSubject(rule: Rule, event: Event) {
    && rule.network == event.network && rule.market == event.market
    && if rule.account then rule.link == event.link else event.link.None?
  }

  /** The category found when a metric of the rule's type goes from `before` to `now`. */
  function Found(rule: Rule, metric: Metric, before: real, now: real): Option<Category>
    requires RuleValid(rule)
  {
    var threshold := Value(rule.threshold);
    var rises, falls := before < threshold <= now, before > threshold >= now;
    match metric
    case Price => if (rule.eventType == PriceAbove && rises) || (rule.eventType == PriceBelow && falls) then Some(PriceAlert) else None
    case Funding => if (rule.eventType == FundingAbove && rises) || (rule.eventType == FundingBelow && falls) then Some(FundingAlert) else None
    case Margin => if rule.eventType == MarginRisk && rises then Some(RiskAlert) else None
    case Liquidation => if rule.eventType == LiquidationRisk && falls then Some(RiskAlert) else None
  }

  lemma EvaluateCrossed(rule: Rule, event: Event)
    requires RuleValid(rule) && EventValid(event) && Concerns(rule, event) && event.Sample? && event.previous.Some?
    ensures var direction := RuleDirection(rule.eventType, event.metric);
      if direction.None? then Evaluate(rule, event) == Ok(None)
      else
        var crossed := Crossed(direction.value, event.previous.value, event.current, rule.threshold);
        crossed.Ok? ==> Evaluate(rule, event) == Ok(if crossed.value then Some(CategoryOf(event.metric)) else None)
  {
  }

  /** The six ways to find a crossing. */
  lemma FoundExactly(rule: Rule, metric: Metric, before: real, now: real)
    requires RuleValid(rule)
    ensures var direction, threshold := RuleDirection(rule.eventType, metric), Value(rule.threshold);
      Found(rule, metric, before, now) ==
        if direction.Some? && (if direction.value == Above then before < threshold <= now else before > threshold >= now)
        then Some(CategoryOf(metric)) else None
  {
  }

  lemma MatchSample(rule: Rule, event: Event)
    requires RuleValid(rule) && EventValid(event) && SameSubject(rule, event) && event.Sample? && event.previous.Some?
    ensures Evaluate(rule, event) == Ok(Found(rule, event.metric, Value(event.previous.value), Value(event.current)))
  {
    EvaluateCrossed(rule, event);
    FoundExactly(rule, event.metric, Value(event.previous.value), Value(event.current));
    var direction := RuleDirection(rule.eventType, event.metric);
    if direction.Some? {
      CrossedMeans(direction.value, event.previous.value, event.current, rule.threshold);
    }
  }

  /** What an evaluation that does not throw finds: an execution of the rule's own type, or a crossing of its own metric from a known previous value. */
  lemma MatchExactly(rule: Rule, event: Event)
    requires RuleValid(rule) && EventValid(event)
    ensures Evaluate(rule, event) == Ok(
      if !SameSubject(rule, event) then None
      else match event
        case Execution(eventType, _, _, _) => if rule.eventType == eventType then Some(ExecutionAlert) else None
        case Sample(metric, _, _, _, previous, current) =>
          if previous.None? then None else Found(rule, metric, Value(previous.value), Value(current)))
  {
    if SameSubject(rule, event) && event.Sample? && event.previous.Some? { MatchSample(rule, event); }
  }

  /** A rule or a decimal it cannot read makes it throw, before anything else. */
  lemma ThrowsExactly(rule: Rule, event: Event)
    ensures Evaluate(rule, event).Ok? <==>
      && IsDecimal(rule.threshold) && (rule.account <==> rule.link.Some?)
      && (event.Sample? ==> IsDecimal(event.current) && (event.previous.Some? ==> IsDecimal(event.previous.value)))
  {
    if RuleValid(rule) && EventValid(event) { MatchExactly(rule, event); }
  }

  /** The category of the alerts of a metric rule. */
  function OwnCategory(eventType: EventType): Category {
    if eventType in {PriceAbove, PriceBelow} then PriceAlert
    else if eventType in {FundingAbove, FundingBelow} then FundingAlert
    else RiskAlert
  }

  lemma OwnAlert(rule: Rule, previous: Option<string>, current: string)
    requires MetricOf(rule.eventType).Some?
    ensures Alert(Evaluate(rule, OwnSample(rule, previous, current))) in {[], [OwnCategory(rule.eventType)]}
  {
    var event := OwnSample(rule, previous, current);
    ThrowsExactly(rule, event);
    if RuleValid(rule) && EventValid(event) && previous.Some? {
      MatchSample(rule, event);
      FoundOwn(rule, Value(previous.value), Value(current));
    }
  }

  lemma FoundOwn(rule: Rule, before: real, now: real)
    requires RuleValid(rule) && MetricOf(rule.eventType).Some?
    ensures Found(rule, MetricOf(rule.eventType).value, before, now) in {None, Some(OwnCategory(rule.eventType))}
  {
  }

  lemma MatchingOne(rule: Rule, event: Event)
    ensures Matching(rule, [event]) == Alert(Evaluate(rule, event))
  {
    assert [event][..0] == [];
  }

  /** What one update means for a metric rule: at most one alert, of its category, and one exactly when the sample crosses from the last recorded one. */
  lemma MetricAlerts(rule: Rule, metrics: Metrics, update: Update)
    requires MetricOf(rule.eventType).Some? && RuleValid(rule)
    ensures var alerts := Matching(rule, Normalize(rule, metrics, update).0);
      && alerts in {[], [OwnCategory(rule.eventType)]}
      && (alerts != [] <==>
            && update.DeltaUpdate? && update.sample.Some? && AtOrPast(rule, update.sample.value)
            && rule.eventType in metrics && FarSide(rule, metrics[rule.eventType]))
  {
    if update.DeltaUpdate? && update.sample.Some? {
      var previous := if rule.eventType in metrics then Some(metrics[rule.eventType]) else None;
      SampleCrosses(rule, previous, update.sample.value);
      OwnAlert(rule, previous, update.sample.value);
      MatchingOne(rule, OwnSample(rule, previous, update.sample.value));
    }
  }

  /** An execution rule alerts once for every execution that concerns it. */
  lemma {:induction false} ExecutionAlerts(rule: Rule, n: nat)
    requires MetricOf(rule.eventType).None? && rule.link.Some? && RuleValid(rule)
    ensures Matching(rule, ExecutionEvents(rule, n)) == seq(n, i => ExecutionAlert)
  {
    if n > 0 {
      ExecutionAlerts(rule, n - 1);
      var events := ExecutionEvents(rule, n);
      assert events[..n - 1] == ExecutionEvents(rule, n - 1);
    }
  }

  /** How often an update of an execution rule is an alert. */
  function Executions(rule: Rule, update: Update): nat {
    if update.DeltaUpdate? && rule.link.Some? && RuleValid(rule) then update.executions else 0
  }

  lemma ExecutionRuleAlerts(rule: Rule, metrics: Metrics, update: Update)
    requires MetricOf(rule.eventType).None?
    ensures Matching(rule, Normalize(rule, metrics, update).0) == seq(Executions(rule, update), i => ExecutionAlert)
    ensures Normalize(rule, metrics, update).1 == metrics
  {
    if !RuleValid(rule) { InvalidNeverMatches(rule, Normalize(rule, metrics, update).0); }
    else if update.DeltaUpdate? && rule.link.Some? { ExecutionAlerts(rule, update.executions); }
  }

  /** The recorded sample before `i`, if any, is what the worker compares with. */
  lemma AlertsCompare(rule: Rule, updates: seq<Update>, i: nat)
    requires i < |updates| && MetricOf(rule.eventType).Some? && RuleValid(rule)
    ensures var metrics := MetricsAfter(rule, updates[..i]);
      AlertsAt(rule, updates, i) != [] <==>
        && updates[i].DeltaUpdate? && updates[i].sample.Some? && AtOrPast(rule, updates[i].sample.value)
        && rule.eventType in metrics && FarSide(rule, metrics[rule.eventType])
  {
    MetricAlerts(rule, MetricsAfter(rule, updates[..i]), updates[i]);
  }

  lemma PrecedesInPrefix(updates: seq<Update>, j: nat, i: nat)
    requires i <= |updates|
    ensures Precedes(updates[..i], j, i) <==> Precedes(updates, j, i)
  {
    assert forall k: nat :: k < i ==> (Recorded(updates[..i], k) <==> Recorded(updates, k));
  }

  /** A metric rule alerts exactly at the deltas at or past its threshold whose preceding recorded sample was strictly on the other side. */
  lemma AlertsExactlyAtCrossings(rule: Rule, updates: seq<Update>, i: nat)
    requires i < |updates| && MetricOf(rule.eventType).Some? && RuleValid(rule)
    ensures AlertsAt(rule, updates, i) != [] <==>
      && updates[i].DeltaUpdate? && updates[i].sample.Some? && AtOrPast(rule, updates[i].sample.value)
      && exists j: nat :: Precedes(updates, j, i) && FarSide(rule, updates[j].sample.value)
  {
    AlertsCompare(rule, updates, i);
    LastRecorded(rule, updates[..i]);
    var metrics := MetricsAfter(rule, updates[..i]);
    if rule.eventType in metrics {
      var j: nat :| Precedes(updates[..i], j, i) && updates[..i][j].sample == Some(metrics[rule.eventType]);
      PrecedesInPrefix(updates, j, i);
      forall k: nat | Precedes(updates, k, i)
        ensures k == j
      {
      }
    } else {
      forall k: nat
        ensures !Precedes(updates, k, i)
      {
        PrecedesInPrefix(updates, k, i);
      }
    }
  }

  /** A rule whose threshold or scope is invalid never alerts. */
  lemma InvalidRuleNeverAlerts(rule: Rule, updates: seq<Update>, i: nat)
    requires i < |updates| && !RuleValid(rule)
    ensures AlertsAt(rule, updates, i) == []
  {
    InvalidNeverMatches(rule, Normalize(rule, MetricsAfter(rule, updates[..i]), updates[i]).0);
  }

  lemma {:induction false} InvalidNeverMatches(rule: Rule, events: seq<Event>)
    requires !RuleValid(rule)
    ensures Matching(rule, events) == []
  {
    if events != [] { InvalidNeverMatches(rule, events[..|events| - 1]); }
  }

  /** Between two alerts some recorded sample lies strictly on the far side. */
  lemma FarSideBetweenAlerts(rule: Rule, updates: seq<Update>, i: nat, k: nat)
    requires i < k < |updates| && MetricOf(rule.eventType).Some? && RuleValid(rule)
    requires AlertsAt(rule, updates, i) != [] && AlertsAt(rule, updates, k) != []
    ensures exists j: nat :: i < j < k && Recorded(updates, j) && FarSide(rule, updates[j].sample.value)
  {
    AlertsExactlyAtCrossings(rule, updates, i);
    AlertsExactlyAtCrossings(rule, updates, k);
    var j: nat :| Precedes(updates, j, k) && FarSide(rule, updates[j].sample.value);
    assert Recorded(updates, i);
    assert j != i;
  }

  /* ---- one rule's state in the worker ------------------------------------------------ */

  class RuleState {
    const rule: Rule
    var metrics: Metrics

    constructor (rule: Rule)
      ensures this.rule == rule && metrics == map[]
    {
      this.rule := rule;
      metrics := map[];
    }

    /**
     #handleUpdate: the alerts it asks the store to create. A throwing evaluation is
     reported and skipped. The last clause names the run functions above. */
    method HandleUpdate(update: Update) returns (alerts: seq<Category>)
      modifies this
      ensures MetricOf(rule.eventType).Some? && RuleValid(rule) ==>
        && alerts in {[], [OwnCategory(rule.eventType)]}
        && (alerts != [] <==>
              && update.DeltaUpdate? && update.sample.Some? && AtOrPast(rule, update.sample.value)
              && rule.eventType in old(metrics) && FarSide(rule, old(metrics)[rule.eventType]))
      ensures MetricOf(rule.eventType).None? ==> alerts == seq(Executions(rule, update), i => ExecutionAlert)
      ensures !RuleValid(rule) ==> alerts == []
      ensures metrics ==
        if MetricOf(rule.eventType).Some? && update.sample.Some? then old(metrics)[rule.eventType := update.sample.value]
        else old(metrics)
      ensures Matching(rule, Normalize(rule, old(metrics), update).0) == alerts
    {
      var events: seq<Event> := [];
      var metric := MetricOf(rule.eventType);
      if update.BaselineUpdate? {
        if metric.Some? && update.sample.Some? {
          metrics := metrics[rule.eventType := update.sample.value];
        }
      } else {
        events := ExecutionEvents(rule, update.executions);
        if events == [] && metric.Some? && update.sample.Some? {
          var previous := if rule.eventType in metrics then Some(metrics[rule.eventType]) else None;
          metrics := metrics[rule.eventType := update.sample.value];
          events := [OwnSample(rule, previous, update.sample.value)];
        }
      }
      alerts := EvaluateAll(rule, events);
      if metric.None? {
        ExecutionRuleAlerts(rule, old(metrics), update);
      } else if RuleValid(rule) {
        MetricAlerts(rule, old(metrics), update);
      }
      if !RuleValid(rule) { InvalidNeverMatches(rule, events); }
    }
  }
}
