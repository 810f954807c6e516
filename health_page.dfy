/** The system health page (app/health/page.tsx): three polled health queries, each
    shown as a card coloured by its status, and an overall verdict over the three. */
module HealthPage {
  import opened Wrappers
  import opened Seqs
  import opened Types
  import opened Query

  function HealthKey(s: HealthService): (k: QueryKey)
    ensures |k| == 2 && k[0] == "health" && k[1] == HealthServiceName(s)
  {
    ["health", HealthServiceName(s)]
  }

  /** One card: its title and the answer of its query, absent until the query has data. */
  datatype Card = Card(name: string, data: Option<SystemHealth>)

  /** Database, Cache and System, in that order. */
  function Cards(db: Option<SystemHealth>, cache: Option<SystemHealth>, system: Option<SystemHealth>): (cs: seq<Card>)
    ensures |cs| == 3
    ensures cs[0].name == "Database" && cs[1].name == "Cache" && cs[2].name == "System"
    ensures cs[0].data == db && cs[1].data == cache && cs[2].data == system
  {
    [Card("Database", db), Card("Cache", cache), Card("System", system)]
  }

  /** `service.data?.status || 'unknown'`: the status name, or "unknown" while there is no data. */
  function StatusOf(data: Option<SystemHealth>): (s: string)
    ensures data.None? <==> s == "unknown"
    ensures data.Some? ==> s == HealthStatusName(data.value.status)
  {
    if data.Some? then HealthStatusName(data.value.status) else "unknown"
  }

  /** The details row spells the missing case "Unknown" instead. */
  function DetailStatusLabel(data: Option<SystemHealth>): (s: string)
    ensures data.None? <==> s == "Unknown"
    ensures data.Some? ==> s == StatusOf(data)
  {
    if data.Some? then HealthStatusName(data.value.status) else "Unknown"
  }

  datatype Icon = CheckCircle | AlertTriangle | XCircle | ActivityIcon

  /** `getStatusIcon`: one icon per known status, the activity icon for anything else. */
  function StatusIcon(status: string): (i: Icon)
    ensures i == CheckCircle <==> status == "healthy"
    ensures i == AlertTriangle <==> status == "warning"
    ensures i == XCircle <==> status == "error"
  {
    match status
    case "healthy" => CheckCircle
    case "warning" => AlertTriangle
    case "error" => XCircle
    case _ => ActivityIcon
  }

  /** `getStatusColor`: green, yellow and red for the three statuses, grey for anything else. */
  function StatusColor(status: string): (c: string)
    ensures status == "healthy" ==> c == "text-green-600 bg-green-50 border-green-200"
    ensures status == "warning" ==> c == "text-yellow-600 bg-yellow-50 border-yellow-200"
    ensures status == "error" ==> c == "text-red-600 bg-red-50 border-red-200"
    ensures status !in {"healthy", "warning", "error"} ==> c == "text-gray-600 bg-gray-50 border-gray-200"
  {
    match status
    case "healthy" => "text-green-600 bg-green-50 border-green-200"
    case "warning" => "text-yellow-600 bg-yellow-50 border-yellow-200"
    case "error" => "text-red-600 bg-red-50 border-red-200"
    case _ => "text-gray-600 bg-gray-50 border-gray-200"
  }

  /** A card with no data yet is drawn grey with the activity icon. */
  lemma MissingDataLooksUnknown()
    ensures StatusIcon(StatusOf(None)) == ActivityIcon
    ensures StatusColor(StatusOf(None)) == "text-gray-600 bg-gray-50 border-gray-200"
  {
  }

  predicate IsHealthy(c: Card) {
    c.data.Some? && c.data.value.status == Healthy
  }

  predicate IsError(c: Card) {
    c.data.Some? && c.data.value.status == Error
  }

  datatype Verdict = AllSystemsOperational | SystemIssuesDetected | SomeWarnings

  /** The overview: operational when every card is healthy, issues when some card is in
      error, warnings otherwise — which includes cards still without data. */
  function Overall(cards: seq<Card>): (v: Verdict)
    ensures v == AllSystemsOperational <==> forall c :: c in cards ==> IsHealthy(c)
    ensures v == SystemIssuesDetected <==> (exists c :: c in cards && IsError(c))
    ensures v == SomeWarnings <==>
      (exists c :: c in cards && !IsHealthy(c)) && forall c :: c in cards ==> !IsError(c)
  {
    if forall c :: c in cards ==> IsHealthy(c) then AllSystemsOperational
    else if exists c :: c in cards && IsError(c) then SystemIssuesDetected
    else SomeWarnings
  }

  /** While any query is still loading and none reports an error, the page shows warnings. */
  lemma LoadingIsAWarning(db: Option<SystemHealth>, cache: Option<SystemHealth>, system: Option<SystemHealth>)
    requires db.None? || cache.None? || system.None?
    requires forall c :: c in Cards(db, cache, system) ==> !IsError(c)
    ensures Overall(Cards(db, cache, system)) == SomeWarnings
  {
    var cs := Cards(db, cache, system);
    if db.None? { assert !IsHealthy(cs[0]); }
    else if cache.None? { assert !IsHealthy(cs[1]); }
    else { assert !IsHealthy(cs[2]); }
  }

  /** `healthServices.filter(healthy).length` */
  function HealthyCount(cards: seq<Card>): (n: nat)
    ensures n <= |cards|
  {
    |Filter(cards, IsHealthy)|
  }

  /** The healthy count equals the number of services monitored exactly when the
      overview says all systems are operational. */
  lemma CountAgreesWithVerdict(cards: seq<Card>)
    ensures HealthyCount(cards) == |cards| <==> Overall(cards) == AllSystemsOperational
  {
    if HealthyCount(cards) == |cards| {
      FilterFullLength(cards, IsHealthy);
    } else {
      if forall c :: c in cards ==> IsHealthy(c) {
        FilterKeepsEverything(cards, IsHealthy);
      }
    }
  }
}
