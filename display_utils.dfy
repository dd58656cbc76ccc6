/** The dashboard's colour lookups: cache health, cache type and component
    status, each mapped to a PatternFly chart colour token. The lookups are
    methods of a singleton with no fields, so they are plain functions here. */
module DisplayUtils {

  /** The PatternFly chart colour tokens the lookups use (`chart_color_<name>`). */
  datatype ChartColor =
    | Black100 | Black300 | Black400 | Black500
    | Blue200 | Cyan300 | Cyan400 | Gold300 | Green300
    | Orange300 | Purple200 | Red300 | Red400

  /** The colour of every key that no case lists. */
  const DefaultColor: ChartColor := Black100

  const HealthStates: set<string> := {"HEALTHY", "HEALTHY_REBALANCING", "DEGRADED"}

  const CacheTypes: set<string> := {"Distributed", "Replicated", "Local", "Invalidated", "Scattered"}

  const ComponentStates: set<string> :=
    {"STOPPING", "RUNNING", "INSTANTIATED", "INITIALIZING", "FAILED", "TERMINATED"}

  /** Colour of a cache's health; exact, case-sensitive key match. */
  function HealthColor(health: string): (c: ChartColor)
    ensures c == Green300 <==> health == "HEALTHY"
    ensures c == Orange300 <==> health == "HEALTHY_REBALANCING"
    ensures c == Red300 <==> health == "DEGRADED"
    ensures c == DefaultColor <==> health !in HealthStates
  {
    match health
    case "HEALTHY" => Green300
    case "HEALTHY_REBALANCING" => Orange300
    case "DEGRADED" => Red300
    case _ => DefaultColor
  }

  /** Colour of a cache type: five listed types, five distinct colours. */
  function CacheTypeColor(cacheType: string): (c: ChartColor)
    ensures c == Blue200 <==> cacheType == "Distributed"
    ensures c == Purple200 <==> cacheType == "Replicated"
    ensures c == Cyan300 <==> cacheType == "Local"
    ensures c == Gold300 <==> cacheType == "Invalidated"
    ensures c == Black300 <==> cacheType == "Scattered"
    ensures c == DefaultColor <==> cacheType !in CacheTypes
  {
    match cacheType
    case "Distributed" => Blue200
    case "Replicated" => Purple200
    case "Local" => Cyan300
    case "Invalidated" => Gold300
    case "Scattered" => Black300
    case _ => DefaultColor
  }

  /** Colour of a component status: six listed states, six distinct colours. */
  function StatusColor(componentStatus: string): (c: ChartColor)
    ensures c == Black400 <==> componentStatus == "STOPPING"
    ensures c == Green300 <==> componentStatus == "RUNNING"
    ensures c == Cyan400 <==> componentStatus == "INSTANTIATED"
    ensures c == Orange300 <==> componentStatus == "INITIALIZING"
    ensures c == Red400 <==> componentStatus == "FAILED"
    ensures c == Black500 <==> componentStatus == "TERMINATED"
    ensures c == DefaultColor <==> componentStatus !in ComponentStates
  {
    match componentStatus
    case "STOPPING" => Black400
    case "RUNNING" => Green300
    case "INSTANTIATED" => Cyan400
    case "INITIALIZING" => Orange300
    case "FAILED" => Red400
    case "TERMINATED" => Black500
    case _ => DefaultColor
  }

  /** Distinct listed cache types get distinct colours, none the default. */
  lemma CacheTypeColorsDistinct(s: string, t: string)
    requires s in CacheTypes && t in CacheTypes && s != t
    ensures CacheTypeColor(s) != CacheTypeColor(t)
    ensures CacheTypeColor(s) != DefaultColor
  {
  }

  /** Distinct listed component states get distinct colours, none the default. */
  lemma StatusColorsDistinct(s: string, t: string)
    requires s in ComponentStates && t in ComponentStates && s != t
    ensures StatusColor(s) != StatusColor(t)
    ensures StatusColor(s) != DefaultColor
  {
  }

  /** The health and status palettes share two colours, and keys differing
      only in case fall back to the default. */
  lemma SharedAndFallbackColors()
    ensures HealthColor("HEALTHY") == StatusColor("RUNNING") == Green300
    ensures HealthColor("HEALTHY_REBALANCING") == StatusColor("INITIALIZING") == Orange300
    ensures HealthColor("healthy") == DefaultColor
    ensures StatusColor("running") == DefaultColor
    ensures CacheTypeColor("DISTRIBUTED") == DefaultColor
  {
  }
}
