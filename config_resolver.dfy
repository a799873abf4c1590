/**
 * Typed accessors over the configuration the host injects at page load
 * (`getConfigField`, `resolveFieldName`, `mapViewName`, `getFirstDayOfWeek`).
 */
module ConfigResolver {
  import opened Prelude
  import opened Strings

  /**
   * The injected configuration: setting name to the `value` of its
   * `{type, value}` entry, `None` when that value is `null`/`undefined`.
   */
  type Config = map<string, Option<string>>

  /** `config[key].value ?? defaultValue`: only a missing or null value falls back, `""` does not. */
  function GetConfigField(config: Config, key: string, defaultValue: string): (r: string)
    ensures key in config && config[key].Some? ==> r == config[key].value
    ensures key !in config || config[key].None? ==> r == defaultValue
  {
    if key in config && config[key].Some? then config[key].value else defaultValue
  }

  /**
   * The bare host field name for a logical field: the second `::`-separated
   * segment of the configured reference when that segment is non-empty, else
   * the configured value itself when non-empty, else the setting's own name.
   */
  function ResolveFieldName(config: Config, configKey: string): (r: string)
    ensures configKey != "" ==> r != ""
  {
    var fullRef := GetConfigField(config, configKey, configKey);
    var parts := Split(fullRef, "::");
    if |parts| > 1 && parts[1] != "" then parts[1]
    else if fullRef != "" then fullRef
    else configKey
  }

  /** `"Visits::StartDate"` resolves to `"StartDate"`. */
  lemma ResolveQualified(config: Config, key: string, table: string, field: string)
    requires key in config && config[key] == Some(table + "::" + field)
    requires Lacks(table, ':') && Lacks(field, ':') && field != ""
    ensures ResolveFieldName(config, key) == field
  {
    SplitFirst(table, "::", field);
    SplitNone(field, "::");
  }

  /**
   * Only the segment between the first and the second separator is taken:
   * `"A::B::C"` resolves to `"B"`, not to `"B::C"`.
   */
  lemma ResolveTakesSecondSegment(config: Config, key: string, table: string, field: string, rest: string)
    requires key in config && config[key] == Some(table + "::" + field + "::" + rest)
    requires Lacks(table, ':') && Lacks(field, ':') && field != ""
    ensures ResolveFieldName(config, key) == field
  {
    SecondSegment(table, field, rest);
  }

  lemma SecondSegment(table: string, field: string, rest: string)
    requires Lacks(table, ':') && Lacks(field, ':')
    ensures var parts := Split(table + "::" + field + "::" + rest, "::");
      |parts| > 1 && parts[1] == field
  {
    assert table + "::" + field + "::" + rest == table + "::" + (field + "::" + rest);
    SplitFirst(table, "::", field + "::" + rest);
    SplitFirst(field, "::", rest);
  }

  /** A configured value without a separator is used as it is. */
  lemma ResolveUnqualified(config: Config, key: string, value: string)
    requires key in config && config[key] == Some(value)
    requires Lacks(value, ':') && value != ""
    ensures ResolveFieldName(config, key) == value
  {
    SplitNone(value, "::");
  }

  /** An unconfigured, null or empty setting resolves to the setting's own name. */
  lemma ResolveUnconfigured(config: Config, key: string)
    requires key !in config || config[key] == None || config[key] == Some("")
    requires Lacks(key, ':')
    ensures ResolveFieldName(config, key) == key
  {
    SplitNone(key, "::");
    SplitNone("", "::");
  }

  /** The logical view names and the calendar widget's view identifiers. */
  const ViewNames: map<string, string> := map[
    "Month" := "dayGridMonth",
    "Week" := "timeGridWeek",
    "Day" := "timeGridDay",
    "List" := "listWeek",
    "Year" := "multiMonthYear"
  ]

  /** Translates a logical view name; anything else passes through unchanged. */
  function MapViewName(viewName: string): (r: string)
    ensures viewName in ViewNames ==> r == ViewNames[viewName]
    ensures viewName !in ViewNames ==> r == viewName
  {
    if viewName in ViewNames then ViewNames[viewName] else viewName
  }

  /** Mapping an already-mapped view identifier changes nothing. */
  lemma MapViewNameIdempotent(viewName: string)
    ensures MapViewName(MapViewName(viewName)) == MapViewName(viewName)
  {
  }

  /** `getFirstDayOfWeek`: Monday (1) exactly when StartOnDay is `"Monday"`, else Sunday (0). */
  function FirstDayOfWeek(config: Config): (r: int)
    ensures r == 0 || r == 1
    ensures r == 1 <==> "StartOnDay" in config && config["StartOnDay"] == Some("Monday")
  {
    if GetConfigField(config, "StartOnDay", "Sunday") == "Monday" then 1 else 0
  }
}
