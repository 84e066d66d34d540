/**
 * `_build_insights_params` and the four insights tools (server.py): the
 * generic builder first, then the insights-only rules for the time window,
 * the time increment and the three attribution flags.
 */
module Insights {
  import opened Wrappers
  import opened Values
  import opened Params
  import opened Graph
  import opened Query
  import Json

  /** The keyword arguments of `_build_insights_params` after `params`. */
  datatype InsightsOptions = InsightsOptions(
    fields: Value,
    datePreset: Value,
    timeRange: Value,
    timeRanges: Value,
    timeIncrement: Value,
    level: Value,
    actionAttributionWindows: Value,
    actionBreakdowns: Value,
    actionReportTime: Value,
    breakdowns: Value,
    defaultSummary: Value,
    useAccountAttributionSetting: Value,
    useUnifiedAttributionSetting: Value,
    filtering: Value,
    sort: Value,
    limit: Value,
    after: Value,
    before: Value,
    offset: Value,
    since: Value,
    until: Value,
    locale: Value)

  /** The arguments forwarded to `_prepare_params`, in the source's order. */
  function ForwardedKwargs(o: InsightsOptions): Kwargs {
    [("fields", o.fields), ("level", o.level),
     ("action_attribution_windows", o.actionAttributionWindows),
     ("action_breakdowns", o.actionBreakdowns),
     ("action_report_time", o.actionReportTime), ("breakdowns", o.breakdowns),
     ("filtering", o.filtering), ("sort", o.sort), ("limit", o.limit),
     ("after", o.after), ("before", o.before), ("offset", o.offset),
     ("locale", o.locale)]
  }

  const ForwardedKeys: set<string> := {
    "fields", "level", "action_attribution_windows", "action_breakdowns",
    "action_report_time", "breakdowns", "filtering", "sort", "limit",
    "after", "before", "offset", "locale"
  }

  /** The keys only the insights rules write. */
  const RuleKeys: set<string> := {
    "date_preset", "time_range", "time_ranges", "time_increment", "since",
    "until", "default_summary", "use_account_attribution_setting",
    "use_unified_attribution_setting"
  }

  predicate TimeGiven(o: InsightsOptions) {
    Truthy(o.timeRange) || Truthy(o.timeRanges) || Truthy(o.since) || Truthy(o.until)
  }

  /** `date_preset` is sent only when no time option is truthy. */
  predicate DatePresetSent(o: InsightsOptions) {
    !TimeGiven(o) && Truthy(o.datePreset)
  }

  /** `all_days` is the API default, so it is never sent. */
  predicate TimeIncrementSent(o: InsightsOptions) {
    Truthy(o.timeIncrement) && o.timeIncrement != VStr("all_days")
  }

  /** `since`/`until` page by time only when no explicit range is set. */
  predicate NoRange(o: InsightsOptions) {
    !Truthy(o.timeRange) && !Truthy(o.timeRanges)
  }

  /** The insights-only stores of `_build_insights_params`, in the order it makes them. */
  function InsightsRules(o: InsightsOptions): seq<Store> {
    [Store("date_preset", DatePresetSent(o), AsIs, o.datePreset),
     Store("time_range", Truthy(o.timeRange), JsonText, o.timeRange),
     Store("time_ranges", Truthy(o.timeRanges), JsonText, o.timeRanges),
     Store("time_increment", TimeIncrementSent(o), AsIs, o.timeIncrement),
     Store("since", NoRange(o) && Truthy(o.since), AsIs, o.since),
     Store("until", NoRange(o) && Truthy(o.until), AsIs, o.until),
     Store("default_summary", Truthy(o.defaultSummary), AsIs, VStr("true")),
     Store("use_account_attribution_setting", Truthy(o.useAccountAttributionSetting), AsIs, VStr("true")),
     Store("use_unified_attribution_setting", Truthy(o.useUnifiedAttributionSetting), AsIs, VStr("true"))]
  }

  lemma ForwardedKwargsFacts(o: InsightsOptions)
    ensures DistinctKeys(ForwardedKwargs(o))
    ensures GivenKeys(ForwardedKwargs(o)) <= ForwardedKeys
  {
  }

  /** Every forwarded option is stored as `_prepare_params` stores it. */
  ghost predicate ForwardedSent(p: Params, base: Params, o: InsightsOptions) {
    && Prepared(p, base, "fields", o.fields)
    && Prepared(p, base, "level", o.level)
    && Prepared(p, base, "action_attribution_windows", o.actionAttributionWindows)
    && Prepared(p, base, "action_breakdowns", o.actionBreakdowns)
    && Prepared(p, base, "action_report_time", o.actionReportTime)
    && Prepared(p, base, "breakdowns", o.breakdowns)
    && Prepared(p, base, "filtering", o.filtering)
    && Prepared(p, base, "sort", o.sort)
    && Prepared(p, base, "limit", o.limit)
    && Prepared(p, base, "after", o.after)
    && Prepared(p, base, "before", o.before)
    && Prepared(p, base, "offset", o.offset)
    && Prepared(p, base, "locale", o.locale)
  }

  /** The insights rules: time-window precedence, time increment, attribution flags. */
  ghost predicate RulesSent(p: Params, base: Params, o: InsightsOptions) {
    && Sets(p, base, "date_preset", DatePresetSent(o), o.datePreset)
    && Sets(p, base, "time_range", Truthy(o.timeRange), VStr(Json.Encode(o.timeRange)))
    && Sets(p, base, "time_ranges", Truthy(o.timeRanges), VStr(Json.Encode(o.timeRanges)))
    && Sets(p, base, "time_increment", TimeIncrementSent(o), o.timeIncrement)
    && Sets(p, base, "since", NoRange(o) && Truthy(o.since), o.since)
    && Sets(p, base, "until", NoRange(o) && Truthy(o.until), o.until)
    && Sets(p, base, "default_summary", Truthy(o.defaultSummary), VStr("true"))
    && Sets(p, base, "use_account_attribution_setting", Truthy(o.useAccountAttributionSetting), VStr("true"))
    && Sets(p, base, "use_unified_attribution_setting", Truthy(o.useUnifiedAttributionSetting), VStr("true"))
  }

  lemma PreparedForwarded(base: Params, o: InsightsOptions)
    requires Prepare(base, ForwardedKwargs(o)).Success?
    ensures ForwardedSent(Prepare(base, ForwardedKwargs(o)).value, base, o)
    ensures Prepare(base, ForwardedKwargs(o)).value.Keys <= base.Keys + ForwardedKeys
    ensures forall k :: k !in ForwardedKeys ==> Kept(Prepare(base, ForwardedKwargs(o)).value, base, k)
  {
    var kwargs := ForwardedKwargs(o);
    ForwardedKwargsFacts(o);
    PrepareContents(base, kwargs);
    var p := Prepare(base, kwargs).value;
    assert Prepared(p, base, kwargs[0].0, kwargs[0].1);
    assert Prepared(p, base, kwargs[1].0, kwargs[1].1);
    assert Prepared(p, base, kwargs[2].0, kwargs[2].1);
    assert Prepared(p, base, kwargs[3].0, kwargs[3].1);
    assert Prepared(p, base, kwargs[4].0, kwargs[4].1);
    assert Prepared(p, base, kwargs[5].0, kwargs[5].1);
    assert Prepared(p, base, kwargs[6].0, kwargs[6].1);
    assert Prepared(p, base, kwargs[7].0, kwargs[7].1);
    assert Prepared(p, base, kwargs[8].0, kwargs[8].1);
    assert Prepared(p, base, kwargs[9].0, kwargs[9].1);
    assert Prepared(p, base, kwargs[10].0, kwargs[10].1);
    assert Prepared(p, base, kwargs[11].0, kwargs[11].1);
    assert Prepared(p, base, kwargs[12].0, kwargs[12].1);
  }

  lemma InsightsRulesKeys(o: InsightsOptions)
    ensures DistinctStoreKeys(InsightsRules(o))
    ensures forall i :: 0 <= i < |InsightsRules(o)| ==> InsightsRules(o)[i].key in RuleKeys
    ensures forall i :: 0 <= i < |InsightsRules(o)| ==> InsightsRules(o)[i].enc != CommaJoined
  {
  }

  lemma KeysDisjoint()
    ensures ForwardedKeys !! RuleKeys
  {
  }

  /** Rule `i` decides its key relative to `base`, which the generic builder left alone. */
  lemma RuleDecides(p: Params, base: Params, o: InsightsOptions, i: nat)
    requires i < |InsightsRules(o)|
    requires Kept(p, base, InsightsRules(o)[i].key)
    ensures ApplyStores(p, InsightsRules(o)).Success?
    ensures Emits(ApplyStores(p, InsightsRules(o)).value, base, InsightsRules(o)[i])
  {
    var rules := InsightsRules(o);
    InsightsRulesKeys(o);
    ApplyStoresContents(p, rules);
    EmitsTrans(ApplyStores(p, rules).value, p, base, rules[i]);
  }

  lemma RulesApplied(p: Params, base: Params, o: InsightsOptions)
    requires forall k :: k in RuleKeys ==> Kept(p, base, k)
    ensures ApplyStores(p, InsightsRules(o)).Success?
    ensures RulesSent(ApplyStores(p, InsightsRules(o)).value, base, o)
    ensures forall k :: k !in RuleKeys ==> Kept(ApplyStores(p, InsightsRules(o)).value, p, k)
  {
    var rules := InsightsRules(o);
    InsightsRulesKeys(o);
    ApplyStoresContents(p, rules);
    RuleDecides(p, base, o, 0);
    RuleDecides(p, base, o, 1);
    RuleDecides(p, base, o, 2);
    RuleDecides(p, base, o, 3);
    RuleDecides(p, base, o, 4);
    RuleDecides(p, base, o, 5);
    RuleDecides(p, base, o, 6);
    RuleDecides(p, base, o, 7);
    RuleDecides(p, base, o, 8);
  }

  lemma ForwardedSurvive(p: Params, base: Params, o: InsightsOptions)
    requires ForwardedSent(p, base, o)
    requires forall k :: k in RuleKeys ==> Kept(p, base, k)
    ensures ApplyStores(p, InsightsRules(o)).Success?
    ensures ForwardedSent(ApplyStores(p, InsightsRules(o)).value, base, o)
  {
    RulesApplied(p, base, o);
    KeysDisjoint();
    var q := ApplyStores(p, InsightsRules(o)).value;
    PreparedSurvives(q, p, base, "fields", o.fields);
    PreparedSurvives(q, p, base, "level", o.level);
    PreparedSurvives(q, p, base, "action_attribution_windows", o.actionAttributionWindows);
    PreparedSurvives(q, p, base, "action_breakdowns", o.actionBreakdowns);
    PreparedSurvives(q, p, base, "action_report_time", o.actionReportTime);
    PreparedSurvives(q, p, base, "breakdowns", o.breakdowns);
    PreparedSurvives(q, p, base, "filtering", o.filtering);
    PreparedSurvives(q, p, base, "sort", o.sort);
    PreparedSurvives(q, p, base, "limit", o.limit);
    PreparedSurvives(q, p, base, "after", o.after);
    PreparedSurvives(q, p, base, "before", o.before);
    PreparedSurvives(q, p, base, "offset", o.offset);
    PreparedSurvives(q, p, base, "locale", o.locale);
  }

  /** A stored argument survives later stores that leave its key alone. */
  lemma PreparedSurvives(q: Params, p: Params, base: Params, key: string, v: Value)
    requires Prepared(p, base, key, v)
    requires Kept(q, p, key)
    ensures Prepared(q, base, key, v)
  {
  }

  /**
   * `_build_insights_params(base, **o)`: it raises only when a forwarded list
   * option cannot be comma-joined; otherwise every forwarded option is stored
   * as the generic builder stores it, the insights rules decide the time and
   * flag keys, and every other base key is left as it was.
   */
  function InsightsParams(base: Params, o: InsightsOptions): (r: Result<Params, ParamError>)
    ensures r.Failure? <==>
              exists i :: 0 <= i < |ForwardedKwargs(o)| && Fails(ForwardedKwargs(o)[i])
    ensures r.Success? ==> r.value.Keys <= base.Keys + ForwardedKeys + RuleKeys
    ensures r.Success? ==>
              forall k :: k in base && k !in ForwardedKeys && k !in RuleKeys ==>
                k in r.value && r.value[k] == base[k]
    ensures r.Success? ==> ForwardedSent(r.value, base, o) && RulesSent(r.value, base, o)
  {
    var kwargs := ForwardedKwargs(o);
    PrepareFailsIff(base, kwargs);
    match Prepare(base, kwargs)
    case Failure(e) => Failure(e)
    case Success(p) =>
      PreparedForwarded(base, o);
      KeysDisjoint();
      RulesApplied(p, base, o);
      ForwardedSurvive(p, base, o);
      ApplyStores(p, InsightsRules(o))
  }
}
