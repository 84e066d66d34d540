/**
 * What the tools promise their callers, stated over the requests they build:
 * the token always travels, the time-window precedence of the activities and
 * insights tools, the None checks that let falsy values through, and the
 * comma-joined id and field lists that split back into what was given.
 */
module ToolFacts {
  import opened Wrappers
  import opened Values
  import opened Params
  import opened Graph
  import opened Query
  import opened Insights
  import opened Tools
  import Json

  /** A table that never writes `access_token` sends the token it started from. */
  lemma TokenAlwaysSent(r: Result<Request, ParamError>, url: string, token: string, stores: seq<Store>)
    requires Sends(r, url, TokenParams(token), stores)
    requires Untouched(stores, "access_token")
    ensures r.Success? ==> "access_token" in r.value.params && r.value.params["access_token"] == VStr(token)
  {
    if r.Success? {
      assert ParamsOf(r).value == r.value.params;
      assert Kept(r.value.params, TokenParams(token), "access_token");
    }
  }

  /**
   * `get_activities_by_adaccount`: a truthy `time_range` is sent as JSON and
   * neither `since` nor `until` is sent, whatever they hold.
   */
  lemma ActivitiesRangeWins(token: string, actId: string, fields: Value, limit: Value, after: Value,
                            before: Value, timeRange: Value, since: Value, until: Value)
    requires Truthy(timeRange)
    ensures var r := GetActivitiesByAdAccount(token, actId, fields, limit, after, before, timeRange, since, until);
            r.Success? ==>
              && "since" !in r.value.params && "until" !in r.value.params
              && "time_range" in r.value.params
              && r.value.params["time_range"] == VStr(Json.Encode(timeRange))
  {
    var r := GetActivitiesByAdAccount(token, actId, fields, limit, after, before, timeRange, since, until);
    var stores := GetActivitiesByAdAccountStores(fields, limit, after, before, timeRange, since, until);
    if r.Success? {
      assert ParamsOf(r).value == r.value.params;
      assert Emits(r.value.params, TokenParams(token), stores[4]);
      assert Emits(r.value.params, TokenParams(token), stores[5]);
      assert Emits(r.value.params, TokenParams(token), stores[6]);
    }
  }

  /** The keyword arguments `get_activities_by_adset` would hand to `_fetch_edge`. */
  function ActivitiesKwargs(fields: Value, limit: Value, after: Value, before: Value,
                            timeRange: Value, since: Value, until: Value): (kw: Kwargs)
    ensures DistinctKeys(kw)
  {
    [("fields", fields), ("limit", limit), ("after", after), ("before", before),
     ("time_range", timeRange), ("since", since), ("until", until)]
  }

  /** Two parameter mappings that both obey the time-window rule agree on the time keys. */
  lemma TimeSentAgree(p: Params, q: Params, timeRange: Value, since: Value, until: Value)
    requires TimeSent(p, timeRange, since, until) && TimeSent(q, timeRange, since, until)
    ensures forall k :: k in TimeKeys ==> (k in p <==> k in q) && (k in p ==> p[k] == q[k])
  {
    forall k | k in TimeKeys ensures (k in p <==> k in q) && (k in p ==> p[k] == q[k]) {
      assert k == "time_range" || k == "since" || k == "until";
    }
  }

  /** `get_activities_by_adset` obeys the time-window rule when the range is a list, a dict or falsy. */
  lemma ActivitiesTimeSent(token: string, adsetId: string, fields: Value, limit: Value,
                           after: Value, before: Value, timeRange: Value, since: Value, until: Value)
    requires timeRange.VList? || timeRange.VDict? || !Truthy(timeRange)
    ensures var a := GetActivitiesByAdset(token, adsetId, fields, limit, after, before, timeRange, since, until);
            a.Success? ==> TimeSent(a.value.params, timeRange, since, until)
  {
    var a := GetActivitiesByAdset(token, adsetId, fields, limit, after, before, timeRange, since, until);
    var stores := GetActivitiesByAdsetStores(fields, limit, after, before, timeRange, since, until);
    if a.Success? {
      assert ParamsOf(a).value == a.value.params;
      assert Emits(a.value.params, TokenParams(token), stores[4]);
      assert Emits(a.value.params, TokenParams(token), stores[5]);
      assert Emits(a.value.params, TokenParams(token), stores[6]);
      if Truthy(timeRange) {
        assert "time_range" in JsonKeys;
        assert Normalize("time_range", timeRange) == Success(VStr(Json.Encode(timeRange)));
      }
    }
  }

  /** `_fetch_edge` on the activities edge pops the three time arguments the tool would pass. */
  lemma FetchEdgeTimeSent(token: string, adsetId: string, fields: Value, limit: Value,
                          after: Value, before: Value, timeRange: Value, since: Value, until: Value)
    ensures var b := FetchEdge(token, adsetId, "activities",
                               ActivitiesKwargs(fields, limit, after, before, timeRange, since, until));
            b.Success? ==> TimeSent(b.value.params, timeRange, since, until)
  {
    var kw := ActivitiesKwargs(fields, limit, after, before, timeRange, since, until);
    assert Lookup(kw, "time_range") == timeRange by { assert kw[4].0 == "time_range"; }
    assert Lookup(kw, "since") == since by { assert kw[5].0 == "since"; }
    assert Lookup(kw, "until") == until by { assert kw[6].0 == "until"; }
  }

  /**
   * `get_activities_by_adset` and `_fetch_edge` on the activities edge agree
   * on the three time keys whenever the range is a list, a dict or falsy (a
   * truthy string range is JSON-quoted by the former and sent bare by the
   * latter).
   */
  lemma ActivitiesAgreeWithFetchEdge(token: string, adsetId: string, fields: Value, limit: Value,
                                     after: Value, before: Value, timeRange: Value, since: Value, until: Value)
    requires timeRange.VList? || timeRange.VDict? || !Truthy(timeRange)
    ensures var a := GetActivitiesByAdset(token, adsetId, fields, limit, after, before, timeRange, since, until);
            var b := FetchEdge(token, adsetId, "activities",
                               ActivitiesKwargs(fields, limit, after, before, timeRange, since, until));
            a.Success? && b.Success? ==>
              a.value.url == b.value.url &&
              forall k :: k in TimeKeys ==>
                (k in a.value.params <==> k in b.value.params) &&
                (k in a.value.params ==> a.value.params[k] == b.value.params[k])
  {
    var a := GetActivitiesByAdset(token, adsetId, fields, limit, after, before, timeRange, since, until);
    var b := FetchEdge(token, adsetId, "activities",
                       ActivitiesKwargs(fields, limit, after, before, timeRange, since, until));
    ActivitiesTimeSent(token, adsetId, fields, limit, after, before, timeRange, since, until);
    FetchEdgeTimeSent(token, adsetId, fields, limit, after, before, timeRange, since, until);
    if a.Success? && b.Success? {
      TimeSentAgree(a.value.params, b.value.params, timeRange, since, until);
    }
  }

  /**
   * `get_campaigns_by_adaccount` tests `limit`, `is_completed` and
   * `include_drafts` against None, so 0 and False are sent; `after` and
   * `updated_since` are checked for truth, so "" and 0 are not.
   */
  lemma CampaignsNoneChecks(token: string, actId: string, fields: Value, filtering: Value,
                            before: Value, datePreset: Value, timeRange: Value, effectiveStatus: Value,
                            specialAdCategories: Value, objective: Value,
                            buyerGuaranteeAgreementStatus: Value, dateFormat: Value)
    ensures var r := GetCampaignsByAdAccount(token, actId, fields, filtering, VInt(0), VStr(""), before,
                                             datePreset, timeRange, VInt(0), effectiveStatus, VBool(false),
                                             specialAdCategories, objective, buyerGuaranteeAgreementStatus,
                                             dateFormat, VBool(false));
            r.Success? ==>
              && "limit" in r.value.params && r.value.params["limit"] == VInt(0)
              && "is_completed" in r.value.params && r.value.params["is_completed"] == VBool(false)
              && "include_drafts" in r.value.params && r.value.params["include_drafts"] == VBool(false)
              && "after" !in r.value.params
              && "updated_since" !in r.value.params
  {
    var r := GetCampaignsByAdAccount(token, actId, fields, filtering, VInt(0), VStr(""), before,
                                     datePreset, timeRange, VInt(0), effectiveStatus, VBool(false),
                                     specialAdCategories, objective, buyerGuaranteeAgreementStatus,
                                     dateFormat, VBool(false));
    var stores := GetCampaignsByAdAccountStores(fields, filtering, VInt(0), VStr(""), before,
                                                datePreset, timeRange, VInt(0), effectiveStatus, VBool(false),
                                                specialAdCategories, objective, buyerGuaranteeAgreementStatus,
                                                dateFormat, VBool(false));
    if r.Success? {
      assert ParamsOf(r).value == r.value.params;
      assert Emits(r.value.params, TokenParams(token), stores[2]);
      assert Emits(r.value.params, TokenParams(token), stores[3]);
      assert Emits(r.value.params, TokenParams(token), stores[7]);
      assert Emits(r.value.params, TokenParams(token), stores[9]);
      assert Emits(r.value.params, TokenParams(token), stores[14]);
    }
  }

  /**
   * `get_adsets_by_ids`: the ids are sent comma-joined and split back into
   * the given list when none of them holds a comma.
   */
  lemma AdsetIdsRoundTrip(token: string, ids: seq<string>, fields: Value, dateFormat: Value)
    requires ids != []
    requires forall i :: 0 <= i < |ids| ==> ',' !in ids[i]
    ensures var r := GetAdsetsByIds(token, StrList(ids), fields, dateFormat);
            r.Success? ==>
              "ids" in r.value.params && r.value.params["ids"].VStr? &&
              CommaSplit(r.value.params["ids"].s) == ids
  {
    var r := GetAdsetsByIds(token, StrList(ids), fields, dateFormat);
    var stores := GetAdsetsByIdsStores(StrList(ids), fields, dateFormat);
    if r.Success? {
      assert ParamsOf(r).value == r.value.params;
      assert Emits(r.value.params, TokenParams(token), stores[0]);
      StringsOfStrList(ids);
      assert PyCommaJoin(StrList(ids)).value == CommaJoin(ids) by {
        assert Strings(StrList(ids).items) ==
               seq(|ids|, i requires 0 <= i < |ids| => StrList(ids).items[i].s);
      }
      SplitJoin(ids);
    }
  }

  /** `get_adsets_by_ids` raises TypeError on its first store when an id is not a string. */
  lemma AdsetIdsNotStrings(token: string, adsetIds: Value, fields: Value, dateFormat: Value)
    requires adsetIds.VList?
    requires exists i :: 0 <= i < |adsetIds.items| && !adsetIds.items[i].VStr?
    ensures GetAdsetsByIds(token, adsetIds, fields, dateFormat) == Failure(TypeError("ids"))
  {
    var r := GetAdsetsByIds(token, adsetIds, fields, dateFormat);
    var stores := GetAdsetsByIdsStores(adsetIds, fields, dateFormat);
    assert Raises(stores[0]);
    assert ParamsOf(r).Failure?;
    var i :| 0 <= i < |stores| && Raises(stores[i]) &&
             (forall j :: 0 <= j < i ==> !Raises(stores[j])) &&
             ParamsOf(r).error == TypeError(stores[i].key);
    assert i == 0;
  }

  /**
   * `get_details_of_ad_account` without a field list sends the default
   * fields, and the text splits back into them.
   */
  lemma DefaultFieldsRoundTrip(token: string, actId: string)
    ensures var r := GetDetailsOfAdAccount(token, actId, VNone);
            r.Success? && CommaSplit(r.value.params["fields"].s) == DefaultAdAccountFields
  {
    assert forall i :: 0 <= i < |DefaultAdAccountFields| ==> ',' !in DefaultAdAccountFields[i];
    SplitJoin(DefaultAdAccountFields);
  }

  /**
   * In every insights tool a truthy `time_range` is sent as JSON and hides
   * `date_preset`, `since` and `until`.
   */
  lemma InsightsRangeHidesPreset(r: Result<Request, ParamError>, url: string, token: string, o: InsightsOptions)
    requires InsightsSends(r, url, token, o)
    requires Truthy(o.timeRange)
    ensures r.Success? ==>
              && "time_range" in r.value.params
              && r.value.params["time_range"] == VStr(Json.Encode(o.timeRange))
              && "date_preset" !in r.value.params
              && "since" !in r.value.params
              && "until" !in r.value.params
  {
    if r.Success? {
      assert !DatePresetSent(o) && !NoRange(o);
      assert Sets(r.value.params, TokenParams(token), "date_preset", DatePresetSent(o), o.datePreset);
      assert Sets(r.value.params, TokenParams(token), "since", NoRange(o) && Truthy(o.since), o.since);
      assert Sets(r.value.params, TokenParams(token), "until", NoRange(o) && Truthy(o.until), o.until);
    }
  }

  /** The three attribution flags are sent as 'true' exactly when set, and never as 'false'. */
  lemma InsightsFlags(r: Result<Request, ParamError>, url: string, token: string, o: InsightsOptions)
    requires InsightsSends(r, url, token, o)
    ensures r.Success? ==>
              && ("default_summary" in r.value.params <==> Truthy(o.defaultSummary))
              && ("use_account_attribution_setting" in r.value.params <==> Truthy(o.useAccountAttributionSetting))
              && ("use_unified_attribution_setting" in r.value.params <==> Truthy(o.useUnifiedAttributionSetting))
              && (forall k :: k in {"default_summary", "use_account_attribution_setting",
                                   "use_unified_attribution_setting"} && k in r.value.params ==>
                    r.value.params[k] == VStr("true"))
  {
    if r.Success? {
      var p := r.value.params;
      var base := TokenParams(token);
      assert Sets(p, base, "default_summary", Truthy(o.defaultSummary), VStr("true"));
      assert Sets(p, base, "use_account_attribution_setting", Truthy(o.useAccountAttributionSetting), VStr("true"));
      assert Sets(p, base, "use_unified_attribution_setting", Truthy(o.useUnifiedAttributionSetting), VStr("true"));
    }
  }

  /** With the default options nothing forwarded but the level is sent. */
  lemma DefaultsForwardNothing(p: Params, token: string)
    requires ForwardedSent(p, TokenParams(token), InsightsDefaults(VStr("campaign")))
    ensures "level" in p && p["level"] == VStr("campaign")
    ensures forall k :: k in ForwardedKeys && k != "level" ==> k !in p
  {
    var base := TokenParams(token);
    assert "level" !in JsonKeys && "level" !in JoinKeys;
    forall k | k in ForwardedKeys && k != "level" ensures k !in p {
      assert k != "access_token";
      assert Kept(p, base, k);
    }
  }

  /** With the default options only the preset and the unified attribution flag are sent by the rules. */
  lemma DefaultsRules(p: Params, token: string)
    requires RulesSent(p, TokenParams(token), InsightsDefaults(VStr("campaign")))
    ensures "date_preset" in p && p["date_preset"] == VStr("last_30d")
    ensures "use_unified_attribution_setting" in p && p["use_unified_attribution_setting"] == VStr("true")
    ensures forall k :: k in RuleKeys && k != "date_preset" && k != "use_unified_attribution_setting" ==> k !in p
  {
    var o := InsightsDefaults(VStr("campaign"));
    assert DatePresetSent(o) && !TimeIncrementSent(o);
    forall k | k in RuleKeys && k != "date_preset" && k != "use_unified_attribution_setting"
      ensures k !in p
    {
      assert k != "access_token";
    }
  }

  /** The parameters the default options leave, given what `_build_insights_params` promises. */
  lemma DefaultParamsExact(p: Params, token: string)
    requires p.Keys <= {"access_token"} + ForwardedKeys + RuleKeys
    requires "access_token" in p && p["access_token"] == VStr(token)
    requires ForwardedSent(p, TokenParams(token), InsightsDefaults(VStr("campaign")))
    requires RulesSent(p, TokenParams(token), InsightsDefaults(VStr("campaign")))
    ensures p == map["access_token" := VStr(token), "level" := VStr("campaign"),
                     "date_preset" := VStr("last_30d"),
                     "use_unified_attribution_setting" := VStr("true")]
  {
    DefaultsForwardNothing(p, token);
    DefaultsRules(p, token);
    var expected := map["access_token" := VStr(token), "level" := VStr("campaign"),
                        "date_preset" := VStr("last_30d"),
                        "use_unified_attribution_setting" := VStr("true")];
    assert p.Keys == expected.Keys;
  }

  /** No forwarded default raises. */
  lemma DefaultsSucceed(token: string, campaignId: string)
    ensures GetCampaignInsights(token, campaignId, InsightsDefaults(VNone)).Success?
  {
    var o := InsightsDefaults(VStr("campaign"));
    assert InsightsDefaults(VNone).(level := EffectiveLevel(VNone, "campaign")) == o;
    assert forall i :: 0 <= i < |ForwardedKwargs(o)| ==> !Fails(ForwardedKwargs(o)[i]);
  }

  /**
   * `get_campaign_insights` with every argument at its default asks for the
   * last 30 days at campaign level with the unified attribution setting, and
   * for nothing else.
   */
  lemma CampaignInsightsDefaults(token: string, campaignId: string)
    ensures GetCampaignInsights(token, campaignId, InsightsDefaults(VNone)) ==
            Success(Request(EdgeUrl(campaignId, "insights"),
                            map["access_token" := VStr(token), "level" := VStr("campaign"),
                                "date_preset" := VStr("last_30d"),
                                "use_unified_attribution_setting" := VStr("true")]))
  {
    var o := InsightsDefaults(VStr("campaign"));
    assert InsightsDefaults(VNone).(level := EffectiveLevel(VNone, "campaign")) == o;
    DefaultsSucceed(token, campaignId);
    var r := GetCampaignInsights(token, campaignId, InsightsDefaults(VNone));
    DefaultParamsExact(r.value.params, token);
  }
}
