/**
 * The entity tools of server.py. Each one starts from
 * `{'access_token': token}`, makes its guarded stores in a fixed order and
 * issues one GET request; here a tool is the table of those stores and the
 * request it builds. The node and edge fetch helpers follow.
 */
module Tools {
  import opened Wrappers
  import opened Values
  import opened Params
  import opened Graph
  import opened Query
  import opened Insights

  function Send(url: string, r: Result<Params, ParamError>): (req: Result<Request, ParamError>)
    ensures req.Success? <==> r.Success?
    ensures req.Success? ==> req.value == Request(url, r.value)
    ensures req.Failure? ==> req.error == r.error
  {
    match r
    case Success(p) => Success(Request(url, p))
    case Failure(e) => Failure(e)
  }

  /** The query parameters of a request, or the error that stopped the tool. */
  function ParamsOf(r: Result<Request, ParamError>): Result<Params, ParamError> {
    match r
    case Success(req) => Success(req.params)
    case Failure(e) => Failure(e)
  }

  /** The tool requests `url` with the parameters the table makes from `base`. */
  ghost predicate Sends(r: Result<Request, ParamError>, url: string, base: Params, stores: seq<Store>) {
    (r.Success? ==> r.value.url == url) && Applied(ParamsOf(r), base, stores)
  }

  lemma SendStores(url: string, base: Params, stores: seq<Store>)
    requires DistinctStoreKeys(stores)
    ensures Sends(Send(url, ApplyStores(base, stores)), url, base, stores)
  {
    ApplyStoresContents(base, stores);
    assert ParamsOf(Send(url, ApplyStores(base, stores))) == ApplyStores(base, stores);
  }

  /** The stores of `list_ad_accounts`: the one fixed field selector. */
  function ListAdAccountsStores(): seq<Store> {
    [Store("fields", true, AsIs, VStr("adaccounts{name}"))]
  }

  /** `list_ad_accounts`: `GET me` with the ad accounts' names; it cannot raise. */
  lemma ListAdAccountsKeysDistinct()
    ensures DistinctStoreKeys(ListAdAccountsStores())
  {
  }

  function ListAdAccounts(token: string): (r: Result<Request, ParamError>)
    ensures r.Success?
    ensures Sends(r, NodeUrl("me"), TokenParams(token), ListAdAccountsStores())
  {
    var stores := ListAdAccountsStores();
    SendStores(NodeUrl("me"), TokenParams(token), stores);
    Send(NodeUrl("me"), ApplyStores(TokenParams(token), stores))
  }

  /** The stores of `get_ad_creative_by_id`, in source order. */
  function GetAdCreativeByIdStores(fields: Value, thumbnailWidth: Value, thumbnailHeight: Value): seq<Store> {
    [Store("fields", Truthy(fields), CommaJoined, fields),
     Store("thumbnail_width", Truthy(thumbnailWidth), AsIs, thumbnailWidth),
     Store("thumbnail_height", Truthy(thumbnailHeight), AsIs, thumbnailHeight)]
  }

  /** `get_ad_creative_by_id`: `GET {creative_id}`. */
  lemma GetAdCreativeByIdKeysDistinct(fields: Value, thumbnailWidth: Value, thumbnailHeight: Value)
    ensures DistinctStoreKeys(GetAdCreativeByIdStores(fields, thumbnailWidth, thumbnailHeight))
  {
  }

  function GetAdCreativeById(token: string, creativeId: string, fields: Value, thumbnailWidth: Value, thumbnailHeight: Value): (r: Result<Request, ParamError>)
    ensures Sends(r, NodeUrl(creativeId), TokenParams(token), GetAdCreativeByIdStores(fields, thumbnailWidth, thumbnailHeight))
  {
    var stores := GetAdCreativeByIdStores(fields, thumbnailWidth, thumbnailHeight);
    GetAdCreativeByIdKeysDistinct(fields, thumbnailWidth, thumbnailHeight);
    SendStores(NodeUrl(creativeId), TokenParams(token), stores);
    Send(NodeUrl(creativeId), ApplyStores(TokenParams(token), stores))
  }

  /** The stores of `get_ad_creatives_by_ad_id`, in source order. */
  function GetAdCreativesByAdIdStores(fields: Value, limit: Value, after: Value, before: Value, dateFormat: Value): seq<Store> {
    [Store("fields", Truthy(fields), CommaJoined, fields),
     Store("limit", limit != VNone, AsIs, limit),
     Store("after", Truthy(after), AsIs, after),
     Store("before", Truthy(before), AsIs, before),
     Store("date_format", Truthy(dateFormat), AsIs, dateFormat)]
  }

  /** `get_ad_creatives_by_ad_id`: `GET {ad_id}/adcreatives`. */
  lemma GetAdCreativesByAdIdKeysDistinct(fields: Value, limit: Value, after: Value, before: Value, dateFormat: Value)
    ensures DistinctStoreKeys(GetAdCreativesByAdIdStores(fields, limit, after, before, dateFormat))
  {
  }

  function GetAdCreativesByAdId(token: string, adId: string, fields: Value, limit: Value, after: Value, before: Value, dateFormat: Value): (r: Result<Request, ParamError>)
    ensures Sends(r, EdgeUrl(adId, "adcreatives"), TokenParams(token), GetAdCreativesByAdIdStores(fields, limit, after, before, dateFormat))
  {
    var stores := GetAdCreativesByAdIdStores(fields, limit, after, before, dateFormat);
    GetAdCreativesByAdIdKeysDistinct(fields, limit, after, before, dateFormat);
    SendStores(EdgeUrl(adId, "adcreatives"), TokenParams(token), stores);
    Send(EdgeUrl(adId, "adcreatives"), ApplyStores(TokenParams(token), stores))
  }

  /** The stores of `get_ad_by_id`, in source order. */
  function GetAdByIdStores(fields: Value): seq<Store> {
    [Store("fields", Truthy(fields), CommaJoined, fields)]
  }

  /** `get_ad_by_id`: `GET {ad_id}`. */
  lemma GetAdByIdKeysDistinct(fields: Value)
    ensures DistinctStoreKeys(GetAdByIdStores(fields))
  {
  }

  function GetAdById(token: string, adId: string, fields: Value): (r: Result<Request, ParamError>)
    ensures Sends(r, NodeUrl(adId), TokenParams(token), GetAdByIdStores(fields))
  {
    var stores := GetAdByIdStores(fields);
    GetAdByIdKeysDistinct(fields);
    SendStores(NodeUrl(adId), TokenParams(token), stores);
    Send(NodeUrl(adId), ApplyStores(TokenParams(token), stores))
  }

  /** The stores of `get_ads_by_adaccount`, in source order. */
  function GetAdsByAdAccountStores(fields: Value, filtering: Value, limit: Value, after: Value, before: Value, datePreset: Value, timeRange: Value, updatedSince: Value, effectiveStatus: Value): seq<Store> {
    [Store("fields", Truthy(fields), CommaJoined, fields),
     Store("filtering", Truthy(filtering), JsonText, filtering),
     Store("limit", limit != VNone, AsIs, limit),
     Store("after", Truthy(after), AsIs, after),
     Store("before", Truthy(before), AsIs, before),
     Store("date_preset", Truthy(datePreset), AsIs, datePreset),
     Store("time_range", Truthy(timeRange), JsonText, timeRange),
     Store("updated_since", Truthy(updatedSince), AsIs, updatedSince),
     Store("effective_status", Truthy(effectiveStatus), JsonText, effectiveStatus)]
  }

  /** `get_ads_by_adaccount`: `GET {act_id}/ads`. */
  lemma GetAdsByAdAccountKeysDistinct(fields: Value, filtering: Value, limit: Value, after: Value, before: Value, datePreset: Value, timeRange: Value, updatedSince: Value, effectiveStatus: Value)
    ensures DistinctStoreKeys(GetAdsByAdAccountStores(fields, filtering, limit, after, before, datePreset, timeRange, updatedSince, effectiveStatus))
  {
  }

  function GetAdsByAdAccount(token: string, actId: string, fields: Value, filtering: Value, limit: Value, after: Value, before: Value, datePreset: Value, timeRange: Value, updatedSince: Value, effectiveStatus: Value): (r: Result<Request, ParamError>)
    ensures Sends(r, EdgeUrl(actId, "ads"), TokenParams(token), GetAdsByAdAccountStores(fields, filtering, limit, after, before, datePreset, timeRange, updatedSince, effectiveStatus))
  {
    var stores := GetAdsByAdAccountStores(fields, filtering, limit, after, before, datePreset, timeRange, updatedSince, effectiveStatus);
    GetAdsByAdAccountKeysDistinct(fields, filtering, limit, after, before, datePreset, timeRange, updatedSince, effectiveStatus);
    SendStores(EdgeUrl(actId, "ads"), TokenParams(token), stores);
    Send(EdgeUrl(actId, "ads"), ApplyStores(TokenParams(token), stores))
  }

  /** The stores of `get_ads_by_campaign`, in source order. */
  function GetAdsByCampaignStores(fields: Value, filtering: Value, limit: Value, after: Value, before: Value, effectiveStatus: Value): seq<Store> {
    [Store("fields", Truthy(fields), CommaJoined, fields),
     Store("filtering", Truthy(filtering), JsonText, filtering),
     Store("limit", limit != VNone, AsIs, limit),
     Store("after", Truthy(after), AsIs, after),
     Store("before", Truthy(before), AsIs, before),
     Store("effective_status", Truthy(effectiveStatus), JsonText, effectiveStatus)]
  }

  /** `get_ads_by_campaign`: `GET {campaign_id}/ads`. */
  lemma GetAdsByCampaignKeysDistinct(fields: Value, filtering: Value, limit: Value, after: Value, before: Value, effectiveStatus: Value)
    ensures DistinctStoreKeys(GetAdsByCampaignStores(fields, filtering, limit, after, before, effectiveStatus))
  {
  }

  function GetAdsByCampaign(token: string, campaignId: string, fields: Value, filtering: Value, limit: Value, after: Value, before: Value, effectiveStatus: Value): (r: Result<Request, ParamError>)
    ensures Sends(r, EdgeUrl(campaignId, "ads"), TokenParams(token), GetAdsByCampaignStores(fields, filtering, limit, after, before, effectiveStatus))
  {
    var stores := GetAdsByCampaignStores(fields, filtering, limit, after, before, effectiveStatus);
    GetAdsByCampaignKeysDistinct(fields, filtering, limit, after, before, effectiveStatus);
    SendStores(EdgeUrl(campaignId, "ads"), TokenParams(token), stores);
    Send(EdgeUrl(campaignId, "ads"), ApplyStores(TokenParams(token), stores))
  }

  /** The stores of `get_ads_by_adset`, in source order. */
  function GetAdsByAdsetStores(fields: Value, filtering: Value, limit: Value, after: Value, before: Value, effectiveStatus: Value, dateFormat: Value): seq<Store> {
    [Store("fields", Truthy(fields), CommaJoined, fields),
     Store("filtering", Truthy(filtering), JsonText, filtering),
     Store("limit", limit != VNone, AsIs, limit),
     Store("after", Truthy(after), AsIs, after),
     Store("before", Truthy(before), AsIs, before),
     Store("effective_status", Truthy(effectiveStatus), JsonText, effectiveStatus),
     Store("date_format", Truthy(dateFormat), AsIs, dateFormat)]
  }

  /** `get_ads_by_adset`: `GET {adset_id}/ads`. */
  lemma GetAdsByAdsetKeysDistinct(fields: Value, filtering: Value, limit: Value, after: Value, before: Value, effectiveStatus: Value, dateFormat: Value)
    ensures DistinctStoreKeys(GetAdsByAdsetStores(fields, filtering, limit, after, before, effectiveStatus, dateFormat))
  {
  }

  function GetAdsByAdset(token: string, adsetId: string, fields: Value, filtering: Value, limit: Value, after: Value, before: Value, effectiveStatus: Value, dateFormat: Value): (r: Result<Request, ParamError>)
    ensures Sends(r, EdgeUrl(adsetId, "ads"), TokenParams(token), GetAdsByAdsetStores(fields, filtering, limit, after, before, effectiveStatus, dateFormat))
  {
    var stores := GetAdsByAdsetStores(fields, filtering, limit, after, before, effectiveStatus, dateFormat);
    GetAdsByAdsetKeysDistinct(fields, filtering, limit, after, before, effectiveStatus, dateFormat);
    SendStores(EdgeUrl(adsetId, "ads"), TokenParams(token), stores);
    Send(EdgeUrl(adsetId, "ads"), ApplyStores(TokenParams(token), stores))
  }

  /** The stores of `get_adset_by_id`, in source order. */
  function GetAdsetByIdStores(fields: Value): seq<Store> {
    [Store("fields", Truthy(fields), CommaJoined, fields)]
  }

  /** `get_adset_by_id`: `GET {adset_id}`. */
  lemma GetAdsetByIdKeysDistinct(fields: Value)
    ensures DistinctStoreKeys(GetAdsetByIdStores(fields))
  {
  }

  function GetAdsetById(token: string, adsetId: string, fields: Value): (r: Result<Request, ParamError>)
    ensures Sends(r, NodeUrl(adsetId), TokenParams(token), GetAdsetByIdStores(fields))
  {
    var stores := GetAdsetByIdStores(fields);
    GetAdsetByIdKeysDistinct(fields);
    SendStores(NodeUrl(adsetId), TokenParams(token), stores);
    Send(NodeUrl(adsetId), ApplyStores(TokenParams(token), stores))
  }

  /** The stores of `get_adsets_by_ids`, in source order. */
  function GetAdsetsByIdsStores(adsetIds: Value, fields: Value, dateFormat: Value): seq<Store> {
    [Store("ids", true, CommaJoined, adsetIds),
     Store("fields", Truthy(fields), CommaJoined, fields),
     Store("date_format", Truthy(dateFormat), AsIs, dateFormat)]
  }

  /** `get_adsets_by_ids`: `GET /` with the ids in the query. */
  lemma GetAdsetsByIdsKeysDistinct(adsetIds: Value, fields: Value, dateFormat: Value)
    ensures DistinctStoreKeys(GetAdsetsByIdsStores(adsetIds, fields, dateFormat))
  {
  }

  function GetAdsetsByIds(token: string, adsetIds: Value, fields: Value, dateFormat: Value): (r: Result<Request, ParamError>)
    ensures Sends(r, NodeUrl(""), TokenParams(token), GetAdsetsByIdsStores(adsetIds, fields, dateFormat))
  {
    var stores := GetAdsetsByIdsStores(adsetIds, fields, dateFormat);
    GetAdsetsByIdsKeysDistinct(adsetIds, fields, dateFormat);
    SendStores(NodeUrl(""), TokenParams(token), stores);
    Send(NodeUrl(""), ApplyStores(TokenParams(token), stores))
  }

  /** The stores of `get_adsets_by_adaccount`, in source order. */
  function GetAdsetsByAdAccountStores(fields: Value, filtering: Value, limit: Value, after: Value, before: Value, datePreset: Value, timeRange: Value, updatedSince: Value, effectiveStatus: Value, dateFormat: Value): seq<Store> {
    [Store("fields", Truthy(fields), CommaJoined, fields),
     Store("filtering", Truthy(filtering), JsonText, filtering),
     Store("limit", limit != VNone, AsIs, limit),
     Store("after", Truthy(after), AsIs, after),
     Store("before", Truthy(before), AsIs, before),
     Store("date_preset", Truthy(datePreset), AsIs, datePreset),
     Store("time_range", Truthy(timeRange), JsonText, timeRange),
     Store("updated_since", Truthy(updatedSince), AsIs, updatedSince),
     Store("effective_status", Truthy(effectiveStatus), JsonText, effectiveStatus),
     Store("date_format", Truthy(dateFormat), AsIs, dateFormat)]
  }

  /** `get_adsets_by_adaccount`: `GET {act_id}/adsets`. */
  lemma GetAdsetsByAdAccountKeysDistinct(fields: Value, filtering: Value, limit: Value, after: Value, before: Value, datePreset: Value, timeRange: Value, updatedSince: Value, effectiveStatus: Value, dateFormat: Value)
    ensures DistinctStoreKeys(GetAdsetsByAdAccountStores(fields, filtering, limit, after, before, datePreset, timeRange, updatedSince, effectiveStatus, dateFormat))
  {
  }

  function GetAdsetsByAdAccount(token: string, actId: string, fields: Value, filtering: Value, limit: Value, after: Value, before: Value, datePreset: Value, timeRange: Value, updatedSince: Value, effectiveStatus: Value, dateFormat: Value): (r: Result<Request, ParamError>)
    ensures Sends(r, EdgeUrl(actId, "adsets"), TokenParams(token), GetAdsetsByAdAccountStores(fields, filtering, limit, after, before, datePreset, timeRange, updatedSince, effectiveStatus, dateFormat))
  {
    var stores := GetAdsetsByAdAccountStores(fields, filtering, limit, after, before, datePreset, timeRange, updatedSince, effectiveStatus, dateFormat);
    GetAdsetsByAdAccountKeysDistinct(fields, filtering, limit, after, before, datePreset, timeRange, updatedSince, effectiveStatus, dateFormat);
    SendStores(EdgeUrl(actId, "adsets"), TokenParams(token), stores);
    Send(EdgeUrl(actId, "adsets"), ApplyStores(TokenParams(token), stores))
  }

  /** The stores of `get_adsets_by_campaign`, in source order. */
  function GetAdsetsByCampaignStores(fields: Value, filtering: Value, limit: Value, after: Value, before: Value, effectiveStatus: Value, dateFormat: Value): seq<Store> {
    [Store("fields", Truthy(fields), CommaJoined, fields),
     Store("filtering", Truthy(filtering), JsonText, filtering),
     Store("limit", limit != VNone, AsIs, limit),
     Store("after", Truthy(after), AsIs, after),
     Store("before", Truthy(before), AsIs, before),
     Store("effective_status", Truthy(effectiveStatus), JsonText, effectiveStatus),
     Store("date_format", Truthy(dateFormat), AsIs, dateFormat)]
  }

  /** `get_adsets_by_campaign`: `GET {campaign_id}/adsets`. */
  lemma GetAdsetsByCampaignKeysDistinct(fields: Value, filtering: Value, limit: Value, after: Value, before: Value, effectiveStatus: Value, dateFormat: Value)
    ensures DistinctStoreKeys(GetAdsetsByCampaignStores(fields, filtering, limit, after, before, effectiveStatus, dateFormat))
  {
  }

  function GetAdsetsByCampaign(token: string, campaignId: string, fields: Value, filtering: Value, limit: Value, after: Value, before: Value, effectiveStatus: Value, dateFormat: Value): (r: Result<Request, ParamError>)
    ensures Sends(r, EdgeUrl(campaignId, "adsets"), TokenParams(token), GetAdsetsByCampaignStores(fields, filtering, limit, after, before, effectiveStatus, dateFormat))
  {
    var stores := GetAdsetsByCampaignStores(fields, filtering, limit, after, before, effectiveStatus, dateFormat);
    GetAdsetsByCampaignKeysDistinct(fields, filtering, limit, after, before, effectiveStatus, dateFormat);
    SendStores(EdgeUrl(campaignId, "adsets"), TokenParams(token), stores);
    Send(EdgeUrl(campaignId, "adsets"), ApplyStores(TokenParams(token), stores))
  }

  /** The stores of `get_campaign_by_id`, in source order. */
  function GetCampaignByIdStores(fields: Value, dateFormat: Value): seq<Store> {
    [Store("fields", Truthy(fields), CommaJoined, fields),
     Store("date_format", Truthy(dateFormat), AsIs, dateFormat)]
  }

  /** `get_campaign_by_id`: `GET {campaign_id}`. */
  lemma GetCampaignByIdKeysDistinct(fields: Value, dateFormat: Value)
    ensures DistinctStoreKeys(GetCampaignByIdStores(fields, dateFormat))
  {
  }

  function GetCampaignById(token: string, campaignId: string, fields: Value, dateFormat: Value): (r: Result<Request, ParamError>)
    ensures Sends(r, NodeUrl(campaignId), TokenParams(token), GetCampaignByIdStores(fields, dateFormat))
  {
    var stores := GetCampaignByIdStores(fields, dateFormat);
    GetCampaignByIdKeysDistinct(fields, dateFormat);
    SendStores(NodeUrl(campaignId), TokenParams(token), stores);
    Send(NodeUrl(campaignId), ApplyStores(TokenParams(token), stores))
  }

  /** The stores of `get_campaigns_by_adaccount`, in source order. */
  function GetCampaignsByAdAccountStores(fields: Value, filtering: Value, limit: Value, after: Value, before: Value, datePreset: Value, timeRange: Value, updatedSince: Value, effectiveStatus: Value, isCompleted: Value, specialAdCategories: Value, objective: Value, buyerGuaranteeAgreementStatus: Value, dateFormat: Value, includeDrafts: Value): seq<Store> {
    [Store("fields", Truthy(fields), CommaJoined, fields),
     Store("filtering", Truthy(filtering), JsonText, filtering),
     Store("limit", limit != VNone, AsIs, limit),
     Store("after", Truthy(after), AsIs, after),
     Store("before", Truthy(before), AsIs, before),
     Store("date_preset", Truthy(datePreset), AsIs, datePreset),
     Store("time_range", Truthy(timeRange), JsonText, timeRange),
     Store("updated_since", Truthy(updatedSince), AsIs, updatedSince),
     Store("effective_status", Truthy(effectiveStatus), JsonText, effectiveStatus),
     Store("is_completed", isCompleted != VNone, AsIs, isCompleted),
     Store("special_ad_categories", Truthy(specialAdCategories), JsonText, specialAdCategories),
     Store("objective", Truthy(objective), JsonText, objective),
     Store("buyer_guarantee_agreement_status", Truthy(buyerGuaranteeAgreementStatus), JsonText, buyerGuaranteeAgreementStatus),
     Store("date_format", Truthy(dateFormat), AsIs, dateFormat),
     Store("include_drafts", includeDrafts != VNone, AsIs, includeDrafts)]
  }

  /** `get_campaigns_by_adaccount`: `GET {act_id}/campaigns`. */
  /** The keys `get_campaigns_by_adaccount` may write, in source order. */
  const CampaignKeys: seq<string> := [
    "fields", "filtering", "limit", "after", "before", "date_preset", "time_range",
    "updated_since", "effective_status", "is_completed", "special_ad_categories",
    "objective", "buyer_guarantee_agreement_status", "date_format", "include_drafts"]

  lemma CampaignKeysDistinct()
    ensures forall i, j :: 0 <= i < j < |CampaignKeys| ==> CampaignKeys[i] != CampaignKeys[j]
  {
  }

  lemma GetCampaignsByAdAccountKeysDistinct(fields: Value, filtering: Value, limit: Value, after: Value, before: Value, datePreset: Value, timeRange: Value, updatedSince: Value, effectiveStatus: Value, isCompleted: Value, specialAdCategories: Value, objective: Value, buyerGuaranteeAgreementStatus: Value, dateFormat: Value, includeDrafts: Value)
    ensures DistinctStoreKeys(GetCampaignsByAdAccountStores(fields, filtering, limit, after, before, datePreset, timeRange, updatedSince, effectiveStatus, isCompleted, specialAdCategories, objective, buyerGuaranteeAgreementStatus, dateFormat, includeDrafts))
  {
    var stores := GetCampaignsByAdAccountStores(fields, filtering, limit, after, before, datePreset, timeRange, updatedSince, effectiveStatus, isCompleted, specialAdCategories, objective, buyerGuaranteeAgreementStatus, dateFormat, includeDrafts);
    assert |stores| == |CampaignKeys|;
    assert forall i :: 0 <= i < |stores| ==> stores[i].key == CampaignKeys[i];
    CampaignKeysDistinct();
    forall i, j | 0 <= i < j < |stores| ensures stores[i].key != stores[j].key {
      assert stores[i].key == CampaignKeys[i] && stores[j].key == CampaignKeys[j];
    }
  }

  function GetCampaignsByAdAccount(token: string, actId: string, fields: Value, filtering: Value, limit: Value, after: Value, before: Value, datePreset: Value, timeRange: Value, updatedSince: Value, effectiveStatus: Value, isCompleted: Value, specialAdCategories: Value, objective: Value, buyerGuaranteeAgreementStatus: Value, dateFormat: Value, includeDrafts: Value): (r: Result<Request, ParamError>)
    ensures Sends(r, EdgeUrl(actId, "campaigns"), TokenParams(token), GetCampaignsByAdAccountStores(fields, filtering, limit, after, before, datePreset, timeRange, updatedSince, effectiveStatus, isCompleted, specialAdCategories, objective, buyerGuaranteeAgreementStatus, dateFormat, includeDrafts))
  {
    var stores := GetCampaignsByAdAccountStores(fields, filtering, limit, after, before, datePreset, timeRange, updatedSince, effectiveStatus, isCompleted, specialAdCategories, objective, buyerGuaranteeAgreementStatus, dateFormat, includeDrafts);
    GetCampaignsByAdAccountKeysDistinct(fields, filtering, limit, after, before, datePreset, timeRange, updatedSince, effectiveStatus, isCompleted, specialAdCategories, objective, buyerGuaranteeAgreementStatus, dateFormat, includeDrafts);
    SendStores(EdgeUrl(actId, "campaigns"), TokenParams(token), stores);
    Send(EdgeUrl(actId, "campaigns"), ApplyStores(TokenParams(token), stores))
  }

  /** The stores of `get_activities_by_adaccount`, in source order. */
  function GetActivitiesByAdAccountStores(fields: Value, limit: Value, after: Value, before: Value, timeRange: Value, since: Value, until: Value): seq<Store> {
    [Store("fields", Truthy(fields), CommaJoined, fields),
     Store("limit", limit != VNone, AsIs, limit),
     Store("after", Truthy(after), AsIs, after),
     Store("before", Truthy(before), AsIs, before),
     Store("time_range", Truthy(timeRange), JsonText, timeRange),
     Store("since", !Truthy(timeRange) && Truthy(since), AsIs, since),
     Store("until", !Truthy(timeRange) && Truthy(until), AsIs, until)]
  }

  /** `get_activities_by_adaccount`: `GET {act_id}/activities`. */
  lemma GetActivitiesByAdAccountKeysDistinct(fields: Value, limit: Value, after: Value, before: Value, timeRange: Value, since: Value, until: Value)
    ensures DistinctStoreKeys(GetActivitiesByAdAccountStores(fields, limit, after, before, timeRange, since, until))
  {
  }

  function GetActivitiesByAdAccount(token: string, actId: string, fields: Value, limit: Value, after: Value, before: Value, timeRange: Value, since: Value, until: Value): (r: Result<Request, ParamError>)
    ensures Sends(r, EdgeUrl(actId, "activities"), TokenParams(token), GetActivitiesByAdAccountStores(fields, limit, after, before, timeRange, since, until))
  {
    var stores := GetActivitiesByAdAccountStores(fields, limit, after, before, timeRange, since, until);
    GetActivitiesByAdAccountKeysDistinct(fields, limit, after, before, timeRange, since, until);
    SendStores(EdgeUrl(actId, "activities"), TokenParams(token), stores);
    Send(EdgeUrl(actId, "activities"), ApplyStores(TokenParams(token), stores))
  }

  /** The stores of `get_activities_by_adset`, in source order. */
  function GetActivitiesByAdsetStores(fields: Value, limit: Value, after: Value, before: Value, timeRange: Value, since: Value, until: Value): seq<Store> {
    [Store("fields", Truthy(fields), CommaJoined, fields),
     Store("limit", limit != VNone, AsIs, limit),
     Store("after", Truthy(after), AsIs, after),
     Store("before", Truthy(before), AsIs, before),
     Store("time_range", Truthy(timeRange), JsonText, timeRange),
     Store("since", !Truthy(timeRange) && Truthy(since), AsIs, since),
     Store("until", !Truthy(timeRange) && Truthy(until), AsIs, until)]
  }

  /** `get_activities_by_adset`: `GET {adset_id}/activities`. */
  lemma GetActivitiesByAdsetKeysDistinct(fields: Value, limit: Value, after: Value, before: Value, timeRange: Value, since: Value, until: Value)
    ensures DistinctStoreKeys(GetActivitiesByAdsetStores(fields, limit, after, before, timeRange, since, until))
  {
  }

  function GetActivitiesByAdset(token: string, adsetId: string, fields: Value, limit: Value, after: Value, before: Value, timeRange: Value, since: Value, until: Value): (r: Result<Request, ParamError>)
    ensures Sends(r, EdgeUrl(adsetId, "activities"), TokenParams(token), GetActivitiesByAdsetStores(fields, limit, after, before, timeRange, since, until))
  {
    var stores := GetActivitiesByAdsetStores(fields, limit, after, before, timeRange, since, until);
    GetActivitiesByAdsetKeysDistinct(fields, limit, after, before, timeRange, since, until);
    SendStores(EdgeUrl(adsetId, "activities"), TokenParams(token), stores);
    Send(EdgeUrl(adsetId, "activities"), ApplyStores(TokenParams(token), stores))
  }
  /** `DEFAULT_AD_ACCOUNT_FIELDS`. */
  const DefaultAdAccountFields: seq<string> := [
    "name", "business_name", "age", "account_status", "balance",
    "amount_spent", "attribution_spec", "account_id", "business",
    "business_city", "brand_safety_content_filter_levels", "currency",
    "created_time", "id"
  ]

  /** A Python list of strings. */
  function StrList(xs: seq<string>): (v: Value)
    ensures v.VList? && |v.items| == |xs|
    ensures forall i :: 0 <= i < |xs| ==> v.items[i] == VStr(xs[i])
  {
    VList(seq(|xs|, i requires 0 <= i < |xs| => VStr(xs[i])))
  }

  lemma StringsOfStrList(xs: seq<string>)
    ensures forall i :: 0 <= i < |StrList(xs).items| ==> StrList(xs).items[i].VStr?
    ensures Strings(StrList(xs).items) == xs
  {
  }

  /**
   * `_fetch_node(node_id, **kwargs)`: `GET {node_id}` with the token and the
   * arguments as `_prepare_params` stores them; it raises exactly when one
   * of them cannot be comma-joined.
   */
  function FetchNode(token: string, nodeId: string, kwargs: Kwargs): (r: Result<Request, ParamError>)
    requires DistinctKeys(kwargs)
    ensures r.Failure? <==> exists i :: 0 <= i < |kwargs| && Fails(kwargs[i])
    ensures r.Success? ==> r.value.url == NodeUrl(nodeId)
    ensures r.Success? ==> r.value.params.Keys == {"access_token"} + GivenKeys(kwargs)
    ensures r.Success? && "access_token" !in GivenKeys(kwargs) ==>
              r.value.params["access_token"] == VStr(token)
    ensures r.Success? ==>
              forall i :: 0 <= i < |kwargs| ==>
                Prepared(r.value.params, TokenParams(token), kwargs[i].0, kwargs[i].1)
  {
    PrepareFailsIff(TokenParams(token), kwargs);
    match Prepare(TokenParams(token), kwargs)
    case Failure(e) => Failure(e)
    case Success(p) =>
      PrepareContents(TokenParams(token), kwargs);
      Success(Request(NodeUrl(nodeId), p))
  }

  /** The field list `get_details_of_ad_account` asks for: the defaults when `fields` is None. */
  function EffectiveFields(fields: Value): Value {
    if fields != VNone then fields else StrList(DefaultAdAccountFields)
  }

  /**
   * `get_details_of_ad_account`: without a field list it asks for the
   * default fields, comma-joined; a given list is sent as `_prepare_params`
   * sends it, and only a list holding a non-string raises.
   */
  function GetDetailsOfAdAccount(token: string, actId: string, fields: Value): (r: Result<Request, ParamError>)
    ensures r.Failure? <==> fields.VList? && exists i :: 0 <= i < |fields.items| && !fields.items[i].VStr?
    ensures r.Success? ==> r.value.url == NodeUrl(actId)
    ensures r.Success? ==> r.value.params.Keys == {"access_token", "fields"}
    ensures r.Success? ==> r.value.params["access_token"] == VStr(token)
    ensures fields == VNone ==>
              r.Success? && r.value.params["fields"] == VStr(CommaJoin(DefaultAdAccountFields))
    ensures fields != VNone && r.Success? ==> r.value.params["fields"] == Normalize("fields", fields).value
  {
    var kwargs := [("fields", EffectiveFields(fields))];
    StringsOfStrList(DefaultAdAccountFields);
    assert kwargs[0].1 != VNone;
    assert kwargs[0].0 in GivenKeys(kwargs);
    assert GivenKeys(kwargs) == {"fields"};
    assert Fails(kwargs[0]) <==> fields.VList? && exists i :: 0 <= i < |fields.items| && !fields.items[i].VStr?;
    FetchNode(token, actId, kwargs)
  }

  /** `level if level else default`: the entity insights tools always send a level. */
  function EffectiveLevel(level: Value, default: string): (v: Value)
    requires default != ""
    ensures Truthy(v)
    ensures Truthy(level) ==> v == level
  {
    if Truthy(level) then level else VStr(default)
  }

  /**
   * An insights tool requests `url` with the parameters
   * `_build_insights_params` makes from `{'access_token': token}`: it raises
   * only for a forwarded list that cannot be comma-joined, and otherwise
   * sends the token, the forwarded options and the insights rules' keys.
   */
  ghost predicate InsightsSends(r: Result<Request, ParamError>, url: string, token: string, o: InsightsOptions) {
    && (r.Failure? <==> exists i :: 0 <= i < |ForwardedKwargs(o)| && Fails(ForwardedKwargs(o)[i]))
    && (r.Success? ==>
          && r.value.url == url
          && r.value.params.Keys <= {"access_token"} + ForwardedKeys + RuleKeys
          && "access_token" in r.value.params
          && r.value.params["access_token"] == VStr(token)
          && ForwardedSent(r.value.params, TokenParams(token), o)
          && RulesSent(r.value.params, TokenParams(token), o))
  }

  function InsightsRequest(token: string, url: string, o: InsightsOptions): (r: Result<Request, ParamError>)
    ensures InsightsSends(r, url, token, o)
  {
    var base := TokenParams(token);
    assert "access_token" !in ForwardedKeys && "access_token" !in RuleKeys;
    Send(url, InsightsParams(base, o))
  }

  /** `get_adaccount_insights`: `GET {act_id}/insights`; its level defaults to 'account' in the signature. */
  function GetAdAccountInsights(token: string, actId: string, o: InsightsOptions): (r: Result<Request, ParamError>)
    ensures InsightsSends(r, EdgeUrl(actId, "insights"), token, o)
  {
    InsightsRequest(token, EdgeUrl(actId, "insights"), o)
  }

  /** The level sent by an entity insights tool is the given one when truthy, else the entity's own. */
  lemma LevelSent(r: Result<Request, ParamError>, url: string, token: string, o: InsightsOptions)
    requires InsightsSends(r, url, token, o)
    requires Truthy(o.level)
    ensures r.Success? ==> "level" in r.value.params && r.value.params["level"] == o.level
  {
    if r.Success? {
      assert Prepared(r.value.params, TokenParams(token), "level", o.level);
      assert "level" !in JsonKeys && "level" !in JoinKeys;
    }
  }

  /** The shared body of the entity insights tools: `GET {id}/insights`, at `entity` level unless a truthy level is given. */
  function EntityInsights(token: string, id: string, o: InsightsOptions, entity: string): (r: Result<Request, ParamError>)
    requires entity != ""
    ensures InsightsSends(r, EdgeUrl(id, "insights"), token, o.(level := EffectiveLevel(o.level, entity)))
    ensures r.Success? ==>
              "level" in r.value.params && r.value.params["level"] == EffectiveLevel(o.level, entity)
  {
    var o' := o.(level := EffectiveLevel(o.level, entity));
    var r := InsightsRequest(token, EdgeUrl(id, "insights"), o');
    LevelSent(r, EdgeUrl(id, "insights"), token, o');
    r
  }

  /** `get_campaign_insights`: `GET {campaign_id}/insights` at level 'campaign' unless a level is given. */
  function GetCampaignInsights(token: string, campaignId: string, o: InsightsOptions): (r: Result<Request, ParamError>)
    ensures InsightsSends(r, EdgeUrl(campaignId, "insights"), token,
                          o.(level := EffectiveLevel(o.level, "campaign")))
    ensures r.Success? ==>
              "level" in r.value.params && r.value.params["level"] == EffectiveLevel(o.level, "campaign")
  {
    EntityInsights(token, campaignId, o, "campaign")
  }

  /** `get_adset_insights`: `GET {adset_id}/insights` at level 'adset' unless a level is given. */
  function GetAdsetInsights(token: string, adsetId: string, o: InsightsOptions): (r: Result<Request, ParamError>)
    ensures InsightsSends(r, EdgeUrl(adsetId, "insights"), token,
                          o.(level := EffectiveLevel(o.level, "adset")))
    ensures r.Success? ==>
              "level" in r.value.params && r.value.params["level"] == EffectiveLevel(o.level, "adset")
  {
    EntityInsights(token, adsetId, o, "adset")
  }

  /** `get_ad_insights`: `GET {ad_id}/insights` at level 'ad' unless a level is given. */
  function GetAdInsights(token: string, adId: string, o: InsightsOptions): (r: Result<Request, ParamError>)
    ensures InsightsSends(r, EdgeUrl(adId, "insights"), token,
                          o.(level := EffectiveLevel(o.level, "ad")))
    ensures r.Success? ==>
              "level" in r.value.params && r.value.params["level"] == EffectiveLevel(o.level, "ad")
  {
    EntityInsights(token, adId, o, "ad")
  }

  /**
   * The signature defaults the entity insights tools share: preset
   * 'last_30d', increment 'all_days', only the unified attribution flag on,
   * everything else None.
   */
  function InsightsDefaults(level: Value): InsightsOptions {
    InsightsOptions(
      fields := VNone, datePreset := VStr("last_30d"), timeRange := VNone,
      timeRanges := VNone, timeIncrement := VStr("all_days"), level := level,
      actionAttributionWindows := VNone, actionBreakdowns := VNone,
      actionReportTime := VNone, breakdowns := VNone, defaultSummary := VBool(false),
      useAccountAttributionSetting := VBool(false), useUnifiedAttributionSetting := VBool(true),
      filtering := VNone, sort := VNone, limit := VNone, after := VNone,
      before := VNone, offset := VNone, since := VNone, until := VNone,
      locale := VNone)
  }

  /** `kwargs.pop(key, None)`: the argument's value, or None when it was not passed. */
  function Lookup(kwargs: Kwargs, key: string): (v: Value)
    ensures (forall i :: 0 <= i < |kwargs| ==> kwargs[i].0 != key) ==> v == VNone
    ensures DistinctKeys(kwargs) ==>
              forall i :: 0 <= i < |kwargs| && kwargs[i].0 == key ==> v == kwargs[i].1
    decreases |kwargs|
  {
    if kwargs == [] then VNone
    else if kwargs[0].0 == key then kwargs[0].1
    else
      assert forall i :: 0 <= i < |kwargs| - 1 ==> kwargs[1..][i] == kwargs[i + 1];
      Lookup(kwargs[1..], key)
  }

  /** The keyword arguments left after popping every name in `keys`, in their order. */
  function Without(kwargs: Kwargs, keys: set<string>): (r: Kwargs)
    ensures forall j :: 0 <= j < |r| ==> r[j].0 !in keys && r[j] in kwargs
    ensures forall i :: 0 <= i < |kwargs| && kwargs[i].0 !in keys ==> kwargs[i] in r
    ensures DistinctKeys(kwargs) ==> DistinctKeys(r)
    decreases |kwargs|
  {
    if kwargs == [] then []
    else
      var rest := Without(kwargs[1..], keys);
      assert forall i :: 0 <= i < |kwargs| - 1 ==> kwargs[1..][i] == kwargs[i + 1];
      if kwargs[0].0 in keys then rest else [kwargs[0]] + rest
  }

  /** The arguments `_fetch_edge` takes out of `kwargs` for the activities edge. */
  const TimeKeys: set<string> := {"time_range", "since", "until"}

  /** `time_params`: the range when truthy, otherwise whichever of since/until is truthy. */
  function TimeKwargs(timeRange: Value, since: Value, until: Value): Kwargs {
    if Truthy(timeRange) then [("time_range", timeRange)]
    else
      (if Truthy(since) then [("since", since)] else []) +
      (if Truthy(until) then [("until", until)] else [])
  }

  /** A truthy range is sent and hides since/until; otherwise each is sent when truthy. */
  ghost predicate TimeSent(p: Params, timeRange: Value, since: Value, until: Value) {
    && ("time_range" in p <==> Truthy(timeRange))
    && ("time_range" in p ==> Normalize("time_range", timeRange) == Success(p["time_range"]))
    && ("since" in p <==> !Truthy(timeRange) && Truthy(since))
    && ("since" in p ==> p["since"] == since)
    && ("until" in p <==> !Truthy(timeRange) && Truthy(until))
    && ("until" in p ==> p["until"] == until)
  }

  /** What `_prepare_params({}, **time_params)` yields. */
  function TimeMap(timeRange: Value, since: Value, until: Value): Params
    requires Truthy(timeRange) ==> Normalize("time_range", timeRange).Success?
  {
    if Truthy(timeRange) then map["time_range" := Normalize("time_range", timeRange).value]
    else
      (if Truthy(since) then map["since" := since] else map[]) +
      (if Truthy(until) then map["until" := until] else map[])
  }

  /** With a truthy range, `time_params` holds the range alone. */
  lemma TimeRangePrepared(timeRange: Value)
    requires Truthy(timeRange)
    ensures Normalize("time_range", timeRange).Success?
    ensures Prepare(map[], [("time_range", timeRange)]) ==
            Success(map["time_range" := Normalize("time_range", timeRange).value])
  {
    var tk := [("time_range", timeRange)];
    assert "time_range" !in JoinKeys;
    assert tk[..0] == [];
  }

  /** Without a range, `time_params` holds whichever of since/until is truthy, unchanged. */
  lemma SinceUntilPrepared(since: Value, until: Value)
    ensures Prepare(map[], TimeKwargs(VNone, since, until)) == Success(TimeMap(VNone, since, until))
  {
    var tk := TimeKwargs(VNone, since, until);
    assert "since" !in JoinKeys && "until" !in JoinKeys;
    assert "since" !in JsonKeys && "until" !in JsonKeys;
    if Truthy(since) && Truthy(until) {
      assert tk == [("since", since), ("until", until)];
      assert tk[..1] == [("since", since)];
      assert tk[..1][..0] == [];
      assert Prepare(map[], tk[..1]) == Success(map["since" := since]);
      assert map["since" := since] + map["until" := until] == map["since" := since]["until" := until];
    } else if Truthy(since) {
      assert tk == [("since", since)] && tk[..0] == [];
      assert map["since" := since] + map[] == map["since" := since];
    } else if Truthy(until) {
      assert tk == [("until", until)] && tk[..0] == [];
      assert map[] + map["until" := until] == map["until" := until];
    } else {
      var none: Params := map[];
      assert tk == [];
      assert none + none == none;
    }
  }

  /** The time map obeys the time-window rule and writes only time keys. */
  lemma TimeMapSent(timeRange: Value, since: Value, until: Value)
    requires Truthy(timeRange) ==> Normalize("time_range", timeRange).Success?
    ensures TimeMap(timeRange, since, until).Keys <= TimeKeys
    ensures TimeSent(TimeMap(timeRange, since, until), timeRange, since, until)
  {
  }

  lemma TimeParamsPrepared(timeRange: Value, since: Value, until: Value)
    ensures Prepare(map[], TimeKwargs(timeRange, since, until)).Success?
    ensures Prepare(map[], TimeKwargs(timeRange, since, until)).value.Keys <= TimeKeys
    ensures TimeSent(Prepare(map[], TimeKwargs(timeRange, since, until)).value, timeRange, since, until)
  {
    if Truthy(timeRange) {
      TimeRangePrepared(timeRange);
    } else {
      assert TimeKwargs(timeRange, since, until) == TimeKwargs(VNone, since, until);
      SinceUntilPrepared(since, until);
    }
    TimeMapSent(timeRange, since, until);
  }

  /** The arguments that are popped for the activities edge never raise. */
  lemma FetchEdgeFails(kwargs: Kwargs, rest: Kwargs)
    requires forall j :: 0 <= j < |rest| ==> rest[j] in kwargs
    requires forall i :: 0 <= i < |kwargs| && kwargs[i].0 !in TimeKeys ==> kwargs[i] in rest
    ensures (exists j :: 0 <= j < |rest| && Fails(rest[j])) <==>
            (exists i :: 0 <= i < |kwargs| && Fails(kwargs[i]))
  {
    assert "time_range" !in JoinKeys && "since" !in JoinKeys && "until" !in JoinKeys;
    if exists i :: 0 <= i < |kwargs| && Fails(kwargs[i]) {
      var i :| 0 <= i < |kwargs| && Fails(kwargs[i]);
      var j :| 0 <= j < |rest| && rest[j] == kwargs[i];
    }
  }

  /**
   * `_fetch_edge(parent_id, edge_name, **kwargs)`: `GET {parent_id}/{edge_name}`
   * with the arguments as `_prepare_params` stores them; for the activities
   * edge the time arguments are taken out first and sent by the time-window
   * rule instead, which overrides whatever the other arguments produced.
   */
  function FetchEdge(token: string, parentId: string, edge: string, kwargs: Kwargs): (r: Result<Request, ParamError>)
    requires DistinctKeys(kwargs)
    ensures r.Failure? <==> exists i :: 0 <= i < |kwargs| && Fails(kwargs[i])
    ensures r.Success? ==> r.value.url == EdgeUrl(parentId, edge)
    ensures r.Success? ==>
              forall i :: 0 <= i < |kwargs| && (edge != "activities" || kwargs[i].0 !in TimeKeys) ==>
                Prepared(r.value.params, TokenParams(token), kwargs[i].0, kwargs[i].1)
    ensures r.Success? && edge == "activities" ==>
              TimeSent(r.value.params, Lookup(kwargs, "time_range"), Lookup(kwargs, "since"),
                       Lookup(kwargs, "until"))
  {
    var base := TokenParams(token);
    var rest := EdgeRest(edge, kwargs);
    var tk := EdgeTime(edge, kwargs);
    FetchEdgeFails(kwargs, rest);
    PrepareFailsIff(base, rest);
    TimeParamsPrepared(Lookup(kwargs, "time_range"), Lookup(kwargs, "since"), Lookup(kwargs, "until"));
    match Prepare(base, rest)
    case Failure(e) => Failure(e)
    case Success(p) =>
      PrepareContents(base, rest);
      var t := Prepare(map[], tk).value;
      FetchEdgeContents(base, kwargs, edge == "activities", rest, p, t);
      Success(Request(EdgeUrl(parentId, edge), p + t))
  }

  /** The arguments `_fetch_edge` hands to `_prepare_params` with the token: all but the popped ones. */
  function EdgeRest(edge: string, kwargs: Kwargs): (r: Kwargs)
    ensures forall j :: 0 <= j < |r| ==> r[j] in kwargs
    ensures forall i :: 0 <= i < |kwargs| && kwargs[i].0 !in TimeKeys ==> kwargs[i] in r
    ensures edge == "activities" ==> forall j :: 0 <= j < |r| ==> r[j].0 !in TimeKeys
    ensures edge != "activities" ==> r == kwargs
    ensures DistinctKeys(kwargs) ==> DistinctKeys(r)
  {
    if edge == "activities" then Without(kwargs, TimeKeys) else kwargs
  }

  /** The `time_params` `_fetch_edge` builds: empty except on the activities edge. */
  function EdgeTime(edge: string, kwargs: Kwargs): Kwargs {
    if edge == "activities"
    then TimeKwargs(Lookup(kwargs, "time_range"), Lookup(kwargs, "since"), Lookup(kwargs, "until"))
    else []
  }

  /**
   * The keys `_fetch_edge` sends: on other edges exactly the token and the
   * given arguments; on the activities edge, apart from the three time keys
   * (which `TimeSent` fixes), exactly the token and the other given
   * arguments. The token survives unless an argument replaces it.
   */
  lemma FetchEdgeKeys(token: string, parentId: string, edge: string, kwargs: Kwargs)
    requires DistinctKeys(kwargs)
    ensures var r := FetchEdge(token, parentId, edge, kwargs);
            r.Success? && edge != "activities" ==> r.value.params.Keys == {"access_token"} + GivenKeys(kwargs)
    ensures var r := FetchEdge(token, parentId, edge, kwargs);
            r.Success? && edge == "activities" ==>
              r.value.params.Keys - TimeKeys == {"access_token"} + (GivenKeys(kwargs) - TimeKeys)
    ensures var r := FetchEdge(token, parentId, edge, kwargs);
            r.Success? && "access_token" !in GivenKeys(kwargs) ==> r.value.params["access_token"] == VStr(token)
  {
    var base := TokenParams(token);
    var rest := EdgeRest(edge, kwargs);
    if Prepare(base, rest).Success? {
      TokenParamsKeys(token);
      TimeParamsPrepared(Lookup(kwargs, "time_range"), Lookup(kwargs, "since"), Lookup(kwargs, "until"));
      PrepareContents(base, rest);
      var p := Prepare(base, rest).value;
      var t := Prepare(map[], EdgeTime(edge, kwargs)).value;
      FetchEdgeContents(base, kwargs, edge == "activities", rest, p, t);
      assert FetchEdge(token, parentId, edge, kwargs) == Success(Request(EdgeUrl(parentId, edge), p + t));
    }
  }

  lemma FetchEdgeContents(base: Params, kwargs: Kwargs, activities: bool, rest: Kwargs, p: Params, t: Params)
    requires DistinctKeys(kwargs) && DistinctKeys(rest)
    requires "since" !in base && "until" !in base && "time_range" !in base
    requires activities ==> forall i :: 0 <= i < |kwargs| && kwargs[i].0 !in TimeKeys ==> kwargs[i] in rest
    requires activities ==> forall j :: 0 <= j < |rest| ==> rest[j].0 !in TimeKeys
    requires forall j :: 0 <= j < |rest| ==> rest[j] in kwargs
    requires !activities ==> rest == kwargs && t == map[]
    requires t.Keys <= TimeKeys
    requires p.Keys == base.Keys + GivenKeys(rest)
    requires forall j :: 0 <= j < |rest| ==> Prepared(p, base, rest[j].0, rest[j].1)
    requires forall k :: k in base && k !in GivenKeys(rest) ==> p[k] == base[k]
    ensures forall i :: 0 <= i < |kwargs| && (!activities || kwargs[i].0 !in TimeKeys) ==>
              Prepared(p + t, base, kwargs[i].0, kwargs[i].1)
    ensures activities ==> forall k :: k in TimeKeys ==> k !in p
    ensures !activities ==> (p + t).Keys == base.Keys + GivenKeys(kwargs)
    ensures activities ==> (p + t).Keys - TimeKeys == base.Keys + (GivenKeys(kwargs) - TimeKeys)
    ensures forall k :: k in base && k !in GivenKeys(kwargs) ==> (p + t)[k] == base[k]
  {
    forall i | 0 <= i < |kwargs| && (!activities || kwargs[i].0 !in TimeKeys)
      ensures Prepared(p + t, base, kwargs[i].0, kwargs[i].1)
    {
      var j :| 0 <= j < |rest| && rest[j] == kwargs[i];
      assert Prepared(p, base, rest[j].0, rest[j].1);
      assert kwargs[i].0 !in t;
    }
    if activities {
      forall k | k in TimeKeys ensures k !in p {
        assert k !in GivenKeys(rest);
      }
      GivenWithout(kwargs, rest);
    }
  }

  /** Popping the time arguments removes exactly their names from the given ones. */
  lemma GivenWithout(kwargs: Kwargs, rest: Kwargs)
    requires forall j :: 0 <= j < |rest| ==> rest[j].0 !in TimeKeys && rest[j] in kwargs
    requires forall i :: 0 <= i < |kwargs| && kwargs[i].0 !in TimeKeys ==> kwargs[i] in rest
    ensures GivenKeys(rest) == GivenKeys(kwargs) - TimeKeys
  {
    forall k | k in GivenKeys(rest) ensures k in GivenKeys(kwargs) - TimeKeys {
      var j :| 0 <= j < |rest| && rest[j].1 != VNone && rest[j].0 == k;
      var i :| 0 <= i < |kwargs| && kwargs[i] == rest[j];
    }
    forall k | k in GivenKeys(kwargs) - TimeKeys ensures k in GivenKeys(rest) {
      var i :| 0 <= i < |kwargs| && kwargs[i].1 != VNone && kwargs[i].0 == k;
      var j :| 0 <= j < |rest| && rest[j] == kwargs[i];
    }
  }
}
