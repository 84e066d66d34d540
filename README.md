# Meta Ads MCP server: query assembly, token cache and OAuth callback

This project models the deterministic layer of a Model Context Protocol server
for the Facebook Graph (Meta Ads) API. The layer sits in front of the network.

- **Query-parameter assembly (server.py).** `_prepare_params` copies a base
  mapping. It drops every option that is None, JSON-encodes the structured
  keys, comma-joins the field-selector lists and passes the rest through.
  `_build_insights_params` adds the insights rules on top:
  - the time window decides between `date_preset`, `time_range`/`time_ranges` and `since`/`until`;
  - `time_increment` is dropped when it is `all_days`;
  - each attribution flag is sent as `'true'` when its value is truthy.

  Every tool starts from `{'access_token': token}`, makes its own guarded
  stores in a fixed order and issues one GET request. The model returns that
  request as a URL plus a parameter map.
- **Token lookup (server.py).** `_get_fb_access_token` is a write-once cache.
  The environment comes first, then the argument after `--fb-token`.
- **OAuth helper (oauth_server.py).** `GET /` issues a CSRF state and
  redirects to the login dialog. `GET /callback` checks that state, then
  exchanges the code for a long-lived token, records the token in `.env` and
  renders the success page. The exit is scheduled only when the page and
  its console summary were produced without an exception.

The model follows the code's own shape, module by module:

- **`Values`**: Python values, their truthiness and `','.join`.
- **`Json`**: the text `json.dumps` writes, a decoder for it, and the
  round-trip lemma `DecodeEncode`. The round trip means two values never share
  an encoding.
- **`Params`**: `_prepare_params`, both as a fold and as the loop of the
  source, proved equal.
- **`Query`**: the shared shape of the tools, a table of guarded stores run in
  order. `ApplyStoresContents` is proved once for every table:
  - the run raises exactly when some store raises, and then with the first such store's error;
  - each store decides its own key;
  - every other key keeps its value.
- **`Insights`**: `_build_insights_params` and its rules.
- **`Tools`** and **`ToolFacts`**: the tools, `_fetch_node`, `_fetch_edge`,
  and what the tools promise their callers.
- **`TokenCache`**: `_get_fb_access_token`. It is a class over the
  module-level variable, with a method as written and a corrected one.
- **`UrlEncode`** and **`OAuth`**: `urlencode` with `quote_plus`, and
  `do_GET`. `do_GET` is a pure step function, `Dispatch`. The class
  `OAuthServer` holds the state token, the `.env` token, the exit timer and a
  log of outbound requests. Its `HandleGet` is proved against `Dispatch`.

Where the code and its prose descriptions differ, the model follows the code:

- The login redirect writes the permissions comma-joined *and* URL-encoded,
  so each comma travels as `%2C` (`OAuth.RedirectQuery`).
- The insights builder sends both `time_range` and `time_ranges` when both are
  given.
- The activities tools JSON-encode a `time_range` of any type. `_fetch_edge`
  encodes only a list or a dict (`ToolFacts.ActivitiesAgreeWithFetchEdge`).

## Model

| member | source | states |
|---|---|---|
| Values.PyCommaJoin | server.py:87-96 | `','.join(v)`: for a list, it succeeds exactly when every item is a string, and the result is those strings comma-joined. None, bool and int raise TypeError. A string or dict is iterated. |
| Values.SplitJoin | server.py:1552 | Splitting a comma-joined non-empty list of comma-free strings on `,` gives the list back. |
| Values.DictGet | oauth_server.py:110 | `d.get(key, default)`: the default when the key is absent, otherwise a value stored under that key. |
| Json.DecodeEncode | server.py:83-86 | Decoding the text `json.dumps` writes gives back the value. |
| Json.EncodeInjective | server.py:83-86 | Two values with the same JSON text are equal. |
| Params.Normalize | server.py:83-96 | The value stored for an argument that is not None. For a JSON key holding a list or dict, it is JSON text that decodes back to the value. For a join key holding a list, it is the comma-joined items, and it raises TypeError for that key exactly when an item is not a string. Anything else is stored unchanged. |
| Params.PrepareFailsIff | server.py:77-97 | `_prepare_params` raises exactly when some argument that is not None cannot be normalised, and then with the first such argument's key. |
| Params.PrepareContents | server.py:77-97 | On success, the keys are the base keys plus the names of the arguments that are not None. Each such argument is stored normalised. Every other base key keeps its value. |
| Params.PrepareFailurePersists | server.py:80-96 | Once a prefix of the arguments raises, the whole call raises with that error. |
| Params.PrepareParams | server.py:77-97 | The loop over a copy of the base computes exactly the fold `Prepare`. |
| Query.ApplyStoresContents | server.py:2022-2065 | A run of guarded stores raises exactly when a reached store's `','.join` raises, and then with the first such store's key. Otherwise each store's key holds its encoded value when its guard held, or else what the base held. Untouched keys are kept. |
| Insights.PreparedForwarded | server.py:158-174 | The thirteen forwarded options are stored as `_prepare_params` stores them, and no other key changes. |
| Insights.RulesApplied | server.py:177-201 | The insights rules never raise. `date_preset` is sent only when no time option is truthy. `time_range`/`time_ranges` are sent as JSON when truthy. `time_increment` is sent only when truthy and not `all_days`. `since`/`until` are sent only without a range. Each flag is `'true'` exactly when its value is truthy (any Python value is accepted). No other key changes. |
| Insights.InsightsParams | server.py:131-203 | `_build_insights_params` raises exactly when a forwarded option cannot be comma-joined. Otherwise the keys are bounded by the base, forwarded and rule keys, other base keys are kept, and every forwarded option and every rule holds. |
| Tools.ListAdAccounts | server.py:209-225 | `GET me` with the token and the fixed field selector `adaccounts{name}`. It never raises. |
| Tools.FetchNode | server.py:100-105 | `GET {node_id}`. It raises exactly when an argument cannot be normalised. Otherwise the keys are the token plus the given arguments, each stored as `_prepare_params` stores it, and the token is kept. |
| Tools.GetDetailsOfAdAccount | server.py:229-242 | Without a field list, the fourteen default fields are sent comma-joined, and this never fails. A given list is sent normalised, and only a list holding a non-string raises. Only the token and `fields` are sent. |
| Tools.GetAdCreativeById | server.py:833-924 | `GET {creative_id}`. Its three stores (fields, thumbnail width and height) hold as `ApplyStoresContents` states them. |
| Tools.GetAdCreativesByAdId | server.py:928-1042 | `GET {ad_id}/adcreatives`. `limit` is sent whenever it is not None. fields, after, before and date_format are sent when truthy. |
| Tools.GetAdById | server.py:1048-1101 | `GET {ad_id}`, with fields comma-joined when truthy. |
| Tools.GetAdsByAdAccount | server.py:1105-1218 | `GET {act_id}/ads`, with its nine stores: filtering, time_range and effective_status as JSON, limit on a None test, the rest on truth. |
| Tools.GetAdsByCampaign | server.py:1222-1313 | `GET {campaign_id}/ads`, with its six stores. |
| Tools.GetAdsByAdset | server.py:1317-1416 | `GET {adset_id}/ads`, with its seven stores. |
| Tools.GetAdsetById | server.py:1422-1506 | `GET {adset_id}`, with fields comma-joined when truthy. |
| Tools.GetAdsetsByIds | server.py:1510-1561 | `GET /`, with `ids` always comma-joined (raising TypeError on a non-string id), and fields and date_format when truthy. |
| Tools.GetAdsetsByAdAccount | server.py:1565-1688 | `GET {act_id}/adsets`, with its ten stores. |
| Tools.GetAdsetsByCampaign | server.py:1692-1795 | `GET {campaign_id}/adsets`, with its seven stores. |
| Tools.GetCampaignById | server.py:1800-1900 | `GET {campaign_id}`, with fields and date_format. |
| Tools.GetCampaignsByAdAccount | server.py:1903-2067 | `GET {act_id}/campaigns`, with its fifteen stores. limit, is_completed and include_drafts are sent on a None test. Six structured options are sent as JSON: filtering, time_range, effective_status, special_ad_categories, objective and buyer_guarantee_agreement_status. |
| Tools.GetActivitiesByAdAccount | server.py:2072-2188 | `GET {act_id}/activities`. A truthy time_range is sent as JSON, and `since`/`until` only when it is falsy. |
| Tools.GetActivitiesByAdset | server.py:2194-2299 | `GET {adset_id}/activities`, with the same time precedence. |
| Tools.EffectiveLevel | server.py:511 | `level if level else default` is always truthy, and it is the given level whenever that is truthy. |
| Tools.InsightsRequest | server.py:379-409 | An insights request sends the token and everything `_build_insights_params` promises, and raises only when it does. |
| Tools.GetAdAccountInsights | server.py:248-409 | `GET {act_id}/insights` with the insights parameters built from the given options. |
| Tools.LevelSent | server.py:509-520 | A truthy level is sent unchanged. |
| Tools.GetCampaignInsights | server.py:412-538 | `GET {campaign_id}/insights`. The level `campaign` is sent unless a truthy level is given. |
| Tools.GetAdsetInsights | server.py:541-662 | `GET {adset_id}/insights`. The level `adset` is sent unless a truthy level is given. |
| Tools.GetAdInsights | server.py:666-797 | `GET {ad_id}/insights`. The level `ad` is sent unless a truthy level is given. |
| Tools.Lookup | server.py:114-116 | `kwargs.pop(key, None)` yields the argument's value, or None when it is absent. |
| Tools.Without | server.py:114-116 | After the pops, exactly the other arguments remain, still with distinct names. |
| Tools.TimeParamsPrepared | server.py:117-122 | `time_params` never raises. It sends the range alone when truthy, else since/until when truthy. |
| Tools.FetchEdge | server.py:107-128 | `GET {parent_id}/{edge}`. It raises exactly when an argument cannot be normalised. Every argument that is not popped is stored as `_prepare_params` stores it. On the activities edge the time rule decides `time_range`, `since` and `until`. |
| Tools.FetchEdgeKeys | server.py:107-128 | The keys `_fetch_edge` sends. On other edges they are exactly the token plus the given arguments. On the activities edge, apart from the three time keys, they are exactly the token plus the given arguments other than those three. The token is kept unless an argument named `access_token` is given. |
| Tools.EdgeRest | server.py:114-125 | The arguments passed on with the token are all of the call's arguments except, on the activities edge, the popped time arguments. |
| Tools.GivenWithout | server.py:114-117 | Popping the three time arguments removes exactly their names from the given arguments. |
| ToolFacts.TokenAlwaysSent | server.py:2016-2020 | A tool whose stores never write `access_token` sends the token it was given. |
| ToolFacts.ActivitiesRangeWins | server.py:2179-2186 | A truthy time_range is sent as JSON, and since/until are never sent with it. |
| ToolFacts.ActivitiesTimeSent | server.py:2290-2297 | For a list, dict or falsy range, the activities tool obeys the time rule of `_fetch_edge`. |
| ToolFacts.FetchEdgeTimeSent | server.py:113-122 | `_fetch_edge` on the activities edge applies the time rule to the popped arguments. |
| ToolFacts.TimeSentAgree | server.py:117-122 | Two parameter maps obeying the time rule agree on the three time keys. |
| ToolFacts.ActivitiesAgreeWithFetchEdge | server.py:2290-2297 | The activities tool and `_fetch_edge` agree on the URL and the three time keys for a list, dict or falsy range. |
| ToolFacts.CampaignsNoneChecks | server.py:2022-2065 | limit 0, is_completed False and include_drafts False are sent. An empty `after` and an `updated_since` of 0 are not. |
| ToolFacts.AdsetIdsRoundTrip | server.py:1552 | The ids sent split back into the given non-empty, comma-free id list. |
| ToolFacts.AdsetIdsNotStrings | server.py:1552 | A non-string id makes the tool raise TypeError on its first store. |
| ToolFacts.DefaultFieldsRoundTrip | server.py:241 | Without a field list, the call succeeds, and the fields sent split back into the default fields. |
| ToolFacts.InsightsRangeHidesPreset | server.py:177-192 | A truthy time_range is sent as JSON and hides date_preset, since and until. |
| ToolFacts.InsightsFlags | server.py:195-201 | Each attribution flag, whatever Python value it is given, is sent exactly when that value is truthy, and only ever as `'true'`. |
| ToolFacts.DefaultsForwardNothing | server.py:412-436 | With the signature defaults, only the level of the forwarded options is sent. |
| ToolFacts.DefaultsRules | server.py:412-436 | With the signature defaults, the rules send only `date_preset=last_30d` and the unified attribution flag. |
| ToolFacts.DefaultParamsExact | server.py:412-436 | Those facts fix the whole parameter map. |
| ToolFacts.DefaultsSucceed | server.py:412-436 | The defaults never raise. |
| ToolFacts.CampaignInsightsDefaults | server.py:412-538 | With every argument at its default, the campaign insights request is exactly: token, level `campaign`, `date_preset=last_30d`, `use_unified_attribution_setting=true`. |
| TokenCache.FirstIndex | server.py:51-52 | `argv.index` finds the first occurrence. |
| TokenCache.ResolveFromArgv | server.py:51-57 | Without an environment token, a token comes from the command line exactly when the first `--fb-token` is followed by an argument, and it is that argument. |
| TokenCache.ResolveFails | server.py:43-59 | It raises "no token" exactly when the environment gives none and `--fb-token` is absent. It raises "missing value" exactly when the first `--fb-token` is last. |
| TokenCache.EnvWins | server.py:45-48 | A non-empty environment token wins over the command line. |
| TokenCache.CacheIsStable | server.py:42-61 | Once a token is returned, later calls return it without re-reading, whatever the environment then holds. |
| TokenCache.LookupRepeatable | server.py:42-61 | Caching only resolved tokens, a repeated call in the same environment gives the same answer. |
| TokenCache.AsWrittenCachesEmptyEnv | server.py:43-61 | As written, an empty environment token without `--fb-token` raises first, then is returned as `""`. |
| TokenCache.TokenStore.constructor | server.py:27 | The cache starts empty. |
| TokenCache.TokenStore.GetAsWritten | server.py:31-61 | The method as written returns `Lookup` and leaves the cache `CachedAsWritten`. |
| TokenCache.TokenStore.Get | server.py:31-61 | The corrected method returns `Lookup` and caches only a resolved token. |
| UrlEncode.Utf8 | oauth_server.py:73 | One to four bytes, each below 256, and one byte exactly for ASCII. |
| UrlEncode.QuotePlusSafe | oauth_server.py:73 | `quote_plus` never writes `&`, `=` or a space, so it cannot break the query structure, and it writes at least one character per input character. |
| UrlEncode.QuotePlusUnreserved | oauth_server.py:73 | A string of unreserved characters is left as it is. |
| UrlEncode.QuotePlusAppend | oauth_server.py:73 | Quoting distributes over concatenation. |
| UrlEncode.QuotePlusCommaJoin | oauth_server.py:69-73 | A comma-joined list of unreserved words is sent with each comma as `%2C`. |
| UrlEncode.FieldShape | oauth_server.py:73 | A `key=value` component holds no `&`, and its only `=` sits right after the quoted key, so the query splits back into its pairs. |
| UrlEncode.FieldUnreserved | oauth_server.py:73 | An unreserved key and value are written as `key=value`. |
| UrlEncode.FieldCommaJoin | oauth_server.py:69-73 | A key with a comma-joined value is written `key=` plus the words joined by `%2C`. |
| OAuth.First | oauth_server.py:85 | `parse_qs(q)[key][0]` is the first value given for the key, or absent. |
| OAuth.LongLivedToken | oauth_server.py:247-264 | Any failure, including a body that is not a dict, gives None. A truthy token is the body's `access_token`. |
| OAuth.TokenInfo | oauth_server.py:266-281 | Any failure gives `{}`, and so does a body without `data`. |
| OAuth.FirstNonString | oauth_server.py:207 | The index `', '.join` reports is the first list item that is not a string, and there is none exactly when all items are strings. |
| OAuth.RenderCompletes | oauth_server.py:122-210 | Producing the success page and console summary completes exactly when the token details are a dict whose `scopes` (default `[]`) is a string, a dict or a list of strings. Details that are not a dict raise AttributeError before the page body. A list holding a non-string fails only at the console join, after the body was written. |
| OAuth.CsrfGuard | oauth_server.py:84-106 | Facebook is contacted exactly on `/callback` when a state was issued, the callback's first state equals it, and a code came. The first request then exchanges that code. |
| OAuth.ExitOnlyAfterToken | oauth_server.py:113-222 | `.env` is written (when the write works) only after a truthy long-lived token, with exactly three requests made, the last being `debug_token`. The exit is scheduled exactly when the page and console summary were produced. A rendering failure gives a 500 with the exception text after the 200, and no exit. |
| OAuth.StateOnlyFromRoot | oauth_server.py:61-77 | Only `/` changes the state, always to the fresh one, answering with the 302 redirect. |
| OAuth.CallbackRejections | oauth_server.py:84-242 | A missing state gives 400. A wrong or never-issued state gives 403. After a valid state without a code, `error` gives the refusal page (description default `Unknown error`), and no code and no error gives no answer. |
| OAuth.UnknownPathNotFound | oauth_server.py:244-245 | Every other path gives 404 and changes nothing. |
| OAuth.RedirectQuery | oauth_server.py:65-73 | The redirect's state parameter is the fresh state verbatim when it is URL-safe. The scope is the permissions joined by `%2C`. `response_type=code`. |
| OAuth.ClientIdQuery | oauth_server.py:65-73 | The redirect's first field is `client_id` with the app id verbatim when it is URL-safe (`None` when unset). |
| OAuth.ExchangeAnswers | oauth_server.py:93-222 | After a valid state with a code, the answer is 500 or the token page. A failing first exchange gives 500 with the exception text. A missing or empty long-lived token gives 500 `Failed to get long-lived token`. Otherwise the token page is followed by a 500 exactly when rendering fails. |
| OAuth.StatusCodes | oauth_server.py:57-245 | `/` answers 302. Unknown paths answer 404. `/callback` answers 200, 400, 403, 500 or nothing. |
| OAuth.OAuthServer.constructor | oauth_server.py:40 | No state is issued at start. |
| OAuth.OAuthServer.GetLongLivedToken | oauth_server.py:247-264 | It logs one request and returns `LongLivedToken`. |
| OAuth.OAuthServer.GetTokenInfo | oauth_server.py:266-281 | It logs one request and returns `TokenInfo`. |
| OAuth.OAuthServer.SaveToken | oauth_server.py:42-50 | `.env` gets the token exactly when `set_key` does not raise. The result says whether it did, and nothing else changes. |
| OAuth.OAuthServer.ExchangeCode | oauth_server.py:93-222 | The code branch changes the request log, `.env` and the exit timer as `Exchange` says. |
| OAuth.OAuthServer.DeliverToken | oauth_server.py:113-216 | After a long-lived token, it logs the `debug_token` request, writes `.env` when the write works, answers with the success page or the broken page, and starts the exit timer exactly when the page rendered, as `Deliver` says. |
| OAuth.OAuthServer.HandleCallback | oauth_server.py:79-242 | The `/callback` branch answers, logs requests, writes `.env` and schedules the exit exactly as `Callback` says, and leaves the state as it was. |
| OAuth.OAuthServer.HandleGet | oauth_server.py:57-245 | `do_GET` answers, updates the state, logs requests, writes `.env` and schedules the exit exactly as `Dispatch` says. |

## Findings

| source | as written | input that shows it | evidently intended | confidence | as-written member | corrected member |
|---|---|---|---|---|---|---|
| server.py:43-61 | `FB_ACCESS_TOKEN` gets the environment value before the value is checked for truth, and nothing resets it when the lookup then raises | `FB_ACCESS_TOKEN=""` and no `--fb-token`: the first call raises, and the second returns the empty string as the token | only a resolved token is cached, so a failed lookup raises again | high (not executed) | TokenCache.AsWrittenCachesEmptyEnv | TokenCache.LookupRepeatable |

`TokenCache.TokenStore.GetAsWritten` implements the as-written behaviour.
`TokenCache.TokenStore.Get` implements the corrected one.

## Left out

- `_make_graph_api_call` (server.py:63-74), `fetch_pagination_url` (server.py:801-827) and every `requests.get` in oauth_server.py are left out. A tool yields the request it would send. On the OAuth side, each response is an input (`HttpOutcome`): raised with its message, or a decoded body.
- MCP registration, `mcp.run` and the startup call in `__main__` are left out: they belong to a foreign library.
- Tools.GetAdCreativeById and the other tools, and `_build_insights_params` after its `_prepare_params` call: their straight-line `params[key] = ...` statements on a local dict are modelled as an ordered table of guarded stores run by `Query.ApplyStores`, not as separate statements. The order, the guards and the encodings are those of the source.
- The tools take the access token as a parameter. `_get_fb_access_token` is modelled on its own in `TokenCache`.
- Tool arguments are Python values (`Values.Value`), because the type hints are not enforced. Keyword arguments are a sequence of distinct names, which Python guarantees.
- Json.Encode: non-ASCII characters and control characters other than `\n`, `\r`, `\t`, `\b` and `\f` are written as themselves, where `json.dumps` writes `\uXXXX` escapes. Floats do not occur.
- `urlparse` and `parse_qs` are left out. The handler receives the path and the query pairs already split, decoded and stripped of blank values.
- `secrets.token_urlsafe` becomes the `nonce` argument. The `.env` write via `set_key` becomes the `writeOk` input.
- The `threading.Timer` with `os._exit` becomes the `exitScheduled` flag.
- The text of the HTML pages and console output is left out. What rendering can raise is modelled (`OAuth.Render`): the page is a `TokenPage` or a `BrokenTokenPage` with the exception's text, not its markup. An `html.encode()` failure on a lone surrogate is not modelled.
- The `HTTPServer` loop and the configuration check in `main` are left out.
- generate_token.py and test_connection.py are not part of this model.
