# Amazon catalog adapter for n8n — a Dafny model

This project models the logic of two n8n nodes for Amazon's product catalog:

- **Amazon Creators API** (Offers V2, camelCase schema). Its model covers:
  - an OAuth 2.0 client-credentials token cache (section 4.4 of RFC 6749), keyed by credential, version and endpoint;
  - a bounded retry loop with exponential backoff and jitter that honours `retry-after` (section 10.2.3 of RFC 9110);
  - per-operation request assembly with its validation errors;
  - a response normalizer.
- **Amazon PA-API Enhanced** (PA-API 5 legacy, PascalCase schema). Its model covers:
  - request-parameter assembly with its defaults and validation errors;
  - its own response normalizer.
- **The Creators node's helpers:** `normalizeList`, `buildPriceSummary` and `parseRetryAfter`.

Provider responses are modelled as JSON values (`JsValue.Json`), where `None` is JavaScript `undefined`. Truthiness, optional chaining and the TypeErrors of a property read on `null` or of `.map` on a non-array are modelled exactly. These are the model's only inputs from outside:

- the clock;
- the HTTP outcome of each attempt;
- the `Math.random` draws;
- JavaScript's `Number()`, `Date.parse`, `JSON.parse` and `JSON.stringify`;
- the token endpoint's answer;
- the signing library's result.

Prices are exact reals.

Modules:

| module | file | models |
|---|---|---|
| `Wrappers`, `JsValue`, `JsString` | wrappers.dfy, js_value.dfy, js_string.dfy | Option/Result; JSON values, truthiness, `?.`, `.map` that throws; ECMAScript `trim` and `split` |
| `Utils`, `UtilsExamples` | utils.dfy | the helpers of the Creators node, and the package's test cases |
| `ItemRecords` | item_records.dfy | the operations and sub-records both nodes share |
| `TokenCache` | token_cache.dfy | `getAccessToken` and the process-wide `tokenCache`, as class `TokenStore` |
| `RetryExecutor` | retry.dfy | `postWithRetry`: specification `RunFrom` and the loop `PostWithRetry` |
| `CreatorsRequest`, `CreatorsNormalizer`, `CreatorsExecute` | creators_*.dfy | Creators request body, normalizer, and one record end to end |
| `PaRequest`, `PaNormalizer`, `PaExecute` | pa_*.dfy | PA-API request parameters, normalizer, and one record end to end |

Behaviour of the code worth knowing, which the model keeps as written:

- **Token before validation.** The Creators node fetches its token (AmazonCreatorsApi.node.ts:389) before it validates its input (lines 423-472). So validation errors are not reported before any network call, and a token failure hides an invalid input. `CreatorsExecute.ExecuteItem` states this ordering.
- **Empty language list.** A `languagesOfPreference` that is present but has no usable entry is sent as an empty list (`CreatorsRequest.BlankLanguagesSentAsEmptyList`).
- **Tokens with short lifetimes.** A freshly fetched token whose `expires_in` is at most 30 s is returned, although the expiry stored with it is its receipt time. The rule "never served once `now >= expiresAt`" holds for cached tokens only.
- **Past and negative retry hints.** A `retry-after` date in the past gives a delay of 0, not "no hint". So does a negative number of seconds.
- **No retry for tokens.** The token request is not retried.
- **Normalizer failures differ by node.**
  - A Creators normalizer failure (a TypeError) fails the record; it does not degrade to the raw response.
  - The PA normalizer never throws. So the PA node's fallback to the raw response (AmazonPAEnhanced.node.ts:464-474) is never taken.

## Model

| member | source | states |
|---|---|---|
| JsString.TrimIsInfix | nodes/AmazonCreatorsApi/utils.ts:3 | `trim` removes a blank prefix and a blank suffix and keeps the infix between them |
| JsString.Trim | nodes/AmazonCreatorsApi/utils.ts:3 | the result has no leading or trailing whitespace and is no longer than the input |
| JsString.Split | nodes/AmazonCreatorsApi/utils.ts:7 | `split(',')` yields at least one piece and no piece contains a comma |
| JsString.TrimEmptyIffBlank | nodes/AmazonCreatorsApi/utils.ts:31 | a value trims to "" exactly when every character is whitespace |
| JsString.JoinSplit | nodes/AmazonCreatorsApi/utils.ts:7 | joining the pieces of `split(',')` with ',' gives back the input |
| JsString.SplitJoin | nodes/AmazonCreatorsApi/utils.ts:7 | splitting a join of comma-free pieces gives back exactly those pieces |
| Utils.DropEmpty | nodes/AmazonCreatorsApi/utils.ts:3 | `filter(Boolean)` leaves no empty string, keeps the order of what it keeps, and keeps every non-empty value that occurs |
| Utils.DropEmptyKeepsRepeats | nodes/AmazonCreatorsApi/utils.ts:3 | nothing but empty strings is dropped: the result is the input's multiset minus its empty strings, and its length falls by exactly their number; with the order fact above this fixes the result |
| Utils.NormalizeList | nodes/AmazonCreatorsApi/utils.ts:1-10 | every entry is non-empty and its own trim; the result is an order-preserving subsequence of the trimmed pieces (comma pieces or array entries), no longer than them, holding every non-empty trimmed value that occurs |
| Utils.NormalizeListKeepsRepeats | nodes/AmazonCreatorsApi/utils.ts:1-10 | repeated entries are all kept: each non-empty trimmed piece appears as often as it occurs, and the length is the number of pieces minus those that trim to "" |
| Utils.NormalizeClean | nodes/AmazonCreatorsApi/utils.ts:2-3 | on a list that is already clean, the array branch returns it unchanged |
| Utils.NormalizeListIdempotent | nodes/AmazonCreatorsApi/utils.ts:2-3 | `normalizeList(normalizeList(x)) == normalizeList(x)` |
| UtilsExamples.NormalizeListExamples | tests/utils.test.js:15-18 | `"a, b ,c"` gives `["a","b","c"]` and `[" a ","b",""]` gives `["a","b"]` |
| UtilsExamples.RepeatedEntriesKept | nodes/AmazonCreatorsApi/utils.ts:3 | repeated entries all survive: `["a"," a ","a"]` gives `["a","a","a"]` |
| Utils.Prices | nodes/AmazonCreatorsApi/utils.ts:13-15 | the kept amounts are exactly the numeric `price.money.amount` values of the listings |
| Utils.Lowest | nodes/AmazonCreatorsApi/utils.ts:22 | `Math.min` returns an element that is at most every element |
| Utils.Highest | nodes/AmazonCreatorsApi/utils.ts:23 | `Math.max` returns an element that is at least every element |
| Utils.BuildPriceSummary | nodes/AmazonCreatorsApi/utils.ts:12-25 | absent exactly when no listing has a numeric amount; otherwise `offerCount` counts every listing, and both bounds are amounts of some listing that enclose every amount |
| Utils.NoListingsNoSummary | nodes/AmazonCreatorsApi/utils.ts:16-18 | an empty listing array has no summary |
| Utils.SinglePricedListing | tests/utils.test.js:20-27 | one listing priced x gives count 1 with lowest and highest x |
| Utils.ParseRetryAfter | nodes/AmazonCreatorsApi/utils.ts:27-42 | an absent or empty header gives no hint; an empty array header throws; an array uses element 0; any delay is ≥ 0 |
| Utils.RetryHint | nodes/AmazonCreatorsApi/utils.ts:30-41 | blank gives no hint; n seconds give max(1000·n, 0); else a date gives max(date − now, 0); else no hint |
| Utils.RetryAfterFiveSeconds | tests/utils.test.js:29-30 | `"5"` gives 5000 ms |
| Utils.RetryAfterDate | tests/utils.test.js:31-33 | a date 2 s ahead gives 2000 ms; a date in the past gives 0 |
| TokenCache.CacheKey | nodes/AmazonCreatorsApi/AmazonCreatorsApi.node.ts:30 | the key is `id:version:endpoint`, with the separators at the positions that delimit the three parts |
| TokenCache.EndpointTag | nodes/AmazonCreatorsApi/AmazonCreatorsApi.node.ts:30 | the endpoint part of the key is never empty: a non-empty override as given, else `default` |
| TokenCache.CacheKeyInjective | nodes/AmazonCreatorsApi/AmazonCreatorsApi.node.ts:30 | colon-free ids and versions share an entry only if id, version and endpoint tag all agree |
| TokenCache.TokenUrl | nodes/AmazonCreatorsApi/AmazonCreatorsApi.node.ts:14-39 | a non-blank override, trimmed, wins; without one a known version gets exactly its regional endpoint from the table; none for an unknown version without an override |
| TokenCache.Expiry | nodes/AmazonCreatorsApi/AmazonCreatorsApi.node.ts:61 | the expiry is 30 s before the provider's, and never before receipt |
| TokenCache.Lookup | nodes/AmazonCreatorsApi/AmazonCreatorsApi.node.ts:31-34 | a cached token is served exactly while `now < expiresAt` |
| TokenCache.UnusableAnswerFails | nodes/AmazonCreatorsApi/AmazonCreatorsApi.node.ts:55-59 | an answer with a missing or empty `access_token`, or a missing or zero `expires_in`, fails with "No access token received" and leaves the cache as it was |
| TokenCache.TokenResult | nodes/AmazonCreatorsApi/AmazonCreatorsApi.node.ts:24-64 | succeeds exactly on a fresh cache hit or a usable fetch from a known URL; an unknown version with no override fails as unsupported |
| TokenCache.AuthError.Message | nodes/AmazonCreatorsApi/AmazonCreatorsApi.node.ts:36-58 | the unsupported-version text ends with the version; a transport failure is rethrown with axios's own message |
| TokenCache.CacheAfter | nodes/AmazonCreatorsApi/AmazonCreatorsApi.node.ts:30-63 | only the entry at the key can change; it is written, with the token and its computed expiry, exactly when there was no fresh hit, the URL is known and the answer is usable, and then that token is returned |
| TokenCache.TokenStore.GetAccessToken | nodes/AmazonCreatorsApi/AmazonCreatorsApi.node.ts:24-64 | the cache becomes `CacheAfter` of the old one and the result is `TokenResult`: a hit returns the cached token with no request and no change; an unsupported version makes no request and no change; a failed POST rethrows the transport error's message and, like an unusable answer, leaves the cache as it was; a usable one writes only its key, with the computed expiry; only non-empty tokens are ever cached |
| TokenCache.SecondCallReusesToken | nodes/AmazonCreatorsApi/AmazonCreatorsApi.node.ts:30-63 | a second call before the expiry returns the first call's token without a request |
| TokenCache.RefreshAfterExpiry | nodes/AmazonCreatorsApi/AmazonCreatorsApi.node.ts:31-63 | once the expiry has passed, the next call posts the grant again and returns the new token |
| RetryExecutor.Retryable | nodes/AmazonCreatorsApi/AmazonCreatorsApi.node.ts:80-83 | network errors (no status, or status 0, which is falsy) are retried; below 400 nothing is; among 4xx only 429; among 5xx exactly 500, 502, 503 and 504 |
| RetryExecutor.Jitter | nodes/AmazonCreatorsApi/AmazonCreatorsApi.node.ts:88-89 | for a draw in [0, 1) and a non-negative base, the jitter lies between 0 and `floor(0.2·base)` |
| RetryExecutor.RetryDelay | nodes/AmazonCreatorsApi/AmazonCreatorsApi.node.ts:88-90 | the server's hint is the delay when present; otherwise the delay lies between `base·2^k` and `base·2^k + floor(0.2·base)` |
| RetryExecutor.RunFrom | nodes/AmazonCreatorsApi/AmazonCreatorsApi.node.ts:74-99 | the specification of the loop from attempt k: at most `maxRetries − k` sleeps, so at most `maxRetries + 1` attempts in all |
| RetryExecutor.PostWithRetry | nodes/AmazonCreatorsApi/AmazonCreatorsApi.node.ts:66-102 | the loop returns or throws exactly what `RunFrom(0)` does, and sleeps exactly its delays |
| RetryExecutor.RetryStep | nodes/AmazonCreatorsApi/AmazonCreatorsApi.node.ts:88-99 | a retried failure within the budget sleeps its delay once, then the run continues from the next attempt with the counter one higher |
| RetryExecutor.TerminalStatusFailsFast | nodes/AmazonCreatorsApi/AmazonCreatorsApi.node.ts:80-86 | at any attempt, a failure with a non-retryable status, or any failure once `attempt >= maxRetries`, ends the run with that error unchanged and no further sleep |
| RetryExecutor.PersistentFailureExhaustsBudget | nodes/AmazonCreatorsApi/AmazonCreatorsApi.node.ts:80-99 | when every attempt fails retryably the run sleeps once per allowed retry and rethrows the last attempt's error unchanged |
| RetryExecutor.DelaysFollowPolicy | nodes/AmazonCreatorsApi/AmazonCreatorsApi.node.ts:88-99 | sleep i follows a retryable failure of attempt i within the budget, and lasts that failure's hint or `base·2^i` plus its jitter |
| RetryExecutor.RunEndsAtLastAttempt | nodes/AmazonCreatorsApi/AmazonCreatorsApi.node.ts:76-86 | the run ends at attempt `|delays|`, with that attempt's response, its error unchanged, or the TypeError of its empty `retry-after` |
| CreatorsRequest.InputError | nodes/AmazonCreatorsApi/AmazonCreatorsApi.node.ts:423-472 | no ids, blank keywords, no node ids and unknown operations each give their own error, exactly in those cases; an input passes exactly when its operation is known and has at least one normalized id, non-blank keywords or at least one normalized node id |
| CreatorsRequest.BuildError.Message | nodes/AmazonCreatorsApi/AmazonCreatorsApi.node.ts:428-476 | every validation error has a non-empty text, and an unknown operation's text ends with the operation |
| CreatorsRequest.CommonBody | nodes/AmazonCreatorsApi/AmazonCreatorsApi.node.ts:403-415 | the partner tag, each preference only when truthy (languages as a normalized list), and no operation field |
| CreatorsRequest.RequestFor | nodes/AmazonCreatorsApi/AmazonCreatorsApi.node.ts:403-472 | the call fails exactly when the input is invalid, with that error |
| CreatorsRequest.AddPreferences | nodes/AmazonCreatorsApi/AmazonCreatorsApi.node.ts:403-415 | the body built in place holds the partner tag and exactly the truthy preferences |
| CreatorsRequest.AssembleRequest | nodes/AmazonCreatorsApi/AmazonCreatorsApi.node.ts:403-472 | the in-place assembly yields `RequestFor(input)` |
| CreatorsRequest.ResourcesOrDefault | nodes/AmazonCreatorsApi/AmazonCreatorsApi.node.ts:433 | the selected resources when any are selected, otherwise `['itemInfo.title']` alone; never empty |
| CreatorsRequest.RequestCommonFields | nodes/AmazonCreatorsApi/AmazonCreatorsApi.node.ts:403-418 | every call has the partner tag, the truthy preferences and 2 retries of 500 ms unless configured; no id or resource list is ever empty |
| CreatorsRequest.GetItemsRequest | nodes/AmazonCreatorsApi/AmazonCreatorsApi.node.ts:424-436 | `getItems` posts the normalized ids and the resources, defaulting to `itemInfo.title`, and no field of another operation |
| CreatorsRequest.SearchItemsRequest | nodes/AmazonCreatorsApi/AmazonCreatorsApi.node.ts:438-457 | `searchItems` posts the non-empty trimmed keywords, index, count, a page only when non-zero, and the resources |
| CreatorsRequest.BrowseNodesRequest | nodes/AmazonCreatorsApi/AmazonCreatorsApi.node.ts:459-472 | `getBrowseNodes` posts the normalized node ids, and resources only when some are selected |
| CreatorsRequest.SentIdsAreClean | nodes/AmazonCreatorsApi/AmazonCreatorsApi.node.ts:425-432 | every id sent is non-empty, trimmed and in input order |
| CreatorsRequest.BlankLanguagesSentAsEmptyList | nodes/AmazonCreatorsApi/AmazonCreatorsApi.node.ts:413-415 | a language preference of "," is sent as an empty list |
| CreatorsNormalizer.ProcessItem | nodes/AmazonCreatorsApi/AmazonCreatorsApi.node.ts:566-657 | throws exactly on a null item or an unmappable list; otherwise copies `asin` and `detailPageURL` unchanged |
| CreatorsNormalizer.ItemFieldsFollowSources | nodes/AmazonCreatorsApi/AmazonCreatorsApi.node.ts:566-657 | each of the twelve optional groups (title, features, primary image, additional images, offers, product, by-line and manufacture info, categories, customer reviews, parent ASIN) is present exactly when its source is truthy, and `priceSummary` is `buildPriceSummary` of the listings when they are truthy, else absent |
| CreatorsNormalizer.ItemListsFollowSources | nodes/AmazonCreatorsApi/AmazonCreatorsApi.node.ts:589-643 | images, offers and categories have one entry per source element, each projected from that element, in order |
| CreatorsNormalizer.ItemValuesFollowSources | nodes/AmazonCreatorsApi/AmazonCreatorsApi.node.ts:566-657 | each present single-value group is its source: title, features and parentASIN copied, and the primary image, product, by-line and manufacture info and reviews projected field for field |
| CreatorsNormalizer.ProcessBrowseNode | nodes/AmazonCreatorsApi/AmazonCreatorsApi.node.ts:659-669 | throws exactly on null; otherwise each of the seven fields is the node's own field |
| CreatorsNormalizer.BrowseNodeEntries | nodes/AmazonCreatorsApi/AmazonCreatorsApi.node.ts:527-555 | a `getBrowseNodes` envelope holds one browse node per source element, in order, with that element's id and names |
| CreatorsNormalizer.Container | nodes/AmazonCreatorsApi/AmazonCreatorsApi.node.ts:534-551 | `getItems` reads `itemsResult.items`, `searchItems` reads `searchResult.items`, `getBrowseNodes` reads `browseNodesResult.browseNodes`, each through optional chaining; any other operation reads nothing |
| CreatorsNormalizer.MetaOf | nodes/AmazonCreatorsApi/AmazonCreatorsApi.node.ts:538-543 | search metadata exists exactly for `searchItems`, and its `totalResultCount`, `searchURL` and `searchRefinements` are those of `searchResult` |
| CreatorsNormalizer.ProcessEntry | nodes/AmazonCreatorsApi/AmazonCreatorsApi.node.ts:553-555 | for `getBrowseNodes` the entry is `processBrowseNode` of the element, for every other operation `processItem` of it, and it fails exactly when that projector throws |
| CreatorsNormalizer.ProcessApiResponse | nodes/AmazonCreatorsApi/AmazonCreatorsApi.node.ts:527-564 | a falsy response gives zero items and no meta; a missing container gives none; otherwise items map one-to-one and in order; `itemCount == |items|`; meta is `MetaOf` the response, present only for `searchItems`; the raw response is unchanged |
| CreatorsNormalizer.AsinOnlyItem | nodes/AmazonCreatorsApi/AmazonCreatorsApi.node.ts:566-657 | an item with only `asin` has every optional group absent |
| CreatorsNormalizer.SummaryMatchesOffers | nodes/AmazonCreatorsApi/AmazonCreatorsApi.node.ts:599-613 | with truthy listings, a summary exists exactly when some listing is priced; it counts one per offer, and its bounds are amounts of listings that enclose every listing's amount |
| CreatorsNormalizer.UnknownOperationHasNoItems | nodes/AmazonCreatorsApi/AmazonCreatorsApi.node.ts:549-551 | an unknown operation yields no items |
| CreatorsNormalizer.MissingContainerHasNoItems | nodes/AmazonCreatorsApi/AmazonCreatorsApi.node.ts:534-551 | a truthy response without the operation's container or list gives zero items (`?? []`), keeps its search metadata and the raw response |
| CreatorsNormalizer.NullEntryFails | nodes/AmazonCreatorsApi/AmazonCreatorsApi.node.ts:553-555 | a null element makes the whole response throw |
| CreatorsExecute.ExecuteItem | nodes/AmazonCreatorsApi/AmazonCreatorsApi.node.ts:378-495 | token first, then validation, then the retried POST, then the normalizer; each stage's failure is the record's failure; the cache becomes `CacheAfter` of the old one whatever the later stages do |
| CreatorsExecute.RejectedInputStillCachesToken | nodes/AmazonCreatorsApi/AmazonCreatorsApi.node.ts:389-476 | an input that fails validation still caches the usable token fetched for it |
| CreatorsExecute.TokenFailsBeforeValidation | nodes/AmazonCreatorsApi/AmazonCreatorsApi.node.ts:389-394 | an unsupported version fails the record whatever its input |
| PaRequest.InputError | nodes/AmazonPAEnhanced/AmazonPAEnhanced.node.ts:361-450 | each blank input, each empty id list and an unknown operation gives its own error, exactly in those cases; an input passes exactly when its operation is known and its ids are non-blank with at least one valid id, or its keywords are non-blank |
| PaRequest.PaError.Message | nodes/AmazonPAEnhanced/AmazonPAEnhanced.node.ts:364-450 | every validation error has a non-empty text, and an unknown operation's text ends with the operation |
| PaRequest.CommonParameters | nodes/AmazonPAEnhanced/AmazonPAEnhanced.node.ts:337-356 | `Resources` is the selection, or `['ItemInfo.Title']` when none; each preference only when truthy; no operation field |
| PaRequest.ParametersFor | nodes/AmazonPAEnhanced/AmazonPAEnhanced.node.ts:334-450 | the parameters fail exactly when the input is invalid, with that error |
| PaRequest.AddCommonParameters | nodes/AmazonPAEnhanced/AmazonPAEnhanced.node.ts:334-356 | resources and exactly the truthy preferences, filled in place |
| PaRequest.AssembleParameters | nodes/AmazonPAEnhanced/AmazonPAEnhanced.node.ts:334-451 | the in-place assembly yields `ParametersFor(input)` |
| PaRequest.ParametersCommonFields | nodes/AmazonPAEnhanced/AmazonPAEnhanced.node.ts:337-356 | `Resources` is the selection or `['ItemInfo.Title']`, never empty; each preference is set exactly when truthy |
| PaRequest.GetItemsParameters | nodes/AmazonPAEnhanced/AmazonPAEnhanced.node.ts:362-377 | `getItems` sends a non-empty list of clean ids with `ItemIdType` "ASIN" and nothing of the other operations |
| PaRequest.SearchItemsParameters | nodes/AmazonPAEnhanced/AmazonPAEnhanced.node.ts:403-413 | `searchItems` sends the trimmed, non-empty keywords and copies index and count |
| PaRequest.BrowseNodeParameters | nodes/AmazonPAEnhanced/AmazonPAEnhanced.node.ts:431-443 | `getBrowseNodes` sends a non-empty list of clean node ids |
| PaRequest.SeparatorsOnlyHaveNoValidId | nodes/AmazonPAEnhanced/AmazonPAEnhanced.node.ts:363-377 | "," passes the blank check and fails as "at least one valid Item ID" |
| PaNormalizer.ProcessItem | nodes/AmazonPAEnhanced/AmazonPAEnhanced.node.ts:541-631 | throws exactly on a null item or an unmappable list; `asin` is `ASIN` |
| PaNormalizer.ItemFieldsFollowSources | nodes/AmazonPAEnhanced/AmazonPAEnhanced.node.ts:546-628 | each optional group is present exactly when its source is truthy; offers, summaries, images and categories have one entry per source element |
| PaNormalizer.ItemListsFollowSources | nodes/AmazonPAEnhanced/AmazonPAEnhanced.node.ts:557-626 | image variants, offers, summaries and categories each have one entry per source element, each projected from that element, in order |
| PaNormalizer.ItemValuesFollowSources | nodes/AmazonPAEnhanced/AmazonPAEnhanced.node.ts:546-628 | each present single-value group is its source: title and features copied, and the primary image, product and technical info and reviews projected field for field |
| PaNormalizer.ContainerKeys | nodes/AmazonPAEnhanced/AmazonPAEnhanced.node.ts:503-519 | `ItemsResult.Items`, `SearchResult.Items` and `BrowseNodesResult.BrowseNodes` for the three known operations; nothing for any other |
| PaNormalizer.ItemsOf | nodes/AmazonPAEnhanced/AmazonPAEnhanced.node.ts:501-519 | throws exactly for a known operation on a nullish response; otherwise the list when both it and its container are truthy, and an empty array in every other case, unknown operations included |
| PaNormalizer.Parsed | nodes/AmazonPAEnhanced/AmazonPAEnhanced.node.ts:495-498 | a non-string response is used as it is; a string is `JSON.parse`d, and a parse failure is a throw |
| PaNormalizer.ProcessParsed | nodes/AmazonPAEnhanced/AmazonPAEnhanced.node.ts:500-523 | succeeds exactly when the container can be read, the list is an array and every element can be processed; then every element goes through `processItem`, in order |
| PaNormalizer.ProcessApiResponse | nodes/AmazonPAEnhanced/AmazonPAEnhanced.node.ts:492-539 | never throws; `itemCount == |items|` with the parsed response kept; any failure gives the error envelope with the response as received |
| PaNormalizer.ItemsInOrder | nodes/AmazonPAEnhanced/AmazonPAEnhanced.node.ts:521-530 | items map one-to-one, in order, browse nodes included |
| PaNormalizer.ProcessableListIsProcessed | nodes/AmazonPAEnhanced/AmazonPAEnhanced.node.ts:500-530 | when the list is an array of processable items, the response is processed, with one item per element |
| PaNormalizer.MissingContainerHasNoItems | nodes/AmazonPAEnhanced/AmazonPAEnhanced.node.ts:503-519 | a response without the container or its list yields no items |
| PaNormalizer.TextResponseIsParsed | nodes/AmazonPAEnhanced/AmazonPAEnhanced.node.ts:495-498 | JSON text is processed as its parsed value would be |
| PaNormalizer.NullTextIsUnprocessable | nodes/AmazonPAEnhanced/AmazonPAEnhanced.node.ts:495-538 | the text "null" gives the error envelope for a known operation |
| PaNormalizer.NullItemIsUnprocessable | nodes/AmazonPAEnhanced/AmazonPAEnhanced.node.ts:523-538 | a null item gives the error envelope |
| PaNormalizer.AsinOnlyItem | nodes/AmazonPAEnhanced/AmazonPAEnhanced.node.ts:541-631 | an item with only `ASIN` has every optional group absent |
| PaExecute.ExecuteRecord | nodes/AmazonPAEnhanced/AmazonPAEnhanced.node.ts:328-475 | invalid input never reaches the library; a thrown call or an empty response fails the record; any other response is normalized |
| PaExecute.PaFailure.Message | nodes/AmazonPAEnhanced/AmazonPAEnhanced.node.ts:397-457 | a validation failure keeps its own text; a library error ends with its message, JSON-encoded for `getItems` and passed through unchanged for `getBrowseNodes` |

## Left out

- The n8n host: reading parameters and credentials, the loop over input records, continue-on-fail, `returnData`, and the final "request failed" wrapping of error messages.
- Request headers (`Authorization`, `x-marketplace`, `Content-Type`, `User-Agent`) and timeouts: these are transport configuration.
- URL-encoding of the token form: the form is kept as its list of pairs.
- The HTTP transport and the PA-API signing library: each call's outcome is an input.
- Timers: `sleep` is modelled as the list of delays the executor would sleep.
- Debug logging and the environment flag that enables it.
- The UI property descriptions and both credential definitions: these are declarative metadata.
- Concurrency: the token cache is modelled single-threaded.
- Floating point: prices and delays are exact reals, and `Number()` has no `Infinity` here.
- The types of the token response: `access_token` and `expires_in` are taken at their declared types (a string and a number).
- Prototype keys of the endpoint table, such as a version named "toString": they are not modelled.
- PaExecute.ExecuteRecord: when the library's error has an empty message, the source uses the error object itself in the text. The model keeps only the message.
- Numeric options: `itemCount`, `itemPage`, `maxRetries` and `retryDelayMs` are integers here, as the UI ranges and defaults suggest; n8n number fields also admit fractions, for which `attempt >= maxRetries` would allow one more retry than the integer part and the backoff delays would be fractional.
- TokenCache.TokenStore.GetAccessToken: a failed token POST is carried as the message of the error axios threw; that error's status and response body are not modelled.
