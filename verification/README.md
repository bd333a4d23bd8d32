# Website-Watchdog in Dafny

A model of the Website-Watchdog serverless back end: the scheduled uptime and
sentiment sweep over every registered site, the owner-scoped website store
API, the manual-check request handler, and the older versions of the sweep
and of the store API kept at the repository root.

Every AWS, HTTP and Twitter call is replaced by a value:

- the DynamoDB table is a `map<string, Item>` keyed by `website_url`, and a
  scan is the sequence of items it returned;
- `requests.get` is a `ProbeOutcome` (a status code, or a `RequestException`);
- the tweet fetch is a `FetchOutcome` (the batch, or the tweets scored before an
  exception was raised);
- TextBlob's polarity is a function parameter `polarity: string -> real`;
- the run's timestamp is a string input per site;
- SAM-local mode is a boolean `isLocal`;
- the success of an SNS publish in the request handler is a boolean;
- whether the store API's DynamoDB call succeeds is a boolean `storeOk`.

Each handler is a pure function. The sweeps are folds over the scan that
return the response, the updated table, and the trace of calls they made:
`Probe`, `Search`, `Publish`, `Update` and `Sleep`.

Modules:

- `Common` holds optional values, Python truthiness and parsed request bodies.
- `Records` holds the site item, the table, the update a sweep writes, effects and responses.
- `Monitor` holds the per-site rule pieces both sweeps share: status, alert, average and examples.
- `Sweep` models `uptime_checker_lambda/uptime_checker_lambda.py`.
- `LegacySweep` models `uptime_checker_lambda.py`.
- `DataApi` models `data_api_lambda/data_api_lambda.py`.
- `LegacyDataApi` models `data_api_lambda.py`.
- `RequestCheck` models `request_check_lambda/request_check_lambda.py`.

Points where the code does something other than its own comments or names
suggest, and which the model follows as written:

- The down alert is published only on the exception path. The comment at
  `uptime_checker_lambda/uptime_checker_lambda.py:65` says the alert is sent
  when the status changed to DOWN. A non-2xx answer takes the path at lines
  59-61 instead: it leaves the default `DOWN` in place and publishes nothing,
  even when the stored status was `UP`.
- In the sweep, a failing `sns.publish` or `update_item` is not caught and ends
  the whole run. The model has no per-site containment for them.
- The fetch asks for at most 10 tweets, but nothing in the code bounds the batch
  the model receives, so no bound is assumed.

## Model

| member | source | states |
|---|---|---|
| Records.ApplyChange | uptime_checker_lambda/uptime_checker_lambda.py:102-116 | the update sets status and score, replaces example_tweets, appends one entry to the history (an absent history counts as empty), and leaves url, keyword and owner as they were |
| Monitor.Average | uptime_checker_lambda/uptime_checker_lambda.py:93 | the average is 0.0 for an empty batch, and otherwise the number that, multiplied by the count, gives the total |
| Monitor.ScoreBatch | uptime_checker_lambda/uptime_checker_lambda.py:81-86 | the scoring loop counts every tweet, collects all of them in order, and its running total equals the reference sum of polarities |
| Monitor.AverageSentiment | uptime_checker_lambda/uptime_checker_lambda.py:73-93 | the average computed from the loop's total and count equals the reference average, and is 0.0 when nothing was scored |
| Monitor.TotalWithin | uptime_checker_lambda/uptime_checker_lambda.py:82-84 | when every polarity lies in [lo, hi], the total lies between lo and hi times the count |
| Monitor.AverageWithin | uptime_checker_lambda/uptime_checker_lambda.py:93 | the average stays inside any range the scorer stays in (e.g. [-1, 1] for TextBlob), including the 0.0 of an empty batch when the range holds 0 |
| Sweep.ProcessSite | uptime_checker_lambda/uptime_checker_lambda.py:53-99 | per site: UP iff a 2xx answer, else DOWN; alert iff the probe raised and the scanned status is not DOWN; average 0.0 for no tweets, else total/count; examples a prefix of length min(3, n); history entry holds the timestamp, the average and the full batch |
| Sweep.RunSites | uptime_checker_lambda/uptime_checker_lambda.py:52-122 | the sweep loop keeps the set of items in the table: it never adds or deletes one |
| Sweep.Handler | uptime_checker_lambda/uptime_checker_lambda.py:31-127 | a missing or empty bearer token, or a client that fails to build, returns 500 with the table untouched and no probe, search, publish, update or pause; otherwise the sweep returns 200 |
| Sweep.ResponseNeverAlerts | uptime_checker_lambda/uptime_checker_lambda.py:57-70 | a site that answers never triggers an alert, whether its code sets it UP (a recovery) or DOWN (non-2xx) |
| Sweep.SiteEffectsShape | uptime_checker_lambda/uptime_checker_lambda.py:57-122 | one site makes exactly one probe and one update of its URL, publishes the down alert exactly when the rule fires, and ends with one 10-second pause preceded by its update |
| Sweep.ThreeTweetScenario | uptime_checker_lambda/uptime_checker_lambda.py:81-113 | three tweets scored 0.5, -0.1 and 0.3 give the average 7/30 and all three become the examples |
| Sweep.SweepVisitsInScanOrder | uptime_checker_lambda/uptime_checker_lambda.py:52-122 | the sweep probes and updates exactly the scanned URLs, once each, in scan order, and pauses once per site |
| Sweep.SweepAlerts | uptime_checker_lambda/uptime_checker_lambda.py:62-70 | the sweep publishes exactly the expected down alerts, at most one per site, in scan order |
| Sweep.UpdateThenPause | uptime_checker_lambda/uptime_checker_lambda.py:102-122 | every update is immediately followed by the pacing pause, and a non-empty sweep ends with a pause, after the last site too |
| Sweep.SweepStore | uptime_checker_lambda/uptime_checker_lambda.py:102-116 | over a scan with distinct URLs, each scanned item ends as its own per-site update applied to it, and items the scan missed are unchanged |
| Sweep.FullSweepEffect | uptime_checker_lambda/uptime_checker_lambda.py:95-116 | after a full sweep, every item's history is the old history plus exactly one entry, examples hold at most 3 tweets, status is UP or DOWN, and url, keyword and owner are unchanged |
| LegacySweep.SiteChange | uptime_checker_lambda.py:41-84 | per site: UP iff a 2xx answer, else DOWN; average 0.0 for no tweets, else total/count; neither examples nor history are written |
| LegacySweep.RunSites | uptime_checker_lambda.py:41-85 | the older sweep loop keeps the set of items in the table |
| LegacySweep.Handler | uptime_checker_lambda.py:33-90 | the older sweep has no configuration exit and always returns 200 |
| LegacySweep.SiteEffectsShape | uptime_checker_lambda.py:46-84 | one site starts with a 5-second probe of its URL, publishes the down alert exactly when the probe raised and the scanned status is not DOWN, then searches the keyword in English for 10 tweets, ends with its one update, and never pauses |
| LegacySweep.LegacySweepVisits | uptime_checker_lambda.py:41-85 | the older sweep probes and updates every scanned URL once, in scan order, and never pauses |
| LegacySweep.LegacySweepAlerts | uptime_checker_lambda.py:51-59 | the older sweep publishes exactly the expected down alerts, in scan order |
| LegacySweep.LegacyKeepsTweetFields | uptime_checker_lambda.py:76-84 | the older sweep leaves example_tweets, tweet_history, url, keyword and owner of every item untouched |
| LegacySweep.LegacySweepStore | uptime_checker_lambda.py:76-84 | over a scan with distinct URLs, each scanned item gets its own status and score, and items the scan missed are unchanged |
| DataApi.Post | data_api_lambda/data_api_lambda.py:58-78 | POST answers 201 iff the body parses, has both fields and `put_item` succeeds, and then puts the new Pending item owned by the caller under its URL; otherwise 500 and nothing is written |
| DataApi.Delete | data_api_lambda/data_api_lambda.py:80-116 | DELETE without a URL, or with a `delete_item` that raises, is 500 with no change; locally the URL is removed unconditionally; in production it is removed (200) iff the item exists and belongs to the caller, else 500 with no change |
| DataApi.Handler | data_api_lambda/data_api_lambda.py:20-123 | no caller gives 401 before anything else; the code is one of 200, 201, 400, 401 and 500; error codes leave the table unchanged; only POST can add or change an item |
| DataApi.UnauthorizedIgnoresStore | data_api_lambda/data_api_lambda.py:38-40 | in production a request without a `sub` claim gets 401 with the same response whatever the table holds or would answer, and the table stays as it was |
| DataApi.LocalNeverUnauthorized | data_api_lambda/data_api_lambda.py:34-36 | in local mode no request is refused with 401 |
| DataApi.GetListsOwnItems | data_api_lambda/data_api_lambda.py:43-56 | an authorised GET answers 200 with exactly the caller's items and writes nothing |
| DataApi.PostReplacesAnyOwner | data_api_lambda/data_api_lambda.py:63-72 | a POST takes over the URL whoever owned it: the item now belongs to the caller, is Pending with no history, and every other item is unchanged |
| DataApi.ForeignItemsSurvive | data_api_lambda/data_api_lambda.py:95-102 | in production no request other than POST removes or alters an item whose owner is not the caller |
| DataApi.HandlerKeepsWellKeyed | data_api_lambda/data_api_lambda.py:63-72 | every request keeps each item stored under its own website_url |
| DataApi.OtherMethodsRejected | data_api_lambda/data_api_lambda.py:118-123 | an authorised request with a method other than GET, POST or DELETE gets 400 and writes nothing |
| DataApi.StoreFailureWritesNothing | data_api_lambda/data_api_lambda.py:42-116 | when the DynamoDB call raises, every request ends in 400, 401 or 500 and the table is unchanged |
| DataApi.MethodFallback | data_api_lambda/data_api_lambda.py:27 | an absent or empty `httpMethod` makes the handler act exactly as if the request context's method were the top-level one, a non-empty one makes the context's method irrelevant, and an authorised event carrying only `requestContext.httpMethod` DELETE is handled as a DELETE |
| LegacyDataApi.Handler | data_api_lambda.py:9-52 | GET answers 200 with every item, unfiltered; methods other than GET and POST give 405; only a 201 changes the table |
| LegacyDataApi.PostWritesOneValidItem | data_api_lambda.py:28-38 | a 201 comes only from a POST with both fields non-empty, and writes exactly one ownerless PENDING item under the posted URL |
| LegacyDataApi.HandlerKeepsWellKeyed | data_api_lambda.py:31-38 | every request keeps each item stored under its own website_url |
| LegacyDataApi.PostRefusesMissingFields | data_api_lambda.py:23-30 | a POST whose object body lacks a non-empty website_url or twitter_keyword is answered 400 without CORS and writes nothing; a body that is not a JSON object gives 500 |
| RequestCheck.Notification | request_check_lambda/request_check_lambda.py:36-42 | the message names the requester's email, the user id and the URL |
| RequestCheck.Handler | request_check_lambda/request_check_lambda.py:15-72 | at most one publish; 200 iff there is an identity, the body parses and (local mode or the publish succeeds); no identity gives 500 with nothing published; local mode publishes nothing |
| RequestCheck.ProductionPublishesOnce | request_check_lambda/request_check_lambda.py:51-64 | in production an authenticated, well-formed request publishes exactly one message with the subject "Manual Sentiment Check Requested: " + url, then answers 200 |
| RequestCheck.LocalMocksIdentity | request_check_lambda/request_check_lambda.py:23-26 | locally a request without `sub` runs as local-test@user.com / local-test-user, publishes nothing and answers 200 |

## Left out

- The AWS clients, `requests`, tweepy and TextBlob are I/O or foreign libraries. They are replaced by the inputs listed above.
- Float arithmetic and formatting are left out. `round(x, 4)` and `str()` of the average are not modelled; the score keeps the exact real average.
- `datetime.utcnow()` is not computed. The timestamp is an opaque string input per site.
- Logging and `print` output, including the debug print of the bearer token, are not modelled.
- JSON parsing and serialising of bodies is abstracted. A body is absent, not a JSON object, or an object of string fields. Non-string field values are not modelled.
- Response bodies with exception text (`str(e)`) are abstracted into a fault tag.
- Environment reads and the choice of the local DynamoDB endpoint are reduced to `isLocal`.
- The import-time `ValueError` when the table name is missing is not modelled.
- Exceptions the code does not catch are not modelled. These include a scanned item without `twitter_keyword`, an event without `httpMethod` in the older store API, a `requestContext`, `authorizer`, `jwt` or `claims` that is not an object in the store API (its identity lookup at data_api_lambda/data_api_lambda.py:27-31 runs before the try block), a failing `sns.publish` or `update_item` in either sweep, and a failing scan in the older store API's GET, which sits outside its try block.
- A DynamoDB call that raises inside a store API's try block is modelled only as a yes/no input `storeOk`: the answer is 500 and nothing is written. The exception text in the error body is not modelled.
- DynamoDB's own rejections are not modelled. For example, `put_item` rejects an empty key.
- DataApi.Get: a scan is taken to return the whole table in one page. The GET handlers of both store APIs (this one and LegacyDataApi.Handler) call `table.scan` once and never follow `LastEvaluatedKey`, so on a table larger than one 1 MB page the program lists only the matches on the first page; the model lists every matching item of the table.
- LegacyDataApi.Handler: its GET answer "every item" rests on the same one-page scan assumption; the older GET calls `table.scan()` once and lists only the first page of a larger table.
- RequestCheck.Handler: a `requestContext`, `authorizer`, `jwt` or `claims` that is not an object is not modelled. The claims lookup sits inside the try block, so the program answers 500 with CORS, but the modelled event carries only the `sub` and `email` claims and the body.
- Sweep.RunSites: requires every scanned URL to still be in the table. `update_item` on an item deleted after the scan would create a partial item, and that is not modelled.
- The 10-item search limit is recorded in the `Search` effect, but the fetched batch is not bounded by it.
- Concurrency between overlapping runs is not modelled. The sweeps are sequential.
