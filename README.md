# ChimpLink webhook sync engine, modelled in Dafny

ChimpLink receives membership webhooks (Memberful events, GBX profile
payloads) and keeps a Mailchimp audience in step with them. This project
models its sync engine:

- **`sync_to_mailchimp`** (`mailchimp_sync.dfy`). It picks the lookup email: the email cached for
  `str(member.id)`, else the event's own. It builds the merge fields: four base fields, the mapped
  member keys, then the plan fields. It upserts the contact, which is keyed by the hash of the
  lower-cased lookup email. Depending on the answer it writes the identity cache, appends to the
  audit log, and moves the "Payment Failed" tag.
- **The webhook endpoint** (`app.dfy`). It covers the signature decision, the closed classification
  of events, and the fixed sequence of syncs, log entries and cache evictions each class produces.
  It also covers the replay endpoint's input check.
- **The legacy handler** (`webhook_handler.dfy`). It has the same extraction as the endpoint, but no
  `order.failed` pre-check, no `subscription.expired` and no logging of its own.
- **The identity cache and the audit log** (`cache_utils.dfy`, `log_utils.dfy`). Both run a
  load-modify-save over a blob store (`storage.dfy`).
- **The normalisation helpers** (`utils.dfy`). These are the Yes/No and On/Off converters and
  `format_date`. For integers, `format_date` follows the "Seconds Since the Epoch" formula of
  POSIX.1-2017 Base Definitions, section 4.16.
- **The GBX profile sync** (`gbx_sync.dfy`).

Python values are the datatype `PyJson.Json`. Dicts keep their insertion order as item
sequences (`Dicts`). Python's truthiness, `str()`, `in` and `dict.get` on non-dicts are written out.

Each operation is defined twice:

- a specification function over a `World` (the stored documents plus the requests sent so far);
- an imperative method over the `Store` and `Api` objects whose `ensures` equates its effect with
  that function.

The provider is an oracle. It gives the reply to the n-th request: a status code and body, or a
raised exception. An exception that escapes the Python code (Flask answers 500) is modelled as an
`escaped` flag or a 500 status, with no effect on the state.

Three behaviours of the dispatcher are kept as written:

- It logs "success" after a refused upsert (App.RefusedUpsertStillLogsSuccess).
- It evicts a deleted member's cache entry whatever the provider answered (App.MemberDeletedEffect).
- It logs every full-sync delivery twice, once in the sync and once in the dispatcher, so a replayed
  event adds two entries rather than one (App.ReplayLogsTwicePerDelivery, listed under Findings below). The
  corrected branch, App.OnFullSyncLoggedOnce, is the one the legacy handler runs.

The docstring of `format_date` (utils.py:4) says it returns `DD/MM/YYYY`. The code formats
`%Y-%m-%d` (utils.py:8-9), and the model follows the code.

## Model

| member | source | states |
|---|---|---|
| Utils.ConvertBoolMeaning | utils.py:13-17 | The result is always "Yes" or "No". It is "Yes" iff the value is True, or a string whose lower-case form is "true". None, other strings and numbers give "No". |
| Utils.ConvertAutorenewMeaning | utils.py:19-23 | The same rule with the labels "On"/"Off". |
| Utils.StrLowerIsTrue | utils.py:17 | For a non-bool value, `str(value).lower() == "true"` holds exactly for strings that lower-case to "true". |
| Utils.CivilFromDays | utils.py:7-8 | A day count since 1970-01-01 maps to a valid calendar date whose day number is that count. This is the date part of `utcfromtimestamp`. |
| Utils.PosixAgrees | utils.py:7-8 | For years from 1970, the model's day numbering times 86400, plus the time of day, equals the POSIX.1-2017 section 4.16 seconds formula. |
| Utils.EpochDayInjective | utils.py:7-8 | Distinct valid dates have distinct day numbers, so the date of a timestamp is unique. |
| Utils.CivilFromEpochDay | utils.py:7-8 | Converting a date's day number back gives the same date. |
| Utils.TimestampDate | utils.py:7-8 | Any integer timestamp within a day's 86400 seconds formats as that day's `YYYY-MM-DD`. |
| Utils.FormatDateShape | utils.py:3-11 | `format_date` never raises. Its result is either "" or a well-formed `YYYY-MM-DD` date. |
| Utils.RenderDateIsIso | utils.py:8-9 | `strftime("%Y-%m-%d")` of any date in years 1-9999 is a well-formed `YYYY-MM-DD` string that reads back as the same date. |
| Utils.IsoDateReadsBack | utils.py:9 | A plain `YYYY-MM-DD` string formats to itself. |
| Utils.FormatDateIdempotent | utils.py:3-11 | Formatting a formatted date again gives the same date. |
| Utils.ZuluDateTime | utils.py:9 | A date, "T", a clock time and "Z" format to the date part. |
| Utils.SignupDateExample | utils.py:9 | "2023-01-01T00:00:00Z" gives "2023-01-01". |
| Utils.TimestampExample | utils.py:7-8 | 1700000000 gives "2023-11-14". |
| Utils.SameDayTwoWays | utils.py:7-9 | The timestamp 1700000000 and its ISO form "2023-11-14T22:13:20Z" give the same date. |
| Utils.FormatDateFailsToEmpty | utils.py:10-11 | None, "" and "yesterday" give "". |
| PyJson.IntToStringInjective | mailchimp_sync.py:16 | Distinct integers have distinct `str()` texts, so distinct integer member ids get distinct cache keys and member-id fields. |
| PyJson.ListStrExample | cache_utils.py:14 | `str()` of a list is written as Python writes it: `[7]`, `[1, None, True]`, `[]`. |
| PyJson.DictStrExample | cache_utils.py:14 | `str()` of a dict quotes its keys and string values: `{'a': 'x'}`, and `{}` when empty. |
| PyJson.QuoteChoiceExample | cache_utils.py:14 | A string holding an apostrophe is shown in double quotes inside a list: `["it's"]`. |
| Dicts.SetKeepsUnique | cache_utils.py:18 | Assigning a key keeps a dict's keys unique. |
| Dicts.PopKeepsUnique | app.py:163 | `pop` keeps a dict's keys unique. |
| Storage.Store.LoadJson | storage_utils.py:29-46 | A load returns the stored document, or `{}` when there is none. |
| Storage.Store.SaveJson | storage_utils.py:48-61 | A save replaces one document and leaves the rest. |
| CacheUtils.LoadCache | cache_utils.py:6-7 | `load_cache` returns the cache document's entries. |
| CacheUtils.SaveCache | cache_utils.py:9-10 | `save_cache` replaces the cache document. |
| CacheUtils.GetCachedEmail | cache_utils.py:12-14 | Returns the entry for `str(member_id)`, or None. It writes nothing. |
| CacheUtils.UpdateCache | cache_utils.py:16-19 | The store afterwards is the old one with the entry for `str(member_id)` set to the email. The store stays usable. |
| CacheUtils.UpdateThenGet | cache_utils.py:12-19 | After `update_cache(id, e)`, `get_cached_email(id)` is `e`. Every other key reads as before, and no other document changes. |
| CacheUtils.EvictThenGet | app.py:162-164 | After the pop, the id reads as None and every other key reads as before. Popping an absent key changes nothing. |
| CacheUtils.StringifiedKeys | cache_utils.py:14-18 | Ids 42 and "42" address the same entry. |
| CacheUtils.ListIdsKeptApart | cache_utils.py:14-18 | Members whose ids are different one-number lists (`[1]`, `[2]`) get different cache keys. Writing one leaves the other's entry as it was. |
| CacheUtils.CacheWritesKeepValid | cache_utils.py:16-19 | Writing or evicting an entry keeps the store usable. |
| LogUtils.AppendLogEntry | log_utils.py:7-21 | Exactly the record built from the arguments is appended to the stored list. The store stays usable. |
| LogUtils.RecordGet | log_utils.py:8-17 | Reading any key of a record gives the matching argument. `changes` and `payload` are present only when truthy. |
| LogUtils.RecordFields | log_utils.py:8-17 | A record has the four fixed fields equal to the arguments, and its timestamp ends in "Z". `changes` is present iff `diff` is truthy, and `payload` iff `payload` is truthy. |
| LogUtils.AppendOnly | log_utils.py:19-21 | An append grows the log by one at the end. Earlier records are unchanged and no other document is touched. |
| MailchimpApi.Api.Send | mailchimp_sync.py:60 | Each call records its request in the trace and returns the oracle's reply for that position. |
| MailchimpSync.MergeFieldsFor | mailchimp_sync.py:24-44 | The loop builds the merge fields exactly as specified: base fields, mapped keys in mapping order, then subscription fields. It fails exactly where Python raises. |
| MailchimpSync.SyncToMailchimp | mailchimp_sync.py:12-114 | The new store, the request trace and the escape flag are those of the specification `Sync`. The store stays usable. |
| MailchimpSync.PushMember | mailchimp_sync.py:49-114 | The `try` block's effect equals `Attempt`. |
| MailchimpSync.PostTags | mailchimp_sync.py:82-110 | The tag step's effect equals `TagStep`. |
| MailchimpSync.MappedFieldsMeaning | mailchimp_sync.py:31-36 | The mapped-field loop never overwrites a tag already set, including the four base fields. A tag not yet set receives the member's value for the first mapped source key the member has. |
| MailchimpSync.MappedFailsOnlyOnUnhashable | mailchimp_sync.py:32-33 | The loop raises exactly when some mapped tag is a list or dict. |
| MailchimpSync.BaseFieldsContent | mailchimp_sync.py:24-29 | With distinct tags, the base fields hold first and last name (default ""), the member id, and the formatted signup date. |
| MailchimpSync.MemberIdField | mailchimp_sync.py:27 | The member-id field is "USER DELETED" when `override_guid` is set, and `str(member.id)` otherwise (a list id such as `[7]` gives "[7]"). Neither the loop nor the plan fields change it. |
| MailchimpSync.SubscriptionFieldsContent | mailchimp_sync.py:38-44 | A falsy subscription (None or `{}`) adds nothing. A truthy one sets plan name, Yes/No active, On/Off autorenew and formatted expiry, and nothing else. |
| MailchimpSync.PlanNameFallback | mailchimp_sync.py:40 | The plan name is `plan_name` if truthy, else `subscription_plan.name`, else "". |
| MailchimpSync.TagSetsDisjoint | mailchimp_sync.py:82-94 | The add and remove event sets are disjoint. |
| MailchimpSync.TagStepEffect | mailchimp_sync.py:96-110 | Events in the add set send "Payment Failed" with status "active", and events in the remove set send "inactive". Other events send nothing. Any response status leaves the store unchanged. Only a raised exception adds one "exception" entry. |
| MailchimpSync.TagStepKeepsCache | mailchimp_sync.py:96-114 | The tag step never touches the cache. It only extends the trace, and it adds at most the one exception entry. |
| MailchimpSync.AttemptAccepted | mailchimp_sync.py:62-68 | On 200/201 the upsert is sent first. The cache entry for the id becomes the current email iff the id is not ""/"None" and the event does not start with "invoice."; `override_guid` is not consulted. One "success" entry follows. With no tag event it is the only entry. |
| MailchimpSync.AttemptRefused | mailchimp_sync.py:69-79 | On any other status there is exactly one "error" entry carrying the status and body. The cache is untouched and no tag request is sent. |
| MailchimpSync.AttemptRaised | mailchimp_sync.py:112-114 | An exception from the upsert adds exactly one "exception" entry carrying its message. The cache is untouched. |
| MailchimpSync.AttemptTagOnly | mailchimp_sync.py:49-50 | With `tag_only`: no upsert, no cache write, and no success or error entry. There is at most one tag request and its exception entry. |
| MailchimpSync.EscapeHasNoEffect | mailchimp_sync.py:13-46 | An exception that escapes the sync is raised before any request, cache write or log entry. |
| MailchimpSync.UpsertTarget | mailchimp_sync.py:16-18 | The upsert is addressed by hash(lower(lookup email)), where the lookup email is the cached email for `str(id)` if truthy, else the event's. Its body carries the event's current email, "subscribed", and exactly the merge fields `BuildMergeFields` computes. |
| MailchimpSync.RenameFollowsCache | mailchimp_sync.py:16-18 | When the cached email differs from the event's, the contact is found under the cached address and receives the new one. Once accepted, the cache holds the new address. |
| MailchimpSync.SyncAccepted | mailchimp_sync.py:60-68 | For an event outside the tag sets, with nothing raised and the upsert accepted: one upsert is sent, the id's cache entry becomes the current email when the id is eligible, and exactly one "success" entry is appended. The field mapping is untouched. |
| MailchimpSync.SyncReplay | mailchimp_sync.py:16-68 | A second sync of the same event from a state that kept the first sync's cache and mapping: it does not raise, sends an upsert with the same email and merge fields, leaves the cache as the first sync left it, and appends one "success" entry. |
| App.SignatureDecision | app.py:33-52 | "REPLAY" is always accepted, and a missing or empty header is always rejected. Any other ASCII header is accepted iff it equals the HMAC digest of the body. |
| App.RejectedHasNoEffect | app.py:69-70 | A failed signature check gives 403 (or 500 if the check raises), with no sync, log or cache effect. |
| App.OrderFailedEffect | app.py:80-87 | For `order.failed`, no email in `order.member` gives 200 and no effect. Otherwise there is one sync with no subscription, then one "success" entry with the payload. |
| App.ClassifyKnown | app.py:80-141 | The event names map to their classes: pre-check, the seven full-sync events, deactivation, subscription deletion and member deletion. |
| App.MemberExtraction | app.py:90 | The member is `member`, else `subscription.member`, else `{}`. |
| App.MissingEmailSkips | app.py:93-95 | Any event other than `order.failed` or `member.deleted` whose member has no email gives 200 and changes nothing. |
| App.UnrecognisedEventIgnored | app.py:97-170 | An event of no class with an email gives 200 and changes nothing. |
| App.FullSyncEffect | app.py:98-115 | Each of the seven events gives one sync with the event's subscription, then one "success" entry with the payload. For `member_updated` the entry's `changes` is the event's `changed`. |
| App.RefusedUpsertStillLogsSuccess | app.py:104-115 | When the provider refuses the upsert, the status is 200 and the log gains exactly two entries: the sync's "error" entry, then the dispatcher's "success" entry. |
| App.DeliveredOnce | app.py:104-115 | One full-sync delivery that goes through gives 200, one upsert, the sync's cache, and two log entries. The store stays usable. |
| App.ReplayLogsTwicePerDelivery | app.py:104-115 | The same full-sync event delivered twice to the endpoint gives 200 both times. The cache after the second delivery equals the cache after the first, and both upserts carry the same body. The log grows by two per delivery, four in all. |
| App.ReplayLoggedOncePerDelivery | webhook_handler.py:21-26 | With the outcome logged once, by the sync, two deliveries give the same cache, two upserts with the same body, and one log entry each, two in all. |
| App.DeactivatedStubContent | app.py:118-123 | The deactivation stub has `active` False, the plan name with its fallbacks, and the event's `autorenew` and `expires_at`. |
| App.DeactivatedEffect | app.py:117-125 | `subscription.deactivated` syncs that stub, then logs one "success" entry. |
| App.SubscriptionDeletedUsesOwnEmail | app.py:127-139 | The cache fallback is unreachable, because the missing-email return at app.py:93-95 comes first: the member is synced unchanged with the inactive stub, and its own email is logged. |
| App.MemberDeletedEffect | app.py:141-168 | Without an id or a cache hit nothing happens. Otherwise: one override sync of the blank stub and one "success" entry for the cached email. The new store is exactly that one with the id's cache entry popped, whatever the provider answered, so every other entry and document is unchanged. |
| App.MemberDeletedSyncTarget | app.py:146-159 | The deletion sync finds the contact under the cached email and writes that email back. |
| App.ReplayChecks | app.py:188-201 | A falsy body, or a dict without "event", gives 400 and no effect. A dict with "event" is dispatched whatever the secret. |
| App.LogSuccess | app.py:113-115 | After a sync that did not raise, one "success" entry is appended and 200 returned. Otherwise it returns 500 and changes nothing. |
| App.HandleOrderFailed | app.py:80-87 | The effect equals `OnOrderFailed`. |
| App.HandleFullSync | app.py:98-115 | The effect equals `OnFullSync`. |
| App.HandleDeactivated | app.py:117-125 | The effect equals `OnDeactivated`. |
| App.HandleSubscriptionDeleted | app.py:127-139 | The effect equals `OnSubscriptionDeleted`. |
| App.HandleMemberDeleted | app.py:141-168 | The effect equals `OnMemberDeleted`. |
| App.DispatchEvent | app.py:72-170 | The effect equals `Dispatch`. |
| App.MemberfulWebhook | app.py:67-170 | The effect equals `Webhook`: the signature gate, then dispatch. |
| App.ReplayLogEndpoint | app.py:186-201 | The effect equals `ReplayLog`. |
| WebhookHandler.HandleWebhook | webhook_handler.py:7-78 | The effect equals `HandleLegacy`. |
| WebhookHandler.LegacyStatus | webhook_handler.py:78 | The handler answers 200, or 500 when an exception escapes. |
| WebhookHandler.LegacyMissingEmailSkips | webhook_handler.py:14-19 | The same skip as the endpoint. For events other than `order.failed` it agrees with the endpoint exactly. |
| WebhookHandler.LegacySyncOnly | webhook_handler.py:21-26 | The six events give one sync and no log entry of the handler's own. |
| WebhookHandler.LegacyDeactivatedEffect | webhook_handler.py:28-35 | `subscription.deactivated` syncs the stub and adds no log entry of the handler's own, giving 200, or 500 when the sync raises. A subscription the stub cannot be built from raises (500, no effect). |
| WebhookHandler.ExpiredNotSynced | webhook_handler.py:21-25 | `subscription.expired` syncs nothing and changes nothing. |
| WebhookHandler.OrderFailedIgnored | webhook_handler.py:14-26 | Without the pre-check, `order.failed` never syncs. |
| WebhookHandler.LegacySubscriptionDeletedUsesOwnEmail | webhook_handler.py:37-48 | The cache fallback is unreachable, because the missing-email return at webhook_handler.py:17-19 comes first. The member is synced unchanged with the inactive stub. |
| WebhookHandler.LegacyMemberDeletedEffect | webhook_handler.py:50-76 | With an id and a cache hit: one override sync, and no log entry of the handler's own. The new store is the sync's with exactly the id's cache entry popped. Otherwise nothing changes. |
| GbxSync.FilterProfile | gbx_sync.py:22-27 | The loop computes the specified filtered fields, or fails where Python raises. |
| GbxSync.SyncGbxProfile | gbx_sync.py:9-53 | The effect equals `SyncGbx`. |
| GbxSync.FilteredMeaning | gbx_sync.py:23-27 | Each tag holds the payload value of its last mapped key whose value is not None ("" and 0 kept). Unmapped tags are absent. |
| GbxSync.FilteredFailsOnlyOnUnhashable | gbx_sync.py:24-27 | The filter raises exactly when a key with a non-None value maps to a list or dict tag. |
| GbxSync.MissingSectionGivesEmptyFields | gbx_sync.py:20-21 | A missing `GBX_PROFILE_FIELDS` section gives empty merge fields. |
| GbxSync.MissingEmailLogsException | gbx_sync.py:11-14 | A missing or empty email sends nothing and logs one "exception" entry (from the handler at gbx_sync.py:51-53) for `payload.get("email", "unknown")`. |
| GbxSync.GbxOutcome | gbx_sync.py:16-49 | The cache is never touched and exactly one entry is appended. At most one upsert is sent, addressed by hash(lower(email)) with the email as given. Status 200/201 logs "success" and any other status "error", each with the payload. |

## Left out

- HTTP transport is not modelled. `requests` is an oracle returning a status code and body, or an exception. URLs, authentication and JSON serialisation are not modelled.
- MD5 (RFC 1321) and HMAC-SHA256 (RFC 2104) stay symbolic (`Md5Hex`, `Hmac`). Only the lower-casing before hashing and the REPLAY, missing and compare decision are in the model.
- The clock is a parameter. `datetime.utcnow().isoformat()` is a `now` string shared by every entry of one request.
- Lower-casing and ASCII: `Lower` folds ASCII letters only, where Python lower-cases all of Unicode.
- PyJson.Repr: `repr` of a string escapes the quote in use, the backslash and the ASCII control characters as Python does. Non-ASCII characters that Python counts as unprintable (for example U+00A0), and so escapes, are shown as themselves here.
- Dicts.Dict: a dict is a list of items, so the model also admits values with a repeated key, which no Python dict has. `Get` reads the first such item. Assignment and `pop` keep keys unique (Dicts.SetKeepsUnique, Dicts.PopKeepsUnique), but the lemmas do not require unique keys of their inputs.
- Python's `True == 1` key equality is not modelled.
- Utils.FormatDate does not model floats.
- Utils.FormatDate accepts only a date, or a date plus any one separator character, `HH:MM:SS` and an optional `±HH:MM` offset. It does not cover the full `datetime.fromisoformat` grammar (fractions, week dates, bare hours).
- Utils.FormatDate does not model the narrow zero-padding of years below 1000.
- Storage.Valid is required by every state-changing operation: the log document exists and is a list, and the cache document is a dict if present. A missing log loads as `{}`, whose failed `append` is not modelled.
- Store failures are not modelled. A failed load gives `{}` as a missing document does. Silent save failures and concurrent load-modify-save races are out; the model is single-threaded.
- `print` diagnostics are left out. This includes the `member_updated` branch's re-read of the cache, which only prints (app.py:106-112).
- Flask routing, basic authentication, password hashing, the `/logs` and `/health` routes, and the `datetimeformat` filter (app.py:4-16, 55-65, 172-184) are left out.
- App.ReplayChecks: `request.get_json()` failing on a non-JSON body (Flask's own 400/415) is not modelled. The body is given already parsed.

## Findings

| source | as written | input that shows it | evidently intended | confidence | as-written member | corrected member |
|---|---|---|---|---|---|---|
| app.py:104-115 | A full-sync event is logged twice per delivery: `sync_to_mailchimp` appends its own "success" entry (mailchimp_sync.py:68), then the dispatcher appends another. | The same `member_signup` event, with an email and a usable mapping, delivered twice to a provider that accepts every upsert: the log grows by four entries. | A replay adds one log line per delivery, two for two deliveries, with one cache entry and identical upserts. | medium, not executed | App.ReplayLogsTwicePerDelivery | App.ReplayLoggedOncePerDelivery |
