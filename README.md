# ProspectIQ search backend — a Dafny model

This project models the core of the ProspectIQ search backend, a FastAPI service. It answers a donor-prospect search in stages:

1. It looks the person up in the KnowledgeCore (GivingTrend) donor database.
2. When that finds nobody, it answers from the Experian response cache.
3. On a cache miss, it calls the Experian API and caches what comes back.

Phone and email validation results from the Aperture address-and-identity API are attached to each answer. Every search is added to the user's history.

The project also models these services of the same backend:
- the DataIris client, with its own cache;
- the BrightData donation search;
- the AI insights service;
- the authentication service, with its password-reset tokens;
- the JSON transforms that clean, rename and decode Experian and DataIris responses for the UI.

One Dafny module corresponds to one source file:

| module | models |
|---|---|
| `ResponseCache` | the cache table both caches share (`CacheTable`: find, save, hit count, expiry, cleanup, statistics) |
| `ExperianCache`, `DataIrisCache` | the two caches' payloads, hit dicts and search hashes |
| `DataProcessing` | `clean_response_data` |
| `FieldMappings` | `map_field_names` |
| `ValueMappings` | `map_field_values`, `transform_response_data`, `add_value_mapping` (class `Registry`) |
| `DatairisFieldMappings` | the DataIris UI catalogue, `transform_datairis_field`, `transform_datairis_results` |
| `DatairisService` | `DataIrisService` (class `Service`): token guards, `parse_results`, `get_records`, `search` |
| `KnowledgeCore` | `normalize_zip_code`, `normalize_address`, address scoring and ordering, `format_consumer_behavior_response` |
| `SearchHistory` | `SearchHistoryService` (class `HistoryTable`) |
| `PhoneValidation`, `EmailValidation`, `Aperture` | the two validation services and what they share |
| `BrightData` | `_process_donation_data`, `search_donations`, `get_preview_data` |
| `AiInsights` | `_extract_name_and_location`, `_build_prompt`, `generate_insights` |
| `Auth` | `AuthService` (class `AuthStore`) |
| `Utils`, `Models` | `transform_to_experian_format`; the `SearchRequest` field constraints |
| `Routes` | `search_with_database_fallback` |
| `Json`, `Strings`, `Sorting`, `Ordering`, `Wrappers` | Python dicts and lists, the string built-ins the services use, the stable sort, Python's `<` on sort keys, `None` and raised exceptions |

Python dicts are `Json.JObj`: an ordered list of members, since the transforms keep insertion order. A raised exception is a `Result.Err`, carrying the exception's class name or an `HttpError(status, detail)`.

Some things come from outside the modelled code, and each is an explicit input:
- the clock (`now`, in whole seconds);
- HTTP replies;
- database query rows;
- storage faults;
- password hashes;
- random tokens;
- the search hash function.

Methods change state where the source does; each is specified by a function of its inputs and old state. The lemmas below state the properties the source promises about those functions.

## Model

| member | source | states |
|---|---|---|
| ResponseCache.Hit | backend/app/services/cache_service.py:69-72 | a hit adds exactly one to `api_calls_count` and sets `last_accessed_at` to now; payload, expiry, criteria, creation time, source, partial flag, record count and error message are unchanged |
| ResponseCache.ExpiredKeys | backend/app/services/cache_service.py:203-213 | a row is expired exactly when `expires_at < now` (`is_cache_expired`) |
| ResponseCache.LiveRows | backend/app/services/cache_service.py:231-245 | after deleting the expired rows, the hashes left are all hashes minus the expired ones, each with its row unchanged |
| ResponseCache.HitAddsOne | backend/app/services/cache_service.py:69-72 | a hit raises the table's total of `api_calls_count` by exactly one |
| ResponseCache.InsertAddsCount | backend/app/services/cache_service.py:133-152 | inserting a new row adds its count to the total |
| ResponseCache.HitsAtLeastRows | backend/app/services/cache_service.py:279-281 | every row starts at one request, so `total_cache_hits` is at least `total_entries` |
| ResponseCache.CountExpiredAdd | backend/app/services/cache_service.py:272-274 | counting one more row adds one exactly when it is expired |
| ResponseCache.StatsEnd | backend/app/services/cache_service.py:269-298 | the statistics loop ends with the row count, the expired count, the sum of `api_calls_count` and the oldest and newest creation time |
| ResponseCache.CacheTable.constructor | backend/app/services/cache_service.py:17 | an empty table with the given hash function |
| ResponseCache.CacheTable.Find | backend/app/services/cache_service.py:21-86 | no row, an expired row (`expires_at < now`, the row stays) or a storage fault is a miss that changes nothing; `expires_at == now` is still a hit; a hit returns the payload and bumps only that row |
| ResponseCache.CacheTable.Save | backend/app/services/cache_service.py:88-164 | a new hash gets a row with one request, `expires_at = now + 90 days` and the given source, partial flag and error, and the result is true; an existing hash or a fault gives false and no change |
| ResponseCache.CacheTable.UpdateHitCount | backend/app/services/cache_service.py:167-200 | an unknown hash or a fault gives false and no change; otherwise the row is bumped by one and the result is true |
| ResponseCache.CacheTable.Cleanup | backend/app/services/cache_service.py:216-255 | the result is the number of rows with `expires_at < now`; a dry run deletes nothing; otherwise exactly those rows are gone and the live rows are untouched; a fault gives 0 and no change |
| ResponseCache.Tally | backend/app/services/cache_service.py:269-285 | one pass over the rows gives their number, the number with `expires_at < now`, the sum of the request counters, and the smallest and largest creation time (absent for no rows) |
| ResponseCache.CacheTable.Statistics | backend/app/services/cache_service.py:258-307 | `active_entries = total_entries - expired_entries`, `total_cache_hits` is the sum of the counts (0 when empty), oldest and newest are the extreme creation times (absent when empty); a fault gives no statistics |
| ResponseCache.ExpiredRowBlocksSave | backend/app/services/cache_service.py:21-164 | a lookup of criteria whose row has expired misses, and the save that follows for the same criteria returns false and leaves the table, the expired row included, unchanged |
| ResponseCache.CleanupRemovesExactlyExpired | backend/app/services/cache_service.py:231-250 | after cleanup no expired row remains, every unexpired row remains with its contents, and the table shrinks by the expired count |
| ExperianCache.CachedResponse | backend/app/services/cache_service.py:75-81 | the hit dict has exactly `search_response`, `phone_validation` and `email_validation`, with `None` for an absent validation |
| ExperianCache.NewCache | backend/app/services/cache_service.py:43-57 | an empty, valid table keyed by the six-field search hash |
| DataIrisCache.NormaliseField | backend/app/services/datairis_cache_service.py:28-32 | `(x or '').strip().lower()`: no surrounding whitespace and already lower case |
| DataIrisCache.AbsentIsEmpty | backend/app/services/datairis_cache_service.py:29 | `None`, `""` and whitespace-only values normalise to the same empty string |
| DataIrisCache.PaddingIgnored | backend/app/services/datairis_cache_service.py:29-31 | surrounding whitespace does not change the normalised field |
| DataIrisCache.CaseIgnored | backend/app/services/datairis_cache_service.py:29-31 | values equal up to case normalise to the same field |
| DataIrisCache.NormaliseFieldIdempotent | backend/app/services/datairis_cache_service.py:28-32 | normalising twice is normalising once |
| DataIrisCache.ExampleSameRow | backend/app/services/datairis_cache_service.py:22-36 | `(" Jane ", "DOE", None)` and `("jane", "doe", "")` share a hash |
| DataIrisCache.CachedResponse | backend/app/services/datairis_cache_service.py:87-92 | the hit dict has exactly `search_response` and `transformed_results` |
| DataIrisCache.NewCache | backend/app/services/datairis_cache_service.py:22-60 | an empty, valid table whose key is the digest of the normalised triple |
| DataProcessing.CleanScalars | backend/app/data_processing.py:36-39 | a string is stripped, and one that is empty or all whitespace becomes `None`; integers and booleans (0 and false included) are returned unchanged |
| DataProcessing.CleanEmptyContainers | backend/app/data_processing.py:23-34 | a dict or list none of whose entries survive cleaning becomes `None` |
| DataProcessing.NoneKeptItems | backend/app/data_processing.py:31-34 | list items that clean to `None`, `""` or `{}` are all dropped |
| DataProcessing.NoneKeptMembers | backend/app/data_processing.py:23-29 | dict entries whose value cleans to `None`, `""` or `{}` are all dropped |
| DataProcessing.CleanTidy | backend/app/data_processing.py:12-13 | a non-`None` result holds no `None`, blank string, empty dict or empty list at any depth |
| DataProcessing.TidyFixed | backend/app/data_processing.py:10-39 | data already holding only actual values is returned unchanged |
| DataProcessing.CleanIdempotent | backend/app/data_processing.py:10-39 | cleaning a cleaned result changes nothing |
| DataProcessing.CleanMembersKeys | backend/app/data_processing.py:25-28 | the surviving keys are a subsequence of the input keys: a subset, in the same order |
| DataProcessing.CleanMembersUnique | backend/app/data_processing.py:24-28 | distinct input keys stay distinct |
| DataProcessing.CleanMembersGet | backend/app/data_processing.py:25-28 | a key's value in the result is its cleaned input value when that survives, and absent otherwise |
| DataProcessing.CleanItemsAppend | backend/app/data_processing.py:32-33 | list cleaning works item by item: it distributes over concatenation and never lengthens a list |
| FieldMappings.FullKey | backend/app/field_mappings.py:22 | the path is `parent.key`, or just the key at top level |
| FieldMappings.DisplayName | backend/app/field_mappings.py:25-32 | an ELS path gives a dot-free name shorter than the path; any other path keeps the key |
| FieldMappings.MapItems | backend/app/field_mappings.py:40-41 | a list maps element by element, with the same length and the parent's path |
| FieldMappings.ScalarUnchanged | backend/app/field_mappings.py:43 | a value that is neither dict nor list is returned unchanged |
| FieldMappings.TopLevelKeyKept | backend/app/field_mappings.py:22-25 | a top-level key without a dot is never renamed |
| FieldMappings.ElsKeyRenamed | backend/app/field_mappings.py:25-29 | under an `ELSGenericMessage` path, the key is renamed to itself with `_` replaced by a space |
| FieldMappings.ElsPath | backend/app/field_mappings.py:22-25 | a key under an `ELSGenericMessage` parent always takes the ELS branch |
| FieldMappings.MapMembersSize | backend/app/field_mappings.py:19-36 | colliding display names keep one entry, so the output never has more entries than the input, and its keys stay distinct |
| FieldMappings.MapMembersLast | backend/app/field_mappings.py:35-36 | the value under a display name comes from the last input key mapped to it, transformed under the path of the original key |
| FieldMappings.MapMembersUntouched | backend/app/field_mappings.py:36 | a display name no input key maps to keeps what was already there |
| FieldMappings.PlainDictKeys | backend/app/field_mappings.py:30-32 | a dict with no ELS path keeps exactly its keys, in order |
| Strings.RoundHalfEven | backend/app/value_mappings.py:2303 | the quotient is the nearest integer to `n / d`, ties going to the even one, as `:,.0f` rounds |
| ValueMappings.TransformItems | backend/app/value_mappings.py:2415-2416 | list items are transformed one by one under the parent field, keeping the length |
| ValueMappings.TransformMembers | backend/app/value_mappings.py:2401-2413 | every key is kept, in order, and each value is transformed with its own key as the field name |
| ValueMappings.PassThrough | backend/app/value_mappings.py:2259-2268 | a value that is not a string or integer, or a field without a mapping key, is returned unchanged |
| ValueMappings.DollarRoundTrip | backend/app/value_mappings.py:2305-2317 | an integer dollar value renders as `$0` for zero, else as `$` and the digits with comma separators, from which the integer reads back; `k` is appended exactly for a non-zero equity, current-mortgage or investment-purchase field |
| ValueMappings.ReadDollarOf | backend/app/value_mappings.py:2310-2317 | the text after `$` (and before a trailing `k`) is read back with the commas removed |
| ValueMappings.DollarFallback | backend/app/value_mappings.py:2318-2320 | a dollar-field value that is not an integer literal is returned unchanged |
| ValueMappings.DseBlankUnmapped | backend/app/value_mappings.py:1345-1363 | the DSE table's entry for `""` exists but is never used: the dollar branch returns the value first |
| ValueMappings.PurchaseDateDay | backend/app/value_mappings.py:2326-2342 | an 8-digit `YYYYMMDD` renders as `<Month> <day without leading zero>, <YYYY>` |
| ValueMappings.MonthNameKnown | backend/app/value_mappings.py:2332-2338 | a month is named exactly when it is `01` to `12`; any other two digits are shown as they are |
| ValueMappings.DateBranch | backend/app/value_mappings.py:2323-2342 | a purchase-date field whose stripped value is 8 digits renders as the date text |
| ValueMappings.PurchaseDateExample | backend/app/value_mappings.py:2323-2342 | `20200105` renders as `January 5, 2020` |
| ValueMappings.BirthBranch | backend/app/value_mappings.py:2350-2370 | a 6-digit `MMYYYY` renders as `<Month> <YYYY>`; any other shape is returned unchanged |
| ValueMappings.BirthMonthExample | backend/app/value_mappings.py:2353-2365 | `031985` renders as `March 1985`, `131985` as `13 1985` |
| ValueMappings.PaymentExample | backend/app/value_mappings.py:2297-2303 | a mortgage payment is divided by 100 and rounded: `64560` gives `$646` |
| ValueMappings.TermBranch | backend/app/value_mappings.py:2373-2380 | a mortgage term that reads as an integer renders as `<n> months` without leading zeros; otherwise it is returned unchanged |
| ValueMappings.MortgageTermExample | backend/app/value_mappings.py:2373-2377 | `060` renders as `60 months` |
| ValueMappings.CodedLookup | backend/app/value_mappings.py:2382-2388 | a coded field looks up the stripped value in its table and falls back to the original, unstripped value |
| ValueMappings.DwellingDuplicate | backend/app/value_mappings.py:2189 | of the two `Dwelling Size in Livable Units` entries the later one is in force |
| ValueMappings.MapFieldValuesScalar | backend/app/value_mappings.py:2248-2388 | mapping a scalar never produces a dict or a list |
| ValueMappings.TransformShape | backend/app/value_mappings.py:2401-2420 | the transform keeps every key and every list length at every depth |
| ValueMappings.Registry.constructor | backend/app/value_mappings.py:2422-2432 | the registry starts from the built-in tables |
| ValueMappings.Registry.AddValueMapping | backend/app/value_mappings.py:2422-2432 | the code table is stored under the mapping key, and the field is pointed at that key |
| ValueMappings.AddedMappingUsed | backend/app/value_mappings.py:2382-2432 | after adding a mapping, the field's values are looked up in the new table |
| DatairisFieldMappings.Apply | backend/app/datairis_field_mappings.py:140-383 | no transformer keeps the value; a code table gives the description of a known code or the code itself; a donor-flag table falls back to "No information available for this user"; a boolean transformer is true exactly for `"1"` |
| DatairisFieldMappings.FindInFields | backend/app/datairis_field_mappings.py:405-406 | a field found by id is the one with that id in the subcategory; no result means no field there has that id |
| DatairisFieldMappings.FindInSubs | backend/app/datairis_field_mappings.py:404-406 | a placement found in a category names a subcategory that holds the field; no result means none does |
| DatairisFieldMappings.FindIn | backend/app/datairis_field_mappings.py:403-406 | the search through the UI mapping finds a placement of the id exactly when one exists |
| DatairisFieldMappings.FindInComplete | backend/app/datairis_field_mappings.py:403-434 | the search fails exactly when no category and subcategory holds the id |
| DatairisFieldMappings.FindInFieldsAt | backend/app/datairis_field_mappings.py:405-406 | the first field with the id is the one found |
| DatairisFieldMappings.TransformIn | backend/app/datairis_field_mappings.py:390-434 | a mapped field takes its label, type, category and subcategory from its placement, and its value from the transformer; an unmapped one gets category `Other`, subcategory `Unmapped`, type `text`, the raw value and its id with `_` replaced by a space as label |
| DatairisFieldMappings.AssignLookup | backend/app/datairis_field_mappings.py:518-521 | after assigning a name in an ordered dict its value is the new one, and every other name keeps its value |
| DatairisFieldMappings.AssignNames | backend/app/datairis_field_mappings.py:518-521 | assigning a new name appends it to the dict's key order; an existing name keeps the order |
| DatairisFieldMappings.Store | backend/app/datairis_field_mappings.py:518-526 | writing one category/subcategory list changes that list only, and a new category is added last |
| DatairisFieldMappings.FirstTitled | backend/app/datairis_field_mappings.py:503-513 | the index found is the first item with the label |
| DatairisFieldMappings.Overwrite | backend/app/datairis_field_mappings.py:503-513 | only the first item whose label matches gets the new value; labels, types and the list length are kept, and nothing changes when no label matches |
| DatairisFieldMappings.OverwriteTitle | backend/app/datairis_field_mappings.py:503-506 | the loop over the items replaces the value of the first one whose label matches, and stops |
| DatairisFieldMappings.DefaultItems | backend/app/datairis_field_mappings.py:456-461 | one default item per philanthropy field, each "No information available for this user" with the field's label and type |
| DatairisFieldMappings.PrefillItems | backend/app/datairis_field_mappings.py:456-461 | the pre-filling loop builds exactly the default items |
| DatairisFieldMappings.OverviewFound | backend/app/datairis_field_mappings.py:467-470 | each of the four overview fields is in the Profile/Overview mapping |
| DatairisFieldMappings.OverviewDefaults | backend/app/datairis_field_mappings.py:466-476 | the Overview defaults have one item per listed overview field |
| DatairisFieldMappings.FoundDefaults | backend/app/datairis_field_mappings.py:467-476 | only the listed fields found in the mapping get a default item |
| DatairisFieldMappings.FoundDefaultsAll | backend/app/datairis_field_mappings.py:467-476 | when every listed field is found there is one default per field, in list order |
| DatairisFieldMappings.FoundDefaultsMissing | backend/app/datairis_field_mappings.py:468 | a listed field missing from the mapping adds no default |
| DatairisFieldMappings.PrefillFound | backend/app/datairis_field_mappings.py:466-476 | the Overview loop builds exactly the found defaults |
| DatairisFieldMappings.OverviewAllFound | backend/app/datairis_field_mappings.py:466-476 | all four overview fields are found, so the Overview list has four defaults |
| DatairisFieldMappings.OverviewDefaultTitles | backend/app/datairis_field_mappings.py:466-476 | the Overview defaults are, in order, Capacity Range $, Estimated Household Income, Home Market Value and Net Worth |
| DatairisFieldMappings.PrefillDefaults | backend/app/datairis_field_mappings.py:447-476 | the result starts as Philanthropy/Giving Categories of Interest plus Profile/Overview, both pre-filled |
| DatairisFieldMappings.PlaceField | backend/app/datairis_field_mappings.py:497-526 | one transformed field is placed: overwritten in Philanthropy or the Overview, appended elsewhere |
| DatairisFieldMappings.AddRecord | backend/app/datairis_field_mappings.py:483-526 | one record's fields are processed in key order |
| DatairisFieldMappings.AddRecords | backend/app/datairis_field_mappings.py:482-526 | records are processed in order |
| DatairisFieldMappings.TransformResultsWith | backend/app/datairis_field_mappings.py:437-531 | the organised result is the defaults with every record's fields placed, in order |
| DatairisFieldMappings.TransformDatairisResults | backend/app/datairis_field_mappings.py:437-531 | the same with the module's own field transform |
| DatairisFieldMappings.PrefilledItems | backend/app/datairis_field_mappings.py:447-476 | the pre-filled result has the two default lists and no other |
| DatairisFieldMappings.PrefilledShaped | backend/app/datairis_field_mappings.py:447-476 | the pre-filled result has the required shape |
| DatairisFieldMappings.PlaceShaped | backend/app/datairis_field_mappings.py:501-526 | placing a field keeps both default lists' labels and lengths |
| DatairisFieldMappings.StepShaped | backend/app/datairis_field_mappings.py:485-526 | processing one field, skipped or not, keeps the shape |
| DatairisFieldMappings.StepRecordShaped | backend/app/datairis_field_mappings.py:484-526 | processing a record keeps the shape |
| DatairisFieldMappings.StepRecordsShaped | backend/app/datairis_field_mappings.py:483-526 | processing all records keeps the shape |
| DatairisFieldMappings.OrganizeShaped | backend/app/datairis_field_mappings.py:451-513 | every result has Philanthropy with its 12 default slots and the four Overview slots, whatever the records; no records give exactly the defaults |
| DatairisFieldMappings.SkippedRecord | backend/app/datairis_field_mappings.py:485-495 | a record whose fields are all empty and not philanthropy or overview fields changes nothing |
| DatairisFieldMappings.PlaceAppends | backend/app/datairis_field_mappings.py:514-526 | any other list grows by exactly the placed field, at the end |
| DatairisFieldMappings.StepAppends | backend/app/datairis_field_mappings.py:485-526 | processing one field appends to such a list at most that field |
| DatairisFieldMappings.StepRecordAppends | backend/app/datairis_field_mappings.py:484-526 | a record appends its fields in key order |
| DatairisFieldMappings.StepRecordsAppends | backend/app/datairis_field_mappings.py:483-526 | all records append their fields in record order |
| DatairisFieldMappings.AppendsFollowRecordOrder | backend/app/datairis_field_mappings.py:479-526 | a list other than the two defaults holds exactly the appended fields, in record order |
| DatairisFieldMappings.NewCategoryLast | backend/app/datairis_field_mappings.py:518-519 | a category seen first is added after all existing ones |
| DatairisFieldMappings.ItemsJson | backend/app/datairis_field_mappings.py:521-525 | each item renders as an object with label, value and type |
| DatairisFieldMappings.OrganizedJson | backend/app/datairis_field_mappings.py:437-531 | the rendered result is a dict whose keys are the categories in order |
| DatairisFieldMappings.OrganizedTruthy | backend/app/datairis_field_mappings.py:451-453 | the rendered result is never empty and always has Philanthropy |
| DatairisFieldMappings.CodeValues | backend/app/datairis_field_mappings.py:105-140 | gender `M` maps to `Male` and an unknown code stays as it is |
| DatairisFieldMappings.DonorFlagYes | backend/app/datairis_field_mappings.py:112-116 | donor flag `1` maps to its description |
| DatairisFieldMappings.DonorFlagValues | backend/app/datairis_field_mappings.py:328 | any other scalar donor flag gives the "No information" text |
| DatairisService.FieldEntry | backend/app/datairis_service.py:264-267 | a field object gives an entry exactly when it is a dict with a string `fieldID`; the entry is that id with `fieldValue`, or null when that is missing; a list or dict id fails with `TypeError`, any other failure is `AttributeError` |
| DatairisService.ParsedFieldsErr | backend/app/datairis_service.py:264-267 | a malformed field fails the whole record, whatever follows it |
| DatairisService.ParsedRecordsErr | backend/app/datairis_service.py:259-272 | a malformed record fails the whole parse, whatever follows it |
| DatairisService.ParseRecord | backend/app/datairis_service.py:262-269 | the loop over a record's fields computes the parsed record |
| DatairisService.ParseResults | backend/app/datairis_service.py:239-275 | `parse_results` as a loop computes the parsed results, including the `AttributeError` of `results.keys()` on a truthy non-dict |
| DatairisService.NoRecordsNotDict | backend/app/datairis_service.py:255-257 | a truthy list or string without `searchResultRecord` makes the parse raise `AttributeError` |
| DatairisService.NoRecordsListExample | backend/app/datairis_service.py:255-257 | the reply `[1]` makes the parse raise `AttributeError` |
| DatairisService.ParseRecords | backend/app/datairis_service.py:259-275 | the loop over the records computes the parsed records |
| DatairisService.ParsedFieldsLastWins | backend/app/datairis_service.py:262-269 | each id maps to the value of its last field; keys are unique; and a record is empty exactly when it has no fields |
| DatairisService.EachRecordAt | backend/app/datairis_service.py:259-269 | every record parses exactly when each does, one result per record, in order |
| DatairisService.ParsedRecordsFilter | backend/app/datairis_service.py:259-275 | the result is the records in order with the empty ones dropped: a subsequence, no empty record, and every non-empty record kept |
| DatairisService.FilterStep | backend/app/datairis_service.py:271-272 | appending a record keeps the filter's three properties |
| DatairisService.NothingToParse | backend/app/datairis_service.py:251-257 | falsy input, or a dict without `searchResultRecord`, parses to `[]` |
| DatairisService.ParsedListOfRecords | backend/app/datairis_service.py:255-260 | a list under `searchResultRecord` is parsed record by record |
| DatairisService.DuplicateIdExample | backend/app/datairis_service.py:262-269 | of two fields with the same id the later value is kept |
| DatairisService.FieldObjectEntry | backend/app/datairis_service.py:264-267 | a well-formed field object reads back as its id and value |
| DatairisService.TokenOfShapes | backend/app/datairis_service.py:52-61 | an `ERROR` in the response details means no token; otherwise the token is `TokenID`, or null when absent |
| DatairisService.TokenOfNoResponse | backend/app/datairis_service.py:52-61 | a reply without `Response` raises a KeyError |
| DatairisService.RecordsOfShapes | backend/app/datairis_service.py:222-233 | `get_records` returns `Response.responseDetails.SearchResult` when it is present and truthy, and otherwise the raw response |
| DatairisService.RecordsOfOtherShape | backend/app/datairis_service.py:222-233 | a reply without `Response` is returned as it is |
| DatairisService.Answer | backend/app/datairis_service.py:195-198 | the answer is a dict with exactly `search_response` and `transformed_results`, in that order |
| DatairisService.AlwaysSaved | backend/app/datairis_service.py:167-191 | the organised result is always truthy, so even zero records are cached; no records give the defaults |
| DatairisService.RetrieveNeedsToken | backend/app/datairis_service.py:153-170 | a completed retrieval means authentication gave a truthy token and both the reset and the add-criteria steps succeeded |
| DatairisService.Service.constructor | backend/app/datairis_service.py:16-29 | a new service has no token and uses the given cache, or none |
| DatairisService.Service.Authenticate | backend/app/datairis_service.py:31-65 | an error reply or a request failure leaves the token as it was and gives None; otherwise the token becomes `TokenID` |
| DatairisService.Service.ResetCriteria | backend/app/datairis_service.py:67-87 | succeeds exactly when a token is set and the request succeeds |
| DatairisService.Service.AddSearchCriteria | backend/app/datairis_service.py:89-123 | the same for adding the search criteria |
| DatairisService.Service.GetRecords | backend/app/datairis_service.py:200-237 | without a token, or when the request fails, the result is None; otherwise it is the extracted records |
| DatairisService.Service.ParseAndTransformResults | backend/app/datairis_service.py:277-288 | the parse is organised with the service's transform |
| DatairisService.Service.CallApi | backend/app/datairis_service.py:153-170 | authenticate, reset, add criteria and get records run in order, and the first failure ends the call |
| DatairisService.Service.SaveRetrieved | backend/app/datairis_service.py:172-193 | the organised result is returned and saved under the criteria's hash unless the save failed or the hash exists |
| DatairisService.Service.Search | backend/app/datairis_service.py:125-198 | with a cache, a hit is returned before any API step and only counts the access; otherwise a failure gives None or the error and leaves the cache alone, and a completed retrieval is saved and returned beside the raw response |
| DatairisService.Service.Miss | backend/app/datairis_service.py:153-198 | after a cache miss: the first failing API step gives None or the error and leaves the cache alone; a completed retrieval is organised, saved under the criteria's hash unless the save failed or the hash exists, and returned beside the raw response |
| KnowledgeCore.DigitsOf | backend/app/services/knowledgecore_service.py:27 | keeping only the digits gives a digit string no longer than the input |
| KnowledgeCore.DigitsOfConcat | backend/app/services/knowledgecore_service.py:27 | the digits of a concatenation are the concatenation of the digits |
| KnowledgeCore.DigitsOfDigits | backend/app/services/knowledgecore_service.py:27 | a digit string keeps all its characters |
| KnowledgeCore.NormalizeZipCode | backend/app/services/knowledgecore_service.py:22-28 | the ZIP is the first five digits, or all of them when there are fewer, so it is at most five digits; empty input gives `""` |
| KnowledgeCore.NormalizeZipCodeIdempotent | backend/app/services/knowledgecore_service.py:22-28 | normalising a normalised ZIP changes nothing |
| KnowledgeCore.ZipPlusFour | backend/app/services/knowledgecore_service.py:23 | a ZIP+4 such as `54113-1247` normalises to its five-digit ZIP |
| KnowledgeCore.ApplyAbbreviations | backend/app/services/knowledgecore_service.py:72-73 | the rewrite loop applies the suffix replacements in order |
| KnowledgeCore.NormalizeAddress | backend/app/services/knowledgecore_service.py:50-75 | `normalize_address` computes the normalised address |
| KnowledgeCore.AbbreviationsAreWordRewrites | backend/app/services/knowledgecore_service.py:59-70 | each of the ten rewrites replaces a space-led upper-case word by a shorter space-led one |
| KnowledgeCore.AbbreviateShape | backend/app/services/knowledgecore_service.py:72-73 | such rewrites keep a single-spaced upper-case string single-spaced and upper-case, and empty exactly when it was |
| KnowledgeCore.NormalizedAddressShape | backend/app/services/knowledgecore_service.py:50-75 | a normalised address has no lower-case letter, no leading, trailing or double space, and is empty exactly when the input has no word |
| KnowledgeCore.CountFound | backend/app/services/knowledgecore_service.py:248 | the number of search tokens found is at most the number of search tokens |
| KnowledgeCore.CountFoundExtremes | backend/app/services/knowledgecore_service.py:248 | all tokens are counted exactly when all are found, and none exactly when none is |
| KnowledgeCore.RoundHalfEvenNearest | backend/app/services/knowledgecore_service.py:261 | `round(x, 2)` gives the nearest number of hundredths |
| KnowledgeCore.RoundAboveEven | backend/app/services/knowledgecore_service.py:261 | a rounded share is above an even bound exactly when the exact share is above it by more than half a step |
| KnowledgeCore.ScoreAtMostOne | backend/app/services/knowledgecore_service.py:241-249 | the score is between 0 and 1 (100 hundredths) |
| KnowledgeCore.ScoreStrictlyMonotone | backend/app/services/knowledgecore_service.py:248-249 | with fewer than 100 search tokens, more matches give a strictly higher score |
| KnowledgeCore.ScoreCentsExtremes | backend/app/services/knowledgecore_service.py:248-249 | no match scores 0 and a full match scores 1 |
| KnowledgeCore.AddressScore | backend/app/services/knowledgecore_service.py:238-249 | the address score is at most 1 |
| KnowledgeCore.AddressScoreCases | backend/app/services/knowledgecore_service.py:241-249 | an empty side scores 0; a search whose tokens all occur in the constituent's address scores 1, and one whose tokens all miss scores 0 |
| KnowledgeCore.ConfidenceOfShare | backend/app/services/knowledgecore_service.py:340 | the confidence is `High` exactly when the rounded share is above 0.7, and `Low` exactly when it is at most 0.3, stated on the exact match count |
| KnowledgeCore.RoundedShareBelowHigh | backend/app/services/knowledgecore_service.py:340 | 33 of 47 tokens is above 0.7 exactly, but rounds to 0.70 and so is `Medium` |
| KnowledgeCore.ByScoreTotalPreorder | backend/app/services/knowledgecore_service.py:267 | ordering by score, descending, is a total preorder |
| KnowledgeCore.DonorRecords | backend/app/services/knowledgecore_service.py:236-264 | one donor record per constituent row, in order, each with its address score |
| KnowledgeCore.DonorRecord | backend/app/services/knowledgecore_service.py:237-263 | the record of one row holds its fields, "" for each missing one, the score of its normalized address against the normalized search street, and the KnowledgeCore source tag |
| KnowledgeCore.SearchDonors | backend/app/services/knowledgecore_service.py:191-273 | `search_donors` gives the donors sorted by score, or `[]` on a storage error |
| KnowledgeCore.FoundDonorsOrdered | backend/app/services/knowledgecore_service.py:236-273 | the result is a permutation of the rows' records, in descending score order, rows of equal score keeping their order; an error gives `[]` |
| KnowledgeCore.FormatRecord | backend/app/services/knowledgecore_service.py:310-349 | one donor is formatted with its personal, address, contact and match-quality sections |
| KnowledgeCore.FormatConsumerBehaviorResponse | backend/app/services/knowledgecore_service.py:275-363 | `format_consumer_behavior_response` builds the response from the donors |
| KnowledgeCore.EnvelopeResults | backend/app/services/knowledgecore_service.py:350-363 | the results hold `consumer_behavior` with the summary and the records |
| KnowledgeCore.EnvelopeTop | backend/app/services/knowledgecore_service.py:350-352 | the envelope carries the message and source `database` |
| KnowledgeCore.EnvelopeAt | backend/app/services/knowledgecore_service.py:350-363 | message, source, summary and records are at their paths |
| KnowledgeCore.ResponseSummary | backend/app/services/knowledgecore_service.py:286-363 | with no donors the message says none were found, `total_records` is 0 and the records are empty; otherwise `total_records` is the donor count and there is one record per donor, in order |
| KnowledgeCore.SummaryFields | backend/app/services/knowledgecore_service.py:355-361 | the summary holds the record count and the search criteria |
| KnowledgeCore.RecordSections | backend/app/services/knowledgecore_service.py:326-348 | each record holds personal, address, contact and match-quality sections, data source and record type |
| KnowledgeCore.PersonalFullName | backend/app/services/knowledgecore_service.py:327-331 | the full name is `first last` stripped |
| KnowledgeCore.QualityFields | backend/app/services/knowledgecore_service.py:339-342 | the match quality holds the score and its confidence level |
| KnowledgeCore.FormattedRecordFields | backend/app/services/knowledgecore_service.py:326-348 | full name, similarity and confidence are at their paths in each record |
| KnowledgeCore.ContactInfoMetrics | backend/app/services/knowledgecore_service.py:311-324 | without a database or constituent id the contact info is id, phone and email only; otherwise the gift metrics are merged in, overriding those keys |
| SearchHistory.UserRows | backend/app/services/search_history_service.py:51-53 | a user's rows are rows of the table that belong to that user |
| SearchHistory.RemoveOwned | backend/app/services/search_history_service.py:65-158 | a delete keeps exactly the rows it does not match, never a deleted one |
| SearchHistory.Removed | backend/app/services/search_history_service.py:145-148 | the deleted rows are table rows that belong to the user and match the delete |
| SearchHistory.ByRecentTotalPreorder | backend/app/services/search_history_service.py:57-77 | ordering by `searched_at`, newest first, is a total preorder |
| SearchHistory.HistoryTable.constructor | backend/app/services/search_history_service.py:17-45 | the table starts empty, ids starting at 1 |
| SearchHistory.HistoryTable.AddSearch | backend/app/services/search_history_service.py:17-45 | the new row gets the next id, the request's fields and the time, is appended, and the user's history is then cut to the 50 most recent |
| SearchHistory.HistoryTable.CleanupOldSearches | backend/app/services/search_history_service.py:48-70 | when a user has more than `keep_count` rows, only the `keep_count` most recent stay; other users' rows are untouched |
| SearchHistory.HistoryTable.GetRecentSearches | backend/app/services/search_history_service.py:73-105 | the user's rows, newest first, at most `limit` of them, each in its display form |
| SearchHistory.HistoryTable.DeleteSearch | backend/app/services/search_history_service.py:128-139 | returns True exactly when a row with that id belongs to the user, and then removes it; otherwise nothing changes |
| SearchHistory.HistoryTable.DeleteMultipleSearches | backend/app/services/search_history_service.py:142-151 | removes the user's rows with the listed ids and returns their number, which is the number of rows removed |
| SearchHistory.HistoryTable.ClearSearchHistory | backend/app/services/search_history_service.py:154-159 | removes every row of the user and no other |
| SearchHistory.NonEmpty | backend/app/services/search_history_service.py:85 | the address parts kept are the non-empty ones |
| SearchHistory.Displayed | backend/app/services/search_history_service.py:80-103 | one display row per history row |
| SearchHistory.RemoveOwnedUnique | backend/app/services/search_history_service.py:65-68 | deleting keeps ids unique |
| SearchHistory.UserRowsUnique | backend/app/services/search_history_service.py:51-53 | a user's rows have unique ids |
| SearchHistory.RemovedUnique | backend/app/services/search_history_service.py:145-148 | the deleted rows have unique ids |
| SearchHistory.RemoveSplits | backend/app/services/search_history_service.py:145-151 | the rows kept and the rows deleted together are the whole table |
| SearchHistory.RemoveNothing | backend/app/services/search_history_service.py:135-139 | a delete that matches nothing leaves the table as it was |
| SearchHistory.RemoveOwnedOthers | backend/app/services/search_history_service.py:130-158 | a user's delete never changes another user's rows |
| SearchHistory.RemoveOwnedUser | backend/app/services/search_history_service.py:145-148 | deleting from the table and then taking the user's rows is deleting from the user's rows |
| SearchHistory.IdsWithin | backend/app/services/search_history_service.py:145-148 | rows with unique ids drawn from a set are no more than the set |
| SearchHistory.IdsSize | backend/app/services/search_history_service.py:62 | there are no more ids than rows |
| SearchHistory.Distinct | backend/app/services/search_history_service.py:146 | the set of listed ids |
| SearchHistory.DeleteMultipleCount | backend/app/services/search_history_service.py:142-151 | the count is at most the number of distinct listed ids, and only the user's listed rows go |
| SearchHistory.DeleteSearchOwned | backend/app/services/search_history_service.py:128-139 | a single delete removes one row when the user owns that id and none otherwise |
| SearchHistory.RemovedHas | backend/app/services/search_history_service.py:145-148 | every matching row is deleted |
| SearchHistory.ClearLeavesNone | backend/app/services/search_history_service.py:154-159 | after clearing, the user has no rows |
| SearchHistory.CleanedOthers | backend/app/services/search_history_service.py:65-68 | cleanup leaves other users' rows unchanged |
| SearchHistory.KeptIsRecent | backend/app/services/search_history_service.py:57-68 | a row whose id is among the kept ids is one of the most recent rows |
| SearchHistory.CleanedBound | backend/app/services/search_history_service.py:48-70 | after cleanup the user has at most `keep_count` rows |
| SearchHistory.RemovedIsOlder | backend/app/services/search_history_service.py:55-68 | a row that cleanup removes lies past the first `keep_count` of the newest-first order |
| SearchHistory.OutsidePrefix | backend/app/services/search_history_service.py:62-68 | a row whose id is not among the kept ids lies after the kept prefix |
| SearchHistory.InIdsAll | backend/app/services/search_history_service.py:62 | every row's id is among the ids |
| SearchHistory.InIds | backend/app/services/search_history_service.py:62 | a row's id is among the ids |
| SearchHistory.CleanedMostRecent | backend/app/services/search_history_service.py:48-70 | every row cleanup keeps is at least as recent as every row it removes |
| SearchHistory.RemoveOwnedHas | backend/app/services/search_history_service.py:65-68 | every row that a delete does not match stays |
| SearchHistory.CleanedWithinLimit | backend/app/services/search_history_service.py:55 | a user at or under the limit loses nothing |
| SearchHistory.NewestKept | backend/app/services/search_history_service.py:42-45 | a search newer than all of the user's others survives the cleanup |
| SearchHistory.SortedHead | backend/app/services/search_history_service.py:59 | the newest row comes first in the newest-first order |
| SearchHistory.UserRowsSnoc | backend/app/services/search_history_service.py:38-40 | appending a row adds it to its own user's rows only |
| SearchHistory.AddSearchKeeps | backend/app/services/search_history_service.py:17-45 | after adding, the user has at most 50 rows and other users' rows are unchanged |
| SearchHistory.MostRecentShape | backend/app/services/search_history_service.py:75-77 | the recent rows are at most `limit` of the user's rows, sorted newest first |
| SearchHistory.DisplayedAt | backend/app/services/search_history_service.py:80-103 | the display rows follow the history rows one for one |
| SearchHistory.RecentSearchesAt | backend/app/services/search_history_service.py:73-105 | the i-th recent search displays the i-th most recent row |
| SearchHistory.NonEmptySubsequence | backend/app/services/search_history_service.py:85 | the kept parts keep their order |
| SearchHistory.NonEmptyKeeps | backend/app/services/search_history_service.py:85 | no non-empty part is dropped |
| SearchHistory.FullAddressAll | backend/app/services/search_history_service.py:84-85 | with all four parts present the address is `street, city, state, zip` |
| SearchHistory.FullAddressNone | backend/app/services/search_history_service.py:84-85 | with no part present the address is empty |
| SearchHistory.FullNameOfLast | backend/app/services/search_history_service.py:83 | without a first name the name is the last name, stripped |
| SearchHistory.TimeAgoBuckets | backend/app/services/search_history_service.py:108-125 | below 60 seconds it is `just now`; then minutes, hours, days and weeks, each the floor of the difference in that unit, with the unit's bounds |
| SearchHistory.TimeAgoReadsBack | backend/app/services/search_history_service.py:114-125 | the number in the text reads back as that floor |
| PhoneValidation.Bucketed | backend/app/services/phone_validation_service.py:104-128 | a bucket holds at most one entry per detail |
| PhoneValidation.Infos | backend/app/services/phone_validation_service.py:107-117 | one phone entry per detail |
| PhoneValidation.CategorizePhones | backend/app/services/phone_validation_service.py:104-128 | the loop over the details computes the four lists, or the error a non-dict detail raises |
| PhoneValidation.BucketsStep | backend/app/services/phone_validation_service.py:119-128 | each detail extends exactly the lists it belongs to; mobile excludes landline and exactly one of the two DNC lists takes it |
| PhoneValidation.ByRankTotalPreorder | backend/app/services/phone_validation_service.py:131-134 | ordering by rank is a total preorder over every rank: numbers, strings and lists alike |
| PhoneValidation.ByRankIsPython | backend/app/services/phone_validation_service.py:131-134 | on ranks Python can compare, an entry may stay before another exactly when Python's `later < earlier` is `False` |
| PhoneValidation.InfoJsons | backend/app/services/phone_validation_service.py:107-117 | each entry renders as its own object |
| PhoneValidation.FormatPhoneValidationResponse | backend/app/services/phone_validation_service.py:72-151 | `_format_phone_validation_response` computes the formatted result |
| PhoneValidation.ValidatePhoneNumbers | backend/app/services/phone_validation_service.py:153-262 | the reply is formatted on success and becomes the empty fallback structure on any failure |
| PhoneValidation.PayloadShape | backend/app/services/phone_validation_service.py:29-70 | the payload has the request's components, attributes `["phone"]` and the DNC-preference option |
| PhoneValidation.BucketedMembers | backend/app/services/phone_validation_service.py:104-128 | a bucket holds exactly the entries of the details that belong to it, in detail order |
| PhoneValidation.TypeBuckets | backend/app/services/phone_validation_service.py:119-122 | `mobile_phones` holds type `mobile`, `landline_phones` type `landline`, and any other type is in neither |
| PhoneValidation.DncBuckets | backend/app/services/phone_validation_service.py:124-128 | the DNC-compliant list holds truthy DNC statuses and the other list the rest |
| PhoneValidation.DncPartition | backend/app/services/phone_validation_service.py:124-128 | every detail lands in exactly one of the two DNC lists, so their sizes sum to the number of details |
| PhoneValidation.SortByRankSorted | backend/app/services/phone_validation_service.py:131-134 | the sort by rank gives a sorted permutation, stable for equal ranks, in which no entry is followed by one whose rank Python finds smaller |
| PhoneValidation.SortByRankSucceeds | backend/app/services/phone_validation_service.py:131-134 | the sort succeeds on at most one entry, on all-number ranks (booleans included) and on all-string ranks |
| PhoneValidation.StringRanksExample | backend/app/services/phone_validation_service.py:131-134 | two entries ranked `"2"` and `"1"` sort to `"1"` then `"2"`, as Python's string comparison orders them |
| PhoneValidation.SortByRankFails | backend/app/services/phone_validation_service.py:131-134 | with two or more entries, ranks of different kinds, or a `None` or dict rank, make the sort raise `TypeError` |
| PhoneValidation.SuccessMetadataFields | backend/app/services/phone_validation_service.py:142-149 | the metadata counts are the list lengths, and the validation date is the given one |
| PhoneValidation.SortedBucketsParts | backend/app/services/phone_validation_service.py:130-134 | each of the four lists is sorted on its own |
| Ordering.PyLessAgrees | backend/app/services/phone_validation_service.py:131-134 | wherever Python's `<` on two keys answers, the total order used by the sort gives the same answer |
| Ordering.PyLessSelf | backend/app/services/phone_validation_service.py:131-134 | a key always compares with itself and is not below itself |
| Ordering.SameKindCompares | backend/app/services/phone_validation_service.py:131-134 | two numbers, or two strings, always compare |
| Ordering.KindsClash | backend/app/services/phone_validation_service.py:131-134 | a number, a string and a list never compare with one another |
| Ordering.LeTotal | backend/app/services/phone_validation_service.py:131-134 | any two keys are ordered one way or the other |
| Ordering.LeTrans | backend/app/services/phone_validation_service.py:131-134 | the order on keys is transitive |
| PhoneValidation.FormatDetailsStep | backend/app/services/phone_validation_service.py:100-149 | with details, the lists are the sorted buckets and the metadata is built from them and the first detail's revision date |
| PhoneValidation.FormatWithDetails | backend/app/services/phone_validation_service.py:100-149 | each of the four lists is the sorted bucket of the details |
| PhoneValidation.FormatWithoutDetails | backend/app/services/phone_validation_service.py:82-151 | without details the lists are empty and the metadata is `{}` |
| PhoneValidation.FormatPhonesFound | backend/app/services/phone_validation_service.py:82-98 | `phones_found` and `total_phones` come from `result.phones` when present, and are `[]` and 0 otherwise |
| PhoneValidation.PhonesFoundOfList | backend/app/services/phone_validation_service.py:82-98 | a phones list gives itself and its length |
| PhoneValidation.NoResultNoPhones | backend/app/services/phone_validation_service.py:82-98 | a reply without `result` gives no phones |
| PhoneValidation.ValidationOutcome | backend/app/services/phone_validation_service.py:153-262 | the answer is the formatted 200 reply or a fallback with status `failed` (an HTTP error) or `error` (anything else); it never raises |
| PhoneValidation.FallbackShape | backend/app/services/phone_validation_service.py:224-262 | the fallback has no phones, empty lists, total 0, and metadata with the status and the error message |
| EmailValidation.AddressLine | backend/app/services/email_validation_service.py:51-59 | `address_line_1` is `street1, street2` when both are present, otherwise whichever is present, otherwise `""` |
| EmailValidation.FormatEmailValidationResponse | backend/app/services/email_validation_service.py:82-140 | `_format_email_validation_response` computes the formatted result |
| EmailValidation.ValidateEmailAddress | backend/app/services/email_validation_service.py:142-233 | the reply is formatted on success and becomes the fallback structure on any failure |
| EmailValidation.PayloadShape | backend/app/services/email_validation_service.py:32-80 | the payload has the request's components with the joined address line, attributes `["email"]` and no options |
| EmailValidation.NoStreetComponent | backend/app/services/email_validation_service.py:51-59 | with neither street the address line is `""` |
| EmailValidation.FormatCounts | backend/app/services/email_validation_service.py:101-138 | `total_emails` is the number of emails found, 0 or 1, and the status is `success` exactly when it is positive and `no_email_found` exactly when it is 0 |
| EmailValidation.FoundEmail | backend/app/services/email_validation_service.py:101-125 | no email or an empty one gives no entry; a non-empty one gives exactly one entry with that address and the detail's type |
| EmailValidation.EntryRank | backend/app/services/email_validation_service.py:117-121 | the entry has rank 1, its address and its type |
| EmailValidation.EmailTypeCases | backend/app/services/email_validation_service.py:107-116 | the type comes from `email_detail` as an object, or from the first element of a list, and defaults to `unknown` |
| EmailValidation.NoMetadataUnknown | backend/app/services/email_validation_service.py:107-116 | without metadata the type is `unknown` |
| EmailValidation.ValidationOutcome | backend/app/services/email_validation_service.py:142-233 | a failure has status `failed` (a non-200 status or an unparseable body) or `error` (anything else); success means a 200 reply whose body formats |
| EmailValidation.FallbackShape | backend/app/services/email_validation_service.py:200-233 | the fallback has `total_emails` 0 and the failure metadata |
| Aperture.ReplyBody | backend/app/services/phone_validation_service.py:185-216 | a reply is used exactly when it is a 200 with a JSON body; another status, or a body that does not parse, fails as `failed`, and a client error as `error` |
| Aperture.FailureMetadataFields | backend/app/services/phone_validation_service.py:224-262 | the failure metadata carries the status, the error message and the API source `experian_aperture` |
| Aperture.ComponentsShape | backend/app/services/phone_validation_service.py:29-70 | the components hold, in order, first, middle, last name, address line, town, sub-region, region and postal code, each as a one-element list, the middle name and sub-region empty |
| BrightData.ConstraintKey | backend/app/services/brightdata_service.py:179 | the key is `given_by_`, the donor name lower-cased with spaces turned into `_`, then `_check`; it has no space |
| BrightData.Rows | backend/app/services/brightdata_service.py:172-219 | one row per entry until an entry raises, which ends the rows |
| BrightData.DonorCheck | backend/app/services/brightdata_service.py:176-184 | the loop over the filter results computes the donor check |
| BrightData.Enrich | backend/app/services/brightdata_service.py:200-216 | the loop over the enrichment results computes the enriched row |
| BrightData.ProcessEntry | backend/app/services/brightdata_service.py:172-219 | one sample entry becomes its row, or the error it raises |
| BrightData.ProcessDonationData | backend/app/services/brightdata_service.py:145-228 | `_process_donation_data` gives the rows built before any error |
| BrightData.DonorCheckFirst | backend/app/services/brightdata_service.py:180-184 | the first filter result with the key decides, its value lower-cased, `no` when it has none |
| BrightData.DonorCheckAbsent | backend/app/services/brightdata_service.py:176-184 | with no filter result for the key the check is `no` |
| BrightData.VerifiedIff | backend/app/services/brightdata_service.py:193 | `verification_status` is `Verified` exactly when the check is `yes`, and `Unverified` otherwise |
| BrightData.EnrichedKeeps | backend/app/services/brightdata_service.py:200-216 | enrichment keeps url, name and status, and each of the four fields takes the value of the last usable entry for its key; values that are `skipped` or falsy are ignored |
| BrightData.UnenrichedStaysNone | backend/app/services/brightdata_service.py:190-198 | a field with no usable enrichment stays None |
| BrightData.RowsPerEntry | backend/app/services/brightdata_service.py:172-228 | each row is its entry's row, and the rows stop only at an entry that raises |
| BrightData.OneRowPerEntry | backend/app/services/brightdata_service.py:172-219 | without errors there is one row per entry, in input order, verified or not |
| BrightData.NoSampleNoRows | backend/app/services/brightdata_service.py:163-169 | a missing or empty `sample_data` gives no rows |
| BrightData.SampleListRows | backend/app/services/brightdata_service.py:163-172 | a `sample_data` list is processed entry by entry with the donor's constraint key |
| BrightData.ApiKeyFirst | backend/app/services/brightdata_service.py:46-53 | without an API key the search fails with 500 before any request is made |
| BrightData.PreviewNotFoundAsWritten | backend/app/services/brightdata_service.py:76-143 | as written, a 404 from the preview call comes back as a 500 whose detail wraps the 404 |
| BrightData.SearchStatusKept | backend/app/services/brightdata_service.py:76-139 | with the failures passed through, a failed preview keeps its status and a missing `preview_id` gives 500 |
| BrightData.SearchResultFields | backend/app/services/brightdata_service.py:122-130 | a successful search returns `success`, the processed rows, the query, the preview id and the raw response |
| BrightData.SearchSucceeds | backend/app/services/brightdata_service.py:32-130 | a search succeeds only with a key and two 200 replies with bodies, and then returns that result |
| BrightData.PreviewDataStatus | backend/app/services/brightdata_service.py:230-264 | as written, every failure of `get_preview_data` is a 500; with the failures passed through, a non-200 reply keeps its status, and success means a key and a 200 reply with a body |
| AiInsights.FullName | backend/app/services/ai_insights_service.py:66-69 | the full name is never empty: `first last` stripped, or `the individual` |
| AiInsights.SubjectOf | backend/app/services/ai_insights_service.py:38-77 | name, city and state are never empty, the defaults being `the individual`, `Unknown City` and `Unknown State` |
| AiInsights.ScanProfile | backend/app/services/ai_insights_service.py:54-64 | the loop over the profile's keys computes the four slots |
| AiInsights.ExtractNameAndLocation | backend/app/services/ai_insights_service.py:38-77 | `_extract_name_and_location` computes the subject |
| AiInsights.ScanLastWins | backend/app/services/ai_insights_service.py:54-64 | the last key that falls in a slot sets it, a falsy value giving `""` |
| AiInsights.ScanUnset | backend/app/services/ai_insights_service.py:49-64 | a slot no key falls in stays `""` |
| AiInsights.SlotIgnoresCase | backend/app/services/ai_insights_service.py:55 | key matching ignores case |
| AiInsights.CityKeySlot | backend/app/services/ai_insights_service.py:60-61 | `city`, `town` and `recity` fill the city unless the key also names a first or last name |
| AiInsights.StateKeySlot | backend/app/services/ai_insights_service.py:62-63 | `state`, `region` and `restate` fill the state likewise |
| AiInsights.SubjectDefaults | backend/app/services/ai_insights_service.py:66-75 | a profile with no matching key gives the three defaults |
| AiInsights.FormatConcat | backend/app/services/ai_insights_service.py:101-105 | formatting a template piece by piece distributes over concatenation |
| AiInsights.TemplateNames | backend/app/services/ai_insights_service.py:101-105 | a template with a `{full_name}` field fills to a text that contains the subject's name |
| AiInsights.KnownCategoryNames | backend/app/services/ai_insights_service.py:93-105 | a category with a non-empty template gets that template filled in, and it names the subject when the template has the name field |
| AiInsights.FormatBlank | backend/app/services/ai_insights_service.py:101-105 | a template without text or placeholders formats to `""` |
| AiInsights.UnknownCategory | backend/app/services/ai_insights_service.py:93-98 | an unknown category gives the generic prompt, which names the subject and the category |
| AiInsights.GenerateInsights | backend/app/services/ai_insights_service.py:109-220 | the payload carries the model and the built prompt, and the answer is the insights, or the failure structure, for the reply and the status-phrase table |
| AiInsights.GeneratedFields | backend/app/services/ai_insights_service.py:182-191 | a success holds category, insights, model, tokens used and status `success` |
| AiInsights.FailureFields | backend/app/services/ai_insights_service.py:193-220 | a failure holds category, the model, 0 tokens, status `error` and the error message; its insights text is "AI insights temporarily unavailable: " and the detail after an `HTTPException`, and the technical-issues sentence after any other exception |
| AiInsights.NoChoicesNoInsights | backend/app/services/ai_insights_service.py:177-179 | empty `choices` give the insights text `""` |
| AiInsights.SuccessNeeds | backend/app/services/ai_insights_service.py:150-220 | success needs a dict profile and a 200 reply with a JSON body; another status gives the `HTTPException` answer with its detail, or with the status phrase when the detail is null, or the technical-issues answer when the code has no phrase; a client error gives the technical-issues answer |
| AiInsights.StatusDetailMessage | backend/app/services/ai_insights_service.py:156-163 | the error detail is the reply's `error.message`, null included, else the status sentence when `error` has no message, else the text or the status sentence when `error` is not a dict or the body did not parse |
| AiInsights.NullMessage | backend/app/services/ai_insights_service.py:156-220 | a JSON-null `error.message` gives the `HTTPException` answer with the status phrase, or the technical-issues answer for a code without a phrase |
| AiInsights.NullMessageKnownCode | backend/app/services/ai_insights_service.py:156-205 | a null message at 500 gives the detail "Internal Server Error" |
| AiInsights.NullMessageUnknownCode | backend/app/services/ai_insights_service.py:156-220 | a null message at a code without a phrase, 599, gives the `ValueError` |
| Auth.EmailIndex | backend/app/services/auth_service.py:60-62 | the index found is the first user with that email; none exactly when no user has it |
| Auth.IdIndex | backend/app/services/auth_service.py:56-58 | the index found holds a user with that id; none exactly when no user has it |
| Auth.UserByEmail | backend/app/services/auth_service.py:60-62 | `get_user_by_email` finds a user exactly when one has that email, and the user found has it |
| Auth.UserById | backend/app/services/auth_service.py:56-58 | `get_user_by_id` finds a user exactly when one has that id, and the user found has it |
| Auth.AuthenticateDetailed | backend/app/services/auth_service.py:47-54 | `EMAIL_NOT_FOUND` exactly when no user has the email, `INCORRECT_PASSWORD` exactly when the password does not verify against the user's hash, and a user exactly on `SUCCESS` |
| Auth.Authenticate | backend/app/services/auth_service.py:40-45 | `authenticate_user` returns a user exactly when the email exists and the password verifies, and that user has the email |
| Auth.LoginChecksAgree | backend/app/services/auth_service.py:40-54 | the plain and the detailed login agree, and the plain one succeeds exactly on `SUCCESS` |
| Auth.ActiveIndex | backend/app/services/auth_service.py:103-107 | the token found is unused, has the text and has not expired; none exactly when no such token exists |
| Auth.UsedNeverActive | backend/app/services/auth_service.py:103-122 | a used token is never found again, so replaying it fails |
| Auth.SetPassword | backend/app/services/auth_service.py:117-135 | only the one user's hash and `updated_at` change |
| Auth.AuthStore.constructor | backend/app/services/auth_service.py:14-15 | the store starts with no users and no tokens |
| Auth.AuthStore.CreateUser | backend/app/services/auth_service.py:17-38 | an already registered email raises 400 `Email already registered` and adds nothing; otherwise the new user is appended with the next id |
| Auth.AuthStore.AuthenticateUserDetailed | backend/app/services/auth_service.py:47-54 | the detailed login on the stored users |
| Auth.AuthStore.CreatePasswordResetToken | backend/app/services/auth_service.py:75-98 | an unknown email gives None and stores nothing; otherwise an unused token for the user, expiring one hour after now, is stored and returned, unless the token text is already taken |
| Auth.AuthStore.ResetPasswordWithToken | backend/app/services/auth_service.py:100-125 | succeeds exactly for an existing, unused, unexpired token whose user exists; success sets the new hash and marks the token used, and failure changes nothing |
| Auth.AuthStore.ResetPasswordByEmail | backend/app/services/auth_service.py:127-137 | returns False for an unknown email, and otherwise replaces that user's hash and returns True |
| Auth.ResetThenLogin | backend/app/services/auth_service.py:100-125 | after a reset the new password logs in |
| Auth.EmailIndexAt | backend/app/services/auth_service.py:60-62 | the first user with the email is the one found |
| Auth.FreshTokenLifetime | backend/app/services/auth_service.py:86-107 | a fresh token is active exactly until one hour after its creation |
| Utils.ExperianNames | backend/app/utils.py:18-21 | `LEAD_TRANS_DETAILS` holds exactly FIRST_NAME and LAST_NAME, copied unchanged |
| Utils.AddressKeysUnique | backend/app/utils.py:22-27 | the address keys are distinct |
| Utils.ExperianAddress | backend/app/utils.py:22-27 | `LEAD_ADDRESS` holds STREET1, STREET2, CITY, STATE and ZIP in order; STREET1, CITY and ZIP are copied, an absent STREET2 becomes `""` and STATE is upper-cased |
| Utils.StateUpper | backend/app/utils.py:26 | a valid request's upper-cased state has two characters and no lower-case letter |
| Models.Violations | backend/app/models.py:8-16 | at most one violation per field |
| Models.ValidateSound | backend/app/models.py:8-16 | a request that validates meets every length constraint and keeps its fields |
| Models.ValidateComplete | backend/app/models.py:8-16 | every request meeting the constraints validates to itself |
| Models.ViolationsNamed | backend/app/models.py:10-16 | a missing first name, a state that is not two characters and a ZIP under five characters are each reported |
| Routes.Marked | backend/app/api/routes.py:144-147 | marking a dict keeps it a dict |
| Routes.AfterSave | backend/app/api/routes.py:173-187 | the save adds a row under the hash exactly when it does not fail and the hash is new; the new row holds the criteria, the payload, source `experian`, not partial, one request, the ninety-day expiry and no error; every existing row is unchanged |
| Routes.Track | backend/app/api/routes.py:93-97 | the search is added to the user's history unless `add_search` raises, which changes nothing |
| Routes.SearchWithDatabaseFallback | backend/app/api/routes.py:37-216 | the response, the cache table and the history after the handler are those the model's decision procedure gives |
| Routes.Search | backend/app/api/routes.py:58-206 | the outer `try` without the history step: the response and the table it leaves |
| Routes.FromDatabase | backend/app/api/routes.py:63-99 | with donors: the formatted response with the validations attached |
| Routes.FromCache | backend/app/api/routes.py:116-137 | on a hit: the cached response with the truthy cached validations laid over it |
| Routes.CacheMiss | backend/app/api/routes.py:139-206 | on a miss: the Experian outcome, saved when it reaches the save |
| Routes.SaveExperian | backend/app/api/routes.py:171-192 | the save call changes the table as `AfterSave` says, whatever it returns |
| Routes.SaveMiss | backend/app/api/routes.py:171-192 | the save happens exactly when the miss path reaches it |
| Routes.AttachFields | backend/app/api/routes.py:69-169 | attaching a validation touches only its own slot; the slot is filled exactly when the service returned a dict with a truthy value there, and a service that raised changes nothing |
| Routes.DatabaseAnswerFields | backend/app/api/routes.py:63-85 | the database answer keeps every key of the formatted response except the two validation slots, and is that response when both services raised |
| Routes.DatabaseFirst | backend/app/api/routes.py:61-99 | non-empty database results decide the answer: no cache lookup, no Experian call and no save play a part, and the table is unchanged |
| Routes.CachedAnswerFields | backend/app/api/routes.py:119-123 | a cached dict response comes back with each truthy cached validation laid over it and every other key kept |
| Routes.CachedNonDict | backend/app/api/routes.py:119-216 | a truthy cached validation over a cached response that is not a dict raises `TypeError`, answered with a 500 |
| Routes.CacheHit | backend/app/api/routes.py:106-137 | on an empty database and a cache hit the cached answer is the response, there is no Experian call and no save, and only the row's hit count and access time change |
| Routes.MarkedFields | backend/app/api/routes.py:144-147 | a dict Experian result gets `fallback_source` `experian_api`, `database_checked` true and `database_records_found` 0, and keeps every other key |
| Routes.ExperianAnswered | backend/app/api/routes.py:141-192 | on a miss a dict Experian result is answered marked and with its validations, and a failed save does not change the response |
| Routes.MissSaves | backend/app/api/routes.py:173-187 | the save receives the answer itself and the validation sections the services returned |
| Routes.ExperianSaved | backend/app/api/routes.py:173-187 | the save stores the payload with source `experian` and `is_partial` False, unless the hash already has a row or the save fails |
| Routes.CacheConsulted | backend/app/api/routes.py:101-137 | with no donor found, the cache is looked up under the hash of the request's criteria |
| Routes.ValidationFailuresSwallowed | backend/app/api/routes.py:153-169 | validation services that raised are swallowed: the answer has only the three markers and the save records no validation |
| Routes.NonDictValidationFails | backend/app/api/routes.py:153-216 | a truthy validation reply that is not a dict is skipped when attached, but raises when the save's arguments are built: the answer is a 500 and nothing is saved |
| Routes.NonDictPassesThrough | backend/app/api/routes.py:141-206 | an Experian result that is not a dict is returned as it is, without validation and without caching |
| Routes.ErrorsPropagate | backend/app/api/routes.py:208-216 | a failed authentication changes nothing; an `HTTPException` passes unchanged; any other exception becomes 500 `Search failed: ...`; no failure is cached |
| Routes.HistoryFaultIrrelevant | backend/app/api/routes.py:93-204 | a failure of `add_search` does not change the response |
| Routes.HistoryFaultKeepsCache | backend/app/api/routes.py:93-204 | a failure of `add_search` does not change the cache |
| Routes.ServicesAttach | backend/app/api/routes.py:69-169 | the modelled validation services' replies always carry their section, so both are attached to a dict result |

## Left out

- Network calls: the HTTP exchanges with Experian, Aperture, BrightData, DataIris and OpenRouter are inputs (`Reply` values); request headers, URLs and time-outs are left out. `experian_service.py` is not part of this model; what its `search` returns or raises is an input of the `/search` handler.
- Database mechanics: sessions, commit and rollback, and the query builders are left out. Tables are maps or sequences, and the GivingTrend query (its `LIKE` filters, `DISTINCT` and `LIMIT 50`) is an input: the rows it returned, or its failure.
- `calculate_gift_metrics` and `format_currency`: floating point over raw SQL, so the gift metrics are a function parameter, `giftMetrics`.
- `generate_search_hash`, `get_cache_expiry_date` and the table classes imported from `database` are not part of this model. The six-field hash is a parameter, `keyOf`, and expiry is `now` plus ninety days.
- SHA-256 and `json.dumps` in the DataIris hash: the parameter `digest`, of which only determinism is used.
- `cache_cleanup.py`, `main.py`, `startup.py`, `config.py`, logging and timing: infrastructure, not modelled.
- KnowledgeCore.AddressScore: the float `round(matches / total, 2)` is modelled as exact half-even rounding to hundredths, emitted as a whole number of hundredths. A tie that a double does not represent exactly may round the other way in Python: 1 of 40 is the double just above 0.025, which Python rounds to 0.03, while the model gives 2 hundredths.
- KnowledgeCore.SearchDonors: the in-place `list.sort(reverse=True)` is modelled by the stable functional `Sorting.Sort` on the descending order, so rows of equal score keep their order, as Python's stable sort does.
- ValueMappings.PaymentExample: mortgage payment division by 100 is exact rational arithmetic with half-even rounding, not a double.
- ValueMappings.PaymentExample: the model follows the code (`int(value_str) / 100`, then `:,.0f`), so `0000064560` gives `$646`; the comment at backend/app/value_mappings.py:2297 promises `$6,456`, which the code does not compute.
- The `VALUE_MAPPINGS` and `FIELD_TO_MAPPING_KEY` tables are represented by sample entries, including the duplicated `Dwelling Size in Livable Units` key. The DataIris UI catalogue is reproduced in full.
- Strings are ASCII-only for whitespace, case and digits. `int()` accepts an optional sign and ASCII digits and nothing else (no underscores, no Unicode digits). `str()` of a list or dict, which only a malformed profile, code value or error message would produce, is modelled as `""`.
- Datetimes are whole seconds. `searched_at.isoformat()` is shown as that number. The time difference in `_format_time_ago` is truncated to whole seconds, as `int(total_seconds())` does for non-negative differences.
- SearchHistory.HistoryTable.GetRecentSearches: the database returns rows with equal `searched_at` in an unspecified order; the model keeps table order for ties.
- Hashing in `auth`: `get_password_hash` is done by the caller, who passes the new hash, and `verify_password` is a function parameter. `secrets.token_urlsafe` and `utcnow` are parameters. A token that collides with a stored one is the database's unique-constraint error, `Err("IntegrityError")`.
- `user_to_response` is `Auth.ToResponse`, a field copy with no property of its own.
- The DataIris request bodies of `reset_criteria` and `add_search_criteria` are left out; only whether each request succeeded is an input.
- DatairisService.FieldEntry: a field whose `fieldID` is missing, `None`, an integer or a boolean is an `AttributeError` at parse time. Python stores it and raises that `AttributeError` one step later, at `field_id.startswith` in `transform_datairis_results`. When a later field or record fails while parsing (a non-dict field, an unhashable id, a record that cannot be searched), Python reports that later error and the model the earlier `AttributeError`. A list or dict id is a `TypeError` at parse time in both.
- BrightData: the unused `city` and `state` arguments of `search_donations` are left out. The messages of caught client errors (`str(e)`) are inputs.
- AiInsights: the prompt templates' texts are a parameter of the model (`prompts`), written as placeholder templates. The request headers, the temperature and the constructor's missing-key `ValueError` are left out. `HTTPException` replaces a `None` detail by `HTTPStatus(code).phrase`; that table is the parameter `phrase`, and a code missing from it raises `ValueError`, modelled by its class name.
- PhoneValidation: ranks that do not compare make the sort raise `TypeError`; it is modelled as that error, which the service turns into its `error` fallback. Exception messages are the exception's class name.
- PhoneValidation.SortByRank: the model raises as soon as some pair of ranks does not compare. Python's sort raises only when it compares such a pair. For ranks of different kinds, or a `None` or dict rank among two or more, it always does. Two list ranks whose first differing elements are of different kinds may be left uncompared, and the model then raises where Python might not.
- PhoneValidation.SortByRank: a list rank holding `None` or a dict has no key in the model and makes the sort raise. Python compares two such lists element by element and raises only if it reaches such an element at a position where they differ.
- JSON numbers with a fraction are not values of `Json.Json`. A float `rank`, a float DataIris field value, or a float that `map_field_values` passes through unchanged are outside the model. Floats are modelled only where named above: the gift metrics, the address score and the dollar divisions.
- Routes: `get_current_user_id` is the input `auth`. What the validation services and the Experian client raise is provided by `Env`, and one `now` serves every step of a request. The handler is modelled with the GivingTrend session present, since the route always passes one.
- Routes: an expired cache row stays in the table, so `save_cache_result` meets the unique hash and returns False. Until `cleanup_expired_cache` runs, every request for that hash calls Experian again (`ResponseCache.ExpiredRowBlocksSave`, `Routes.ExperianSaved`).

## Findings

| source | as written | input that shows it | evidently intended | confidence | as-written member | corrected member |
|---|---|---|---|---|---|---|
| backend/app/services/brightdata_service.py:140-143 | the last handler, `except Exception`, also catches the `HTTPException`s raised inside the `try`, and re-raises them as 500 "Unexpected error querying BrightData: …" | a preview request answered with 404 | the 404 (or the 500 for a missing `preview_id`) is passed to the caller unchanged | not executed | BrightData.PreviewNotFoundAsWritten | BrightData.SearchStatusKept |
| backend/app/services/brightdata_service.py:261-264 | `except Exception` re-wraps the `HTTPException` raised for a non-200 status as a 500 | a preview-data request answered with 404 (lemma `BrightData.PreviewDataStatus`) | the caller receives the reply's own status | not executed | BrightData.GetPreviewDataAsWritten | BrightData.PreviewDataStatus |
