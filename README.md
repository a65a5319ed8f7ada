# BonusBoost core, modelled in Dafny

BonusBoost is a React application for affiliate marketers. It analyses a
product, generates bonus ideas for the product's gaps, and publishes a
hosted bonus page for each bonus. It then counts the page's views and clicks
and reports on them. This project models the logic behind those screens and
proves properties of it:

- **The in-memory tables.** These are the bonus pages, API keys, bonuses and
  products.
  - Each table is a class whose `seq` field is changed by its methods, as
    the services change their module-level arrays.
  - Every method is proved against specification functions (`NewPage`,
    `Bump`, `MergeAt`, `RemoveAt`, `WithoutProvider`, `NewRow`).
  - Lemmas about those functions state what the tables promise: one key
    per provider, distinct numeric Ids, counters that go up by exactly one,
    and lookups that find what was just created.
- **The aggregators.**
  - The dashboard statistics.
  - The analytics report. It includes the in-place, stable sort of the page
    table by views, proved sorted, a permutation and stable.
- **The backend-backed services** (video training scripts, sales pages and
  charges).
  - The records each one sends.
  - The answer of each one, read from a backend response that is an input
    datatype (`ApperSdk`). There is a lenient reading, in which failures
    become `[]`, `null` or `false`, and a strict reading, in which failures
    throw.
- **The UI rules.**
  - MyPages: the page search filter and the list after a delete.
  - BonusGenerator: the bonus selection toggle.
  - CreateBonus: the three-step wizard, a class with its four state fields.
  - PageBuilder: the form and its payload.
  - ApiSettings: the key form check, provider labels and key masking.
  - BonusPageView: the view and click sequence of the public page.

## How JavaScript is modelled

- **Values.** JavaScript values are the datatype `JsValues.Value`. Objects
  are `map<string, Value>`, and spread-merging two objects is map `+` (the
  right side wins).
  - `||`, `===`, `+`, `parseInt`, `trim`, ASCII `toLowerCase` and
    `includes` are written out, following the ECMAScript algorithms for
    the cases that occur.
  - `parseInt` is concrete. `parseInt(String(n)) == n` is proved.
- **Exceptions.** A thrown exception is the `Throw` case of a `Completion`.
- **Outside inputs.** Clock readings, fixture data, the result of
  `Math.random` and the backend's answers are parameters.
- **What the code does, as modelled.**
  - Only the video training script service turns every failure into
    `[]`, `null` or `false`. The sales page and charge services rethrow
    from their reads as well as their writes.
  - trackView and trackClick change the field of the found page object in
    place; they do not go through update.
  - The claim button always redirects to the page's `affiliateLink`.
  - The sales page and charge updates send the full record, with fields the
    caller left out sent as `undefined`. Only the video training script
    update leaves out the fields it was not given.

## Model

| member | source | states |
|---|---|---|
| BonusPageService.IndexOf | src/services/api/bonusPageService.js:36 | the first index whose `Id === parseInt(id) \|\| id === id` holds, and None exactly when no page matches |
| BonusPageService.Lookup | src/services/api/bonusPageService.js:29-32 | getById: None exactly when no page matches, else the page at the first matching index |
| BonusPageService.NewPage | src/services/api/bonusPageService.js:9-18 | the new page keeps every caller field except id, url, status, counters and createdAt, which are forced to the fresh id, the url, "active", zeros and the creation time |
| BonusPageService.Bump | src/services/api/bonusPageService.js:52-68 | length is kept, and an unknown id leaves the table unchanged |
| BonusPageService.BonusPageStore.constructor | src/services/api/bonusPageService.js:1 | the table starts as the fixture |
| BonusPageService.BonusPageStore.CreatePage | src/services/api/bonusPageService.js:6-22 | as written: the id and the url take separate clock readings, and exactly one page is appended with all earlier pages unchanged |
| BonusPageService.BonusPageStore.CreatePageOneClock | src/services/api/bonusPageService.js:9-21 | corrected createPage: one reading for both, so the url ends in the page's own id |
| BonusPageService.BonusPageStore.GetAll | src/services/api/bonusPageService.js:24-27 | returns the live table itself |
| BonusPageService.BonusPageStore.GetById | src/services/api/bonusPageService.js:29-32 | returns `Lookup` on the current table |
| BonusPageService.BonusPageStore.Update | src/services/api/bonusPageService.js:34-41 | unknown id: throws "Page not found", table unchanged; otherwise shallow-merges updates over the first match only and returns it |
| BonusPageService.BonusPageStore.Delete | src/services/api/bonusPageService.js:43-50 | unknown id: throws, table unchanged; otherwise removes exactly the first match and returns true |
| BonusPageService.BonusPageStore.TrackView | src/services/api/bonusPageService.js:52-59 | returns true and bumps views of the first match, or nothing for an unknown id |
| BonusPageService.BonusPageStore.TrackClick | src/services/api/bonusPageService.js:61-68 | returns true and bumps clicks of the first match, or nothing for an unknown id |
| BonusPageService.BumpCountsOne | src/services/api/bonusPageService.js:54-57 | the tracked counter becomes `(old \|\| 0) + 1`; no other field of the page and no other page changes |
| BonusPageService.BumpKeepsLookup | src/services/api/bonusPageService.js:52-68 | tracking never changes which page any id resolves to |
| BonusPageService.TrackViewTwice | src/services/api/bonusPageService.js:52-59 | two views of a matched page raise its views by exactly 2 |
| BonusPageService.BumpBoth | src/services/api/bonusPageService.js:52-68 | a view then a click on one stored page (what BonusPageView does on load and on claim) raises both counters by one on that page and changes no other field and no other page |
| BonusPageService.BumpKeepsCountersNumeric | src/services/api/bonusPageService.js:56 | tracking keeps every counter numeric |
| BonusPageService.CreateKeepsCountersNumeric | src/services/api/bonusPageService.js:14-16 | a created page keeps the table's counters numeric |
| BonusPageService.CreatedPageFoundById | src/services/api/bonusPageService.js:9-32 | after create, getById on the new id returns the new page with the caller's design, unless an earlier page already answers to that id |
| BonusPageService.UpdatedPageFoundById | src/services/api/bonusPageService.js:34-40 | after update, the same id finds the merged page, unless the updates rewrite the id keys |
| BonusPageService.DeleteRemovesMatch | src/services/api/bonusPageService.js:43-49 | delete removes one occurrence of the matched page; when it was the only match, the id no longer resolves |
| BonusPageService.UrlMissesPageWhenClockTicks | src/services/api/bonusPageService.js:11-12 | as written, when the clock ticks between the two readings, the id in the page's url names no page |
| BonusPageService.UrlResolvesToNewPage | src/services/api/bonusPageService.js:11-12 | with one reading, the url's id is the page's id and resolves to the new page |
| ApiKeyService.IndexOfProvider | src/services/api/apiKeyService.js:20 | the first key with `provider ===` the given one, None exactly when there is none |
| ApiKeyService.NewKey | src/services/api/apiKeyService.js:13-17 | the caller's fields plus `isActive` true and the `addedAt` stamp, with the provider kept |
| ApiKeyService.WithoutProvider | src/services/api/apiKeyService.js:19-23 | the table with the first key of the provider spliced out (length one less), or unchanged |
| ApiKeyService.TestConnection | src/services/api/apiKeyService.js:38-48 | throws "Connection failed" exactly when the random draw is at most 0.2, else reports success |
| ApiKeyService.ApiKeyStore.constructor | src/services/api/apiKeyService.js:1 | the table starts as the fixture |
| ApiKeyService.ApiKeyStore.GetAll | src/services/api/apiKeyService.js:6-9 | returns the table itself |
| ApiKeyService.ApiKeyStore.Create | src/services/api/apiKeyService.js:11-27 | removes the provider's first key, if any, then appends the new key |
| ApiKeyService.ApiKeyStore.Delete | src/services/api/apiKeyService.js:29-36 | absent provider: throws "API key not found", table unchanged; otherwise removes its first key |
| ApiKeyService.WithoutProviderClears | src/services/api/apiKeyService.js:20-23 | with unique providers, removal leaves no key of that provider and keeps the others unique |
| ApiKeyService.CreateKeepsOneKeyPerProvider | src/services/api/apiKeyService.js:19-25 | if providers are unique before create, they are unique after it, and the created provider occurs exactly once |
| ApiKeyService.CreateKeepsOtherProviders | src/services/api/apiKeyService.js:19-25 | keys of other providers are kept, in their original order |
| ApiKeyService.DeleteRemovesProvider | src/services/api/apiKeyService.js:29-35 | with unique providers, delete leaves none of that provider and one key fewer |
| NumericIdTable.IndexOfId | src/services/api/bonusService.js:95 | the first row with `Id === parseInt(id)`, or None exactly when there is none |
| NumericIdTable.LookupId | src/services/api/bonusService.js:77-80 | getById: that row, or nothing |
| NumericIdTable.MaxId | src/services/api/bonusService.js:86 | `Math.max` of the Ids: at least every Id, and attained |
| NumericIdTable.NewRow | src/services/api/bonusService.js:84-88 | the caller's fields with `Id` = max + 1 and the creation time |
| NumericIdTable.CreateKeepsIdsDistinct | src/services/api/bonusService.js:84-89 | the new Id exceeds every stored one, so Ids stay numeric and distinct |
| NumericIdTable.NewRowFoundBy | src/services/api/productService.js:40-53 | after create, getById with any id that parseInt reads as the new Id (the number or its decimal string, by `JsValues.ParseIntValueRoundTrip`) returns the created row |
| NumericIdTable.OldRowLacksNewId | src/services/api/productService.js:49 | no stored row has the new Id |
| NumericIdTable.UpdatedRowFoundById | src/services/api/productService.js:56-62 | after update, the same id finds the merged row, unless the updates rewrite `Id` |
| NumericIdTable.DeleteRemovesId | src/services/api/bonusService.js:102-108 | with distinct Ids, the deleted id no longer resolves and the Ids stay distinct |
| ProductService.AnalyzeProduct | src/services/api/productService.js:6-33 | echoes the url, has the fixed name, 5 features and 5 gaps, and takes its id and time from the clock |
| ProductService.AnalysisIgnoresUrl | src/services/api/productService.js:10-14 | two analyses at the same time differ only in the url |
| ProductService.ProductStore.constructor | src/services/api/productService.js:1 | the table starts as the fixture |
| ProductService.ProductStore.GetAll | src/services/api/productService.js:35-38 | returns the table itself |
| ProductService.ProductStore.GetById | src/services/api/productService.js:40-43 | returns `LookupId` on the table |
| ProductService.ProductStore.Create | src/services/api/productService.js:45-54 | appends the caller's product with `Id` = max + 1 |
| ProductService.ProductStore.Update | src/services/api/productService.js:56-63 | unknown Id: throws "Product not found", table unchanged; otherwise merges into that row only |
| ProductService.ProductStore.Delete | src/services/api/productService.js:65-72 | unknown Id: throws, table unchanged; otherwise removes exactly that row |
| BonusService.GenerateBonuses | src/services/api/bonusService.js:62-69 | exactly 3 bonuses, the first three templates in order, each with the product id and `bonus_<t>_<i>` |
| BonusService.GeneratedIdsDistinct | src/services/api/bonusService.js:63 | the ids of one generation are pairwise distinct, whatever the clock reads |
| BonusService.GeneratedBonusesWellFormed | src/services/api/bonusService.js:9-60 | each bonus is of type Templates or Training, with 3 components and a title |
| BonusService.BonusesTargetProductGaps | src/services/api/bonusService.js:9-60 | bonus i answers gap i of the product analysis |
| BonusService.BonusStore.constructor | src/services/api/bonusService.js:1 | the table starts as the fixture |
| BonusService.BonusStore.GetAll | src/services/api/bonusService.js:72-75 | returns the table itself |
| BonusService.BonusStore.GetById | src/services/api/bonusService.js:77-80 | returns `LookupId` on the table |
| BonusService.BonusStore.Create | src/services/api/bonusService.js:82-91 | appends the caller's bonus with `Id` = max + 1 |
| BonusService.BonusStore.Update | src/services/api/bonusService.js:93-100 | unknown Id: throws "Bonus not found", table unchanged; otherwise merges into that row only |
| BonusService.BonusStore.Delete | src/services/api/bonusService.js:102-109 | unknown Id: throws, table unchanged; otherwise removes exactly that row |
| CounterTotals.ReduceSumIsTotal | src/services/api/dashboardService.js:15-16 | on numeric counters, the `reduce` with JavaScript `+` is the sum of the counters, with missing ones counted as 0 |
| CounterTotals.TotalAppend | src/services/api/analyticsService.js:11-13 | an appended page adds its counter to the total |
| CounterTotals.TotalUpdate | src/services/api/analyticsService.js:11-13 | replacing a page changes the total by the difference of its counters |
| CounterTotals.ClickRate | src/services/api/dashboardService.js:17 | the rate is 0 exactly when there are no views, else clicks over views |
| DashboardService.GetStats | src/services/api/dashboardService.js:7-25 | totalBonuses is the bonus count, activePages the number of "active" pages, totalViews the reduce over views, and the rate is 0 exactly when views are not positive, else the clicks reduce over totalViews |
| DashboardService.StatsAfterCreatePage | src/services/api/dashboardService.js:15-21 | a created page adds one active page and no views |
| DashboardService.StatsAfterTrackView | src/services/api/dashboardService.js:15-21 | one tracked view adds exactly one to totalViews and none to activePages |
| DashboardService.GetRecentActivity | src/services/api/dashboardService.js:27-55 | four entries with ids 1 to 4, 2/4/6/8 hours before now, newest first |
| AnalyticsService.InsertByViews | src/services/api/analyticsService.js:58 | insertion keeps the multiset and adds the element |
| AnalyticsService.SortByViews | src/services/api/analyticsService.js:57-58 | the sort is a permutation of the table |
| AnalyticsService.InsertBounded | src/services/api/analyticsService.js:58 | insertion keeps a shared bound on views |
| AnalyticsService.InsertKeepsSorted | src/services/api/analyticsService.js:58 | inserting into a sorted list keeps it sorted |
| AnalyticsService.SortByViewsSorted | src/services/api/analyticsService.js:57-58 | the sorted table is in non-increasing order of `views \|\| 0` |
| AnalyticsService.InsertStable | src/services/api/analyticsService.js:58 | insertion goes after every equal key |
| AnalyticsService.SortByViewsStable | src/services/api/analyticsService.js:57-58 | pages with equal views keep their relative order, as `Array.prototype.sort` is stable |
| AnalyticsService.Summarize | src/services/api/analyticsService.js:60-66 | a top page copies id and title, views and clicks with missing ones as 0, and has a rate only when views are positive |
| AnalyticsService.Daily | src/services/api/analyticsService.js:18-55 | seven points, one per day, ending at now |
| AnalyticsService.Report | src/services/api/analyticsService.js:6-108 | totals are the reduces, revenue is 47 times conversions, the rate is 0 without views, and the top pages are `TopPages` of the table |
| AnalyticsService.TopPages | src/services/api/analyticsService.js:57-66 | min(5, pages) entries, the i-th the summary of the i-th page of the ranking: its id, title, views and clicks with missing as 0, and a rate that is 0 when views are not positive |
| AnalyticsService.SortKeepsCountable | src/services/api/analyticsService.js:57-58 | the sort keeps counters numeric |
| AnalyticsService.TopPagesAreTheMostViewed | src/services/api/analyticsService.js:57-66 | topPages is in non-increasing order of views, and no page with more views than the last one listed is left out |
| AnalyticsService.ChartCoversTheWeek | src/services/api/analyticsService.js:18-55 | three series (Views, Clicks, Conversions), each with seven increasing days ending today |
| AnalyticsService.GetAnalytics | src/services/api/analyticsService.js:9-66 | returns the report of the live table and leaves that table sorted by views in place |
| ApperSdk.LenientList | src/services/api/videoTrainingScriptService.js:27-38 | the records, or [] when data is absent, on any failure or on a thrown call |
| ApperSdk.LenientRecord | src/services/api/videoTrainingScriptService.js:62-73 | the record, or null on any failure |
| ApperSdk.LenientWrite | src/services/api/videoTrainingScriptService.js:97-125 | the data of the first successful result, even if others failed; null when the call failed or carried no results, or when none succeeded |
| ApperSdk.LenientDelete | src/services/api/videoTrainingScriptService.js:195-223 | true exactly when the call succeeded and some result succeeded |
| ApperSdk.StrictList | src/services/api/salesPageService.js:36-45 | a refusal throws the response message, a thrown call rethrows, else data or [] |
| ApperSdk.StrictRecord | src/services/api/salesPageService.js:77-86 | a refusal throws the message, else the data |
| ApperSdk.StrictWrite | src/services/api/salesPageService.js:120-138 | returns exactly when the call is accepted and the results are absent or all successful; any failed result throws the given message; no results gives null; an empty list throws a TypeError; else results[0].data |
| ApperSdk.StrictDelete | src/services/api/chargeService.js:173-191 | true exactly when every result succeeded, false exactly when there are no results; a failed result throws the given message |
| ApperSdk.StrictWriteAgreesWithLenient | src/services/api/chargeService.js:99-105 | where the strict reading returns a record from the results, the lenient one returns the same record |
| ApperSdk.PartialWriteReadings | src/services/api/videoTrainingScriptService.js:103-120 | a partly failed write throws when read strictly and returns the first written record when read leniently |
| ApperSdk.EmptyDeleteReadings | src/services/api/salesPageService.js:213-219 | an accepted delete with an empty result list is true when read strictly and false when read leniently |
| VideoTrainingScriptService.RecordKey | src/services/api/videoTrainingScriptService.js:138 | `parseInt(id)`: the parsed number, or NaN |
| VideoTrainingScriptService.CreateRecord | src/services/api/videoTrainingScriptService.js:84-93 | each stored field takes the camelCase value, falling back to the stored name; Tags falls back to "" and idea has one source |
| VideoTrainingScriptService.CreateRecordIdempotent | src/services/api/videoTrainingScriptService.js:84-93 | a record already in stored form passes through create unchanged |
| VideoTrainingScriptService.UpdateRecord | src/services/api/videoTrainingScriptService.js:136-146 | always `Id = parseInt(id)`; a field is sent, under its stored name, exactly when its update value is truthy |
| VideoTrainingScriptService.FalsyUpdateSendsOnlyId | src/services/api/videoTrainingScriptService.js:136-146 | an update of only falsy values sends the Id alone, so no field is ever blanked |
| SalesPageService.CreateRecord | src/services/api/salesPageService.js:97-116 | the 14 fields; status defaults to "Draft" and the three counters to 0 when falsy; the rest are copied |
| SalesPageService.CreateRecordIdempotent | src/services/api/salesPageService.js:106-109 | applying the defaults twice changes nothing |
| SalesPageService.UpdateRecord | src/services/api/salesPageService.js:149-169 | the Id as given plus all 14 fields as given: a full record, not a sparse one |
| SalesPageService.UpdateSendsMissingFields | src/services/api/salesPageService.js:149-169 | a field missing from the update data is sent as undefined, where create would have sent its default |
| SalesPageService.UpdateOfCreatedRecord | src/services/api/salesPageService.js:97-169 | updating with a created record sends that record plus the Id |
| ChargeService.CreateRecord | src/services/api/chargeService.js:80-90 | the five fields copied unchanged, with no defaults |
| ChargeService.UpdateRecord | src/services/api/chargeService.js:123-134 | the create record plus the Id as given |
| ChargeService.CreateIgnoresOtherFields | src/services/api/chargeService.js:80-90 | fields other than the five do not reach the record |
| MyPages.FieldMatches | src/components/pages/MyPages.jsx:62-63 | throws a TypeError exactly when the field is not a string, else tells whether the lower-cased query occurs in it |
| MyPages.PageMatches | src/components/pages/MyPages.jsx:61-64 | the title is checked first and the description only when the title does not match; says when this throws and when it keeps the page |
| MyPages.FilterPages | src/components/pages/MyPages.jsx:55-66 | every page when the trimmed query is empty; otherwise, when no test throws, exactly the pages the title-or-description test keeps, in order |
| MyPages.SearchIsFilter | src/components/pages/MyPages.jsx:61-64 | the search throws exactly when some page's test throws, and otherwise keeps exactly the matching pages in order |
| MyPages.BlankQueryShowsAll | src/components/pages/MyPages.jsx:56-59 | a whitespace-only query shows all pages, unchanged and in order |
| MyPages.StringFieldsFilter | src/components/pages/MyPages.jsx:61-64 | with string fields, the result is a subsequence holding exactly the pages whose lower-cased title or description contains the lower-cased query |
| MyPages.FilterShowsSubsequence | src/components/pages/MyPages.jsx:55-66 | whatever is shown is a subsequence of the pages |
| MyPages.UntrimmedQueryMatchesAsTyped | src/components/pages/MyPages.jsx:56-63 | the query is trimmed only for the blank test: " ab" does not match "ab" |
| MyPages.LocalAfterDelete | src/components/pages/MyPages.jsx:76 | the local list is a subsequence holding exactly the pages whose id differs from the deleted one, each with as many copies as before |
| MyPages.HandleDeletePage | src/components/pages/MyPages.jsx:72-82 | only after confirmation, and only when the service delete returns, is the page dropped from the local list; otherwise the list is unchanged |
| MyPages.GetStatusColor | src/components/pages/MyPages.jsx:89-96 | "success" exactly for active, "warning" exactly for draft, gray otherwise |
| BonusGenerator.Toggle | src/components/organisms/BonusGenerator.jsx:38-44 | an unselected id is appended; a selected one is removed with every copy and the rest keep their order; membership of other ids is unchanged |
| BonusGenerator.ToggleTwiceRestores | src/components/organisms/BonusGenerator.jsx:39-43 | toggling an absent id twice restores the selection |
| BonusGenerator.ToggleKeepsDistinct | src/components/organisms/BonusGenerator.jsx:39-43 | toggling never introduces duplicates |
| BonusGenerator.HandleCreatePages | src/components/organisms/BonusGenerator.jsx:46-54 | refuses exactly when no bonus is selected; otherwise passes on exactly the bonuses whose id is selected, every copy in bonus order |
| BonusGenerator.SelectionOrderIrrelevant | src/components/organisms/BonusGenerator.jsx:47 | only which ids are selected matters, not the order of the clicks |
| CreateBonus.Wizard.constructor | src/components/pages/CreateBonus.jsx:11-14 | starts at step 1 with no product, no bonuses and no selection |
| CreateBonus.Wizard.HandleProductAnalysis | src/components/pages/CreateBonus.jsx:23-26 | stores the product and goes to step 2, keeping the invariant |
| CreateBonus.Wizard.HandleBonusGeneration | src/components/pages/CreateBonus.jsx:28-34 | stores the list; a non-empty list selects its first bonus and goes to step 3; an empty one keeps the step and the selection |
| CreateBonus.Wizard.SelectBonus | src/components/pages/CreateBonus.jsx:147-152 | selects a listed bonus; on step 3 the selection stays a member of the bonuses |
| CreateBonus.HandlePageCreated | src/components/pages/CreateBonus.jsx:36-38 | navigates to /pages with the new page |
| PageBuilder.InitialForm | src/components/organisms/PageBuilder.jsx:12-20 | title and description come from the bonus or are ""; the link starts empty; the CTA text and the three colours have fixed defaults |
| PageBuilder.SetField | src/components/organisms/PageBuilder.jsx:24-29 | the named field takes the value |
| PageBuilder.SetFieldChangesOnlyThatField | src/components/organisms/PageBuilder.jsx:24-29 | no other field changes |
| PageBuilder.SetFieldIdempotent | src/components/organisms/PageBuilder.jsx:24-29 | the same edit twice is the edit once |
| PageBuilder.LinkMissingIffBlank | src/components/organisms/PageBuilder.jsx:32 | the link is refused exactly when it is whitespace only |
| PageBuilder.Payload | src/components/organisms/PageBuilder.jsx:39-47 | carries bonusId = bonus.id and every form field, and its design holds the form's colours |
| PageBuilder.Design | src/components/organisms/PageBuilder.jsx:42-46 | the design object has exactly the three colour keys, with the form's values |
| PageBuilder.CreatedPageKeepsPayload | src/components/organisms/PageBuilder.jsx:39-47 | the created page keeps bonusId, design and every form field, whatever the two clock readings of createPage are |
| PageBuilder.HandleCreatePage | src/components/organisms/PageBuilder.jsx:31-56 | a blank link creates nothing; a missing bonus fails and creates nothing; otherwise exactly the page createPage builds as written (separate clock readings for id and url) is appended and the wizard navigates with it |
| PageBuilder.PreviewUrl | src/components/organisms/PageBuilder.jsx:58 | `/bonus/<bonus.id>` with a bonus, else "#" |
| ApiSettings.GetProviderInfo | src/components/organisms/ApiSettings.jsx:81-83 | the generic "Key" icon appears exactly when the id is not in the catalogue, and then the name is the id itself |
| ApiSettings.ProviderLabels | src/components/organisms/ApiSettings.jsx:17-23 | each of the five catalogue ids gets its own entry, and any other id falls back |
| ApiSettings.CanAddIffFilledIn | src/components/organisms/ApiSettings.jsx:42 | adding is allowed exactly when a provider is chosen and the key has a non-whitespace character |
| ApiSettings.FormRecord | src/components/organisms/ApiSettings.jsx:48 | the object handed to create carries the chosen provider and key |
| ApiSettings.HandleAddKey | src/components/organisms/ApiSettings.jsx:41-55 | a refused form changes nothing; otherwise the provider's key is replaced, the form is reset to empty and the list is reloaded |
| ApiSettings.HandleDeleteKey | src/components/organisms/ApiSettings.jsx:69-79 | only after confirmation is the provider's key removed and the list reloaded; a failed delete leaves the list |
| ApiSettings.KeyTail | src/components/organisms/ApiSettings.jsx:180 | the last four characters, or the whole key when shorter, as a suffix of the key |
| ApiSettings.MaskedKey | src/components/organisms/ApiSettings.jsx:180 | the bullet prefix followed by the key's tail, and never more than four key characters |
| ApiSettings.MaskHidesAllButTail | src/components/organisms/ApiSettings.jsx:180 | keys with the same last four characters look alike |
| BonusPageView.ScreenFor | src/components/pages/BonusPageView.jsx:66-76 | a missing page shows "Page Not Found" |
| BonusPageView.LoadPage | src/components/pages/BonusPageView.jsx:23-37 | fetches the page, then records exactly one view for that id |
| BonusPageView.HandleClaimBonus | src/components/pages/BonusPageView.jsx:39-48 | records exactly one click, then redirects to the page's affiliateLink |
| BonusPageView.UnknownPageChangesNothing | src/components/pages/BonusPageView.jsx:28-31 | loading an unknown id shows "Page Not Found" and changes no counter |
| BonusPageView.CtaLabel | src/components/pages/BonusPageView.jsx:192 | the page's CTA text, or "Claim Your Bonus Now" when it is empty |
| BonusPageView.ProductLabel | src/components/pages/BonusPageView.jsx:123 | the product name, or "Featured Product" |
| JsValues.ParseIntRoundTrip | src/services/api/bonusPageService.js:31 | `parseInt` of an integer's decimal string gives the integer back |
| JsValues.ParseIntValueRoundTrip | src/services/api/bonusService.js:79 | `parseInt` gives an integer back from the number itself and from its decimal string as a value |
| JsValues.TrimEmptyIffBlank | src/components/pages/MyPages.jsx:56 | `trim()` is empty exactly for whitespace-only strings |

## Left out

- I/O and timers: `delay`, `toast`, `console`, `window.confirm`, `navigator.clipboard` and React rendering are not modelled.
  - The redirect is a returned value, and navigation is a `Navigation` value.
  - Confirmation is a boolean parameter.
- Asynchrony and concurrency: each service call is one atomic step.
- The Apper SDK itself is not modelled: its answer is an input.
  - The field lists, `orderBy` and paging arguments sent with reads are not modelled.
  - Credentials and the client set-up are not modelled.
- Clocks: every `Date.now()` and `new Date()` reading is a parameter, and ISO date text is an opaque string.
  - The analytics chart, its visit feed and the dashboard activity feed use one reading `now` for all their timestamps.
  - Their `toISOString` formatting is not modelled; the timestamps are milliseconds.
- Floating point: JavaScript numbers are integers here.
  - The click-through rates keep only the zero-views guard and the operands (`Rate.Percent`, `PageRate.PercentText`).
  - Division, `toFixed(1)` and `parseFloat` are not modelled.
- Object identity and aliasing: records are values.
  - The object getById returns is the same object that trackView then mutates, so the page BonusPageView shows already carries the new view. In the model, `LoadPage` shows the page as it was fetched.
  - Likewise, MyPages shares the service's array: its `pages` state is the very array getAll returned. The list filter therefore runs over the already spliced array, so the page delete removed disappears from the list even when it matched through its numeric `Id` rather than its `id`. `MyPages.HandleDeletePage` filters the list as held before the delete and keeps such a page.
- Unicode: `toLowerCase` is modelled on ASCII letters only.
- Argument types: records and `results` are typed. An `undefined` `updates`, `script` or record argument, or a truthy `results` that is not an array, makes the record literal or `.filter` throw a TypeError inside the `try`. The video training script service would then answer null and the sales page and charge services would rethrow; these TypeErrors are not represented.
- The fixture JSON files are not part of this model: each table starts from an arbitrary sequence.
- `CounterTotals.ReduceSumIsTotal`, `DashboardService.GetStats`, `AnalyticsService.Report`, `AnalyticsService.GetAnalytics`, `AnalyticsService.TopPages`, `AnalyticsService.Summarize`, `AnalyticsService.SortKeepsCountable`, `AnalyticsService.TopPagesAreTheMostViewed`: JavaScript `+` is modelled for every value. The totals, however, are stated only for numeric or falsy counters. A string counter makes the `reduce` concatenate text, and that case is not stated.
- `ProductService.ProductStore.Create`, `BonusService.BonusStore.Create`: they require a non-empty table with numeric Ids. Otherwise `Math.max` gives `-Infinity` or `NaN`, which this model does not represent.
- `ApiKeyService.TestConnection`: `Math.random()` is a parameter in [0, 1).
- `ApiKeyService.CreateKeepsOneKeyPerProvider`, `ApiKeyService.CreateKeepsOtherProviders`: they require that the created provider is not NaN. `NaN === NaN` is false, so such a provider is never matched.
- `PageBuilder.PreviewUrl`: it is modelled, but the component computes this value and never displays it.
- `CreateBonus.Wizard.SelectBonus`: it requires step 3 and a listed bonus, because the bonus buttons are rendered only then.
- Handlers that the components never reach (ProductAnalyzer, SalesPage's purchase, the settings delay) are presentation and are not modelled.

## Findings

| source | as written | input that shows it | evidently intended | confidence | as-written member | corrected member |
|---|---|---|---|---|---|---|
| src/services/api/bonusPageService.js:11-12 | the page id and its url call `Date.now()` separately | the clock ticks from t to t+1 between the two calls: id is `page_t`, url ends in `/bonus/page_t+1`, and that route resolves to no page | one clock reading for both, so the url names the page | not executed | BonusPageService.UrlMissesPageWhenClockTicks | BonusPageService.UrlResolvesToNewPage |
