# Treetracker admin dashboard: table and session logic in Dafny

This project models the logic inside three React components of the Treetracker admin dashboard:

- **Captures table** (`CaptureTable.js`, module `CaptureTable`). `formatCell` turns a capture into cells: web-map links for `id` and `planterId`, the species name or `"--"`, the verification status or `"--"`, the joined capture tags, and the renderers of the other columns. The module also models the sort order that a header click selects, the species and tag id-to-name lookups, and the grouping of capture-tag records by capture.
- **Earnings table** (`EarningsTable.js`, module `EarningsTable`). It models the query object of a fetch, `prepareRows`, the active date-range label, the sortable columns and the component state: the initial values and the loading, rows and total updates of a fetch.
- **Application context** (`AppContext.js`, module `AppContext`). It models the route table `getRoutes`, which gates its entries by permissions and feature flags. It also models `login`, `logout`, the local-credential branch of `checkSession` and `userHasOrg`.

Module `JsValues` holds the JavaScript rules the code relies on:

- JavaScript values: `undefined`, `null`, booleans, numbers (as integers) and strings.
- Objects are maps, and a missing property reads as `undefined`.
- Truthiness.
- `String(v)`, which is also how a value becomes an object key. Integers are written in plain decimal.
- `Array.prototype.join`, with a `Split` that is proved to invert it.

Field values keep `null` and `undefined` apart. The capture-tags filter drops only `null`, so fields the capture lacks survive the filter and print as empty text.

Each stateful component is a class whose methods update fields step by step, as the component updates its React state:

- `CaptureTableView`
- `EarningsTableView`
- `AppProvider`

Each method is proved against a specification function, and the lemmas are stated about those functions.

Functions defined outside these three files are parameters of the members that call them:

- `getVerificationStatus`
- `getDateTimeStringLocale`
- `covertDateStringToHumanReadableFormat`
- `generateActiveDateRangeFilterString`
- `hasPermission`
- the two `tokenizationStates` labels
- the network endpoints: `getCaptureTags`, `getEarnings`

The `process.env` feature switches are the boolean fields of `Flags`.

Facts about the code that the model keeps:

- The code does not reset the page when the filter changes.
- It does not discard stale responses.
- It does not limit the rows to the page size.
- The route table has twelve entries.

Login compares the new user and token with the shared `session` object of the auth model, not with the component's own state. `LoginTrustsSession` shows the consequence. A component whose state is empty while the session already holds the same user and token stays signed out after `login`. The `InSync` invariant (state equals session) is established by `logout` and kept by `login`, and under it `login` always signs the component in.

## Model

| member | source | states |
|---|---|---|
| CaptureTable.FormatCell | src/components/Captures/CaptureTable.js:289-322 | a cell is a web-map link exactly for the `id` and `planterId` columns; it links the column's value, with type tree for `id` and user for `planterId` |
| CaptureTable.SpeciesCell | src/components/Captures/CaptureTable.js:303-304 | the species cell is `"--"` exactly when the species id is null or the lookup names the species `"--"`; for a non-null id it is `speciesLookup[id]` (undefined when absent) |
| CaptureTable.VerificationCell | src/components/Captures/CaptureTable.js:305-308 | a null `active` or `approved` gives `"--"` whatever the other field is; otherwise the status of the pair (a missing field is undefined, not null) |
| CaptureTable.RendererCell | src/components/Captures/CaptureTable.js:319-320 | any other column shows `renderer(value)` when a renderer is given, else the raw value |
| CaptureTable.CaptureTagsCellText | src/components/Captures/CaptureTable.js:309-318 | the capture tags cell is the `", "`-join of the non-null entries among age, morphology, approval tag and rejection reason, in that order, followed by the non-null tags |
| CaptureTable.CaptureTagsCell | src/components/Captures/CaptureTable.js:309-318 | splitting the capture tags cell at `", "` gives back the text of each non-null entry in order (undefined entries as empty pieces), when no entry contains a comma |
| CaptureTable.CaptureTagsExample | src/components/Captures/CaptureTable.js:309-318 | Young, null, Good, null and the tag Canopy give `"Young, Good, Canopy"` |
| CaptureTable.MissingFieldsSurvive | src/components/Captures/CaptureTable.js:310-318 | a capture without the four fields and without tags gives `", , , "`: undefined entries are kept by the filter |
| CaptureTable.NonNull | src/components/Captures/CaptureTable.js:317 | the filter keeps exactly the non-null entries and never lengthens the list |
| CaptureTable.NonNullMultiset | src/components/Captures/CaptureTable.js:317 | the filter keeps each non-null entry as many times as it occurs and drops every null |
| CaptureTable.NonNullAppend | src/components/Captures/CaptureTable.js:317 | filtering a concatenation concatenates the filtered parts, so the kept entries keep their order |
| CaptureTable.TagEntries | src/components/Captures/CaptureTable.js:310-316 | the tag entries are `age`, `morphology`, `captureApprovalTag` and `rejectionReason`, in that order, followed by the additional tags unchanged |
| JsValues.JoinText | src/components/Captures/CaptureTable.js:318 | `join` writes null and undefined as empty text and a string as itself |
| JsValues.SplitJoin | src/components/Captures/CaptureTable.js:318 | joining a non-empty list of comma-free parts with `", "` and splitting again returns the list |
| CaptureTable.TokenStatus | src/components/Captures/CaptureTable.js:64-65 | the token renderer gives one of the two labels, the tokenized one exactly when the value is truthy (when the labels differ) |
| CaptureTable.TokenCell | src/components/Captures/CaptureTable.js:61-66 | the table's token column shows the tokenized label exactly when the capture's `tokenId` is truthy |
| CaptureTable.ColumnLayout | src/components/Captures/CaptureTable.js:28-77 | nine columns in fixed order; exactly verification status, species and capture tags are not sortable; the token column's renderer is the token renderer |
| CaptureTable.RenderRow | src/components/Captures/CaptureTable.js:262-272 | a row has one cell per column, in column order, each formatted with the capture's joined tags (`[]` when it has none) |
| CaptureTable.CaptureTableView.Rows | src/components/Captures/CaptureTable.js:254-274 | the table body has one row per capture, in order, rendered with the current lookups |
| CaptureTable.NextSort | src/components/Captures/CaptureTable.js:179-186 | the clicked column becomes the sort column; the order is descending exactly when it was already the ascending sort column |
| CaptureTable.SortToggle | src/components/Captures/CaptureTable.js:179-186 | clicking the sorted column flips its order, and clicking it twice restores the original order |
| CaptureTable.SortNewColumn | src/components/Captures/CaptureTable.js:181 | clicking a column other than the sort column sorts it ascending |
| CaptureTable.CaptureTableView.SortBy | src/components/Captures/CaptureTable.js:179-186 | the header click sets order and sort column to the next sort state and leaves the lookups alone |
| CaptureTable.LookupOf | src/components/Captures/CaptureTable.js:135-149 | a lookup's keys are exactly the ids (as object keys) of the list |
| CaptureTable.LastEntryWins | src/components/Captures/CaptureTable.js:137-139 | an entry with no later entry of the same id determines the lookup's value for that id |
| CaptureTable.BuildLookup | src/components/Captures/CaptureTable.js:136-139 | the `forEach` loop over a fresh object yields exactly the lookup of the list |
| CaptureTable.CaptureTableView.PopulateSpeciesLookup | src/components/Captures/CaptureTable.js:135-141 | the species lookup is rebuilt from scratch from the species list's `id` and `name`; nothing else changes |
| CaptureTable.CaptureTableView.PopulateTagLookup | src/components/Captures/CaptureTable.js:143-149 | the tag lookup is rebuilt from scratch from the tag list's `id` and `tagName`; nothing else changes |
| CaptureTable.GroupedTags | src/components/Captures/CaptureTable.js:124-131 | the grouping's keys are exactly the tree ids (as object keys) of the records |
| CaptureTable.GroupedTagsSnoc | src/components/Captures/CaptureTable.js:126-131 | one more record appends exactly its label `tagLookup[tagId]` to the end of its tree's list (a new list when the tree is new) and leaves every other list alone |
| CaptureTable.GroupCaptureTags | src/components/Captures/CaptureTable.js:125-131 | the grouping loop yields exactly the per-tree grouping of the response |
| CaptureTable.GroupedTagsTotal | src/components/Captures/CaptureTable.js:126-131 | every record adds exactly one label: the list lengths sum to the number of records |
| CaptureTable.CaptureTagRequest | src/components/Captures/CaptureTable.js:114-122 | no request is made exactly when there are no captures; otherwise the request carries the captures' ids in order |
| CaptureTable.CaptureTableView.LoadCaptureTags | src/components/Captures/CaptureTable.js:113-133 | without captures nothing is requested and the capture tag lookup is unchanged; otherwise it becomes the grouping of the answer under the current tag lookup |
| CaptureTable.CaptureTableView.constructor | src/components/Captures/CaptureTable.js:99-101 | the three lookups start empty |
| EarningsTable.SortableColumns | src/components/EarningsTable/EarningsTable.js:22-54 | only grower, funder and amount are sortable; `calculated_at` and `paid_at` are not |
| EarningsTable.QueryParams | src/components/EarningsTable/EarningsTable.js:103-109 | the query has the four base keys plus the filter's; filter fields win; otherwise offset is page times page size, limit the page size, sort fields those of `sortBy` |
| EarningsTable.UnsortedQuery | src/components/EarningsTable/EarningsTable.js:105-106 | without a sort, `sort_by` and `order` are undefined unless the filter sets them |
| EarningsTable.PrepareRow | src/components/EarningsTable/EarningsTable.js:64-76 | a prepared row has the row's keys plus the three date fields; the dates are reformatted and every other field is copied |
| EarningsTable.PrepareRows | src/components/EarningsTable/EarningsTable.js:63-77 | the prepared rows keep the number and order of the rows, each prepared on its own |
| EarningsTable.PrepareRowsKeepsOtherFields | src/components/EarningsTable/EarningsTable.js:63-77 | without the three date fields, each prepared row equals its source row |
| EarningsTable.ActiveDateRange | src/components/EarningsTable/EarningsTable.js:123-131 | the label is generated exactly when start and end date are both truthy, and is `''` otherwise |
| EarningsTable.EarningsTableView.constructor | src/components/EarningsTable/EarningsTable.js:88-97 | page 0, 20 per page, no sort, empty filter, no rows, total 0, not loading |
| EarningsTable.EarningsTableView.GetEarnings | src/components/EarningsTable/EarningsTable.js:100-117 | loading is set true then false; the query is built from the current state; rows are replaced by the prepared answer and the total by its count; nothing else changes |
| EarningsTable.EarningsTableView.Refresh | src/components/EarningsTable/EarningsTable.js:122-134 | the date-range label is recomputed from the filter, then the rows are fetched as by `GetEarnings` |
| AppContext.RouteTableShape | src/context/AppContext.js:38-164 | twelve routes in fixed order for every user and flag setting; Home and Account never disabled, Monitor and Settings always |
| AppContext.EarningsGroup | src/context/AppContext.js:87-108 | each earnings child is disabled exactly when its flag is off; the group exactly when both children are |
| AppContext.PermissionRoutes | src/context/AppContext.js:55-162 | Verify, Captures, Capture Matching, Growers, User Manager and Inbox are enabled exactly when the user has one of their policies and, where flagged, the flag is on |
| AppContext.SpeciesRoute | src/context/AppContext.js:119-129 | Species is enabled exactly for a present user with the tree-listing permission whose organization field is absent |
| AppContext.UserHasOrg | src/context/AppContext.js:179 | true exactly for a user with an organization whose id is truthy |
| AppContext.OrgUserWithoutSpecies | src/context/AppContext.js:125-128 | a user with an organization never gets the Species page |
| AppContext.LoginStep | src/context/AppContext.js:217-238 | after login the session holds the new user and token; user and routes change only when the session's user differs, the token only when the session's token differs; storage gets exactly the changed parts when remembering |
| AppContext.LoginIdempotent | src/context/AppContext.js:217-238 | a second login with the same user and token changes nothing |
| AppContext.LoginInSync | src/context/AppContext.js:217-238 | from a state that agrees with the session, login leaves state and session on the new user and token |
| AppContext.LoginTrustsSession | src/context/AppContext.js:219-221 | when the session already holds the user and token, an empty component state stays empty after login |
| AppContext.LogoutStep | src/context/AppContext.js:240-248 | after logout user and token are gone from state and session, storage is the old storage with exactly the user and token entries removed, routes are those for no user |
| AppContext.LogoutThenLogin | src/context/AppContext.js:240-248 | logout is idempotent and leaves state and session in agreement, so a following login signs the user in |
| AppContext.ResumableCredentials | src/context/AppContext.js:183-185 | credentials are resumed exactly when a user and a non-empty token are stored, and they are those stored |
| AppContext.ResumeKeepsStorage | src/context/AppContext.js:186-188 | the login that resumes a session does not write storage |
| AppContext.AppProvider.constructor | src/context/AppContext.js:166-171 | no user or token, no organization, routes for the locally stored user |
| AppContext.AppProvider.Login | src/context/AppContext.js:217-238 | the field updates of `login` produce exactly `LoginStep` of the previous state |
| AppContext.AppProvider.Logout | src/context/AppContext.js:240-248 | the field updates of `logout` produce exactly `LogoutStep` of the previous state |
| AppContext.AppProvider.CheckSession | src/context/AppContext.js:182-215 | returns true exactly when credentials are resumable, having logged in with them without remembering; otherwise nothing changes |
| AppContext.AppProvider.UpdateUserHasOrg | src/context/AppContext.js:175-180 | `userHasOrg` becomes whether the current user has an organization; nothing else changes |

## Left out

- Rendering is not modelled: JSX and Material-UI, the capture detail dialog, the export component, `CustomTable`, route components and icons. `LinkToWebmap` is the `WebmapLink` cell value.
- UI-only handlers and flags are not modelled: the drawer handlers, the pagination handlers (including `parseInt` of the rows-per-page input), the filter-dialog open flags and `selectedEarning`.
- The captures context (`CapturesContext`) is not part of this model. Its sort state is a field of `CaptureTableView`, and its `orderBy` is taken to be a column name.
- Network calls are parameters or left out:
  - `getCaptureTags` and `getEarnings` are functions from the request to the answer, so failures are not modelled.
  - AppContext.AppProvider.CheckSession: the asynchronous `check_session` call and the `login` or `logout` that follows its answer are not modelled.
  - `loadOrganizations` and `orgList` are not modelled.
- Asynchrony and React scheduling are not modelled: effect dependency tracking, interleaving of awaited calls, render-time calls of `checkSession`. Each effect is a method that runs to completion.
- JSON encoding of local storage is not modelled: storage holds user and token values directly, and a corrupt entry that `JSON.parse` would reject is not modelled.
- Some JavaScript values are not modelled:
  - numbers that are not integers, and NaN;
  - integers of 1e21 and above in magnitude, which JavaScript writes in exponent notation (`"1e+21"`), and integers beyond 2^53, which JavaScript does not hold exactly;
  - objects or arrays as field values;
  - object keys inherited from `Object.prototype`, such as `constructor` or `__proto__`, in the lookups;
  - a `null` filter object;
  - the insertion order of the query object's keys.
- AppContext.UserHasOrg: a user whose `policy` is missing is not modelled, since `getRoutes` reads `user.policy.organization` and throws on such a user whenever `hasPermission(user, [SUPER_PERMISSION, LIST_TREE])` holds. Every `User` has a policy, so the `?.` on `policy` is not exercised.
