# Space mission dashboard: a verified model

This project models the client-side core of a space-mission dashboard in
Dafny. Seven pages each manage one database table: missions, satellites,
satellite tracking, ground stations, space debris, predictions and system
logs. Around them sit a few view-model components, plus two small backend
scripts: a rule-based collision predictor and the CSV database seeder.

Six of the managers (Predictions, Missions, Satellites, Satellite Tracking,
Space Debris and Ground Stations) are nearly identical state machines. Each
holds:

- a record list, a loading flag and an error;
- a draft shown in a form modal;
- a two-step delete dialog;
- a search by id.

They are modelled once, as the class `EntityPanel.Panel`. The `Config`
datatype carries what differs from page to page, and each page module builds
its own:

- the id field and the endpoints (Satellites lists from
  `/satellites/with-mission` but re-fetches from `/satellites/`);
- the input coercion and the required-field guard;
- the JSON body and the list normalisation (Missions adds an `id` that
  mirrors `mission_id`);
- the edit draft.

The System Logs page follows other rules and is its own class,
`SystemLogs.LogsPanel`.

Every handler is one atomic method. It is given the outcome of each request
it makes as a `Js.Response`: a 2xx with data, a non-2xx status with an
optional `detail`, or a rejected request with its message. It returns the
requests it issues, in order. Its postcondition states the whole new state
as a function of the old state and the responses.

The pure view code is modelled as functions, with lemmas about them:

- summary tiles, distinct counts and the table slices;
- status and level badges;
- the analytics count maps;
- image paths, the FAQ toggle and the mission cards.

The tracking page's newest-first sort keeps its in-place form: an insertion
sort on an `array`, proved sorted and a permutation. The seeder is a class
whose methods append every `cursor.execute` to a trace, with a loop per file
and a loop over the tables.

Modules, in dependency order:

- `Text`: digits, ASCII lower-casing, trimming of the full JavaScript whitespace set, and joining.
- `Js`: values, truthiness, `||`, `JSON.stringify`, `parseInt`, requests and
  responses.
- `Counting`: filter counts, distinct counts, the delete filter and slices.
- `EntityPanel`, then the page modules that build on it: `Predictions`,
  `Missions`, `Satellites`, `SatelliteTracking`, `SpaceDebris` and
  `GroundStations`.
- `SystemLogs`, `LogsTable`, `RecentTracking`, `MissionAnalytics`,
  `MissionCard`, `MissionGallery`, `DatabaseTables`, `Faq`,
  `CollisionModel` and `Seeding`.

## Model

The shared `EntityPanel.Panel` rows cite the Predictions page. The other five
managers repeat the same handlers at the lines given in their own rows.

| member | source | states |
|---|---|---|
| Js.Or | space-ui/src/pages/SatellitesManage.jsx:74-75 | `a \|\| b` is `a` when `a` is truthy and `b` otherwise |
| Js.Json | space-ui/src/pages/PredictionsManage.jsx:106-111 | the sent object drops exactly the properties whose value is undefined and keeps every other value unchanged |
| Js.JsonOfDefined | space-ui/src/pages/PredictionsManage.jsx:273-278 | a record with no `undefined` property is sent unchanged |
| Js.NumberOrEmpty | space-ui/src/pages/SpaceDebrisManage.jsx:55 | `parseFloat(v) \|\| ''` stores `''` exactly when the parse is NaN or zero, otherwise the (truthy) number |
| Js.IntOrEmpty | space-ui/src/pages/PredictionsManage.jsx:83 | `parseInt(v) \|\| ''` stores `''` exactly when the parse is NaN or zero, and otherwise the parsed integer itself |
| Js.ParseInt | space-ui/src/pages/PredictionsManage.jsx:83 | empty text is NaN, and text that starts with a digit parses to a non-negative integer |
| Js.ParseIntOfNatToString | space-ui/src/pages/PredictionsManage.jsx:83 | `parseInt` reads back the decimal text of every natural number |
| Js.IntOrEmptyOfNatToString | space-ui/src/pages/SatellitesManage.jsx:53 | typing a positive integer's digits stores that integer |
| Js.IntOrNull | space-ui/src/pages/PredictionsManage.jsx:233-236 | `parseInt` inside a JSON body sends the number, or `null` for NaN |
| Js.FloatOrNull | space-ui/src/pages/MissionsManage.jsx:217-220 | `parseFloat` inside a JSON body sends the number, or `null` exactly for NaN |
| Js.FailureMessage | space-ui/src/pages/PredictionsManage.jsx:114-116 | a failed mutation shows the non-empty `detail`, else "HTTP error! status: N"; a rejected request shows its own message |
| Js.LoadFailureMessage | space-ui/src/pages/PredictionsManage.jsx:48-50 | a failed list load shows the status text without reading the body, or the rejection's message |
| Js.RefetchFailureMessage | space-ui/src/pages/PredictionsManage.jsx:121-123 | a failed re-fetch shows "Failed to re-fetch <noun>: HTTP error! status: N", or the rejection's message |
| Js.Column | space-ui/src/pages/SatelliteTrackingManage.jsx:275 | `rs.map(r => r[key])` has one value per record, in order |
| Counting.CountEq | space-ui/src/pages/PredictionsManage.jsx:486 | a filter-length count never exceeds the list length |
| Counting.ThreeCountsBounded | space-ui/src/pages/PredictionsManage.jsx:482-494 | tiles counting three different values never add up to more than the total |
| Counting.CountEqAppend | space-ui/src/pages/SpaceDebrisManage.jsx:263-271 | counting over a concatenation adds the counts of the parts |
| Counting.DistinctCountBounds | space-ui/src/pages/SatelliteTrackingManage.jsx:275-279 | a distinct count is at most the length, zero exactly for the empty list, and at least one otherwise |
| Counting.Without | space-ui/src/pages/PredictionsManage.jsx:168 | the delete filter keeps only records of the list whose id differs from the target |
| Counting.WithoutExactly | space-ui/src/pages/PredictionsManage.jsx:168 | a record survives the delete iff it was in the list without the target id; the list shrinks by the number of records carrying the id |
| Counting.WithoutAppend | space-ui/src/pages/PredictionsManage.jsx:168 | the filter distributes over concatenation, so survivors keep their relative order |
| Counting.WithoutAbsent | space-ui/src/pages/PredictionsManage.jsx:168 | deleting an id nobody carries leaves the list exactly as it was |
| Counting.FirstN | space-ui/src/pages/PredictionsManage.jsx:531 | `slice(0, n)` is a prefix of the list of length min(n, length) |
| Text.TrimEmptyIffBlank | space-ui/src/pages/SystemLogsManage.jsx:90 | the trimmed search box is empty exactly when every character is JavaScript whitespace (WhiteSpace or LineTerminator, Unicode space separators and the byte-order mark included) |
| Text.UnicodeBlanks | space-ui/src/pages/SystemLogsManage.jsx:90 | a box holding only an ideographic space, or a byte-order mark, a space and a paragraph separator, trims to empty |
| EntityPanel.WriteRequest | space-ui/src/pages/PredictionsManage.jsx:97-111 | submit POSTs to the collection iff the draft's id is `null`, and otherwise PUTs to that id; the body is the page's body of the draft |
| EntityPanel.SearchFailureMessage | space-ui/src/pages/PredictionsManage.jsx:198-211 | a 404 shows the page's not-found text; any other failure shows the detail or status message |
| EntityPanel.ScreenOf | space-ui/src/pages/PredictionsManage.jsx:308-315 | the loading view exactly while loading; the full-page error exactly when there is an error, the list is empty and no search runs; otherwise the table of the first five records |
| EntityPanel.Panel.constructor | space-ui/src/pages/PredictionsManage.jsx:8-41 | a new manager is loading, with an empty list, the empty draft, closed modal and dialog, and empty search state |
| EntityPanel.Panel.Load | space-ui/src/pages/PredictionsManage.jsx:43-59 | GET the list; on success store it (normalised), on failure keep it and set the status message; loading ends false; nothing else changes |
| EntityPanel.Panel.InputChange | space-ui/src/pages/PredictionsManage.jsx:78-87 | only the named draft field changes, to the page's coercion of the typed text |
| EntityPanel.Panel.Submit | space-ui/src/pages/PredictionsManage.jsx:89-135 | an incomplete draft sends nothing and changes nothing; otherwise the write and, after it succeeds, the re-fetch; only when both succeed are the list replaced, the draft reset and the modal closed; each failure sets its message and keeps list, draft and modal |
| EntityPanel.Panel.AddClick | space-ui/src/pages/PredictionsManage.jsx:137-140 | the empty draft in an open modal, nothing else changed |
| EntityPanel.Panel.EditClick | space-ui/src/pages/PredictionsManage.jsx:142-145 | the page's edit draft of the record in an open modal, nothing else changed |
| EntityPanel.Panel.CloseModal | space-ui/src/pages/PredictionsManage.jsx:184-187 | the modal closes and the draft resets, nothing else changes |
| EntityPanel.Panel.DeleteClick | space-ui/src/pages/PredictionsManage.jsx:147-150 | the dialog is shown with the given target, nothing else changes |
| EntityPanel.Panel.ConfirmDelete | space-ui/src/pages/PredictionsManage.jsx:152-177 | with a `null` target nothing happens; otherwise one DELETE, on success exactly the records carrying the target are dropped and on failure the list is kept with the message; the dialog ends hidden and the target `null` |
| EntityPanel.Panel.CancelDelete | space-ui/src/pages/PredictionsManage.jsx:179-182 | the dialog hides and the target clears, nothing else changes |
| EntityPanel.Panel.SetSearchInput | space-ui/src/pages/PredictionsManage.jsx:189-190 | only the search text changes |
| EntityPanel.Panel.Search | space-ui/src/pages/PredictionsManage.jsx:189-215 | an empty box does nothing; otherwise one GET; a hit fills the result, a failure the search error (not-found text on 404); the list, draft and main error never change and searching ends false |
| Predictions.Submittable | space-ui/src/pages/PredictionsManage.jsx:92 | a draft is submitted only if none of the satellite id, status, lifespan and risk is `''`, and is submitted whenever all of them are truthy |
| Predictions.PanelConfig | space-ui/src/pages/PredictionsManage.jsx:97-98 | the page's endpoints; the empty draft's id is `null`, so it is POSTed; the body never carries the id |
| Predictions.Coerce | space-ui/src/pages/PredictionsManage.jsx:78-87 | the satellite id and lifespan hold `parseInt(v) \|\| ''` of the text (so the parsed integer, when it is not NaN or zero); other fields hold the raw text |
| Predictions.Body | space-ui/src/pages/PredictionsManage.jsx:106-111 | the body carries the four data fields that are defined, unchanged, and never the id; a submittable draft always sends satellite, status and risk |
| Predictions.EmptyAndZeroNotSubmittable | space-ui/src/pages/PredictionsManage.jsx:92 | the empty form is never sent, and a lifespan typed as 0 blocks the submit |
| Predictions.SatelliteIdTyped | space-ui/src/pages/PredictionsManage.jsx:81-85 | typing a positive satellite id stores that number |
| Predictions.SummaryOf | space-ui/src/pages/PredictionsManage.jsx:482-494 | the total and the exact High, Low and Medium counts, which add up to at most the total |
| Predictions.SavedBodyFields | space-ui/src/pages/PredictionsManage.jsx:273-278 | a saved prediction carries all four fields, with the predicted risk as both risk and status |
| Predictions.SavedBodySubmittable | space-ui/src/pages/PredictionsManage.jsx:92 | a saved prediction with a non-zero satellite id would pass the form's own guard |
| Predictions.SavedOnce | space-ui/src/pages/PredictionsManage.jsx:294-297 | after a successful save nothing is left to save, so a second save sends nothing |
| Predictions.FailedSaveCanRetry | space-ui/src/pages/PredictionsManage.jsx:300-302 | a failed save keeps the prediction and the selection, so it can be retried, and shows a message |
| Predictions.Advisor.constructor | space-ui/src/pages/PredictionsManage.jsx:26-41 | a new prediction panel has empty inputs and no prediction, beside a fresh predictions manager |
| Predictions.Advisor.LoadSatellites | space-ui/src/pages/PredictionsManage.jsx:61-72 | GET `/satellites/`; the selector list is the data on success and unchanged on failure |
| Predictions.Advisor.SelectSatellite | space-ui/src/pages/PredictionsManage.jsx:377 | the satellite selector stores the chosen id and nothing else changes |
| Predictions.Advisor.SetOrbitType | space-ui/src/pages/PredictionsManage.jsx:392 | the orbit-type selector stores the chosen type and nothing else changes |
| Predictions.Advisor.SetLaunchYear | space-ui/src/pages/PredictionsManage.jsx:407 | the launch-year input stores its raw text and nothing else changes |
| Predictions.Advisor.SetAgeMonths | space-ui/src/pages/PredictionsManage.jsx:417 | the age input stores its raw text and nothing else changes |
| Predictions.Advisor.SetMaintenanceCost | space-ui/src/pages/PredictionsManage.jsx:427 | the maintenance-cost input stores its raw text and nothing else changes |
| Predictions.Advisor.SetHealthScore | space-ui/src/pages/PredictionsManage.jsx:438 | the health-score input stores its raw text and nothing else changes |
| Predictions.Advisor.Predict | space-ui/src/pages/PredictionsManage.jsx:217-256 | without an orbit type or a satellite it only sets the message and sends nothing; otherwise one POST of the six parsed inputs, then the returned risk and lifespan or the failure message |
| Predictions.Advisor.Save | space-ui/src/pages/PredictionsManage.jsx:258-305 | without a risk, lifespan and satellite it only sets the message; otherwise POST then re-fetch; only when both succeed is the manager's list replaced and the prediction and selection cleared; nothing else of the manager changes |
| Missions.Submittable | space-ui/src/pages/MissionsManage.jsx:72 | a draft is submitted only if none of the name, status and launch date is `''`, and is submitted whenever all of them are truthy |
| Missions.PanelConfig | space-ui/src/pages/MissionsManage.jsx:77-78 | the page's endpoints; the empty draft's id is `null`, so it is POSTed; the body never carries the id |
| Missions.Remap | space-ui/src/pages/MissionsManage.jsx:49-53 | one record per fetched mission, in order, each with `id` equal to its `mission_id` and every other property unchanged |
| Missions.RemapMirrors | space-ui/src/pages/MissionsManage.jsx:105-109 | every loaded or re-fetched mission has `id == mission_id` |
| Missions.DeleteByFrontendId | space-ui/src/pages/MissionsManage.jsx:152 | on a mirrored list, filtering on `id` removes exactly the missions with that `mission_id`, and the rest stay mirrored |
| Missions.Body | space-ui/src/pages/MissionsManage.jsx:86-91 | the body carries the four defined data fields unchanged and no id |
| Missions.EditOfFetchedMissionPuts | space-ui/src/pages/MissionsManage.jsx:77-78 | editing a fetched mission and submitting it PUTs to its `mission_id` with its own data |
| Missions.StatusBadgeClass | space-ui/src/pages/MissionsManage.jsx:239-252 | a status that is not a string (a null status included) throws at `toLowerCase`, and only such a status; for a string, active, completed, planned and failed (in any letter case) each get their own class, and exactly the other strings get `nasa-badge` |
| Missions.BadgeIgnoresCase | space-ui/src/pages/MissionsManage.jsx:240 | statuses equal up to letter case get the same badge |
| Missions.AnalyticsAfterLoad | space-ui/src/pages/MissionsManage.jsx:452 | a successful load of a non-empty list shows the analytics; a failed load never does |
| Missions.SuccessPredictor.constructor | space-ui/src/pages/MissionsManage.jsx:30-38 | empty inputs and no chance yet |
| Missions.SuccessPredictor.Predict | space-ui/src/pages/MissionsManage.jsx:201-237 | with no payload mass it sets "Please enter a payload mass." and sends nothing; otherwise one POST of the four parsed inputs, then the returned chance or the failure message |
| Satellites.Submittable | space-ui/src/pages/SatellitesManage.jsx:58 | a draft is submitted only if none of the name and mission id is `''`, and is submitted whenever all of them are truthy |
| Satellites.PanelConfig | space-ui/src/pages/SatellitesManage.jsx:63-64 | the page's endpoints (the list from `/satellites/with-mission`, the re-fetch from `/satellites/`); the empty draft's id is `null`, so it is POSTed; the body never carries the id |
| Satellites.Coerce | space-ui/src/pages/SatellitesManage.jsx:50-54 | `mission_id` holds `parseInt(v) \|\| ''`, the other fields the raw text |
| Satellites.Body | space-ui/src/pages/SatellitesManage.jsx:72-77 | the body carries the four data fields, date and orbit type with `\|\| null`, never the id |
| Satellites.BodyNullsEmpty | space-ui/src/pages/SatellitesManage.jsx:74-75 | date and orbit type are always sent, as a truthy value or `null` |
| Satellites.EditDraft | space-ui/src/pages/SatellitesManage.jsx:108-120 | the draft has exactly the five form fields, with a falsy date or orbit type shown as `''` |
| Satellites.EditRoundTrip | space-ui/src/pages/SatellitesManage.jsx:63-77 | editing a listed satellite and submitting it PUTs to its id with its name and mission, and its date and orbit type or `null` |
| Satellites.SummaryOf | space-ui/src/pages/SatellitesManage.jsx:260-276 | the LEO, GEO, MEO and Other tiles plus the `null` orbit types make up the total exactly |
| Satellites.OrbitTilesPartition | space-ui/src/pages/SatellitesManage.jsx:264-276 | every satellite falls in exactly one orbit tile or has a `null` orbit type |
| Satellites.CountOther | space-ui/src/pages/SatellitesManage.jsx:276 | the Other tile never exceeds the total |
| Satellites.OrbitLabel | space-ui/src/pages/SatellitesManage.jsx:317 | the table shows the orbit type when truthy and 'N/A' otherwise |
| SatelliteTracking.Submittable | space-ui/src/pages/SatelliteTrackingManage.jsx:70 | a draft is submitted only if none of the satellite id, station id and timestamp is `''`, and is submitted whenever all of them are truthy |
| SatelliteTracking.PanelConfig | space-ui/src/pages/SatelliteTrackingManage.jsx:75-76 | the page's endpoints; the empty draft's id is `null`, so it is POSTed; the body never carries the id |
| SatelliteTracking.Coerce | space-ui/src/pages/SatelliteTrackingManage.jsx:53-65 | the ids hold `parseInt(v) \|\| ''`, the coordinates `parseFloat(v) \|\| ''`, other fields the raw text |
| SatelliteTracking.Body | space-ui/src/pages/SatelliteTrackingManage.jsx:84-91 | the body carries the six data fields, the coordinates with `\|\| null`, never the id |
| SatelliteTracking.ZeroCoordinateSentAsNull | space-ui/src/pages/SatelliteTrackingManage.jsx:60-90 | a coordinate typed as zero is sent as `null` |
| SatelliteTracking.CoordinateSent | space-ui/src/pages/SatelliteTrackingManage.jsx:60-90 | a non-zero parsed coordinate is sent unchanged |
| SatelliteTracking.LocalInputTime | space-ui/src/pages/SatelliteTrackingManage.jsx:127 | the 16-character prefix of the ISO text (or all of a shorter text) |
| SatelliteTracking.EditDraft | space-ui/src/pages/SatelliteTrackingManage.jsx:122-130 | the whole record, with a truthy timestamp cut to its ISO prefix and a falsy one replaced by `''` |
| SatelliteTracking.EditSubmittable | space-ui/src/pages/SatelliteTrackingManage.jsx:70-76 | a record without a timestamp opens a draft that cannot be submitted; a record with an id PUTs to it |
| SatelliteTracking.SummaryOf | space-ui/src/pages/SatelliteTrackingManage.jsx:271-279 | the distinct satellites and stations, each at most the total and zero exactly when the list is empty |
| SpaceDebris.Submittable | space-ui/src/pages/SpaceDebrisManage.jsx:64 | a draft is submitted only if none of the description, the three numbers and the risk level is `''`, and is submitted whenever all of them are truthy |
| SpaceDebris.PanelConfig | space-ui/src/pages/SpaceDebrisManage.jsx:69-70 | the page's endpoints; the empty draft's id is `null`, so it is POSTed; the body never carries the id |
| SpaceDebris.Coerce | space-ui/src/pages/SpaceDebrisManage.jsx:50-59 | the three numbers hold `parseFloat(v) \|\| ''`, the other fields the raw text |
| SpaceDebris.Body | space-ui/src/pages/SpaceDebrisManage.jsx:78-84 | the body carries the five defined data fields unchanged and no id |
| SpaceDebris.ZeroBlocksSubmit | space-ui/src/pages/SpaceDebrisManage.jsx:55-64 | a number typed as zero (or not a number) makes the submit a no-op, whatever the other fields hold |
| SpaceDebris.SubmittedBody | space-ui/src/pages/SpaceDebrisManage.jsx:64-84 | a submittable draft always sends description and risk; a number is sent exactly when the draft defines it |
| SpaceDebris.SummaryOf | space-ui/src/pages/SpaceDebrisManage.jsx:259-271 | the exact High, Medium and Low counts, adding up to at most the total |
| GroundStations.Submittable | space-ui/src/pages/GroundStationsManage.jsx:57 | a draft is submitted only if none of the name and location is `''`, and is submitted whenever all of them are truthy |
| GroundStations.PanelConfig | space-ui/src/pages/GroundStationsManage.jsx:62-63 | the page's endpoints; the empty draft's id is `null`, so it is POSTed; the body never carries the id |
| GroundStations.Coerce | space-ui/src/pages/GroundStationsManage.jsx:49-53 | `contact_frequency` holds `parseFloat(v) \|\| ''`, the other fields the raw text |
| GroundStations.Body | space-ui/src/pages/GroundStationsManage.jsx:71-75 | the body carries the three data fields, the frequency with `\|\| null`, never the id |
| GroundStations.SubmittedBodyWhole | space-ui/src/pages/GroundStationsManage.jsx:57-75 | a submittable draft sends all three fields, the frequency as a truthy number or `null` |
| GroundStations.SummaryOf | space-ui/src/pages/GroundStationsManage.jsx:247-251 | the number of distinct locations, at most the total and zero exactly for an empty list |
| SystemLogs.AfterFetch | space-ui/src/pages/SystemLogsManage.jsx:21-33 | a refresh stores the fetched list, or keeps the old one with the fetch message; the error is cleared iff it succeeded; loading ends false; nothing else changes |
| SystemLogs.SaveRequest | space-ui/src/pages/SystemLogsManage.jsx:51-55 | PUT to the log's id iff the draft's `log_id` is truthy, POST otherwise; the whole draft is the body |
| SystemLogs.NewLogIsPosted | space-ui/src/pages/SystemLogsManage.jsx:12-15 | a new draft is always POSTed |
| SystemLogs.LogsPanel.constructor | space-ui/src/pages/SystemLogsManage.jsx:8-19 | loading, empty list, closed modal, empty draft and no target |
| SystemLogs.LogsPanel.Fetch | space-ui/src/pages/SystemLogsManage.jsx:21-33 | GET the list; on success store it and clear the error, on failure keep it and set the fetch message; loading ends false |
| SystemLogs.LogsPanel.InputChange | space-ui/src/pages/SystemLogsManage.jsx:39-45 | only the named field of the draft changes, to the raw text |
| SystemLogs.LogsPanel.Submit | space-ui/src/pages/SystemLogsManage.jsx:47-65 | no validation: the save is always sent; a failure sets the save message only; a success refreshes and then closes the modal and empties the draft |
| SystemLogs.LogsPanel.AddClick | space-ui/src/pages/SystemLogsManage.jsx:113-117 | the empty draft in an open modal |
| SystemLogs.LogsPanel.Edit | space-ui/src/pages/SystemLogsManage.jsx:67-70 | the log itself is the draft, in an open modal |
| SystemLogs.LogsPanel.CloseModal | space-ui/src/pages/SystemLogsManage.jsx:183 | the modal closes and the draft is kept |
| SystemLogs.LogsPanel.DeleteClick | space-ui/src/pages/SystemLogsManage.jsx:72-75 | the dialog is shown with the target |
| SystemLogs.LogsPanel.ConfirmDelete | space-ui/src/pages/SystemLogsManage.jsx:77-87 | the DELETE is sent without a target check; on success a refresh, then the dialog hidden and the target cleared; on failure only the message, with the dialog and target kept |
| SystemLogs.LogsPanel.CancelDelete | space-ui/src/pages/SystemLogsManage.jsx:197 | the dialog hides and the target is kept |
| SystemLogs.LogsPanel.SetSearchId | space-ui/src/pages/SystemLogsManage.jsx:17 | only the search text changes |
| SystemLogs.LogsPanel.Search | space-ui/src/pages/SystemLogsManage.jsx:89-105 | a blank box refreshes the whole list; otherwise the list becomes exactly the found log, or empty with the not-found message |
| SystemLogs.LogsPanel.SearchById | space-ui/src/pages/SystemLogsManage.jsx:95-104 | one GET of the typed id; the list becomes exactly the found log, or empty with the not-found message; nothing else changes |
| SystemLogs.SummaryOf | space-ui/src/pages/SystemLogsManage.jsx:150-162 | exact, case-sensitive counts of 'Error', 'Warning' and 'Info', adding up to at most the total |
| SystemLogs.TilesMissFormLevels | space-ui/src/pages/SystemLogsManage.jsx:154-162 | for logs whose levels come from the form, all three level tiles show zero |
| SystemLogs.ErrorLogNotCounted | space-ui/src/pages/SystemLogsManage.jsx:154 | one ERROR log gives an error tile of 0 |
| SystemLogs.CorrectedSummaryOf | space-ui/src/components/SystemLogsFormModal.jsx:56-59 | the corrected tiles count the upper-case levels the form offers, adding up to at most the total |
| SystemLogs.CorrectedTilesCountFormLevels | space-ui/src/components/SystemLogsFormModal.jsx:56-59 | with the corrected tiles every form-made log is counted once: the three tiles plus DEBUG make up the total |
| LogsTable.BadgeOf | space-ui/src/components/SystemLogsTable.jsx:51-55 | red iff exactly 'ERROR', yellow iff 'WARNING', blue iff 'DEBUG', and green for everything else, including 'INFO' and 'Error' |
| LogsTable.View | space-ui/src/components/SystemLogsTable.jsx:14-77 | a missing list gives the 5-bar skeleton and only then; otherwise one row per log, carrying that log's id, message, level, badge and raw timestamp |
| LogsTable.RowsFollowList | space-ui/src/components/SystemLogsTable.jsx:42 | the rows keep the order of the logs: a prefix of the list renders as a prefix of the rows |
| RecentTracking.SwapDown | space-ui/src/pages/TrackingManage.jsx:17 | one exchange of neighbours, keeping the multiset of records |
| RecentTracking.SwapKeepsInserting | space-ui/src/pages/TrackingManage.jsx:17 | swapping past an older neighbour moves the insertion one place down |
| RecentTracking.InsertingDone | space-ui/src/pages/TrackingManage.jsx:17 | an insertion that stops at the front or behind a newer record leaves the prefix newest first |
| RecentTracking.InsertNewest | space-ui/src/pages/TrackingManage.jsx:17 | one insertion step makes the prefix up to `i` newest first, touches nothing after it and keeps the multiset |
| RecentTracking.SortNewestFirst | space-ui/src/pages/TrackingManage.jsx:17 | the array ends newest first (timestamps non-increasing) and is a permutation of what it held |
| RecentTracking.RecentActivity.constructor | space-ui/src/pages/TrackingManage.jsx:4-6 | loading starts true, with no records and no error |
| RecentTracking.RecentActivity.Fetch | space-ui/src/pages/TrackingManage.jsx:8-27 | on success the records are the fetched data as a permutation sorted newest first; on failure the status message; loading ends false either way |
| RecentTracking.RecentActivity.Shown | space-ui/src/pages/TrackingManage.jsx:29-61 | the loading view while loading; the error view whenever there is an error; the empty text for no records; and for any non-empty list without an error, exactly its first one to three records |
| RecentTracking.CardsAreNewest | space-ui/src/pages/TrackingManage.jsx:48 | on a newest-first list no record left out of the cards is newer than a shown one |
| MissionAnalytics.Bump | space-ui/src/components/MissionAnalytics.jsx:7 | one step of the count map grows it by at most one entry |
| MissionAnalytics.Tally | space-ui/src/components/MissionAnalytics.jsx:6-14 | the count map has at most one entry per mission, and at least one when there are missions |
| MissionAnalytics.BumpLookup | space-ui/src/components/MissionAnalytics.jsx:7 | one step raises the count of its key by one and leaves every other count alone |
| MissionAnalytics.BumpTotal | space-ui/src/components/MissionAnalytics.jsx:7 | one step raises the sum of the counts by one |
| MissionAnalytics.BumpNames | space-ui/src/components/MissionAnalytics.jsx:7 | one step adds its key to the set of names |
| MissionAnalytics.BumpKeepsShape | space-ui/src/components/MissionAnalytics.jsx:7 | one step keeps the names distinct and every count positive |
| MissionAnalytics.TallyCounts | space-ui/src/components/MissionAnalytics.jsx:6-14 | the count map gives, for every value, the number of missions carrying it (0 for none) |
| MissionAnalytics.TallyTotal | space-ui/src/components/MissionAnalytics.jsx:6-30 | the counts sum to the number of missions |
| MissionAnalytics.TallyShape | space-ui/src/components/MissionAnalytics.jsx:17-25 | the chart has one entry per distinct value met, without repeats, each with a value of at least 1 |
| MissionAnalytics.TallyLength | space-ui/src/components/MissionAnalytics.jsx:17-25 | the chart has as many slices as there are distinct values |
| MissionAnalytics.DistinctNamesCard | space-ui/src/components/MissionAnalytics.jsx:17-25 | entries with distinct names are as many as their names |
| MissionAnalytics.LookupFinds | space-ui/src/components/MissionAnalytics.jsx:44 | looking up an entry's own name finds its value |
| MissionAnalytics.ChartValuesAreCounts | space-ui/src/components/MissionAnalytics.jsx:17-25 | every slice's value is the number of missions with its name |
| MissionAnalytics.CardsOf | space-ui/src/components/MissionAnalytics.jsx:30-48 | the total, and the Active and Completed counts (0 when absent), which add up to at most the total |
| MissionCard.Hyphenate | space-ui/src/components/MissionCard.jsx:6 | every space becomes a hyphen and every other character stays |
| MissionCard.ImageSrc | space-ui/src/components/MissionCard.jsx:5-8 | the path is 12 characters longer than the name and holds no space |
| MissionCard.PathHasNoSpace | space-ui/src/components/MissionCard.jsx:6 | the image directory, a hyphenated name and the extension together hold no space |
| MissionCard.ImageSrcShape | space-ui/src/components/MissionCard.jsx:5-8 | '/images/', then each character of the name lower-cased with spaces as hyphens, then '.png' |
| MissionCard.CaseInsensitive | space-ui/src/components/MissionCard.jsx:6 | names equal up to letter case give the same path |
| MissionCard.LowerFirstChangesNothing | space-ui/src/components/MissionCard.jsx:6 | lower-casing the name beforehand does not change the path |
| MissionGallery.CardOf | space-ui/src/pages/missions.jsx:35-43 | the card shows the name; each other field, when truthy, in its own slot; and its default (Unknown, '', '', N/A, N/A, []) when falsy |
| MissionGallery.CardImage | space-ui/src/components/MissionCard.jsx:5-8 | `toLowerCase` succeeds, and the card has an image path, exactly when the name is a string; the path is then the name's image path |
| MissionGallery.ScreenOf | space-ui/src/pages/missions.jsx:23-45 | the empty-state view exactly for no missions; the render fails exactly when some mission's name is not a string; otherwise one card per mission, in order, each with its image |
| MissionGallery.Gallery.constructor | space-ui/src/pages/missions.jsx:8 | the page starts with no missions |
| MissionGallery.Gallery.Fetch | space-ui/src/pages/missions.jsx:10-18 | GET `/missions/`; the data on success, the list unchanged on failure |
| DatabaseTables.ImageSrc | space-ui/src/components/DatabaseTables.jsx:60-65 | 'tracking' gets the satellites-tracking picture; any other id gets '/images/' + id + '.png' |
| DatabaseTables.Target | space-ui/src/components/DatabaseTables.jsx:87 | the link is '/' followed by the id |
| DatabaseTables.IdsDistinct | space-ui/src/components/DatabaseTables.jsx:8-58 | the seven ids are pairwise distinct |
| DatabaseTables.TargetsAreRoutes | space-ui/src/App.jsx:81-87 | the tiles link, one to one and in order, to the seven declared manager routes |
| DatabaseTables.RouteTexts | space-ui/src/components/DatabaseTables.jsx:87 | each tile's '/' + id is the route at its position |
| DatabaseTables.ImagesDistinct | space-ui/src/components/DatabaseTables.jsx:60-65 | the seven tiles show seven different pictures |
| Faq.Toggled | space-ui/src/components/FAQSection.jsx:30-32 | clicking the open question closes it; clicking any other opens that one |
| Faq.AtMostOneExpanded | space-ui/src/components/FAQSection.jsx:28-50 | after a click at most one answer is expanded, the clicked one |
| Faq.ToggleTwice | space-ui/src/components/FAQSection.jsx:31 | two clicks on one question from closed return to closed, and from that question open return to open |
| Faq.Accordion.constructor | space-ui/src/components/FAQSection.jsx:28 | no answer is open at first |
| Faq.Accordion.Toggle | space-ui/src/components/FAQSection.jsx:30-32 | the open index is toggled, and only the clicked question can be expanded |
| Faq.Accordion.ExpandedAnswers | space-ui/src/components/FAQSection.jsx:44-50 | at most one answer is shown expanded, exactly the open one among the five |
| CollisionModel.OrbitKey | space-api/ai_model/dummy_model.py:23 | a missing orbit type reads as 'leo'; a string is lower-cased; any other value has no key (Python would raise) |
| CollisionModel.LowerLeo | space-api/ai_model/dummy_model.py:23 | the default 'LEO' lower-cases to 'leo' |
| CollisionModel.CollisionRisk | space-api/ai_model/dummy_model.py:18-29 | High iff the key is 'leo', Medium iff 'meo', Low iff any other key |
| CollisionModel.LifespanMonths | space-api/ai_model/dummy_model.py:31-42 | 60 iff 'leo', 120 iff 'meo', otherwise 180; always one of the three |
| CollisionModel.PredictorsAgree | space-api/ai_model/dummy_model.py:23-42 | on one input, High goes with 60, Medium with 120 and Low with 180 |
| CollisionModel.MissingOrbitIsLeo | space-api/ai_model/dummy_model.py:23-36 | a satellite without an orbit type gets High and 60 |
| CollisionModel.CaseInsensitive | space-api/ai_model/dummy_model.py:23-36 | orbit types equal up to letter case get the same risk and lifespan |
| Seeding.Markers | space-api/__pycache__/seed_database.py:30 | one marker per column, the i-th being ':' and the decimal of i + 1 |
| Seeding.Placeholders | space-api/__pycache__/seed_database.py:30 | the placeholder text holds exactly one `:` per column |
| Seeding.MarkersNumbered | space-api/__pycache__/seed_database.py:30 | the i-th marker starts with ':' and its digits denote i + 1 |
| Seeding.JoinCount | space-api/__pycache__/seed_database.py:30-31 | joining with a separator free of a character adds up that character's counts in the items |
| Seeding.PlaceholderCount | space-api/__pycache__/seed_database.py:30 | the placeholder text holds exactly one ':' per column |
| Seeding.InsertSqlMarkers | space-api/__pycache__/seed_database.py:31 | with names free of ':', the statement has exactly one bind marker per column |
| Seeding.SqlShapeCount | space-api/__pycache__/seed_database.py:31 | the statement's markers are those of the table name, the column list and the placeholders added up: the fixed SQL text adds none |
| Seeding.ProjectRow | space-api/__pycache__/seed_database.py:25-28 | one parameter per column, in column order; None exactly for a missing or empty cell, otherwise the cell text |
| Seeding.Projected | space-api/__pycache__/seed_database.py:25-28 | one projected tuple per CSV row, in file order |
| Seeding.RowsTraceStep | space-api/__pycache__/seed_database.py:33-39 | one more row appends its insert and, when it is refused, its ERROR log |
| Seeding.InsertsAppend | space-api/__pycache__/seed_database.py:33-39 | inserts and logs of a concatenated trace are those of the parts |
| Seeding.EveryRowAttempted | space-api/__pycache__/seed_database.py:33-39 | the inserts of the loop are one per row, in file order, whatever rows the database refuses |
| Seeding.EveryRefusalLogged | space-api/__pycache__/seed_database.py:33-39 | the ERROR logs of the loop report exactly the refused rows, in order |
| Seeding.RowInserts | space-api/__pycache__/seed_database.py:33-35 | one insert per row, in order |
| Seeding.CsvInserts | space-api/__pycache__/seed_database.py:20-48 | one `insert_data_from_csv` inserts every row of its file, or none when the file is missing or unreadable |
| Seeding.SeedTraceStep | space-api/__pycache__/seed_database.py:64-66 | one more table appends that table's executes |
| Seeding.SeedInsertsInOrder | space-api/__pycache__/seed_database.py:54-66 | the tables are filled one after another in list order, each with all rows of its file |
| Seeding.Seeder.constructor | space-api/__pycache__/seed_database.py:51-52 | an empty trace and no commit |
| Seeding.Seeder.InsertDataFromCsv | space-api/__pycache__/seed_database.py:20-48 | a missing file logs one 'file not found' ERROR, an unreadable one an 'unexpected error', and otherwise one insert per row with an ERROR log after each refused one; no commit |
| Seeding.Seeder.SeedTables | space-api/__pycache__/seed_database.py:64-66 | the tables' executes are appended one table after another, without a commit |
| Seeding.Seeder.SeedAll | space-api/__pycache__/seed_database.py:50-68 | the seven tables in their listed order, then exactly one commit |

## Left out

- Network I/O, the backend routes and the database are left out. Each response is an input to the handler that uses it, and the status of a failure is unconstrained.
- Asynchronous interleaving is left out: a second click while a request is in flight, updates after unmount, React's batching. Each handler is one atomic step.
- `console` logging and `alert` are left out: they change no state.
- A failure's JSON body that cannot be parsed is left out. Its message is modelled as the rejection's message.
- `parseFloat` is an input (`Option<real>`, where `None` is NaN), as is `new Date(...).toISOString()` for the tracking edit. `parseInt` is modelled for decimal text only: no `0x` prefix and no exponent.
- Numbers are exact (`Num(real)`, and `IntOrEmpty` and `IntOrNull` keep the exact integer). The rounding of JavaScript's IEEE double numbers is left out: for example `parseInt("9007199254740993")` gives 9007199254740992, and large or long `parseFloat` results round.
- Timestamps for the newest-first sort are an input function `time: Record -> int`. Invalid dates (NaN in the comparator) and `toLocaleString` are left out.
- RecentTracking.SortNewestFirst: the sort is not proved stable. JavaScript's sort is stable, and the insertion sort here is too, but no contract states it.
- Lower-casing is ASCII only. Unicode case mapping is left out.
- JavaScript object keys are always strings, and integer-like keys are listed first by `Object.entries`. The count maps keep the raw value as the name, in first-seen order. So `null` and `'null'` are separate entries here, while the browser merges them.
- Float formatting (`toFixed`) and all styling and animation code are left out.
- `DummyMissionPredictor.predict_success_chance` is left out because it is floating-point arithmetic. The training script and `main.py` are not part of this model.
- The seeder's message texts and `datetime.now()` are left out. A file is `Missing` or `Unreadable` as a whole. That loses nothing: every row is read and projected before the first insert runs, so a read or parse error never follows an insert. A failure inside `log_system_event` itself, `print`, and exceptions from `get_db` are also left out.
- The form modal components are left out, and with them the browser's own validation of their inputs. Their `required` fields keep `onSubmit` from firing while a required input is empty, and their `type="number"` fields reject non-numeric text. The model calls each submit handler on any draft, so `SystemLogs.LogsPanel.Submit` POSTs even a blank log, and every `<Page>.Submittable` guard is stated without the browser's checks in front of it. A new log shows the "Edit" title because its draft has no `log_id` (`undefined !== null`), but the model does not check that.
- DatabaseTables.ImageSrc: 'tracking' and 'satellites-tracking' yield the same path, so the contract is an implication, not an if-and-only-if.
- LogsTable.View: the timestamp is the raw `timestamp` property. The logs backend names it `log_time`, so the column shows "Invalid Date"; date rendering is not modelled.
- Predictions.Advisor.Predict: the `parseInt`/`parseFloat` of the AI inputs follow the parse rules above; the backend's use of them is not modelled.
- The MissionAnalytics pie-chart colours and legends are left out (rendering).
- Js.ParseInt: its own contract states only the empty-text and leading-digit cases. The sign and digit reading is defined by its body, and `ParseIntOfNatToString` is the round trip proved about it.
- Seeding.InsertSql: it has no contract of its own. Its marker count is stated by the lemma `InsertSqlMarkers`.

## Findings

| source | as written | input that shows it | evidently intended | confidence | as-written member | corrected member |
|---|---|---|---|---|---|---|
| space-ui/src/pages/SystemLogsManage.jsx:154-162 | the Error, Warning and Info tiles count `'Error'`, `'Warning'` and `'Info'` exactly | one log with level `'ERROR'`, the value the form offers (space-ui/src/components/SystemLogsFormModal.jsx:58) and the table colours red: the Error tile shows 0 | count the upper-case levels `'ERROR'`, `'WARNING'` and `'INFO'` that the form and the table use | medium, not executed | SystemLogs.TilesMissFormLevels | SystemLogs.CorrectedTilesCountFormLevels |
