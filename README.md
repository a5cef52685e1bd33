# Hogwarts house-points leaderboard, modelled in Dafny

The leaderboard keeps a ledger of point awards and deductions, one row per
entry: house, signed points, optional reason, time. Each entry belongs to one
of the four Hogwarts houses. The backend answers four kinds of query on that
ledger:

- the leaderboard, ranked by total points, optionally limited to a time window;
- the newest activity;
- per-house statistics;
- the entries of a window.

The backend also accepts manual entries and runs a data generator. The
generator draws random entries on a timer, in bulk, or as a fixed set of test
fixtures, and reports each one to its listeners.

The dashboard has three parts:

- a socket-driven state: connection, live-updates switch, time window,
  leaderboard, activity list, generator status;
- an admin form that validates a manual entry before sending it;
- an activity feed that labels each entry with its age, its signed points and
  its reason.

The model has one Dafny module per part of the system. All `.dfy` files are
verified together.

| module | file | models |
|---|---|---|
| `Wrappers` | wrappers.dfy | `Option`, `Result` |
| `JsText` | js_text.dfy | the JavaScript conversions the core relies on: `trim`, `parseInt`, `Number()` on strings, truthiness, number-to-text |
| `Houses` | houses.dfy | the `houses` table: four names and their colours, and the name order of `ORDER BY h.name` |
| `Ledger` | ledger.dfy | backend/models/Entry.js: the `entries` table as a class `EntryTable` (insert, purge, re-stamp), the SQL queries as functions over its rows, and `generateRandomEntry` |
| `LedgerLaws` | ledger_laws.dfy | laws relating the queries: wider windows, appending an entry, the seeded ledger's standings |
| `DataGenerator` | generator.dfy | backend/utils/dataGenerator.js: a class `Generator` over the table, a `Timers` class for `setInterval`/`clearInterval`, and listeners |
| `Controller` | controller.dfy | backend/controllers/leaderboardController.js: one function or method per request handler, returning status and body |
| `AdminControls` | admin_form.dfy | frontend/src/components/AdminControls.js: the entry form, its validation, the generator buttons |
| `App` | app_state.dfy | frontend/src/App.js: the dashboard state and its socket handlers, as a class `AppState` |
| `ActivityFeed` | activity_feed.dfy | frontend/src/components/ActivityFeed.js: `formatTime`, the points label, the reason display |

Conventions of the model:

- **Time.** Database times are whole seconds (`now` is `NOW()`). The
  generator and the dashboard work in milliseconds, as `Date` does.
- **The database.** A failing database is modelled as a boolean `storeUp`
  (or `saveUp`/`updateUp`) parameter. Random draws (`Math.random()`) are
  reals in [0, 1) passed in as parameters. Clocks are passed in as parameters.
- **Strict mode.** The store is taken to run in MySQL strict mode: an INSERT
  whose house is not in `houses`, whose points do not fit a 32-bit `INT`, or
  whose reason is longer than 255 characters fails instead of being clamped.
- **The generator interval.** `start(intervalMinutes)` computes
  `intervalMinutes * 2 * 1000` ms. One "minute" is therefore a two-second
  timer. The model follows the code (`Controller.StartDefaultsToTwoSeconds`),
  not the minute the name and the log line suggest.
- **Timer delays.** A delay outside 1..2147483647 ms, or NaN, becomes 1 ms,
  as Node's `setInterval` does (`DataGenerator.EffectiveDelay`).
- **The activity limit.** `getRecentActivity` interpolates
  `parseInt(limit, 10)` into the SQL text. NaN or a negative number is a
  syntax error, so the handler answers 500.

## Model

| member | source | states |
|---|---|---|
| Houses.NamesDistinct | backend/config/database.js:71-76 | the four seeded houses are distinct and each has one colour |
| Houses.NameLeTotal | backend/models/Entry.js:69 | the name order used to break ties is total |
| Houses.NameLeTransitive | backend/models/Entry.js:69 | the name order is transitive |
| Houses.NameLeAntisymmetric | backend/models/Entry.js:69 | the name order is antisymmetric |
| Ledger.Filter | backend/models/Entry.js:34 | a `WHERE` keeps exactly the rows satisfying the condition, no more rows than it was given |
| Ledger.FilterCount | backend/models/Entry.js:34 | a `WHERE` keeps every copy of a matching row and none of a non-matching one |
| Ledger.FilterAppend | backend/models/Entry.js:34 | a `WHERE` over appended rows is the two filters appended |
| Ledger.FilterWeaker | backend/models/Entry.js:62-65 | a stricter condition keeps a sub-multiset of the rows a looser one keeps |
| Ledger.FilterSplit | backend/models/Entry.js:136-141 | a condition and its negation partition the rows |
| Ledger.TotalPointsAppend | backend/models/Entry.js:53 | `SUM(points)` over appended rows is the sum of the two sums |
| Ledger.LastActivity | backend/models/Entry.js:55 | `MAX(timestamp)` is null exactly for no rows, and otherwise is one row's time and at least every row's time |
| Ledger.Tallies | backend/models/Entry.js:50-68 | one standing per house of `houses`, in table order |
| Ledger.TallySummarises | backend/models/Entry.js:50-68 | a house's standing has its colour and the sum, count and latest time of its entries inside the window (`LEFT JOIN ... ON ... AND e.timestamp >= ...`) |
| Ledger.AheadTotal | backend/models/Entry.js:69 | any two standings are ordered by `total_points DESC, h.name ASC` one way or the other |
| Ledger.AheadTransitive | backend/models/Entry.js:69 | that order is transitive |
| Ledger.InsertStanding | backend/models/Entry.js:69 | inserting into an ordered list keeps it ordered and adds exactly that standing |
| Ledger.AheadOfAll | backend/models/Entry.js:69 | a standing that may precede the head of an ordered list may precede every element of it |
| Ledger.BehindFirst | backend/models/Entry.js:69 | the head of an ordered list may precede every element of its tail with a later standing inserted |
| Ledger.SortStandings | backend/models/Entry.js:69 | `ORDER BY total_points DESC, h.name ASC` gives an ordered permutation |
| Ledger.Ranked | backend/models/Entry.js:75-80 | `rank` is position plus one; nothing else changes |
| Ledger.DistinctByMultiset | backend/models/Entry.js:68-69 | a permutation of a list of distinct items is distinct |
| Ledger.RepeatCounts | backend/models/Entry.js:68-69 | an item at two positions occurs at least twice |
| Ledger.DistinctCount | backend/models/Entry.js:68-69 | an item of a distinct list occurs at most once |
| Ledger.SortedHouses | backend/models/Entry.js:68-69 | sorting the four tallies keeps one standing per house |
| Ledger.Leaderboard | backend/models/Entry.js:47-85 | four standings, ranks 1..4, each summarising its house in the window, every house present, strictly ordered by points then name |
| Ledger.SortedStandings | backend/models/Entry.js:56-69 | the sorted tallies already form a board: four standings, each summarising its house, every house present, strictly ordered |
| Ledger.SortedCover | backend/models/Entry.js:68-69 | sorting one tally per house keeps every house present and orders them strictly by points then name |
| Ledger.RankedKeeps | backend/models/Entry.js:75-80 | numbering the ranks keeps the board: same houses, same summaries, same strict order |
| Ledger.RankedSummarises | backend/models/Entry.js:75-80 | ranking keeps each standing's summary |
| Ledger.SortedSummarise | backend/models/Entry.js:68-69 | sorting keeps each standing's summary |
| Ledger.StrictOrder | backend/models/Entry.js:69 | for standings of distinct houses the order is strict: more points, or equal points and an earlier name |
| Ledger.InsertByTime | backend/models/Entry.js:35 | inserting keeps the list newest first and adds exactly that row |
| Ledger.NoneNewer | backend/models/Entry.js:35 | the head of a newest-first list is at least as new as every row of its tail with an older row inserted |
| Ledger.SortNewestFirst | backend/models/Entry.js:35 | `ORDER BY e.timestamp DESC` gives a permutation, newest first |
| Ledger.EntriesInTimeWindow | backend/models/Entry.js:28-44 | a row is returned iff it joins a house and is no older than `minutes`; each such row as often as stored; newest first |
| Ledger.NewestPrefix | backend/models/Entry.js:96-97 | cutting a newest-first list leaves nothing newer behind than what is kept |
| Ledger.TakeNewest | backend/models/Entry.js:96-97 | `LIMIT k` keeps min(k, n) rows, newest first, drawn from the input, none older than a dropped row |
| Ledger.PrefixRest | backend/models/Entry.js:96-97 | the rows `LIMIT` drops are exactly the rows after the cut |
| Ledger.RecentActivity | backend/models/Entry.js:88-105 | fails iff the limit is NaN or negative; otherwise the `limit` newest joined rows, newest first |
| Ledger.PositivePoints | backend/models/Entry.js:118 | the sum of the positive points is not negative |
| Ledger.NegativePoints | backend/models/Entry.js:119 | the sum of the negative points is not positive |
| Ledger.SignsAddUp | backend/models/Entry.js:114-119 | positive plus negative points is the total |
| Ledger.MaxPoints | backend/models/Entry.js:116 | `MAX(points)` is one row's points and at least every row's points |
| Ledger.MinPoints | backend/models/Entry.js:117 | `MIN(points)` is one row's points and at most every row's points |
| Ledger.HouseStats | backend/models/Entry.js:108-131 | null iff the house has no entries; otherwise its count, its sum, the sums of its positive and of its negative points, and the min and max attained by its entries |
| Ledger.PositivePointsFiltered | backend/models/Entry.js:118 | `SUM(CASE WHEN points > 0 ...)` is the total of the rows with positive points |
| Ledger.NegativePointsFiltered | backend/models/Entry.js:119 | `SUM(CASE WHEN points < 0 ...)` is the total of the rows with negative points |
| Ledger.RetentionSplits | backend/models/Entry.js:134-146 | the kept and the deleted rows partition the table: kept rows are at most `daysOld` days old, deleted rows older |
| Ledger.FilterKeepsIdsAscending | backend/models/Entry.js:136-141 | deleting rows keeps ids ascending |
| Ledger.Restamp | backend/utils/dataGenerator.js:142-145 | `UPDATE ... WHERE id = ?` changes the timestamp of the rows with that id and nothing else |
| Ledger.CountIdAtMostOne | backend/config/database.js:58 | with ascending ids, an id names at most one row, and one exactly when it is present |
| Ledger.EntryTable.constructor | backend/config/database.js:56-66 | a table over rows with ascending ids continues numbering after the last id |
| Ledger.EntryTable.Save | backend/models/Entry.js:12-20 | fails, changing nothing, exactly when the INSERT is refused; otherwise appends the row with the next `AUTO_INCREMENT` id and now's time, and returns that id |
| Ledger.AppendFits | backend/models/Entry.js:12-20 | appending an accepted INSERT under the next id keeps ids ascending and every row within its columns and below the new next id |
| Ledger.EntryTable.DeleteOldEntries | backend/models/Entry.js:134-146 | with `daysOld` defaulting to 30, keeps the retained rows and returns the count deleted |
| Ledger.EntryTable.SetTimestamp | backend/utils/dataGenerator.js:142-145 | re-stamps the row with that id; the affected count is 1 iff such a row exists |
| Ledger.RestampKeepsRows | backend/utils/dataGenerator.js:142-145 | re-stamping leaves ids ascending and every row within its columns |
| Ledger.Pick | backend/models/Entry.js:167-168 | `Math.floor(Math.random() * n)` is an index below n |
| Ledger.GenerateRandomEntry | backend/models/Entry.js:149-177 | a valid house; one of the 13 reasons; 10..59 points for the first 8 reasons, -34..-5 for the other 5; never 0 points |
| Ledger.EveryDraftDrawn | backend/models/Entry.js:167-176 | every house, reason and point value in those ranges is drawn by some random numbers |
| LedgerLaws.WiderWindowKeeps | backend/models/Entry.js:62-65 | a wider window counts every entry a narrower one counts |
| LedgerLaws.SameLast | backend/models/Entry.js:55 | a non-empty sub-list holding every row at least as new as its own rows has the same latest time |
| LedgerLaws.WiderWindowSameLast | backend/models/Entry.js:55-65 | a house active in a window has the same last activity in every wider window |
| LedgerLaws.AppendCounts | backend/models/Entry.js:12-20 | a new entry adds its points and one entry to its own house in every window, and nothing to the others |
| LedgerLaws.AppendInWindow | backend/models/Entry.js:28-44 | a new entry shows up in every time window |
| LedgerLaws.AllTimeTotal | backend/models/Entry.js:53-57 | without a window a house's total is the sum of all its entries |
| LedgerLaws.PointsOfStep | backend/models/Entry.js:53 | one step of that sum |
| LedgerLaws.SeedHouse | backend/config/database.js:79-87 | a house's all-time total over the sample rows |
| LedgerLaws.SeedTotals | backend/config/database.js:79-87 | the sample rows give Gryffindor 30, Slytherin 55, Ravenclaw 40, Hufflepuff 35 |
| LedgerLaws.SeedOrder | backend/models/Entry.js:69 | standings with those totals in leaderboard order are Slytherin, Ravenclaw, Hufflepuff, Gryffindor |
| LedgerLaws.RankedLikeSeed | backend/models/Entry.js:47-85 | any ledger with those totals gets that all-time leaderboard, ranked 1..4 |
| LedgerLaws.SeedLeaderboard | backend/config/database.js:79-87 | the freshly seeded database's all-time leaderboard is Slytherin 55, Ravenclaw 40, Hufflepuff 35, Gryffindor 30 |
| DataGenerator.EffectiveDelay | backend/utils/dataGenerator.js:48-50 | the delay a timer actually gets is within 1..2147483647 ms and equals the asked delay when that is in range |
| DataGenerator.Notices | backend/utils/dataGenerator.js:22-30 | one call per listener, in order, each with the data, marking which threw |
| DataGenerator.Timers.constructor | backend/utils/dataGenerator.js:48 | no timers are active |
| DataGenerator.Timers.SetInterval | backend/utils/dataGenerator.js:48-50 | registers a fresh non-zero handle with the effective delay |
| DataGenerator.Timers.ClearInterval | backend/utils/dataGenerator.js:62 | removes exactly that handle |
| DataGenerator.Announced | backend/utils/dataGenerator.js:75-82 | the announced record carries the saved id, the drawn house, points and reason, now's time and `type: 'new_entry'` |
| DataGenerator.BulkRecordsSpec | backend/utils/dataGenerator.js:97-114 | the bulk result holds one record per successful attempt, with consecutive ids, matching the rows saved, each for a valid house with non-zero points |
| DataGenerator.BulkAdvance | backend/utils/dataGenerator.js:100-110 | one loop iteration extends the records, rows and calls by exactly the attempt's outcome; a failed attempt is skipped |
| DataGenerator.BulkNext | backend/utils/dataGenerator.js:100-104 | one more attempt adds its record and its row exactly when it reaches the database, both under the id that follows the earlier records |
| DataGenerator.BulkLengths | backend/utils/dataGenerator.js:100-110 | as many records are returned as rows are saved |
| DataGenerator.BulkCallsStep | backend/utils/dataGenerator.js:87 | the listener calls of one more record are appended to those so far |
| DataGenerator.AllFixturesSaved | backend/utils/dataGenerator.js:117-154 | when the store works, the six fixtures are saved in order, each with its house, points and reason, dated its `minutesAgo` before now |
| DataGenerator.FixtureFits | backend/utils/dataGenerator.js:120-132 | every fixture is a valid insert; only an unavailable store refuses it |
| DataGenerator.Generator.SaveFixture | backend/utils/dataGenerator.js:134-151 | one fixture step appends one row, re-stamped when the UPDATE works, or nothing when the INSERT fails, and keeps the table valid |
| DataGenerator.RestampLast | backend/utils/dataGenerator.js:142-145 | re-stamping the newest id changes only the last row |
| DataGenerator.Generator.constructor | backend/utils/dataGenerator.js:5-9 | not running, no timer, no listeners |
| DataGenerator.Generator.GetStatus | backend/utils/dataGenerator.js:157-163 | the running flag, the number of listeners, and whether a timer is held, which is set exactly while running |
| DataGenerator.Generator.AddListener | backend/utils/dataGenerator.js:12-14 | appends the listener; nothing else changes |
| DataGenerator.Generator.RemoveListener | backend/utils/dataGenerator.js:17-19 | removes every copy of the listener and keeps all others in order |
| DataGenerator.Generator.NotifyListeners | backend/utils/dataGenerator.js:22-30 | calls every listener once, in order; a listener that throws stops none of the others |
| DataGenerator.Generator.GenerateAndSaveEntry | backend/utils/dataGenerator.js:70-94 | fails with nothing saved and nobody notified iff the store fails; otherwise saves the drawn entry under the next id, notifies every listener, and returns the record |
| DataGenerator.Generator.Start | backend/utils/dataGenerator.js:33-51 | already running: nothing changes; otherwise running, one entry generated at once, and a fresh timer at `intervalMinutes * 2 * 1000` ms (default 1) |
| DataGenerator.Generator.Tick | backend/utils/dataGenerator.js:48-50 | a timer tick generates and saves one entry |
| DataGenerator.Generator.Stop | backend/utils/dataGenerator.js:54-67 | afterwards not running and no timer; a held timer is cleared |
| DataGenerator.Generator.GenerateBulkEntries | backend/utils/dataGenerator.js:97-114 | runs `count` attempts; returns the records of the successful ones; the table gains exactly their rows; listeners hear of each, in order |
| DataGenerator.Generator.SaveAttempts | backend/utils/dataGenerator.js:100-110 | the attempts in order give the bulk records, the table gains exactly their rows, and listeners hear of each record |
| DataGenerator.Generator.SaveAttempt | backend/utils/dataGenerator.js:100-110 | one turn of the loop extends the records, the rows and the calls by exactly that attempt's outcome |
| DataGenerator.Generator.GenerateTestData | backend/utils/dataGenerator.js:117-154 | the table gains exactly the fixture rows whose INSERT worked, back-dated when their UPDATE worked; a failure skips to the next fixture |
| DataGenerator.BulkIterations | backend/utils/dataGenerator.js:97-100 | `for (i = 0; i < count; i++)` runs 10 times for a missing count, `count` times for a positive number, and not at all otherwise |
| Controller.TimeWindowMinutes | backend/controllers/leaderboardController.js:12-26 | 5min, 1hour and 24hours give 5, 60 and 1440 minutes; every other value, or none, means all time |
| Controller.WindowLabel | backend/controllers/leaderboardController.js:32 | the reply echoes `timeWindow`, or `'all'` when it is missing or empty |
| Controller.GetLeaderboard | backend/controllers/leaderboardController.js:6-43 | 500 when the store fails; otherwise 200 with the echoed window and one ranked standing per house summarising the window, ordered by points descending, then by name ascending |
| Controller.UnknownWindowIsAllTime | backend/controllers/leaderboardController.js:22-25 | an unknown window ranks exactly like `all` |
| Controller.LimitValue | backend/controllers/leaderboardController.js:47-48 | the limit defaults to 10 and is otherwise `parseInt` of the query, hexadecimal after a `0x` prefix |
| Controller.GetRecentActivity | backend/controllers/leaderboardController.js:45-62 | 500 iff the store fails or the limit is NaN or negative; otherwise 200 with min(`limit`, n) joined entries, newest first, none left out newer than one returned |
| Controller.DefaultLimit | backend/controllers/leaderboardController.js:47 | no limit behaves exactly like `limit=10` |
| Controller.ReadsSixteen | backend/controllers/leaderboardController.js:47-48 | `parseInt('16')` is 16 |
| Controller.HexLimit | backend/controllers/leaderboardController.js:47-48 | `limit=0x10` reads as 16, and the reply is that of `limit=16` |
| Controller.SameLimit | backend/controllers/leaderboardController.js:47-48 | two limits parsing to the same number give the same reply |
| Controller.ReadsTen | backend/controllers/leaderboardController.js:47-48 | `parseInt('10')` is 10 |
| Controller.EntryCheckAsWritten | backend/controllers/leaderboardController.js:66-94 | `addEntry`'s checks in their order: house and points required; house one of four; the raw points compared with -100 and 100; then `parseInt(points)` stored |
| Controller.ReadsLeadingDigits | backend/controllers/leaderboardController.js:86-94 | for "150abc" the range check sees NaN and `parseInt` gives 150 |
| Controller.ReadsNoDigits | backend/controllers/leaderboardController.js:86-94 | for "abc" both give NaN |
| Controller.NonNumbersPass | backend/controllers/leaderboardController.js:86-94 | any points text that `Number()` rejects passes the range check and reaches the INSERT as its `parseInt` |
| Controller.RangeCheckBypassed | backend/controllers/leaderboardController.js:86-94 | "150abc" is stored as 150, and "abc" reaches the INSERT as NaN |
| Controller.EntryCheck | backend/controllers/leaderboardController.js:66-94 | the same checks, but the parsed points must be a number within -100..100; every insert is within range |
| Controller.ChecksAgreeOnNumbers | backend/controllers/leaderboardController.js:86-94 | for points sent as a JSON number the two checks agree |
| Controller.EntryCheckRejectsBypass | backend/controllers/leaderboardController.js:86-91 | the corrected check rejects "150abc" and "abc" |
| Controller.EntryOutcome | backend/controllers/leaderboardController.js:94-113 | a rejection is a 400 with its message; NaN points or a refused INSERT are a 500; otherwise a 201 with the next id, and the row is appended |
| Controller.SaveDecision | backend/controllers/leaderboardController.js:94-113 | carries out a decision: the response and the new rows are exactly `EntryOutcome`'s, and the table stays valid |
| Controller.AddEntry | backend/controllers/leaderboardController.js:64-114 | the response and the new rows are `EntryOutcome` of the checks as written: "150abc" is stored as 150, and "abc" gives 500 |
| Controller.AddEntryAsIntended | backend/controllers/leaderboardController.js:64-114 | the same handler with the corrected check: every stored entry has points within -100..100 |
| Controller.BypassOutcomes | backend/controllers/leaderboardController.js:86-109 | as written, "150abc" gets 201 and a row of 150 points, and "abc" gets 500 and changes nothing |
| Controller.BypassOutcomesAsIntended | backend/controllers/leaderboardController.js:86-91 | with the corrected check both get 400 and change nothing |
| Controller.AcceptedEntryFits | backend/controllers/leaderboardController.js:64-114 | an entry that passes the checks and has a short enough reason is never refused by a working store |
| Controller.GetHouseStats | backend/controllers/leaderboardController.js:116-151 | 400 iff the house is unknown; 500 on a store failure; 404 iff the house has no entries; otherwise 200 with the statistics that `Ledger.HouseStats` computes for its entries, including the sums of the positive and of the negative points and the attained min and max |
| Controller.SocketEntryCheck | backend/server.js:118-131 | the socket `add-entry` check: "Invalid entry data" iff the house is not one of four or the points are missing; otherwise `parseInt(points)` is saved, hexadecimal after a `0x` prefix, with no range check |
| Controller.SocketAcceptsWritten | backend/server.js:118-131 | whatever `POST /entries` as written inserts, the socket handler inserts alike |
| Controller.LargeNumbersRefused | backend/controllers/leaderboardController.js:86-91 | points text that `Number()` reads as an integer above 100 gets "out of range" |
| Controller.HexPointsRefused | backend/controllers/leaderboardController.js:86-91 | the points "0x96" read as 150 and get "out of range" |
| Controller.SocketReadsHex | backend/server.js:123-130 | the socket handler saves the points "0x10" as 16 |
| Controller.SocketSkipsRange | backend/server.js:118-131 | the socket handler saves 150 points, which `POST /entries` refuses as out of range |
| Controller.ControlDecision | backend/controllers/leaderboardController.js:156-181 | which generator call an action makes; `intervalMinutes` defaults to 1 and `count` to 10 when falsy; an unknown action makes none |
| Controller.BulkDefaultsToTen | backend/controllers/leaderboardController.js:170-171 | a bulk request without a count generates ten entries |
| Controller.StartDefaultsToTwoSeconds | backend/controllers/leaderboardController.js:159-161 | a start request without an interval sets a 2000 ms timer |
| Controller.ControlDataGenerator | backend/controllers/leaderboardController.js:154-198 | 400 for an unknown action, changing nothing; 500 when a single generate fails; otherwise 200 with the action and the status after the call. The call is the one `ControlDecision` names: generate adds one row and notifies; bulk adds `BulkRows` of `count \|\| 10` attempts with their notices; test adds `FixtureRows`; start, when not running, sets a timer of `EffectiveDelay(IntervalMs(intervalMinutes \|\| 1))` and generates once, and is a no-op when running; stop clears the held timer |
| Controller.GetEntriesInTimeWindow | backend/controllers/leaderboardController.js:220-247 | 400 iff `minutes` is missing, empty or not a number; 500 on store failure; otherwise 200 with the label "`minutes` minutes", the count, and exactly `Ledger.EntriesInTimeWindow` of the parsed minutes: each joined entry of the window as often as it is stored, newest first |
| AdminControls.HouseChoicesAreHouses | frontend/src/components/AdminControls.js:237 | the select offers exactly the four houses, in table order |
| AdminControls.WithField | frontend/src/components/AdminControls.js:239-244 | the named field takes the value and the other two are kept |
| AdminControls.ReasonOf | frontend/src/components/AdminControls.js:263 | none iff the reason is all white space; otherwise the trimmed text |
| AdminControls.Validate | frontend/src/components/AdminControls.js:246-264 | "fill in" iff house or points is empty; "out of range" iff `parseInt` of the points is NaN or outside -100..100; otherwise the house, the parsed points and the trimmed reason |
| AdminControls.ValidateAcceptsRendered | frontend/src/components/AdminControls.js:254-264 | typing a number's decimal text is accepted with that number iff it lies in -100..100 |
| AdminControls.AcceptedFormPassesServer | frontend/src/components/AdminControls.js:260-264 | every accepted form is taken by the socket `add-entry` handler the dashboard sends it to, with its points as they stand, and would also pass `POST /entries`' checks, as written and corrected |
| AdminControls.SubmissionPassesServer | backend/controllers/leaderboardController.js:69-94 | a submission for a house with in-range numeric points passes the socket check and both `POST /entries` checks unchanged |
| AdminControls.StartButtonInterval | frontend/src/components/AdminControls.js:308 | the Start button asks for interval 1, which `intervalMinutes \|\| 1` passes on unchanged |
| AdminControls.AdminPanel.constructor | frontend/src/components/AdminControls.js:231-235 | the form starts empty |
| AdminControls.AdminPanel.HandleFormChange | frontend/src/components/AdminControls.js:239-244 | only the named field changes; nothing is submitted |
| AdminControls.AdminPanel.HandleSubmit | frontend/src/components/AdminControls.js:246-272 | a rejected form is kept and nothing is sent; an accepted one is sent once and the form is cleared |
| AdminControls.EmptyFormRejected | frontend/src/components/AdminControls.js:249-252 | a cleared form is rejected as incomplete |
| App.PrependActivity | frontend/src/App.js:79-80 | the new item first, then the previous items in order, at most 20 in all |
| App.Take | frontend/src/App.js:80 | `slice(0, n)` has min(len, n) items |
| App.Reversed | frontend/src/App.js:80 | the items in reverse order |
| App.TakeOfTake | frontend/src/App.js:80 | cutting twice to the same length is cutting once |
| App.NewEntriesKeepNewest | frontend/src/App.js:79-80 | after any run of `new-entry` events the list is the newest arrivals, newest first, then the earlier list, cut to 20 |
| App.GetHouseColor | frontend/src/App.js:169-177 | a house's colour from the `houses` table, `#333` for anything else |
| App.HouseColorsAgree | frontend/src/App.js:169-177 | the dashboard's colours are those of the `houses` table |
| App.AppState.constructor | frontend/src/App.js:38-45 | disconnected, live updates on, window `all`, empty board and activity, no update time |
| App.AppState.OnConnect | frontend/src/App.js:62-65 | sets the flag; the activity is loaded only on a change from disconnected |
| App.AppState.OnDisconnect | frontend/src/App.js:67-70 | clears the flag; nothing else changes |
| App.AppState.OnLeaderboardUpdate | frontend/src/App.js:72-77 | with live updates on, replaces the board and stamps the time; otherwise nothing changes |
| App.AppState.OnNewEntry | frontend/src/App.js:79-80 | prepends the item to the activity list, keeping 20 |
| App.AppState.OnGeneratorStatus | frontend/src/App.js:92-94 | replaces the generator status |
| App.AppState.FetchActivityData | frontend/src/App.js:114-126 | only a successful body replaces the activity list |
| App.AppState.HandleTimeWindowChange | frontend/src/App.js:128-134 | the window is always chosen; a leaderboard request is sent only while connected |
| App.AppState.ToggleLiveUpdates | frontend/src/App.js:136-142 | flips the live-updates switch only |
| App.AppState.HandleAddEntry | frontend/src/App.js:144-151 | sends the entry only while connected |
| App.AppState.HandleControlGenerator | frontend/src/App.js:153-167 | sends `{ action, ...options }` only while connected |
| App.Loaded | frontend/src/App.js:119-121 | a successful body's data, or the old list |
| ActivityFeed.DiffInMinutes | frontend/src/components/ActivityFeed.js:172 | the elapsed whole minutes, rounded down |
| ActivityFeed.AgeOf | frontend/src/components/ActivityFeed.js:174-177 | "just now" iff under one minute; minutes under an hour; whole hours under a day; whole days beyond |
| ActivityFeed.ReadsNumberBefore | frontend/src/components/ActivityFeed.js:175-177 | the number in front of a suffix reads back |
| ActivityFeed.OtherSuffixFails | frontend/src/components/ActivityFeed.js:175-177 | a label with one unit does not read as another |
| ActivityFeed.ParseRender | frontend/src/components/ActivityFeed.js:174-177 | each label reads back as its unit and number, so no two ages share a label |
| ActivityFeed.FormatTimeReadsBack | frontend/src/components/ActivityFeed.js:169-178 | `formatTime`'s label states the elapsed time in its unit, rounded down |
| ActivityFeed.PointsLabel | frontend/src/components/ActivityFeed.js:245 | the label starts with '+' iff the points are positive and with '-' iff negative |
| ActivityFeed.PointsLabelRoundTrip | frontend/src/components/ActivityFeed.js:245 | `parseInt` and `Number()` read the label back as the points |
| ActivityFeed.PlusSignRoundTrip | frontend/src/components/ActivityFeed.js:245 | a '+' before a natural number's digits reads back as that number |
| ActivityFeed.TypedReasonShown | frontend/src/components/ActivityFeed.js:249-253 | a reason typed in the admin form is shown iff it has a character other than white space |
| JsText.IntToStringRoundTrip | backend/controllers/leaderboardController.js:94 | `parseInt` and `Number()` read an integer's decimal text back as that integer |
| JsText.HexParsed | backend/controllers/leaderboardController.js:48 | `parseInt` reads the digits after a `0x` prefix as hexadecimal, keeping a minus sign |
| JsText.HexNumber | backend/controllers/leaderboardController.js:86 | `Number()` reads an unsigned `0x` literal and gives NaN for a signed one |
| JsText.HexRead | backend/controllers/leaderboardController.js:48 | a `0x` literal reads the same for `parseInt` and `Number()`; with a minus sign only `parseInt` reads it |
| JsText.HexSixteen | backend/controllers/leaderboardController.js:48 | "0x10" reads as 16 for both; "-0x10" is -16 for `parseInt` and NaN for `Number()` |
| JsText.HexOneFifty | backend/controllers/leaderboardController.js:86-94 | "0x96" reads as 150 for both |
| JsText.HexPrefixOnly | backend/controllers/leaderboardController.js:48 | a `0x` prefix with no digit is NaN for `parseInt` |
| JsText.StringToNumberAgrees | backend/controllers/leaderboardController.js:86-94 | when `Number()` reads a non-blank text as an integer, `parseInt` reads it the same |

## Left out

- The HTTP and socket transports (the Express routes, socket.io) are not
  part of this model. Each handler is modelled from its parsed request to
  its status and body. The `timestamp` fields of replies
  (`new Date().toISOString()`) are left out.
- The dashboard does not call `POST /entries` or `POST /generator`. Its
  entries go to the socket `add-entry` handler (backend/server.js:118-156),
  whose check `Controller.SocketEntryCheck` models. Its generator buttons go
  to the socket `control-generator` handler (backend/server.js:159-173),
  which makes the same `start`, `stop` and `generate` calls as
  `Controller.ControlDecision`. The rest of those two socket handlers (the
  broadcasts after a save, the `error` events) is not modelled.
- `getGeneratorStatus` is not modelled as its own handler. It returns
  `getStatus()`, which `DataGenerator.Generator.GetStatus` models.
- `generateHouseBiasedEntry` is left out. Nothing in the core calls it.
- `AVG(points)` in `getHouseStats` is left out: it is a decimal, not an
  integer.
- Floating point is left out. Points, limits, intervals and counts are
  integers. `JsText.ParseInt` reads what `parseInt` with no radix reads: a
  sign, then hexadecimal digits after `0x` or `0X`, or else decimal digits.
  Its only gap is the rounding of values beyond 2^53. `JsText.StringToNumber`
  reads decimal integer text and unsigned `0x` literals. It gives NaN for
  every other text, where `Number()` reads a fraction, an exponent, a
  `0b` or `0o` literal or `Infinity` ("1.5", "1e3", "0b11", "Infinity") as
  a number. The answers that differ are below.
- Controller.GetEntriesInTimeWindow: `minutes=1.5` gets 400 in the model.
  The code passes `isNaN` and queries with `parseInt`, a 1-minute window,
  answering 200.
- Controller.GetEntriesInTimeWindow: a `minutes` of white space only passes
  `isNaN` and reaches the query as NaN. The model answers 500, taking the
  driver and MySQL to refuse NaN in `INTERVAL ? MINUTE`.
- Controller.EntryCheckAsWritten: points "150.5", "1e3" or "0b11111111"
  pass the range check in the model and insert 150, 1 or 0, where the code
  compares 150.5, 1000 or 255 with 100 and answers 400. Controller.AddEntry
  inherits this. Hexadecimal points are modelled: "0x96" is 150 and gets
  400, as `Controller.HexPointsRefused` states.
- DataGenerator.BulkIterations: a count of "2.5" makes no attempts in the
  model, where the code's `i < count` makes three.
- JsText.JsValue: a request field is missing, null, a boolean, an integer
  or a string. Arrays and objects are not modelled. A body with
  `"points": ["150abc"]` slips through the range check of
  `Controller.EntryCheckAsWritten` and is stored as 150 by the same route
  as "150abc", but the model cannot express that input.
- A `reason` that is neither a string, null nor missing (for example a
  number) is not modelled: `Controller.AddEntry` requires one of those
  three.
- Ledger.EntriesInTimeWindow, Ledger.RecentActivity: the joined rows leave
  out the `h.color` column of the queries. The activity feed uses it only
  as a fallback for an entry's colour, and the model takes colours from
  `Houses` instead.
- `getHouseColor` on an inherited object key such as "toString" is not
  modelled. Such a key finds a function on the prototype instead of `'#333'`.
- Controller.AddEntry: points that `parseInt` reads as NaN ("abc") reach
  the INSERT. The model takes the store to refuse NaN (strict mode), so the
  handler answers 500 and stores nothing. A server in non-strict mode would
  store 0 instead.
- Asynchrony is left out. Every operation runs to completion before the
  next, so interleavings of requests, timer ticks and socket events are not
  modelled.
- DataGenerator.Generator.Start: `start` and the timer tick call
  `generateAndSaveEntry` without awaiting it, and that method rethrows a
  failed save. The promise is rejected with no handler, and backend/server.js
  registers only `SIGINT` and `SIGTERM` handlers, so under Node 15 and later
  the process ends. The model records only that nothing was saved and does
  not model the end of the process.
- The 100 ms pause between bulk entries and the real scheduling of timers
  are left out. `DataGenerator.Timers` records which timers are active and
  their delays, and `Tick` is called explicitly.
- DataGenerator.Generator.NotifyListeners: a listener that adds or removes
  listeners while being notified is not modelled. Listeners are identities,
  and their effects are a recorded call.
- Ledger.GenerateRandomEntry: `Math.random()` is a real in [0, 1) passed
  in. The model does not state how likely each value is.
- Ledger.SortNewestFirst and the queries that use it: ties in
  `ORDER BY timestamp DESC` have no defined order in SQL. The contracts state
  the order and the permutation, not which of two equal-time rows comes first.
- Ledger.EntryTable.Save: the database's own clock and `AUTO_INCREMENT`
  gaps after a failed INSERT are not modelled. A failed INSERT leaves the
  next id unchanged.
- App.AppState.OnLeaderboardUpdate: the live-updates flag is read through a
  ref updated by an effect after render. The model reads the state directly,
  so the moment between a toggle and the effect is not modelled.
- Toasts, animations, rendering and the expand/collapse state of the admin
  panel are left out. They change no modelled state.
- App.AppState.constructor: `generatorStatus` starts as
  `{ isRunning: false }` in the code and as none in the model. The server
  replaces it whole on the first `generator-status` event.

## Findings

| source | as written | input that shows it | evidently intended | confidence | as-written member | corrected member |
|---|---|---|---|---|---|---|
| backend/controllers/leaderboardController.js:86-94 | the range check compares the raw `points` with -100 and 100, then `parseInt(points)` is stored; a text that `Number()` cannot read compares false both ways | `{"house": "Gryffindor", "points": "150abc"}` passes and stores 150; `"points": "abc"` reaches the INSERT as NaN | parse first, then reject NaN and values outside -100..100 with 400 | not executed | Controller.BypassOutcomes | Controller.AddEntryAsIntended |
