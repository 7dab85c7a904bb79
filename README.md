# Aegis review-fraud dashboard: a Dafny model of its logic

Aegis is a review-fraud detection dashboard. A Flask back end keeps access
requests, approved users and saved classifications in MongoDB, and an
administrator's command-line tool approves or denies requests. A React front
end logs users in. It reads a CSV of reviews in the browser, sends it to a
classifier (or labels it with an offline keyword rule), and shows the results
in a filterable table, a summary chart and a force-directed review graph. It
also collects feedback.

This project models the logic inside those pieces and proves what each one
promises:

- `AccessStore` (`access_store.dfy`): the back end's route handlers. They are
  methods of a `Database` class whose collections are sequences of records in
  insertion order. `find_one` is "the first match", and each handler returns
  the reply it sends, with its HTTP code.
- `AdminCli` (`admin_cli.dfy`): the administrator's `approve` and `deny`, the
  `--role`/`--reason` argument loop and the dispatch of the main block.
- `CsvUpload` (`csv_upload.dfy`): the upload's character-by-character line
  scanner, and the loop that turns lines into reviews.
- `ResultsTable` (`results_table.dfy`): the table's search and label filter,
  and the text of its CSV download.
- `FraudChart` (`fraud_chart.dfy`): the chart's counts, percentages and
  average confidence.
- `MockData` (`mock_data.dfy`): the offline classifier, and the consistency of
  the sample network graph.
- `Dashboard` (`dashboard.dfy`): the page state between upload and
  classification, and where the predictions are found in the classifier's
  reply.
- `NetworkGraph` (`network_graph.dfy`): node initialisation, one tick of the
  force simulation (an in-place loop over an array), and which edges are
  drawn.
- `GraphView` (`graph_view.dfy`): zoom, reset, pause and pan as a state
  machine.
- `AuthContext` (`auth_context.dfy`): the browser session, and how a login
  reply becomes a user or an error message.
- `Feedback` (`feedback.dfy`): the feedback form's field updates, validation,
  submission record and reset.
- `Text` and `Wrappers`: the runtime string functions the code relies on
  (`trim`, `strip`, `toLowerCase`, `includes`, `split`, `join`, `padStart`,
  `String(n)`), and `Option`/`Result`.

Some inputs come from the environment in the source. Here they are
parameters:
- the random draws (`Math.random()`);
- the current time string (`new Date().toISOString()`);
- `Math.sqrt`, `Math.cos` and `Math.sin`;
- `toFixed(4)`;
- the HTTP replies that the front end awaits.

Numbers are exact `real`s.

The upload component calls its input CSV: `parseCSVLine` is documented as
parsing a CSV line, and the upload form accepts `.csv` files
(frontend/src/components/CSVUpload.js lines 13-14 and 153-165). The format
it reads is not RFC 4180, however, and the model follows the code. Every
field is trimmed. A quote in the middle of a field toggles quoting. A field
never continues past a newline.

## Model

| member | source | states |
|---|---|---|
| AccessStore.FirstIndex | backend/mongo_connection.py:71 | `find_one`: the index found satisfies the filter and no earlier record does; none exactly when no record does |
| AccessStore.ProfileOf | backend/mongo_connection.py:73-77 | the login's user object copies username and email, with role defaulting to `'user'` |
| AccessStore.Database.Login | backend/mongo_connection.py:63-85 | 400 exactly when the stripped username or the password is empty. 200 exactly when an approved user has that username and password, returning the profile of the first such user in insertion order, as `find_one` does. 403 exactly when none does and the first request with that username is pending. 401 otherwise |
| AccessStore.Database.CreateAccessRequest | backend/mongo_connection.py:160-186 | 400 for a missing field. 400 when an approved user, or else an existing request, has the username or email. Otherwise exactly one pending request is appended, and nothing else changes. Distinct usernames and emails among requests are preserved |
| AccessStore.Database.CheckRequestStatus | backend/mongo_connection.py:203-222 | `'approved'` exactly when an approved user has the name, whatever the request says. 404 exactly when neither collection has it. Otherwise the stored status of the first request, unchanged |
| AccessStore.Database.ListAccessRequests | backend/mongo_connection.py:235-255 | the loop returns `Listings`: the requests passing the optional status filter, in order, without passwords |
| AccessStore.Listings | backend/mongo_connection.py:240 | at most one listing per request; the password is projected out |
| AccessStore.ListingsSound | backend/mongo_connection.py:236-253 | every listed entry is the projection of a request that passes the filter, and every such request is listed |
| AccessStore.ChosenRole | backend/mongo_connection.py:284 | the body's non-empty role wins, then the request's role, then `'user'` |
| AccessStore.UserFrom | backend/mongo_connection.py:280-286 | the new approved user copies the request's username, email and password, with the chosen role |
| AccessStore.Database.ApproveAccessRequest | backend/mongo_connection.py:268-292 | 404 with no change when there is no request. Otherwise the request becomes `'approved'`. A user is appended exactly when no approved user shares the username or the request's email. Distinctness of users and of requests is preserved |
| AccessStore.DeniedWith | backend/mongo_connection.py:313-315 | status becomes `'denied'`; the reason is set only when non-empty; every other field is kept |
| AccessStore.Database.DenyAccessRequest | backend/mongo_connection.py:305-319 | 404 with no change without a request; otherwise only that request changes, to `DeniedWith`; approved users untouched |
| AccessStore.CountLabels | backend/mongo_connection.py:343-344 | a label count never exceeds the number of predictions |
| AccessStore.CountLabelsDisjoint | backend/mongo_connection.py:343-344 | counts under disjoint label sets add up to at most the number of predictions |
| AccessStore.Summarize | backend/mongo_connection.py:340-347 | total is the list length; fraud counts `'Fraud'`; legitimate counts `'Legitimate'` or `'Benign'`; fraud plus legitimate is at most total; username defaults to `'Anonymous'` |
| AccessStore.Database.SaveClassification | backend/mongo_connection.py:336-355 | 400 exactly for an empty list, with nothing stored. Otherwise exactly one `Summarize` record is appended, and `total_saved` is the list length |
| AdminCli.Approve | backend/admin_approve.py:27-48 | no change without a request. Only the request is marked approved when an approved user shares the username or email. Otherwise one user is appended, copied from the request with the given role, and the request is marked approved |
| AdminCli.Deny | backend/admin_approve.py:51-60 | no change without a request; otherwise status `'denied'`, with the reason stored only when one is given |
| AdminCli.FlagValueIsLast | backend/admin_approve.py:74-78 | the scanned flag value is the word after the last occurrence that has a following word; none exactly when there is no such occurrence |
| AdminCli.TrailingFlagIgnored | backend/admin_approve.py:75-78 | a flag in the last position, with no word after it, changes nothing |
| AdminCli.ParseFlags | backend/admin_approve.py:70-78 | the loop leaves role = last `--role` value, else `'user'`, and reason = last `--reason` value, else none |
| AdminCli.Run | backend/admin_approve.py:63-85 | fewer than three words gives exactly the usage message. The tool runs `approve` exactly when the command word is `approve`, and `deny` exactly when it is `deny`. Either one acts on the username `argv[2]`. `approve` uses the role parsed from `--role` (default `'user'`), and `deny` the parsed `--reason`. Each gives the not-found case and the whole new state of both collections, as `Approve` and `Deny` do. Any other command changes no collection |
| CsvUpload.ParseCsvLine | frontend/src/components/CSVUpload.js:14-43 | the loop computes `Fields(line)`, the scanner's result |
| CsvUpload.Scan | frontend/src/components/CSVUpload.js:19-42 | the scanner, one character at a time, as `parseCSVLine`'s loop does. Its contract is stated by `ScanShape` (one field per separator plus one, all trimmed, earlier fields kept), `ScanEscaped` and `ScanPlain` |
| CsvUpload.Fields | frontend/src/components/CSVUpload.js:14-43 | `parseCSVLine` of a whole line. Its contract is stated by `FieldsShape`, `QuotedRoundTrip` and `PlainJoinRoundTrip`, and `ParseCsvLine` is proved equal to it |
| CsvUpload.FieldsShape | frontend/src/components/CSVUpload.js:19-42 | at least one field; exactly one more field than commas outside quotes; every field trimmed at both ends |
| CsvUpload.ScanShape | frontend/src/components/CSVUpload.js:31-41 | from any state, one field per separator plus one, all trimmed, earlier fields kept |
| CsvUpload.ScanEscaped | frontend/src/components/CSVUpload.js:22-30 | inside quotes, a doubled quote adds one `"`, a comma is an ordinary character, and the closing quote ends quoting without adding anything |
| CsvUpload.QuotedRoundTrip | frontend/src/components/CSVUpload.js:19-42 | a field written in quotes with doubled inner quotes reads back as itself, trimmed, whatever commas and quotes it holds |
| CsvUpload.PlainJoinRoundTrip | frontend/src/components/CSVUpload.js:31-41 | fields without quotes or commas, joined by commas, read back as the same fields trimmed |
| CsvUpload.ReviewOf | frontend/src/components/CSVUpload.js:101-105 | id is field 0, else `'R'` + the line index padded to 3 digits; text is field 5, else field 1; timestamp is field 8, else now |
| CsvUpload.ReviewsOfLine | frontend/src/components/CSVUpload.js:97-107 | a blank line is skipped; a line parsing to fewer than two fields is skipped; otherwise its review |
| CsvUpload.ReviewsFromLines | frontend/src/components/CSVUpload.js:95-108 | the loop from line 1 computes `ReviewsUpTo` over all lines |
| CsvUpload.ReviewsFromCsv | frontend/src/components/CSVUpload.js:92-108 | the reviews of the `'\n'`-split text, fewer than the number of lines |
| CsvUpload.ReviewsFromKeptLines | frontend/src/components/CSVUpload.js:96-106 | every review comes from a kept line other than line 0, and every kept line other than line 0 gives its review |
| CsvUpload.FallbackIdsDistinct | frontend/src/components/CSVUpload.js:102 | two reviews with fallback ids that are equal come from the same line |
| ResultsTable.FirstSet | frontend/src/components/ResultsTable.js:14-15 | a `\|\|` chain: empty exactly when all options are empty, else the first non-empty option |
| ResultsTable.Filtered | frontend/src/components/ResultsTable.js:13-20 | never more rows than the results |
| ResultsTable.FilteredIsSubsequence | frontend/src/components/ResultsTable.js:13-20 | the shown rows are an order-preserving subsequence of the results |
| ResultsTable.FilteredMembers | frontend/src/components/ResultsTable.js:16-19 | a row is shown exactly when it is a result, matches the case-insensitive search on id or name, and passes the label filter |
| ResultsTable.FilteredLabel | frontend/src/components/ResultsTable.js:18 | with a filter other than `'all'`, every shown row has exactly that label |
| ResultsTable.EmptySearchShowsAll | frontend/src/components/ResultsTable.js:16-18 | an empty search with filter `'all'` shows every row, in order |
| ResultsTable.AllLabelsSearchOnly | frontend/src/components/ResultsTable.js:18 | with filter `'all'` only the search decides |
| ResultsTable.ExportCells | frontend/src/components/ResultsTable.js:26-31 | four cells: `reviewerId`, else `reviewerID`; `reviewerName`; label or `''`; the formatted confidence |
| ResultsTable.ExportRows | frontend/src/components/ResultsTable.js:26-31 | one row per result of the full list, in order |
| ResultsTable.ExportCsv | frontend/src/components/ResultsTable.js:23-32 | the header line and the rows, joined by newlines. Its contract is stated by `ExportLines` (header first, then exactly one line per result) |
| ResultsTable.ExportLines | frontend/src/components/ResultsTable.js:23-32 | when no cell holds a newline, splitting the export on newlines gives the header line, then exactly one line per result |
| ResultsTable.ExportRowCells | frontend/src/components/ResultsTable.js:26-31 | a row without commas in its cells splits back into exactly its four cells (no quoting is written) |
| ResultsTable.ExportRowParses | frontend/src/components/ResultsTable.js:26-31 | the upload's parser reads an exported row of plain cells back as its cells, trimmed |
| FraudChart.CountLabel | frontend/src/components/FraudChart.js:6-7 | a label count never exceeds the number of rows |
| FraudChart.CountLabelExtremes | frontend/src/components/FraudChart.js:6-7 | the count is 0 exactly when no row has the label, and it equals the row count exactly when every row has it |
| FraudChart.CountTwoLabels | frontend/src/components/FraudChart.js:6-8 | rows counted under two different labels add up to at most the total |
| FraudChart.Summary | frontend/src/components/FraudChart.js:6-15 | the counts of `'Fraud'` and `'Benign'`, the total, and fraud + benign ≤ total |
| FraudChart.EmptySummary | frontend/src/components/FraudChart.js:10-15 | with no rows, both percentages and the average are 0 |
| FraudChart.SummaryPercentages | frontend/src/components/FraudChart.js:10-11 | each percentage lies in [0, 100] and the two add up to at most 100 |
| FraudChart.Percentage | frontend/src/components/FraudChart.js:10-11 | `total > 0 ? count / total * 100 : 0`. Its contract is stated by `PercentageBounds` (within [0, 100] when the count is at most the total) and `PercentageAdds` (the percentages of two counts add up to the percentage of their sum) |
| FraudChart.SumConfidence | frontend/src/components/FraudChart.js:14 | the `reduce` over the confidences. Its contract is stated by `SumConfidenceBounds` (between 0 and the row count when every confidence lies in [0, 1]) |
| FraudChart.AverageBounds | frontend/src/components/FraudChart.js:13-15 | when every confidence lies in [0, 1], so does the average |
| MockData.ClassifyOne | frontend/src/mock/mockData.js:119-135 | `'Fraud'` exactly when a keyword occurs in the lower-cased text or there are more than two `!`, else `'Benign'`. Text copied. The id is kept, else `'R'` + index+1 padded to 3 digits. The timestamp is kept, else now |
| MockData.IsFraud | frontend/src/mock/mockData.js:119-124 | the keyword-or-exclamation rule. Its contract is stated by `ClassifyOne` (the label is `'Fraud'` exactly when the rule holds) and `FraudRuleWithoutBangKeyword` |
| MockData.Confidence | frontend/src/mock/mockData.js:125-133 | the drawn confidence capped at 0.99. Its contract is stated by `ConfidenceRange` and `ConfidenceCapped` |
| MockData.MockClassify | frontend/src/mock/mockData.js:117-137 | one result per review, in order |
| MockData.ConfidenceRange | frontend/src/mock/mockData.js:125-133 | with a draw in [0, 1): [0.85, 0.97) for fraud, [0.80, 0.95) for benign, never above 0.99 |
| MockData.FallbackIdsDistinct | frontend/src/mock/mockData.js:130 | two results with fallback ids that are equal come from the same position |
| MockData.BangKeywordRedundant | frontend/src/mock/mockData.js:119-124 | text containing the `'!!!'` keyword already has more than two `!` |
| MockData.FraudRuleWithoutBangKeyword | frontend/src/mock/mockData.js:119-124 | the rule is equivalent to the other nine keywords or more than two `!` |
| MockData.MockNetworkResolves | frontend/src/mock/mockData.js:82-114 | every edge's source and target are ids of nodes of the sample graph |
| MockData.ResolvedEdgesAllDrawn | frontend/src/mock/mockData.js:82-114 | once laid out, a graph whose edges all resolve has every edge drawn |
| Dashboard.FirstArray | frontend/src/pages/Dashboard.js:84-91 | none exactly when no listed key holds an array |
| Dashboard.FirstArrayIsFirst | frontend/src/pages/Dashboard.js:84-91 | the array used is the one under the earliest key that holds an array |
| Dashboard.ExtractPredictions | frontend/src/pages/Dashboard.js:81-96 | an array reply is used unchanged. An object reply succeeds exactly when one of `predictions`, `results`, `data`, `output` holds an array. Anything else is an error |
| Dashboard.PredictionsKeyFirst | frontend/src/pages/Dashboard.js:84-85 | `predictions` wins whenever it holds an array |
| Dashboard.LaterKeyUsed | frontend/src/pages/Dashboard.js:86-91 | a later key is used when every earlier one lacks an array |
| Dashboard.Page.HandleUploadComplete | frontend/src/pages/Dashboard.js:17-21 | reviews and file replaced, results cleared, classifying flag untouched |
| Dashboard.Page.HandleClassify | frontend/src/pages/Dashboard.js:23-140 | no reviews: returns with nothing changed. Otherwise classifying ends false. Results are replaced exactly when a file exists, the reply is ok and parses, and a prediction list is found; every failure leaves them as they were |
| NetworkGraph.Radius | frontend/src/components/NetworkGraph.js:31 | 150 for group `'user'`, 250 otherwise |
| NetworkGraph.InitialNodes | frontend/src/components/NetworkGraph.js:29-41 | one node per input node, in order, with its data, at rest (`vx = vy = 0`) and unpinned |
| NetworkGraph.InitialNode | frontend/src/components/NetworkGraph.js:32-40 | the laid-out node keeps the received node's data, is at rest (`vx = vy = 0`) and is not pinned. Its position is stated by `InitialPlacement` |
| NetworkGraph.InitialPlacement | frontend/src/components/NetworkGraph.js:30-35 | with draws in [0, 1), each coordinate lies within 25 of the ring point, which is at the group's radius from the centre |
| NetworkGraph.Find | frontend/src/components/NetworkGraph.js:86 | `nodes.find` by id: the first node with the id, or none when no node has it |
| NetworkGraph.Dist | frontend/src/components/NetworkGraph.js:77 | `Math.sqrt(...) \|\| 1` is never zero |
| NetworkGraph.DanglingEdgeNoPull | frontend/src/components/NetworkGraph.js:84-107 | an edge with a missing end pulls on no node |
| NetworkGraph.DanglingEdgeIgnored | frontend/src/components/NetworkGraph.js:84-107 | adding a dangling edge leaves every node's pull unchanged |
| NetworkGraph.Accelerate | frontend/src/components/NetworkGraph.js:60-112 | a pinned node is unchanged; any other node changes only in `vx`/`vy` |
| NetworkGraph.Accelerated | frontend/src/components/NetworkGraph.js:60-112 | the array after the force loop: one entry per node, each `Accelerate` of the node list as it was before the loop |
| NetworkGraph.Repulsion | frontend/src/components/NetworkGraph.js:72-81 | the sum of the pushes of every other node, in index order. `RepulsionOf` is proved equal to it |
| NetworkGraph.EdgePulls | frontend/src/components/NetworkGraph.js:84-107 | the sum of every edge's pull, in edge order. `PullsOf` is proved equal to it, and `DanglingEdgeIgnored` shows that a dangling edge adds nothing |
| NetworkGraph.Moved | frontend/src/components/NetworkGraph.js:115-119 | one node per node, in order, each moved by its velocity or set to its pinned coordinate |
| NetworkGraph.MoveNode | frontend/src/components/NetworkGraph.js:116-118 | a pinned coordinate becomes the pin. A free coordinate moves by the velocity. Data, velocity and pins are kept |
| NetworkGraph.TickStructure | frontend/src/components/NetworkGraph.js:60-119 | a tick keeps count, order, node data and `fx`/`fy`. A pinned node keeps its velocity. A set `fx` (`fy`) becomes x (y) |
| NetworkGraph.FreeNodeMoves | frontend/src/components/NetworkGraph.js:115-119 | a free node moves by exactly its new velocity |
| NetworkGraph.FindNode | frontend/src/components/NetworkGraph.js:86 | the search loop returns `Find` |
| NetworkGraph.Simulate | frontend/src/components/NetworkGraph.js:56-122 | paused: no change and no new list. Otherwise the array holds `Accelerated` of its old contents (forces from positions before the loop, pinned nodes skipped), and the new list is `Moved` of it |
| NetworkGraph.ApplyForces | frontend/src/components/NetworkGraph.js:66-111 | the body of the force loop for one free node, reading the array in place: the result is `Accelerate` of the node list as it was before the loop |
| NetworkGraph.RepulsionOf | frontend/src/components/NetworkGraph.js:72-81 | the inner loop adds the pushes of every other node, in order |
| NetworkGraph.PullsOf | frontend/src/components/NetworkGraph.js:84-107 | the `forEach` adds every edge's pull, in order |
| NetworkGraph.EdgePullOf | frontend/src/components/NetworkGraph.js:85-106 | one edge pulls towards its other end only when this node is an end and the other end is found |
| NetworkGraph.DrawnEdges | frontend/src/components/NetworkGraph.js:133-136 | never more edges than given |
| NetworkGraph.DrawnEdgesMembers | frontend/src/components/NetworkGraph.js:133-136 | an edge is drawn exactly when both its ends are nodes |
| NetworkGraph.NoDanglingAllDrawn | frontend/src/components/NetworkGraph.js:133-136 | when no edge dangles, every edge is drawn, in order |
| NetworkGraph.DrawnEdgesStable | frontend/src/components/NetworkGraph.js:115-136 | a tick does not change which edges are drawn |
| GraphView.WheelScale | frontend/src/components/NetworkGraph.js:250-254 | the result lies in [0.1, 3], and is the scale times 0.9 (down) or 1.1 (up) whenever that product is in range |
| GraphView.Step | frontend/src/components/NetworkGraph.js:232-272 | each handler sets only its own state cells. The scale changes only by zooming or reset. The offset changes only by a move during a drag, or by reset. The pause state changes only by toggling or reset. The drag start changes only on mouse-down. Dragging holds exactly from mouse-down to mouse-up |
| GraphView.ZoomInScale | frontend/src/components/NetworkGraph.js:256-258 | at most 3, and the scale times 1.2 when that is at most 3 |
| GraphView.ZoomOutScale | frontend/src/components/NetworkGraph.js:260-262 | at least 0.1, and the scale times 0.8 when that is at least 0.1 |
| GraphView.StepKeepsScale | frontend/src/components/NetworkGraph.js:232-272 | every handler keeps the scale within [0.1, 3] |
| GraphView.ScaleAlwaysInRange | frontend/src/components/NetworkGraph.js:250-268 | from scale 1, any sequence of events keeps the scale within [0.1, 3] |
| GraphView.ResetRestores | frontend/src/components/NetworkGraph.js:264-268 | reset gives scale 1, offset (0, 0) and a running simulation, leaving the drag state |
| GraphView.ToggleFlips | frontend/src/components/NetworkGraph.js:270-272 | toggling flips only `isSimulating`; twice restores the state |
| GraphView.MoveWithoutDrag | frontend/src/components/NetworkGraph.js:237-244 | a mouse move without a drag changes nothing |
| GraphView.DragFollowsPointer | frontend/src/components/NetworkGraph.js:232-244 | after mouse-down and any moves, the offset is the old offset plus the pointer's displacement since mouse-down |
| GraphView.ReleaseStopsPanning | frontend/src/components/NetworkGraph.js:246-248 | after mouse-up, a move leaves the offset alone |
| AuthContext.ErrorMessage | frontend/src/context/AuthContext.js:40-48 | a 403 with status `'pending'` gives the pending message. A 401 with `requestAccess` gives the no-account message. Anything else gives the reply's error, else `'Login failed'` |
| AuthContext.LoginOutcome | frontend/src/context/AuthContext.js:38-63 | logged in exactly when the reply is ok and carries a user, whose record is kept. A reply that is not ok fails with `ErrorMessage`. An ok reply without a user fails with the engine's `TypeError` message for reading `data.user.username` |
| AuthContext.ClientAgreesWithServer | frontend/src/context/AuthContext.js:40-58 | against the login endpoint's replies, the client logs in exactly on a 200, with the profile sent. Pending and unknown users get their own messages |
| AuthContext.Wire | backend/mongo_connection.py:67-85 | the login endpoint's reply for each outcome, with the outcome's HTTP code (200, 400, 403 or 401) |
| AuthContext.Session.Mount | frontend/src/context/AuthContext.js:17-25 | a stored user is restored; loading ends either way |
| AuthContext.Session.Login | frontend/src/context/AuthContext.js:51-58 | on success the user record is both the current user and the stored entry; on failure nothing changes |
| AuthContext.Session.Logout | frontend/src/context/AuthContext.js:66-69 | no user and no stored entry, so not authenticated |
| AuthContext.LoginSurvivesReload | frontend/src/context/AuthContext.js:17-58 | after a successful login, a fresh mount restores the same user and is authenticated |
| Feedback.Changed | frontend/src/pages/Feedback.js:23-28 | only the named field takes the new value |
| Feedback.ChangeOnlyNamedField | frontend/src/pages/Feedback.js:23-28 | the changed field reads back the value; every other field and the rating are unchanged |
| Feedback.SubmitterName | frontend/src/pages/Feedback.js:60 | never empty: the logged-in username, else the form's name, else `'Anonymous'` |
| Feedback.FeedbackPage.SetRating | frontend/src/pages/Feedback.js:167 | a star click sets the rating to 1–5 and nothing else |
| Feedback.FeedbackPage.HandleChange | frontend/src/pages/Feedback.js:23-28 | the form becomes `Changed`; the rating stays in 0–5 |
| Feedback.FeedbackPage.HandleSubmit | frontend/src/pages/Feedback.js:30-102 | rating 0 is refused first, then blank comments, both with no change. Otherwise the form is sent with the submitter's name. Success empties the form and failure keeps it. `submitting` ends false. Since the rating stays within 0-5, every sent record has a rating of 1-5 |
| Feedback.SubmissionOf | frontend/src/pages/Feedback.js:58-62 | the record sent: the form's fields with `SubmitterName` as username. `HandleSubmit` sends it on every path that reaches the request |
| Text.TrimBySlice | frontend/src/components/CSVUpload.js:33 | trimming keeps a contiguous slice, removes only whitespace, and leaves none at either end |
| Text.TrimByIdempotent | frontend/src/components/CSVUpload.js:41 | trimming twice is trimming once |
| Text.ContainsIff | frontend/src/components/ResultsTable.js:16-17 | `includes` holds exactly when the term occurs at some position |
| Text.CountCharTriple | frontend/src/mock/mockData.js:122 | a string containing three `!` in a row counts at least three `!` |
| Text.SplitJoin | frontend/src/components/CSVUpload.js:93 | no piece of a split holds the separator, and joining the pieces restores the text |
| Text.JoinSplit | frontend/src/components/ResultsTable.js:24-32 | splitting a join of separator-free pieces gives the pieces back |
| Text.DecimalRoundTrip | frontend/src/mock/mockData.js:130 | `String(n)` reads back as `n` |
| Text.PaddedValue | frontend/src/mock/mockData.js:130 | `String(n).padStart(3, '0')` is all digits and reads back as `n` |
| Text.DefaultIdInjective | frontend/src/components/CSVUpload.js:102 | different indices never give the same fallback id |

## Left out

- Database connection set-up, TLS, Flask routing, `jsonify`, CORS and the 500 replies on exceptions or a missing connection: these are I/O.
- Timestamps (`created_at`, `updated_at`, `approved_at`, `denied_at`) and ObjectIds: they come from the clock and the driver.
- ObjectId stringification and the datetime formatting of the listing endpoint: driver behaviour. Only the password projection and the status filter are modelled.
- `submit_feedback`, `list_feedback` and the classification listing endpoint: these are not part of this model, and neither is the admin tool's printed text.
- backend/test_mongo.py, backend/inspect_user.py and frontend/src/lib/api.ts: connectivity scripts and thin HTTP wrappers.
- Presentation components, and the Login and RequestAccess pages, whose only check (both fields present) repeats the back end's.
- The upload's `FileReader`, progress timers and MIME check, and the download's Blob, object URL and file name: browser I/O.
- `toFixed(4)` is the parameter `fixed4`, and all numbers are exact reals. Floating-point rounding is not modelled.
- `Math.sqrt`, `Math.cos`/`Math.sin` and `Math.random` are parameters. No property depends on the force magnitudes.
- Canvas drawing, the animation-frame loop and its cancellation are presentation. Only the choice of drawn edges is modelled.
- `toLowerCase` is modelled on ASCII letters only. Unicode case mapping is not.
- Asynchronous interleavings: each React handler runs to completion against its own reply.
- Dashboard.Page.HandleClassify: the follow-up request that saves results to the database (Dashboard.js lines 107-127) is left out. Its failure is swallowed and changes no page state.
- The offline-data switch of the dashboard, `generateMockToken` and all toast notifications.
- AuthContext.LoginOutcome: a network failure before a reply arrives, and a reply body that is not JSON, are not modelled. Both only produce an error message.
- Feedback.FeedbackPage.HandleSubmit: a success reply whose body fails to parse as JSON counts as a success here. In the source it turns into the failure path.
- FraudChart.Summary: a missing confidence (which makes the average `NaN` in the source) is not modelled. Every row carries a confidence.
- CsvUpload.ReviewOf: one time string `now` stands for every review of an upload. The source evaluates `new Date().toISOString()` separately for each review that lacks a timestamp, so those reviews may differ by the time that passes during parsing.
- MockData.ClassifyOne: one time string `now` stands for every review of a batch. The source reads the clock separately for each review that lacks a timestamp.
- Feedback.SubmissionOf: the `timestamp` field that the page adds to the sent record (frontend/src/pages/Feedback.js line 61) comes from the clock and is not modelled.
