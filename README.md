# Loan portal front end, modelled in Dafny

This project models the client-side logic of a React loan portal. It covers:

- the four-stage loan application wizard: stage validation, field and file editing, navigation, and the multipart payload it submits;
- the placeholder credit score derived from a PAN (the Indian Permanent Account Number);
- the dashboard's derived data: the status tallies, the monthly series, the per-purpose sums, and the search and status filter;
- the dashboard's fetch life cycle and the disbursal guard;
- the figures the charts section computes from that data;
- the controls, colours and empty-state messages of the applications list;
- the route guard, which decides between the login page, the home page and the requested page;
- the document locker panel: upload checks, listing and deletion.

Modules, one per source file, plus two shared modules:

| file | module | models |
|---|---|---|
| `js_semantics.dfy` | `JsSemantics` | the JavaScript built-ins the code relies on (`toUpperCase`, `trim`, `includes`, the bitwise-or with zero, `localeCompare`, `padStart`) |
| `credit_score.dfy` | `CreditScore` | `hashCode` and `getCreditScoreFromPan` |
| `loan_application.dfy` | `LoanApplication` | the wizard (`class LoanWizard`) |
| `loan_records.dfy` | `LoanRecords` | the loan record, its month key, and counting and grouping sums |
| `dashboard.dfy` | `Dashboard` | the chart data builders, the filter, disbursal, and `class DashboardPage` |
| `charts_section.dfy` | `ChartsSection` | the totals, approval rate, top purposes, greeting and layout choice |
| `applications_list.dfy` | `ApplicationsList` | the card controls, colours and empty state |
| `protected_route.dfy` | `ProtectedRoute` | the route guard and the route table |
| `user_documents.dfy` | `UserDocuments` | the document panel (`class DocumentsPanel`) |

How the code is modelled:

- Components that keep state in `useState` slots become classes. Each slot is a field.
- Each handler becomes a method whose `modifies` clause names only the slots it sets.
- An `async` handler is split in two: a method that runs up to the request and returns it, and a `…Settled` method that takes the request's outcome as a parameter.
- Loops over records (`reduce`, `forEach` into a dictionary) become methods with `while` loops. Each is proved equal to a specification function, and the properties are proved about that function.

Behaviour worth knowing that the code shows:

- CLOSED records are not tallied in the status chart.
- The Review stage's re-validation before submit checks nothing.
- The wizard does not check file sizes.
- Profession and tenure are checked only for being non-empty, not for being among the offered options.

## Model

| member | source | states |
|---|---|---|
| JsSemantics.ToUpper | src/pages/LoanApplication.jsx:169 | `toUpperCase` keeps the length and maps each ASCII lower-case letter to its capital, leaving every other character as it is |
| JsSemantics.ToLower | src/dashboard/Dashboard.jsx:160-166 | `toLowerCase` keeps the length and maps each ASCII capital to its lower-case letter |
| JsSemantics.ToUpperIdempotent | src/pages/LoanApplication.jsx:47 | upper-casing twice is upper-casing once |
| JsSemantics.ToUpperIsUpper | src/pages/LoanApplication.jsx:169 | an upper-cased string has no lower-case letter, and a string without one is left unchanged |
| JsSemantics.TrimStart | src/pages/LoanApplication.jsx:144 | the leading white space removed is exactly a white-space prefix, and the rest starts with a non-space |
| JsSemantics.TrimEnd | src/pages/LoanApplication.jsx:144 | the trailing white space removed is exactly a white-space suffix, and the rest ends with a non-space |
| JsSemantics.Trim | src/pages/LoanApplication.jsx:144 | `trim()` is the window of the string that starts right after its leading white space, with only white space after it, and it neither starts nor ends with white space |
| JsSemantics.TrimEmptyIff | src/pages/LoanApplication.jsx:144 | `trim()` is empty exactly when every character is white space |
| JsSemantics.Includes | src/dashboard/Dashboard.jsx:162-163 | `includes` holds exactly when the search text occurs at some position of the string |
| JsSemantics.IncludesEmpty | src/dashboard/Dashboard.jsx:162-163 | every string includes the empty search |
| JsSemantics.Wrap32 | src/pages/LoanApplication.jsx:50 | the bitwise-or with zero lies in the signed 32-bit range and differs from `x` by a multiple of 2^32 |
| JsSemantics.Wrap32Congruent | src/pages/LoanApplication.jsx:49-50 | values congruent modulo 2^32 wrap to the same 32-bit integer |
| JsSemantics.LexLessIrreflexive | src/dashboard/Dashboard.jsx:142-143 | the code-unit order used for `localeCompare` is irreflexive |
| JsSemantics.LexLessTransitive | src/dashboard/Dashboard.jsx:142-143 | that order is transitive |
| JsSemantics.LexLessTotal | src/dashboard/Dashboard.jsx:142-143 | any two different strings are ordered one way or the other |
| JsSemantics.LexLessAsymmetric | src/dashboard/Dashboard.jsx:142-143 | no two strings are each less than the other |
| JsSemantics.LexLessAtFirstDifference | src/dashboard/Dashboard.jsx:142-143 | the first differing code unit decides the order |
| JsSemantics.NatToString | src/dashboard/Dashboard.jsx:131-134 | the decimal rendering of a natural number is a non-empty run of digits |
| JsSemantics.PadStart2 | src/dashboard/Dashboard.jsx:131-134 | `padStart(2, "0")` left-pads with zeros to length two and leaves longer strings alone |
| CreditScore.RollingHash | src/pages/LoanApplication.jsx:45-53 | the hash of the characters folded so far stays in the signed 32-bit range |
| CreditScore.ShiftStepIsRollingStep | src/pages/LoanApplication.jsx:49-50 | the loop body `(h << 5) - h + c` wrapped to 32 bits equals the step `31 * h + c` wrapped to 32 bits |
| CreditScore.HashCode | src/pages/LoanApplication.jsx:45-53 | the loop computes the absolute value of the rolling hash of the upper-cased string, a value in [0, 2^31] |
| CreditScore.PanHash | src/pages/LoanApplication.jsx:45-53 | the hash is at most 2^31 |
| CreditScore.CreditScoreFromPan | src/pages/LoanApplication.jsx:55-58 | no score exactly when the PAN is shorter than five characters; otherwise the score is in [300, 900] and is 300 plus the hash modulo 601 |
| CreditScore.ScoreCaseInsensitive | src/pages/LoanApplication.jsx:45-58 | a PAN and its upper-cased form score the same |
| CreditScore.ScoreAgreesUpToCase | src/pages/LoanApplication.jsx:45-58 | PANs that differ only in letter case score the same |
| CreditScore.RollingHashSnoc | src/pages/LoanApplication.jsx:48-51 | one more character folds into the hash by one rolling step |
| CreditScore.SampleHash | src/pages/LoanApplication.jsx:45-53 | the sample PAN ABCDE1234F hashes to -169265695 before the absolute value is taken |
| CreditScore.SampleScore | src/pages/LoanApplication.jsx:55-58 | the sample PAN ABCDE1234F scores 355 |
| CreditScore.SampleScoreLowerCase | src/pages/LoanApplication.jsx:55-58 | its lower-case spelling scores 355 too |
| LoanApplication.Set | src/pages/LoanApplication.jsx:170 | `{ ...formData, [name]: value }` replaces one field and keeps every other |
| LoanApplication.SetFile | src/pages/LoanApplication.jsx:179 | replacing one file slot keeps the other |
| LoanApplication.ParseNumber | src/pages/LoanApplication.jsx:150-152 | `Number` of a blank string is 0, of a trimmed run of digits its decimal value, of a sign and digits the signed value; it is NaN (`None`) exactly when the trimmed string is neither digits nor a sign and digits |
| LoanApplication.NonNumericAmountFails | src/pages/LoanApplication.jsx:150-152 | "12a" is NaN and fails the amount rule |
| LoanApplication.BareSignFails | src/pages/LoanApplication.jsx:150-152 | a lone "-" is NaN and fails the amount rule |
| LoanApplication.NegativeAmountFails | src/pages/LoanApplication.jsx:150-152 | "-5000" parses to -5000 and fails the amount rule as too low |
| LoanApplication.ParseNumberOfNat | src/pages/LoanApplication.jsx:150-152 | parsing the decimal rendering of a natural number gives the number back |
| LoanApplication.AmountThreshold | src/pages/LoanApplication.jsx:148-153 | an amount of 500 breaks the minimum-amount rule and 1000 satisfies it |
| LoanApplication.FirstFailureEmptyIff | src/pages/LoanApplication.jsx:142-165 | no message is reported exactly when every rule of the stage holds |
| LoanApplication.FirstFailureIsFirst | src/pages/LoanApplication.jsx:142-165 | a reported message is that of a failing rule all of whose predecessors hold |
| LoanApplication.ValidateStep | src/pages/LoanApplication.jsx:142-165 | the Review stage always passes, and the Documents stage passes exactly when both PDFs are attached |
| LoanApplication.MatchesPan | src/pages/LoanApplication.jsx:61 | a PAN matching `panRegex` has no lower-case letter and no white space at either end, so upper-casing and trimming leave it unchanged and the blank-PAN rule never fires on it |
| LoanApplication.ValidateStepFollowsRules | src/pages/LoanApplication.jsx:142-165 | the early-return chain reports exactly the first failing rule of the stage's rule table |
| LoanApplication.ValidateStepPasses | src/pages/LoanApplication.jsx:142-165 | a stage passes exactly when all of its rules hold |
| LoanApplication.PersonalInfoRules | src/pages/LoanApplication.jsx:143-146 | a blank name is reported first, then an empty profession; otherwise stage 0 passes |
| LoanApplication.UnlistedChoicesPass | src/pages/LoanApplication.jsx:63-73 | a profession that no drop-down offers still passes stage 0 |
| LoanApplication.BuildPayload | src/pages/LoanApplication.jsx:222-228 | the multipart body holds the six fields and the user id, plus at most two files |
| LoanApplication.Lookup | src/pages/LoanApplication.jsx:222-228 | a part read back under a name is in the body under that name; no part means no entry has that name |
| LoanApplication.LookupFirst | src/pages/LoanApplication.jsx:222-228 | the first entry under a name is the one read back |
| LoanApplication.PayloadFields | src/pages/LoanApplication.jsx:223-225 | each form field reads back from the body unchanged under its own name |
| LoanApplication.PayloadUserId | src/pages/LoanApplication.jsx:226 | the user id reads back from the body |
| LoanApplication.PayloadFiles | src/pages/LoanApplication.jsx:227-228 | a file reads back under its slot name exactly when it is attached |
| LoanApplication.LoanWizard.constructor | src/pages/LoanApplication.jsx:111-134 | the wizard starts on stage 0 with an empty form, no files, no messages and nothing pending |
| LoanApplication.LoanWizard.HandleChange | src/pages/LoanApplication.jsx:167-171 | the typed value is stored, upper-cased for the PAN, and every other field is kept |
| LoanApplication.LoanWizard.HandleFileChange | src/pages/LoanApplication.jsx:176-181 | the first selected file fills the slot; an empty selection changes nothing |
| LoanApplication.LoanWizard.RemoveFile | src/pages/LoanApplication.jsx:183-188 | the named slot is emptied and the other kept |
| LoanApplication.LoanWizard.ToggleDetails | src/pages/LoanApplication.jsx:1014 | the details panel flips |
| LoanApplication.LoanWizard.HandleNext | src/pages/LoanApplication.jsx:190-199 | a failing stage stays put and shows its first message; a passing stage advances by one, clears the error and hides the details |
| LoanApplication.LoanWizard.HandleBack | src/pages/LoanApplication.jsx:201-205 | the wizard goes back one stage, clears the error and hides the details |
| LoanApplication.LoanWizard.HandleSubmit | src/pages/LoanApplication.jsx:207-229 | a failing stage only shows its message; no user id shows the login message and redirects; otherwise the payload is sent with the request pending and messages cleared |
| LoanApplication.LoanWizard.SubmitSettled | src/pages/LoanApplication.jsx:231-240 | success shows the success message; failure shows the server's message or "Application failed"; the pending flag drops either way |
| LoanRecords.KeyedSumBounds | src/dashboard/Dashboard.jsx:128-157 | a group's sum of non-negative weights is between 0 and the sum over all records |
| LoanRecords.ApprovedAtMostAll | src/dashboard/Dashboard.jsx:137-139 | a group never has more approvals than applications |
| LoanRecords.KeyedSumAbsent | src/dashboard/Dashboard.jsx:128-157 | a key no record carries has an empty group |
| LoanRecords.PartitionSum | src/dashboard/Dashboard.jsx:128-157 | grouping by distinct keys that cover every record loses and duplicates nothing: the group sums add up to the total |
| LoanRecords.DateOf | src/dashboard/Dashboard.jsx:131 | `createdAt` or else `applicationDate`: a truthy `createdAt` is used, a falsy one (undefined, "", null, 0) falls through to `applicationDate` |
| LoanRecords.MonthKey | src/dashboard/Dashboard.jsx:131-135 | the key is "NaN-NaN" exactly when `new Date` of the chosen field is not a valid date; `null` and 0 give the epoch's month |
| Dashboard.CountStatus | src/dashboard/Dashboard.jsx:96-101 | a status count never exceeds the number of records |
| Dashboard.SumOfOnes | src/dashboard/Dashboard.jsx:128-145 | counting one per record gives the number of records |
| Dashboard.Positive | src/dashboard/Dashboard.jsx:124 | `.filter(item => item.value > 0)` keeps exactly the entries with a positive value, and the total is unchanged |
| Dashboard.StatusData | src/dashboard/Dashboard.jsx:95-125 | the dictionary loop, seeded with the four statuses, computes the status series |
| Dashboard.StatusDataOf | src/dashboard/Dashboard.jsx:95-125 | the status series has only positive slices, and they add up to the records with one of the four charted statuses |
| Dashboard.PositiveKeepsOrder | src/dashboard/Dashboard.jsx:124 | dropping empty entries keeps the chart order |
| Dashboard.StatusDataShape | src/dashboard/Dashboard.jsx:95-125 | the series lists Pending, Approved, Rejected, Disbursed in that order; every value is positive; each status appears with its count exactly when that count is positive |
| Dashboard.TallyPartition | src/dashboard/Dashboard.jsx:96-101 | the four tallies plus the untallied records account for every record |
| Dashboard.StatusTotal | src/dashboard/Dashboard.jsx:95-125 | the chart total is the sum of the four tallies, which is the number of records minus the untallied ones |
| Dashboard.UntalliedRecordIgnored | src/dashboard/Dashboard.jsx:96-101 | adding a CLOSED (or other untallied) record leaves the series unchanged |
| Dashboard.ValueOfTally | src/dashboard/Dashboard.jsx:95-125 | reading a label back from the series gives that status's count |
| Dashboard.ChartFiguresFromRecords | src/dashboard/ChartsSection.jsx:56-63 | the charts section's pending, rejected and approved figures are the record counts, and its rate is at most 100 |
| Dashboard.SampleApprovalRate | src/dashboard/ChartsSection.jsx:57-63 | one APPROVED, one DISBURSED and one PENDING record give a rate of 67 |
| Dashboard.CountSnoc | src/dashboard/Dashboard.jsx:97-98 | one more record adds one to its own status count |
| Dashboard.InsertByMonth | src/dashboard/Dashboard.jsx:142-144 | inserting a bucket adds exactly that bucket |
| Dashboard.InsertByMonthSorted | src/dashboard/Dashboard.jsx:142-144 | inserting a new month into an ascending series keeps it ascending |
| Dashboard.SortByMonth | src/dashboard/Dashboard.jsx:142-144 | sorting by month is a permutation |
| Dashboard.SortByMonthSorted | src/dashboard/Dashboard.jsx:142-144 | buckets with distinct months come out strictly ascending |
| Dashboard.BucketStep | src/dashboard/Dashboard.jsx:130-139 | counting one more record keeps the dictionary in step with the records seen so far |
| Dashboard.MonthlyData | src/dashboard/Dashboard.jsx:128-145 | the result has strictly ascending months, a bucket for every record's month, and in each bucket exactly that month's applications (at least one) and approvals |
| Dashboard.SortedBucketsFormSeries | src/dashboard/Dashboard.jsx:141-144 | sorting the dictionary's values gives a monthly series |
| Dashboard.SeriesCountsRecords | src/dashboard/Dashboard.jsx:135-139 | every sorted bucket carries its month's counts |
| Dashboard.SeriesCoversRecords | src/dashboard/Dashboard.jsx:141-144 | every record's month survives the sort |
| Dashboard.BucketSums | src/dashboard/Dashboard.jsx:128-145 | a series' total applications and approvals are its months' group sums |
| Dashboard.MonthlyTotals | src/dashboard/Dashboard.jsx:128-145 | across a monthly series, applications add up to the number of records and approvals to the number of APPROVED or DISBURSED records; no bucket has more approvals than applications |
| Dashboard.MonthKeysSortByCalendar | src/dashboard/Dashboard.jsx:130-134 | zero-padded keys put March 2024 before November 2024 |
| Dashboard.MonthKeyFallbacks | src/dashboard/Dashboard.jsx:131 | a falsy `createdAt` hands over to `applicationDate`; a truthy unparsable `createdAt`, or an undefined or unparsable fallback, lands in "NaN-NaN"; a `null` fallback is bucketed by the epoch's month like any date |
| Dashboard.NullDatesGiveEpochMonth | src/dashboard/Dashboard.jsx:131-135 | a record with both dates `null` is bucketed under "1970-01" (a time zone at or east of UTC) |
| Dashboard.PurposeOrder | src/dashboard/Dashboard.jsx:153-156 | the dictionary's keys are distinct and are exactly the purposes that occur |
| Dashboard.PurposeOrderIsFirstOccurrence | src/dashboard/Dashboard.jsx:153-156 | keys are listed in order of first occurrence |
| Dashboard.SummedFormsSeries | src/dashboard/Dashboard.jsx:148-157 | once every record is summed, listing the sums in key order yields the purpose series |
| Dashboard.PurposeData | src/dashboard/Dashboard.jsx:148-157 | one entry per purpose, in first-occurrence order, each holding the sum of that purpose's amounts |
| Dashboard.SummedStep | src/dashboard/Dashboard.jsx:149-151 | adding one record's amount keeps the accumulator in step with the records seen so far |
| Dashboard.AmountSums | src/dashboard/Dashboard.jsx:148-157 | the entries add up to their purposes' group sums |
| Dashboard.PurposeTotals | src/dashboard/Dashboard.jsx:148-157 | the purpose amounts add up to the total amount of all records |
| Dashboard.FilteredApplications | src/dashboard/Dashboard.jsx:160-166 | a record is shown exactly when it matches the search in name or purpose and the status filter; every occurrence of a kept record is shown, and the shown records keep their order |
| Dashboard.Keep | src/dashboard/Dashboard.jsx:160-165 | a kept record has the filtered status (or the filter is ALL); with an empty search the status filter alone decides |
| Dashboard.SublistSkip | src/dashboard/Dashboard.jsx:160-166 | a sublist of the tail is a sublist of the whole list |
| Dashboard.SublistTail | src/dashboard/Dashboard.jsx:160-166 | the tail of a sublist is a sublist of the tail |
| Dashboard.FilterIdentity | src/dashboard/Dashboard.jsx:160-166 | an empty search with the ALL filter shows every record in order |
| Dashboard.FindApplication | src/dashboard/Dashboard.jsx:241-243 | `find` returns the first record with the id, or nothing when no record has it |
| Dashboard.DisburseFor | src/dashboard/Dashboard.jsx:239-270 | an unknown id sends nothing, and a disbursal goes to the record's own URL |
| Dashboard.DisburseGuard | src/dashboard/Dashboard.jsx:245-252 | money moves exactly when the found record is APPROVED, and then for that record's amount |
| Dashboard.FetchEndpoint | src/dashboard/Dashboard.jsx:183-186 | an admin fetches every record and anyone else only their own |
| Dashboard.EndpointsDiffer | src/dashboard/Dashboard.jsx:183-186 | the admin and user endpoints never coincide |
| Dashboard.DashboardPage.CurrentView | src/dashboard/Dashboard.jsx:309-387 | the loading screen wins over the error screen, which wins over the dashboard; the error screen shows the stored error message; the dashboard shows exactly when nothing is loading and there is no error |
| Dashboard.DashboardPage.constructor | src/dashboard/Dashboard.jsx:47-49 | the page starts loading, with no records and no error |
| Dashboard.DashboardPage.Mount | src/dashboard/Dashboard.jsx:168-177 | without an id or a role, the session error shows and nothing is fetched; otherwise the fetch starts |
| Dashboard.DashboardPage.FetchApplications | src/dashboard/Dashboard.jsx:180-186 | the request goes to the role's endpoint with loading set, and the error is kept |
| Dashboard.DashboardPage.Normalized | src/dashboard/Dashboard.jsx:188 | a list response is kept and anything else becomes the empty list |
| Dashboard.DashboardPage.FailureMessage | src/dashboard/Dashboard.jsx:190-192 | the server's message, or "Failed to load applications" |
| Dashboard.DashboardPage.FetchSettled | src/dashboard/Dashboard.jsx:187-196 | as written: a success stores the list and keeps any earlier error; a failure keeps the list and sets the error; loading drops either way |
| Dashboard.DashboardPage.FetchSettledCorrected | src/dashboard/Dashboard.jsx:187-196 | as intended: a success also clears the error |
| Dashboard.RetryAfterFailureAsWritten | src/dashboard/Dashboard.jsx:374-378 | a failed load followed by a successful Try Again still shows the error screen |
| Dashboard.RetryAfterFailureCorrected | src/dashboard/Dashboard.jsx:374-378 | with the corrected settlement the same sequence shows the dashboard with the fetched records |
| Dashboard.AdminChartsUnreachableAsWired | src/dashboard/Dashboard.jsx:431-437 | as wired, even an admin gets the user layout and the anonymous greeting |
| Dashboard.ChartsViewIntended | src/dashboard/ChartsSection.jsx:49-50 | with the props passed, the admin layout appears exactly for ADMIN and the greeting names the user |
| ChartsSection.ValueOf | src/dashboard/ChartsSection.jsx:58-62 | `find(...)?.value`, or 0, is the value of the first entry with the name, or 0 when there is none |
| ChartsSection.Total | src/dashboard/ChartsSection.jsx:57 | the total is at least every slice's value, and 0 exactly when every slice is 0 |
| ChartsSection.ValueAtMostTotal | src/dashboard/ChartsSection.jsx:57-62 | one status's value never exceeds the total |
| ChartsSection.TwoValuesAtMostTotal | src/dashboard/ChartsSection.jsx:57-60 | two different statuses' values together never exceed the total |
| ChartsSection.TotalApproved | src/dashboard/ChartsSection.jsx:58-60 | approved plus disbursed never exceeds the total |
| ChartsSection.Pending | src/dashboard/ChartsSection.jsx:61 | the Pending card never exceeds the total and shows 0 when the chart has no Pending slice |
| ChartsSection.Rejected | src/dashboard/ChartsSection.jsx:62 | the Rejected card never exceeds the total and shows 0 when the chart has no Rejected slice |
| ChartsSection.ApprovalRate | src/dashboard/ChartsSection.jsx:63 | 0 for an empty total; otherwise the percentage rounded half up |
| ChartsSection.ApprovalRateBounds | src/dashboard/ChartsSection.jsx:63 | the rate is at most 100 when the approved count is part of the total |
| ChartsSection.ChartRateBounds | src/dashboard/ChartsSection.jsx:57-63 | the rate shown for any status series is at most 100 |
| ChartsSection.TwoOfThree | src/dashboard/ChartsSection.jsx:63 | two approvals out of three show as 67 |
| ChartsSection.HalfRoundsUp | src/dashboard/ChartsSection.jsx:63 | exactly half a percent rounds up |
| ChartsSection.InsertDesc | src/dashboard/ChartsSection.jsx:67 | inserting an entry adds exactly that entry |
| ChartsSection.InsertDescSorted | src/dashboard/ChartsSection.jsx:67 | insertion keeps a list descending by amount |
| ChartsSection.SortDesc | src/dashboard/ChartsSection.jsx:67 | the sort is a permutation into descending amount order |
| ChartsSection.SortedSplit | src/dashboard/ChartsSection.jsx:66-68 | in a descending list, everything after a cut is at most everything before it |
| ChartsSection.SortedPrefixIsTop | src/dashboard/ChartsSection.jsx:66-68 | a prefix of a descending arrangement of the purposes keeps their largest entries, in descending order |
| ChartsSection.TopPurposes | src/dashboard/ChartsSection.jsx:66-68 | at most three entries, descending, taken from the input, and none left out is larger than any kept |
| ChartsSection.Greeting | src/dashboard/ChartsSection.jsx:71 | a name gives "Welcome, name!" and no name gives "Welcome!" |
| ChartsSection.AdminViewExact | src/dashboard/ChartsSection.jsx:76 | the admin layout is chosen only for exactly "ADMIN", not "admin" and not a missing role |
| ChartsSection.IsAdminView | src/dashboard/ChartsSection.jsx:76 | the comparison is case-sensitive: a role that upper-cases to "ADMIN" without being "ADMIN" gets the user layout |
| ApplicationsList.Controls | src/dashboard/ApplicationsList.jsx:286-389 | an admin sees View Documents, Approve and Reject on PENDING, and Disburse on APPROVED; anyone else sees Pay EMIs on DISBURSED and a closed chip on CLOSED |
| ApplicationsList.ControlsExclusive | src/dashboard/ApplicationsList.jsx:286-389 | no card offers both a decision and a disbursal, both EMIs and the closed chip, or admin and applicant controls together |
| ApplicationsList.Click | src/dashboard/ApplicationsList.jsx:302-376 | Approve and Reject request the matching status, Disburse a disbursal, Pay EMIs the EMI schedule |
| ApplicationsList.ClickTargetsOwnRecord | src/dashboard/ApplicationsList.jsx:302-376 | every control acts on its own card's record |
| ApplicationsList.DisburseButtonSendsAmount | src/dashboard/ApplicationsList.jsx:351-356 | the Disburse button appears only where the dashboard then sends that record's amount |
| ApplicationsList.StatusColour | src/dashboard/ApplicationsList.jsx:170-231 | APPROVED is success, REJECTED error, DISBURSED primary, CLOSED info, anything else warning |
| ApplicationsList.UnknownStatusLooksPending | src/dashboard/ApplicationsList.jsx:170-231 | an unknown status is drawn like PENDING |
| ApplicationsList.EmptyStateMessage | src/dashboard/ApplicationsList.jsx:146-150 | a search explains an empty list first, then a status filter, else there are no applications at all |
| ApplicationsList.View | src/dashboard/ApplicationsList.jsx:133-152 | the empty state shows exactly when the filtered list is empty |
| ApplicationsList.NewApplicationOffered | src/dashboard/ApplicationsList.jsx:76 | the new-application button is offered exactly to the viewers whose cards carry no admin controls |
| ApplicationsList.NoneYetOnlyWhenEmpty | src/dashboard/ApplicationsList.jsx:133-152 | without a search or filter, "You have no applications yet" shows exactly when there are no records |
| ProtectedRoute.ParsedProfile | src/components/ProtectedRoute.jsx:6-15 | an unparsable profile reads as no profile |
| ProtectedRoute.TokenRole | src/components/ProtectedRoute.jsx:22-34 | only a valid token yields a role: its first present claim among role, authorities and roles |
| ProtectedRoute.TokenValid | src/components/ProtectedRoute.jsx:22-27 | only a decoded token is valid; one without an expiry (or expiry 0) always is, and otherwise exactly while the clock is before the expiry in milliseconds |
| ProtectedRoute.EffectiveRole | src/components/ProtectedRoute.jsx:43 | a non-empty profile role wins; without one, the token's role is used, so an invalid token gives no role at all |
| ProtectedRoute.Guard | src/components/ProtectedRoute.jsx:4-52 | the profile is discarded exactly when unparsable; login exactly when there is neither an identity nor a valid token; home exactly when a required role differs from the effective role |
| ProtectedRoute.NothingStoredGoesToLogin | src/components/ProtectedRoute.jsx:36-40 | no profile and no token go to the login page |
| ProtectedRoute.CorruptProfileActsAsAbsent | src/components/ProtectedRoute.jsx:9-15 | an unparsable profile is removed and otherwise treated as absent |
| ProtectedRoute.ExpiryIsStrict | src/components/ProtectedRoute.jsx:26 | a token expiring exactly now is invalid, and one millisecond earlier it was valid |
| ProtectedRoute.UserProfileBarredFromAdmin | src/components/ProtectedRoute.jsx:42-49 | a signed-in USER never reaches an ADMIN route, whatever the token claims |
| ProtectedRoute.TokenRoleDecides | src/components/ProtectedRoute.jsx:28-29 | an array of authorities never matches a required role |
| ProtectedRoute.IdentityWithoutRoleRenders | src/components/ProtectedRoute.jsx:44 | with an identity and no required role the page renders |
| ProtectedRoute.RenderMeansRoleMatches | src/components/ProtectedRoute.jsx:42-51 | rendering a role-restricted page means the effective role is exactly the required one |
| ProtectedRoute.RouteRole | src/App.jsx:43-88 | the loan form and the user dashboard need USER, the admin dashboard ADMIN, the dashboard and documents pages only a sign-in |
| ProtectedRoute.AdminRoutes | src/App.jsx:43-68 | an admin opens the admin dashboard and the dashboard and is sent home from the loan form |
| UserDocuments.UploadAreaRoles | src/components/UserDocuments.jsx:161-163 | the upload area shows for "user", "User" and "USER", and not for "ADMIN", an empty role or a missing role |
| UserDocuments.UploadAreaShown | src/components/UserDocuments.jsx:163 | the upload area shows exactly for the role "user" in any letter case |
| UserDocuments.DocumentsRoutePropsAsWired | src/App.jsx:79-88 | the `/documents` route passes the stored profile's id and no role |
| UserDocuments.DocumentsRoutePropsIntended | src/App.jsx:79-88 | the corrected route passes the stored profile's id and its role |
| UserDocuments.UploadHiddenOnDocumentsRoute | src/App.jsx:79-88 | as wired, the upload area never shows on `/documents`, whatever the stored role |
| UserDocuments.UploadOnDocumentsRouteIntended | src/components/UserDocuments.jsx:163 | with the role passed, the upload area shows on `/documents` exactly for "user" in any letter case, so for USER |
| UserDocuments.CheckUpload | src/components/UserDocuments.jsx:68-76 | a missing file or type is reported first; otherwise a file above 5 MiB is refused and anything else accepted |
| UserDocuments.UploadLimitBoundary | src/components/UserDocuments.jsx:73 | exactly 5 MiB is accepted and one byte more is refused |
| UserDocuments.DocumentTypesExact | src/components/UserDocuments.jsx:29-35 | the type menu offers exactly the five listed types |
| UserDocuments.DocumentsPanel.constructor | src/components/UserDocuments.jsx:39-45 | the panel starts with no file, no type, no documents, nothing loading and the dialog closed |
| UserDocuments.DocumentsPanel.FetchUserDocs | src/components/UserDocuments.jsx:51-56 | without a user id nothing happens; otherwise loading starts and the user's list is requested |
| UserDocuments.DocumentsPanel.FetchUserDocsSettled | src/components/UserDocuments.jsx:57-64 | the list is the body, or empty for an empty body or a failure; loading stops either way |
| UserDocuments.DocumentsPanel.ChooseFile | src/components/UserDocuments.jsx:182 | the first chosen file is kept, and an empty choice clears the file |
| UserDocuments.DocumentsPanel.ChooseDocType | src/components/UserDocuments.jsx:195-212 | the chosen type is stored |
| UserDocuments.DocumentsPanel.HandleUpload | src/components/UserDocuments.jsx:68-83 | a request is sent exactly when the checks accept, carrying the file, the user id and the type, with `uploading` set; a refusal changes nothing |
| UserDocuments.DocumentsPanel.UploadSettled | src/components/UserDocuments.jsx:84-95 | success clears the file and type and refetches the list; `uploading` drops either way |
| UserDocuments.DocumentsPanel.SelectForDelete | src/components/UserDocuments.jsx:312-315 | the delete icon chooses the document and opens the dialog |
| UserDocuments.DocumentsPanel.CancelDelete | src/components/UserDocuments.jsx:337 | Cancel closes the dialog and keeps the chosen document |
| UserDocuments.DocumentsPanel.HandleDelete | src/components/UserDocuments.jsx:99-102 | without a chosen document nothing is sent; otherwise the delete goes to that document's URL |
| UserDocuments.DocumentsPanel.DeleteSettled | src/components/UserDocuments.jsx:103-111 | success closes the dialog, forgets the document and refetches; failure changes nothing |
| UserDocuments.MountPanel | src/components/UserDocuments.jsx:114-117 | the mount effect fetches exactly when there is a user id |
| UserDocuments.UploadScenario | src/components/UserDocuments.jsx:68-96 | choosing a 5 MiB file and a type and uploading sends that file and ends with the choice cleared and a refetch under way |

## Left out

- Rendering, styling, animation and layout (JSX, MUI, charts) are not modelled. Only the values the components compute and the state they keep are.
- HTTP calls (axios) are not made. Each request is returned as a value, and its outcome is a parameter of the matching `…Settled` method.
- `jwtDecode`, `Date.now()`, `new Date(...)` and `localStorage` are inputs: a decoded-token datatype, a clock value, a parsed date field, and a cached-profile datatype.
- Toasts, `console` output, `navigate` timers and the two-second redirect after a successful application are not modelled.
- Responses that settle out of order, and requests still in flight when a component unmounts, are not modelled.
- `Dashboard.Keep`: records are taken to carry both `name` and `purpose` as strings, as the wizard requires. A record missing both makes `app.name?.…` and `app.purpose?.…` undefined and is hidden under every search; this case is not modelled, so `Dashboard.FilterIdentity` and `ApplicationsList.NoneYetOnlyWhenEmpty` hold for records as modelled.
- `LoanApplication.ParseNumber` covers only blank strings and optionally signed decimal integers. Fractions, exponents, hexadecimal and `Infinity` are read as not-a-number.
- `LoanRecords.LoanRecord.loanAmount` is an integer, so `Number(app.loanAmount)` on fractional or non-numeric amounts is not modelled.
- Inputs are assumed to be ASCII. Strings are sequences of Unicode scalar values, which agree with JavaScript's UTF-16 code units there; a character outside the Basic Multilingual Plane counts once here and twice in `length` and `charCodeAt`, which is not modelled.
- Case mapping covers ASCII letters only, and `localeCompare` is modelled as code-unit order, which agrees with it on the digit-and-hyphen month keys.
- `JsSemantics.Trim` removes ASCII white space, the no-break space and the byte order mark; the other Unicode spaces `trim` also removes (U+1680, U+2000 to U+200A, U+2028, U+2029, U+202F, U+205F, U+3000) are not modelled.
- `LoanRecords.DateOf` does not model other falsy date values (`false`, `NaN`); the epoch month of a `null` date is carried by the record because the time zone is not modelled.
- `ChartsSection.SortDesc`: the order among purposes with equal amounts is not stated (JavaScript's sort is stable), so `ChartsSection.TopPurposes` leaves open which of several tied purposes is kept.
- `ChartsSection.ApprovalRate` computes the exact rational percentage rounded half up. Floating-point rounding in `Math.round((a / t) * 100)` is not modelled.
- JavaScript objects list integer-like keys first. `Dashboard.PurposeData` lists purposes in first-occurrence order, which differs for purposes that are array indices.
- The `typeof error === "string"` fallback on the error screen is not modelled. The error is always a string.
- A cached profile that parses to something other than an object or `null` is not modelled.
- The document-list fetch (`fetchDocuments`), status updates (`handleStatusUpdate`), the EMI schedule and payment (`fetchEMIs`, `handlePayEmi`) and the PDF and EMI dialogs are not modelled. They are plain requests whose results are only displayed.
- The chatbot, FAQ, About page, the login and registration pages, and the remaining routes are not modelled.
- `LoanApplication.LoanWizard.RemoveFile` does not reset the browser's file input element, which is DOM state outside the model.
- Focus and blur tracking (`activeField`) and the PDF preview toggles are not modelled.
- The `TypeError` that `handleDisburse` raises when no record has the id is modelled as the `NoSuchApplication` outcome of `Dashboard.DisburseFor`. The refetch after a disbursal is not modelled.

## Findings

| source | as written | input that shows it | evidently intended | confidence | as-written member | corrected member |
|---|---|---|---|---|---|---|
| src/dashboard/Dashboard.jsx:180-197 | a successful fetch never clears `error`, and the error screen wins whenever `error` is set | the first load fails, then Try Again succeeds: the error screen stays | a successful fetch clears the error and shows the dashboard | not executed | Dashboard.RetryAfterFailureAsWritten | Dashboard.RetryAfterFailureCorrected |
| src/dashboard/Dashboard.jsx:431-437 | the page passes neither `userRole` nor `userName` to the charts section | a signed-in ADMIN sees the user layout and the greeting "Welcome!" | pass the signed-in user's role and name | not executed | Dashboard.AdminChartsUnreachableAsWired | Dashboard.ChartsViewIntended |
| src/App.jsx:79-88 | the `/documents` route passes `userId` but no `userRole` to the documents panel, whose upload area needs the role | a signed-in USER opens `/documents` and sees no upload area (the dashboard's own panel, at src/dashboard/Dashboard.jsx:440, passes the role) | pass the stored profile's role too | not executed | UserDocuments.UploadHiddenOnDocumentsRoute | UserDocuments.UploadOnDocumentsRouteIntended |
