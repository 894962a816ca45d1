# A verified model of the mental-health platform's backend core

This Dafny project models the decision logic of the student mental-health platform's Express/MongoDB backend. The model covers:

- **The automatic early-warning engine** (`checkAlert`). It reads a student's emotion records from the last seven days, newest first. Rule A fires on the newest score alone. Rule B counts the leading streak of calendar days whose newest record is negative. Either rule gives a candidate level. The candidate is suppressed when an unhandled alert of the same or a higher level exists. Manual alerts (`generateAlert`) and resolving an alert (`handleAlert`) are also covered.
- **The simulated emotion recogniser and the emotion-record endpoints.** Each `Math.random()` becomes an explicit draw. Creating a record checks the request, recognises, saves, then runs the alert check. Listing, fetching and deleting are scoped to the owner.
- **The teachers' intervention-suggestion rules.** A decision table over the 5 newest emotion records, the 3 newest alerts and the 2 newest consultation records.
- **The alert endpoints.** The filtered, paged listing and the guards of manual alert creation.
- **The request validators and the HTML sanitiser.** Registration, login and emotion-record bodies.
- **The in-memory user store.** The array of users that `userStore` updates in place.
- **The consultation endpoints.** Booking with the double-booking check, owner-only confirm and cancel, the role-scoped listings, and creating and amending consultation records. This includes the pre-save hook that derives a consultation's duration in whole minutes.

The MongoDB collections are sequences in insertion order, held in the class `Store.Db`, which hands out fresh ids. The user store is the class `UserStore.UserList` over a sequence. A request body that a middleware rewrites is `Validation.Body`. The current time is an integer millisecond timestamp passed in as a parameter. The calendar day of a timestamp is `t / 86400000`, the UTC date that `toISOString().split('T')[0]` names.

Two choices about order:

- **Alert levels.** The model compares levels by severity, normal < mild < moderate < severe, which is what the duplicate check's comment intends. The `$gte` query on the stored strings uses code-point order instead: mild < moderate < normal < severe. `Types.LevelOrdersAgreeAboveNormal` proves the two agree on mild, moderate and severe. The one difference, `normal`, is reported under "Findings".
- **The streak.** Where the prose description says a missing day ends the streak, the code does not. Only a day whose newest record is not negative ends it. The model follows the code (`AlertService.StreakCountsDaysAcrossGaps`).

## Model

| member | source | states |
|---|---|---|
| Types.ParseRole | backend/src/types/index.ts:2-7 | the role a string names, or none when it is not one of the four role values |
| Types.ParseLevel | backend/src/types/index.ts:10-15 | the alert level a string names, or none when it is not one of the four level values |
| Types.ParseRecognition | backend/src/types/index.ts:29-33 | the recognition type a string names, or none when it is not text, voice or image |
| Types.ParseStatus | backend/src/types/index.ts:36-41 | the appointment status a string names, or none |
| Types.ParseEffect | backend/src/types/index.ts:44-49 | the consultation effect a string names, or none (the enum check on save) |
| Types.AllEmotionsListsEveryEmotion | backend/src/types/index.ts:18-26 | `Object.values(EmotionType)` lists every emotion |
| Types.LevelGeIsTotalOrder | backend/src/services/alertService.ts:98 | the severity order on levels is reflexive, total, antisymmetric and transitive |
| Types.MongoLevelOrder | backend/src/services/alertService.ts:102 | the string order `$gte` applies puts mild < moderate < normal < severe |
| Types.LevelOrdersAgreeAboveNormal | backend/src/services/alertService.ts:98-103 | on mild, moderate and severe, the string order and the severity order agree in both directions |
| Types.LevelOrdersDisagreeOnNormal | backend/src/services/alertService.ts:98-103 | the string order ranks normal above mild and moderate, which the severity order does not; both rank it below severe |
| Text.TrimStart | backend/src/middlewares/validation.ts:36 | what trimStart removes is all white space, and what is left starts with a non-space |
| Text.TrimStartIsSuffix | backend/src/middlewares/validation.ts:36 | trimStart returns a suffix of its input |
| Text.TrimEnd | backend/src/middlewares/validation.ts:36 | what trimEnd removes is all white space, and what is left ends with a non-space |
| Text.TrimEndIsPrefix | backend/src/middlewares/validation.ts:36 | trimEnd returns a prefix of its input |
| Text.Trim | backend/src/middlewares/validation.ts:36 | trim() returns a string with no white space at either end, no longer than its input |
| Text.TrimIsMiddle | backend/src/middlewares/validation.ts:70-74 | the input is white space, then the trimmed string, then white space |
| Text.TrimUnique | backend/src/middlewares/validation.ts:70-74 | a trimmed string wrapped in white space trims back to itself |
| Text.TrimIdempotent | backend/src/middlewares/validation.ts:70-74 | trimming twice is trimming once |
| Text.TrimOfTrimmed | backend/src/middlewares/validation.ts:70-74 | a string without white space at its ends is left alone |
| Text.ToLowerAscii | backend/src/middlewares/validation.ts:71 | toLowerCase() maps every character independently, keeping the length |
| Text.ToLowerAsciiIdempotent | backend/src/middlewares/validation.ts:71 | lower-casing twice is lower-casing once |
| Text.ToLowerKeepsWhitespace | backend/src/middlewares/validation.ts:71 | lower-casing keeps white space and non-space at every position |
| Text.NatToString | backend/src/services/alertService.ts:86 | the decimal rendering in a template string: digits only, no leading zero |
| Text.NatToStringRoundTrip | backend/src/services/alertService.ts:86 | reading the rendered digits back gives the number |
| Collections.Filter | backend/src/services/teacherDecisionSupportService.ts:27-29 | `filter` keeps exactly the matching elements, each from the input |
| Collections.FilterAppend | backend/src/controllers/emotionController.ts:43-46 | filtering a collection after an append is filtering before it, plus the new element when it matches |
| Collections.FirstIndex | backend/src/utils/userStore.ts:87 | `findIndex`: the first matching position, none exactly when nothing matches |
| Collections.Take | backend/src/services/teacherDecisionSupportService.ts:13 | `.limit(n)`: the first n elements, or all when there are fewer |
| Collections.SortNewestFirst | backend/src/services/alertService.ts:39 | `.sort({ createdAt: -1 })`: a permutation of the input, newest first |
| Collections.InsertNewestKeepsOrder | backend/src/services/alertService.ts:39 | inserting into a list sorted newest first keeps it sorted newest first |
| Collections.SortKeepsMembers | backend/src/services/alertService.ts:39 | sorting keeps exactly the elements it is given |
| Collections.SortPutsLatestFirst | backend/src/services/alertService.ts:39 | the latest element, added last, comes first after sorting |
| Collections.AppendedLatestSortsFirst | backend/src/controllers/emotionController.ts:43-46 | a record just saved, newer than every other, heads the sorted query result |
| Collections.NewestWindow | backend/src/services/teacherDecisionSupportService.ts:11-21 | find, sort newest first, limit n: at most n matching elements, newest first |
| Collections.InsertNewest | backend/src/services/alertService.ts:39 | one insertion step of the sort: the list grows by exactly the inserted element |
| Collections.RankedPush | backend/src/services/teacherDecisionSupportService.ts:26-58 | pushing an element ranked above everything listed keeps the list in strictly increasing rank |
| Collections.RankedUnique | backend/src/services/teacherDecisionSupportService.ts:70-73 | two lists in strictly increasing rank with the same members are equal |
| Pagination.RequestPaging | backend/src/controllers/alertController.ts:9 | page 1 and limit 10 when the query does not give them |
| Pagination.PageCount | backend/src/controllers/alertController.ts:59 | `Math.ceil(total / limit)`, with infinity or NaN for a limit of 0 |
| Pagination.PageCountIsCeiling | backend/src/controllers/alertController.ts:59 | the page count is the least whole number at or above total / limit, for either sign of limit |
| Pagination.PagesCoverTotal | backend/src/controllers/alertController.ts:42-59 | every one of the total documents falls on a page from 1 to the page count |
| Pagination.PageOf | backend/src/controllers/alertController.ts:46-48 | `.skip(skip).limit(limit)`: a contiguous slice from the skip, as long as the limit allows (a limit of 0 means no limit, a negative one counts as its absolute value) |
| Pagination.ElementOnItsPage | backend/src/controllers/alertController.ts:42-48 | element k of the sorted result is element k % limit of page k / limit + 1 |
| Pagination.PageOfMatches | backend/src/controllers/alertController.ts:43-48 | a page of a sorted query holds only matching documents, newest first |
| Pagination.PageOfSorted | backend/src/controllers/alertController.ts:46-48 | a page of a list sorted newest first is itself newest first and holds only elements of the list |
| ConsultationRecordModel.TrimOpt | backend/src/models/ConsultationRecord.ts:53-60 | the `trim` setter on an optional string field |
| ConsultationRecordModel.RoundMinutes | backend/src/models/ConsultationRecord.ts:76 | `Math.round(ms / 60000)` lies within half a minute of ms |
| ConsultationRecordModel.RoundMinutesIsNearest | backend/src/models/ConsultationRecord.ts:76 | the rounded value is the only whole minute count within half a minute of ms |
| ConsultationRecordModel.RoundMinutesHalfUp | backend/src/models/ConsultationRecord.ts:76 | 29 999 ms rounds to 0, 30 000 ms rounds up to 1, -30 000 ms rounds to 0 |
| ConsultationRecordModel.NewRecord | backend/src/models/ConsultationRecord.ts:23-68 | a new document holds the fields given, with content and feedback trimmed and no duration yet |
| ConsultationRecordModel.EffectOrFair | backend/src/controllers/consultationController.ts:259 | `effect \|\| FAIR`: the given effect, or fair when none |
| ConsultationRecordModel.PreSave | backend/src/models/ConsultationRecord.ts:74-79 | with an end time, duration becomes the rounded minutes between start and end; without one the document is unchanged; no other field changes |
| ConsultationRecordModel.PreSaveIdempotent | backend/src/models/ConsultationRecord.ts:74-79 | running the hook again changes nothing |
| ConsultationRecordModel.PreSaveDurationIsNearestMinute | backend/src/models/ConsultationRecord.ts:76 | the stored duration is the nearest whole minute of the consultation |
| ConsultationRecordModel.Save | backend/src/models/ConsultationRecord.ts:48-52 | save fails exactly when the content, already trimmed by its setter, is empty; otherwise the pre-save hook runs |
| Store.NewAlert | backend/src/models/Alert.ts:30-42 | a new alert: reason and description trimmed, not handled, nothing about handling set |
| Store.NewAppointment | backend/src/models/ConsultationAppointment.ts:31-39 | a new appointment is pending, with trimmed notes |
| Store.Db.InsertAlert | backend/src/services/alertService.ts:118 | `alert.save()` appends under a fresh id and changes no other collection |
| Store.Db.ReplaceAlert | backend/src/services/alertService.ts:150-159 | an alert updated in place keeps its id; nothing else changes |
| Store.Db.InsertEmotionRecord | backend/src/controllers/emotionController.ts:43 | `emotionRecord.save()` appends under a fresh id |
| Store.Db.RemoveEmotionRecord | backend/src/controllers/emotionController.ts:133 | `findOneAndDelete` removes that record and keeps the rest in order |
| Store.Db.InsertAppointment | backend/src/controllers/consultationController.ts:46 | `appointment.save()` on a new appointment appends under a fresh id |
| Store.Db.ReplaceAppointment | backend/src/controllers/consultationController.ts:167-168 | `appointment.save()` on a stored appointment replaces it in place |
| Store.Db.InsertConsultation | backend/src/controllers/consultationController.ts:263 | `consultationRecord.save()` on a new record appends under a fresh id |
| Store.Db.ReplaceConsultation | backend/src/controllers/consultationController.ts:392 | `consultationRecord.save()` on a stored record replaces it in place |
| AlertService.RecentEmotionsQuery | backend/src/services/alertService.ts:33-39 | the window is the student's records since now minus seven days, sorted newest first |
| AlertService.RecentEmotionsAreTheWindow | backend/src/services/alertService.ts:33-39 | the window holds exactly the student's records of the last seven days (both directions), newest first |
| AlertService.CandidateAlert | backend/src/services/alertService.ts:41-94 | no candidate on an empty window; a candidate's level is never normal |
| AlertService.ScoreRulePicksHighestThreshold | backend/src/services/alertService.ts:46-61 | rule A fires exactly when the newest emotion is negative with score at least 70, and picks severe, moderate or mild: the highest threshold met |
| AlertService.StreakRulePicksHighestThreshold | backend/src/services/alertService.ts:84-93 | rule B fires exactly when the streak is at least 3 days, and picks severe at 7, moderate at 5, mild at 3 |
| AlertService.NonNegativeNewestRaisesNothing | backend/src/services/alertService.ts:50-81 | when the newest record is not negative, neither rule fires |
| AlertService.CountNegativeDays | backend/src/services/alertService.ts:65-82 | the loop over the window with its set of processed dates computes the streak |
| AlertService.StreakFromIsNegativeRun | backend/src/services/alertService.ts:65-82 | the streak is the count of leading day heads with a negative emotion |
| AlertService.StreakIsNegativeRunOfDayHeads | backend/src/services/alertService.ts:65-82 | the same, from an empty set of processed dates |
| AlertService.DayHeadsFromFacts | backend/src/services/alertService.ts:69-75 | the records the loop looks at are records of the window, one per unseen day, all on different days |
| AlertService.DayHeadIsNewestOfItsDay | backend/src/services/alertService.ts:39-75 | on a window sorted newest first, the record the loop uses for a day is that day's newest |
| AlertService.StreakAtMostDistinctDays | backend/src/services/alertService.ts:65-82 | the streak never exceeds the number of distinct dates in the window |
| AlertService.StreakFromBound | backend/src/services/alertService.ts:65-82 | from any set of processed dates, the streak never exceeds the dates of the window not yet processed |
| AlertService.StreakCountsDaysAcrossGaps | backend/src/services/alertService.ts:68-81 | negative records on two different days count two, however far apart the days are |
| AlertService.ApplyRules | backend/src/services/alertService.ts:46-94 | on a non-empty window, the two rules give the candidate |
| AlertService.AutomaticAlert | backend/src/services/alertService.ts:97-107 | an alert is raised exactly when there is a candidate and no unhandled alert of the student of the same or a higher level |
| AlertService.CheckAlert | backend/src/services/alertService.ts:30-127 | the alert collection afterwards is the old one plus exactly the automatic alert, described from the newest record, and that alert is returned; nothing else changes |
| AlertService.StoredAlertSuppressesRepeat | backend/src/services/alertService.ts:97-107 | once the alert is stored, checking the same window again raises nothing |
| AlertService.LessSevereAlertNeverBlocks | backend/src/services/alertService.ts:98-103 | an unhandled alert less severe than the candidate never suppresses it |
| AlertService.BlockingAgreesWithoutNormal | backend/src/services/alertService.ts:99-103 | where no stored alert is normal, the query as written and the severity check agree |
| AlertService.NormalAlertBlocksAsWritten | backend/src/services/alertService.ts:102 | one unhandled normal alert suppresses a mild or moderate candidate as the query is written, but not under the severity order |
| AlertService.ScoreReasonIsTrimmed | backend/src/services/alertService.ts:53-59 | the rule A reason has no white space at its ends |
| AlertService.StreakReasonIsTrimmed | backend/src/services/alertService.ts:86-92 | the rule B reason has no white space at its ends |
| AlertService.CandidateReasonSurvivesTrim | backend/src/services/alertService.ts:110-118 | the reason the alert stores is the rule's text exactly; the trim setter leaves it alone |
| AlertService.GenerateAlert | backend/src/services/alertService.ts:130-145 | a manual alert with the caller's level, reason and description, with no duplicate check; the save fails exactly when the trimmed reason is empty |
| AlertService.MarkHandled | backend/src/services/alertService.ts:150-159 | handled, by whom, when, the note when given; every other field is unchanged |
| AlertService.HandleAlert | backend/src/services/alertService.ts:148-169 | an unknown id is an error and changes nothing; otherwise only that alert changes, as MarkHandled says |
| EmotionRecognition.ScaledFloor | backend/src/services/emotionRecognitionService.ts:21-22 | `Math.floor(Math.random() * n)` is below n |
| EmotionRecognition.Others | backend/src/services/emotionRecognitionService.ts:30 | the six other emotions, all distinct, the chosen one not among them |
| EmotionRecognition.OthersListsTheRest | backend/src/services/emotionRecognitionService.ts:30 | every emotion but the chosen one is among the others |
| EmotionRecognition.TemplateHasEveryEmotion | backend/src/services/emotionRecognitionService.ts:4-12 | the template has a zero entry for each of the seven emotions |
| EmotionRecognition.Remaining | backend/src/services/emotionRecognitionService.ts:29-36 | `remainingScore` stays between 0 and its starting value |
| EmotionRecognition.SharesAddUp | backend/src/services/emotionRecognitionService.ts:29-36 | the shares handed out plus what remains make up the starting amount |
| EmotionRecognition.OthersGetTheRest | backend/src/services/emotionRecognitionService.ts:29-39 | the six others of a simulation receive exactly 100 minus the score |
| EmotionRecognition.SimulationIsWellFormed | backend/src/services/emotionRecognitionService.ts:21-39 | score in 50..99, an entry per emotion, the chosen entry equal to the score, every entry at least 0, total exactly 100 |
| EmotionRecognition.ChosenEmotionIsLargest | backend/src/services/emotionRecognitionService.ts:22-39 | the chosen emotion's entry is at least every other entry |
| EmotionRecognition.HandOutShares | backend/src/services/emotionRecognitionService.ts:32-36 | the loop gives each other emotion its share of what remains and leaves the other entries alone |
| EmotionRecognition.SharesMakeSimulation | backend/src/services/emotionRecognitionService.ts:25-39 | the map the loop leaves, once the first other emotion takes the rest, is the simulation of the draws |
| EmotionRecognition.Simulate | backend/src/services/emotionRecognitionService.ts:15-46 | one recogniser run is the simulation the draws determine, and is well formed |
| EmotionRecognition.RecognizeEmotion | backend/src/services/emotionRecognitionService.ts:117-143 | each error exactly when its type lacks its input or the type is unknown; otherwise a well-formed simulation |
| EmotionController.CreateEmotionRecord | backend/src/controllers/emotionController.ts:8-56 | the first failing request check gives 400 and changes nothing; otherwise the record holds the recogniser's output, is appended, and then the alert check runs on the new contents |
| EmotionController.RecognizedRecord | backend/src/controllers/emotionController.ts:30-41 | the stored emotion, score and distribution are exactly the recogniser's output |
| EmotionController.SaveAndCheck | backend/src/controllers/emotionController.ts:43-46 | the record is saved before checkAlert runs, and the alert check sees it |
| EmotionController.NewRecordIsNewestInWindow | backend/src/controllers/emotionController.ts:43-46 | when every stored record is strictly older, the record just saved heads the window checkAlert reads |
| EmotionController.RecordQueryOf | backend/src/controllers/emotionController.ts:64-77 | always the requester; the type only when valid; each date bound when given |
| EmotionController.RecordQuerySelects | backend/src/controllers/emotionController.ts:64-81 | a record matches iff it is the requester's, of the valid type asked for, and created within the bounds given |
| EmotionController.BuildRecordQuery | backend/src/controllers/emotionController.ts:64-77 | the query built field by field is RecordQueryOf |
| EmotionController.GetEmotionRecords | backend/src/controllers/emotionController.ts:59-102 | total is the number of records the query selects; the items are those records newest first, skipping (page-1)·limit and taking limit; pages is ceil(total/limit); an error exactly when the skip is negative |
| EmotionController.GetEmotionRecordById | backend/src/controllers/emotionController.ts:105-125 | a record matching both the id and the owner, none exactly when there is no such record |
| EmotionController.DeleteEmotionRecord | backend/src/controllers/emotionController.ts:128-145 | deletes exactly the first record matching the id and the owner; otherwise 404 and nothing changes |
| DecisionSupport.EmotionSuggestions | backend/src/services/teacherDecisionSupportService.ts:26-40 | "frequent negative" iff 3 or more negative records; "severe negative" iff a negative record scores 80 or more; in that order |
| DecisionSupport.EmotionListFacts | backend/src/services/teacherDecisionSupportService.ts:26-40 | the two emotion pushes list exactly the rules that fire, each once, frequent before severe |
| DecisionSupport.AlertSuggestions | backend/src/services/teacherDecisionSupportService.ts:43-58 | one suggestion per level present among severe, moderate and mild, in that order; normal alerts add none |
| DecisionSupport.AlertListFacts | backend/src/services/teacherDecisionSupportService.ts:43-58 | the three alert pushes list exactly the levels present, each once, severe before moderate before mild |
| DecisionSupport.AnyAtLevel | backend/src/services/teacherDecisionSupportService.ts:44-45 | a non-empty filter by level means some alert has that level |
| DecisionSupport.ConsultationSuggestions | backend/src/services/teacherDecisionSupportService.ts:61-68 | with a consultation, exactly one suggestion: adjust when the newest effect is poor or fair, keep going otherwise |
| DecisionSupport.SevereAmongNegative | backend/src/services/teacherDecisionSupportService.ts:27-37 | the nested filter is non-empty iff some negative record scores 80 or more |
| DecisionSupport.LevelFilters | backend/src/services/teacherDecisionSupportService.ts:44-55 | a filter on a level is non-empty iff an alert has that level |
| DecisionSupport.Suggest | backend/src/services/teacherDecisionSupportService.ts:23-75 | the suggestions are exactly those whose rule fires, in rule order, with the default iff nothing else fires; between 1 and 6 of them |
| DecisionSupport.StableComesAlone | backend/src/services/teacherDecisionSupportService.ts:70-73 | the default suggestion appears iff it is the only one |
| DecisionSupport.GenerateInterventionSuggestions | backend/src/services/teacherDecisionSupportService.ts:8-75 | the rule table applied to the student's newest 5 records, 3 alerts and 2 consultations |
| DecisionSupport.WindowsAreNewest | backend/src/services/teacherDecisionSupportService.ts:11-21 | the lists the rules read are the student's own, newest first, at most 5, 3 and 2 long |
| AlertController.AlertQueryOf | backend/src/controllers/alertController.ts:20-39 | the level only when valid; isHandled whenever given, true iff the string is "true"; student and dates when given |
| AlertController.AlertQuerySelects | backend/src/controllers/alertController.ts:20-43 | an alert matches iff it has the valid level asked for, the handled flag asked for, the student asked for, and a creation time within the bounds given |
| AlertController.BuildAlertQuery | backend/src/controllers/alertController.ts:20-39 | the query built field by field is AlertQueryOf |
| AlertController.EmptyQueryMatchesAll | backend/src/controllers/alertController.ts:12 | the empty query matches every alert |
| AlertController.GetAlerts | backend/src/controllers/alertController.ts:7-66 | total is the number of alerts the query selects; the items are those alerts newest first, skipping (page-1)·limit and taking limit; pages is ceil(total/limit); an error exactly when the skip is negative |
| AlertController.GetAlertById | backend/src/controllers/alertController.ts:69-90 | the alert with that id, none exactly when there is none |
| AlertController.HandleAlertById | backend/src/controllers/alertController.ts:93-109 | handleAlert's outcome as 200 or 500 |
| AlertController.CreateManualAlert | backend/src/controllers/alertController.ts:112-144 | the first failing guard in order, with nothing stored; past the guards, created iff the trimmed reason is non-empty, otherwise 500, with generateAlert's new alert appended |
| AlertController.OnlyStaffRaiseAlerts | backend/src/controllers/alertController.ts:118-132 | the guards pass iff all three fields are present, the level is valid and the role is teacher, counsellor or admin |
| AlertController.BlankReasonPassesGuards | backend/src/controllers/alertController.ts:118-134 | a reason of one space passes the guards, but the save fails on it once trimmed |
| Validation.CloseTag | backend/src/middlewares/validation.ts:120 | where the lazy `.*?<\/script>` match ends: inside the text, on the '>' of a closing tag |
| Validation.ScriptAt | backend/src/middlewares/validation.ts:120 | a script-block match starts with '<' and ends with '>' |
| Validation.StripScripts | backend/src/middlewares/validation.ts:120 | removing the script blocks never lengthens the text |
| Validation.StripTags | backend/src/middlewares/validation.ts:121 | removing the tags keeps only characters of the input |
| Validation.StripTagsLeavesNoTag | backend/src/middlewares/validation.ts:121 | after tag removal no '<' is followed later by '>' |
| Validation.StripTagsOfNoTag | backend/src/middlewares/validation.ts:121 | tag removal leaves text without a tag alone |
| Validation.StripScriptsOfNoTag | backend/src/middlewares/validation.ts:120 | block removal leaves text without a tag alone |
| Validation.SanitizeLeavesNoTag | backend/src/middlewares/validation.ts:119-122 | the sanitised content has no tag and no white space at its ends |
| Validation.SanitizeIdempotent | backend/src/middlewares/validation.ts:119-122 | sanitising again changes nothing |
| Validation.ScriptBlockExample | backend/src/middlewares/validation.ts:120-121 | `<script>x</script>` sanitises to the empty string, while tag removal alone keeps the x |
| Validation.ScriptBlockMatches | backend/src/middlewares/validation.ts:120 | the script pattern matches all 18 characters of `<script>x</script>` |
| Validation.TagRemoved | backend/src/middlewares/validation.ts:121 | a `<` and everything up to its nearest `>` are removed, and the rest is stripped the same way |
| Validation.TagsAloneKeepText | backend/src/middlewares/validation.ts:121 | tag removal alone turns `<script>x</script>` into `x` |
| Validation.EmailCheckIsPattern | backend/src/middlewares/validation.ts:5 | the e-mail check holds iff the string is non-blank runs without white space or '@', split as local@domain.tld |
| Validation.EmailFromCheck | backend/src/middlewares/validation.ts:5 | every string the direct check accepts matches the pattern |
| Validation.EmailToCheck | backend/src/middlewares/validation.ts:5 | every string the pattern matches passes the direct check |
| Validation.EmailPatternIgnoresCase | backend/src/middlewares/validation.ts:71 | lower-casing neither makes nor breaks a valid e-mail |
| Validation.EmailIsTrimmed | backend/src/middlewares/validation.ts:5 | a valid e-mail has nothing trim() removes |
| Validation.NormalizedEmailStillValid | backend/src/middlewares/validation.ts:71 | the trimmed, lower-cased e-mail is still valid |
| Validation.StoredEmailStillValid | backend/src/middlewares/validation.ts:71 | an e-mail that passes the check is already trimmed, and passes again once trimmed and lower-cased |
| Validation.PhoneIsTrimmed | backend/src/middlewares/validation.ts:11 | a valid phone number has nothing trim() removes |
| Validation.TrimmedPhoneUnchanged | backend/src/middlewares/validation.ts:74 | trimming a phone number that passes the check leaves it as it was |
| Validation.RegistrationListIsTheFailures | backend/src/middlewares/validation.ts:36-59 | an error is in the list iff its check fails, in the fixed order name, email, password, role, phone, age |
| Validation.RegistrationErrors | backend/src/middlewares/validation.ts:33-59 | the pushes build exactly that list |
| Validation.Check | backend/src/middlewares/validation.ts:36-58 | one failed check appends its message at the end; a passed one adds nothing |
| Validation.RegistrationListRanked | backend/src/middlewares/validation.ts:36-58 | the messages come in the order the checks run, each at most once |
| Validation.EmptyListMeansPassed | backend/src/middlewares/validation.ts:61-67 | the request is rejected iff some check fails |
| Validation.TrimIfPresent | backend/src/middlewares/validation.ts:72-74 | a present field is trimmed, an absent or empty one is left alone |
| Validation.ValidateUserRegistration | backend/src/middlewares/validation.ts:30-77 | the errors of the old body; a rejected body is unchanged; an accepted one has valid name, e-mail and phone and holds the normalised fields, the other fields untouched |
| Validation.NormalizedRegistrationIdempotent | backend/src/middlewares/validation.ts:70-74 | normalising again changes nothing |
| Validation.AcceptedRegistrationRevalidates | backend/src/middlewares/validation.ts:36-74 | an accepted body still passes every check once normalised; its e-mail and phone are already trimmed |
| Validation.TrimmedNameStillValid | backend/src/middlewares/validation.ts:70 | a valid name stays valid once trimmed |
| Validation.LoginErrors | backend/src/middlewares/validation.ts:83-91 | the errors are the e-mail then the password check's, in that order |
| Validation.LoginChecksAreRegistrationChecks | backend/src/middlewares/validation.ts:85-91 | login reports an e-mail or password error iff registration would; no other error |
| Validation.ValidateUserLogin | backend/src/middlewares/validation.ts:80-104 | a rejected body is unchanged; an accepted one has its e-mail trimmed and lower-cased and nothing else changed |
| Validation.ValidateEmotionRecord | backend/src/middlewares/validation.ts:107-134 | an error iff the type is missing; the content, when given, is replaced by its sanitised form whatever the outcome |
| Validation.SanitizedRecordIsClean | backend/src/middlewares/validation.ts:117-123 | the stored content has no tag and no white space at its ends, and sanitising the body again changes nothing |
| UserStore.MergeSuppliedWins | backend/src/utils/userStore.ts:91 | in the spread, each supplied field wins and every other field keeps its stored value |
| UserStore.MergeEmptyAndTwice | backend/src/utils/userStore.ts:91 | an empty patch changes nothing, and a patch applied twice is applied once |
| UserStore.Find | backend/src/utils/userStore.ts:70-77 | `find`: the first matching user, none exactly when nothing matches |
| UserStore.UserList.constructor | backend/src/utils/userStore.ts:60 | the store starts with the users loaded |
| UserStore.UserList.FindUserById | backend/src/utils/userStore.ts:70-72 | a user with exactly that id, none exactly when there is none |
| UserStore.UserList.FindUserByEmail | backend/src/utils/userStore.ts:75-77 | a user with exactly that e-mail, none exactly when there is none |
| UserStore.UserList.UserExists | backend/src/utils/userStore.ts:113-115 | holds iff findUserById finds a user |
| UserStore.UserList.AddUser | backend/src/utils/userStore.ts:80-83 | the user is appended, with no uniqueness check |
| UserStore.UserList.UpdateUser | backend/src/utils/userStore.ts:86-94 | false and no change for an unknown id; otherwise only the first match is replaced, by its merge with the patch |
| UserStore.UserList.DeleteUser | backend/src/utils/userStore.ts:97-105 | false and no change for an unknown id; otherwise exactly the first match is removed and the rest keep their order |
| UserStore.AddedUserFound | backend/src/utils/userStore.ts:70-83 | after adding, the id finds the new user unless an earlier user holds the same id |
| UserStore.UpdateKeepsTheRest | backend/src/utils/userStore.ts:87-91 | an update keeps the length and every other user; when the patch keeps the id, the id finds the merged user |
| UserStore.DeleteRemovesTheOnlyMatch | backend/src/utils/userStore.ts:98-102 | with unique ids, no user with that id is left after deleting |
| ConsultationController.StatusCode | backend/src/controllers/consultationController.ts:15-400 | the HTTP status of each refusal: 400, 404, 403 or 500 |
| ConsultationController.BookingRefusal | backend/src/controllers/consultationController.ts:14-36 | a booking is refused unless both fields are given, the counsellor exists with that role, and no pending or confirmed appointment holds the slot |
| ConsultationController.CreateAppointment | backend/src/controllers/consultationController.ts:8-56 | the first failing check with nothing stored; otherwise a pending appointment for the requester appended; slots stay singly booked |
| ConsultationController.BookingKeepsSlotsSingle | backend/src/controllers/consultationController.ts:27-46 | a booking the check lets through never creates a second active booking for a slot |
| ConsultationController.InactiveDoNotBlock | backend/src/controllers/consultationController.ts:30 | cancelled and completed appointments never block a booking |
| ConsultationController.ConfirmAppointment | backend/src/controllers/consultationController.ts:153-178 | only an appointment of the requesting counsellor is confirmed, whatever its status was; otherwise 404 and nothing changes |
| ConsultationController.ConfirmCanReviveABookedSlot | backend/src/controllers/consultationController.ts:159-168 | confirming a cancelled appointment whose slot was booked again makes two active bookings for the slot |
| ConsultationController.MayActByRole | backend/src/controllers/consultationController.ts:195-198 | a student may act only on their own, a counsellor only on theirs, teachers and admins on any |
| ConsultationController.CancelAppointment | backend/src/controllers/consultationController.ts:181-215 | 404 for an unknown id, 403 for someone else's, otherwise the status becomes cancelled; slots stay singly booked |
| ConsultationController.CancelKeepsSlotsSingle | backend/src/controllers/consultationController.ts:204 | cancelling never creates a double booking |
| ConsultationController.GetAppointmentById | backend/src/controllers/consultationController.ts:119-150 | absent exactly when no appointment has the id; shown only to whom the ownership test allows |
| ConsultationController.AppointmentQueryOf | backend/src/controllers/consultationController.ts:64-89 | students and counsellors pinned to their own side; only teachers and admins choose a counsellor; the status when valid; the dates when given |
| ConsultationController.AppointmentQuerySelects | backend/src/controllers/consultationController.ts:64-93 | an appointment matches iff it is on the requester's side, with the counsellor, valid status and time bounds asked for |
| ConsultationController.BuildAppointmentQuery | backend/src/controllers/consultationController.ts:64-89 | the query built by mutation is AppointmentQueryOf |
| ConsultationController.GetAppointments | backend/src/controllers/consultationController.ts:59-116 | total is the number of appointments the query selects; the items are those, earliest first, skipping (page-1)·limit and taking limit, each one the requester may see; pages is ceil(total/limit); an error exactly when the skip is negative |
| ConsultationController.RecordQueryOf | backend/src/controllers/consultationController.ts:281-305 | students and counsellors pinned to their own side; teachers and admins choose student and counsellor; the start-time bounds when given |
| ConsultationController.RecordQuerySelects | backend/src/controllers/consultationController.ts:281-309 | a record matches iff it is on the requester's side, with the student, counsellor and start-time bounds asked for |
| ConsultationController.BuildRecordQuery | backend/src/controllers/consultationController.ts:281-305 | the query built by mutation is RecordQueryOf |
| ConsultationController.GetConsultationRecords | backend/src/controllers/consultationController.ts:276-333 | total is the number of records the query selects; the items are those, latest start first, skipping (page-1)·limit and taking limit, each one the requester may see; pages is ceil(total/limit); an error exactly when the skip is negative |
| ConsultationController.GetConsultationRecordById | backend/src/controllers/consultationController.ts:336-368 | absent exactly when no record has the id; shown only to whom the ownership test allows |
| ConsultationController.EffectOfRequest | backend/src/controllers/consultationController.ts:259 | fair when no effect is given, otherwise the enum value the string names, if any |
| ConsultationController.RecordRefusal | backend/src/controllers/consultationController.ts:224-242 | refused unless student, start time and content are given, the student exists, and a named appointment is this counsellor's with this student |
| ConsultationController.CompleteAppointment | backend/src/controllers/consultationController.ts:237-247 | the named appointment becomes completed; without one nothing changes |
| ConsultationController.CreateConsultationRecord | backend/src/controllers/consultationController.ts:218-273 | a refused check changes nothing; past the checks the appointment is completed, and the request succeeds iff the effect is in the enum and the save accepts the record, which is then appended; otherwise the one failure is the save's 500, with the appointment still completed |
| ConsultationController.SaveNewRecord | backend/src/controllers/consultationController.ts:250-263 | the save fails exactly on an effect outside the enum or a blank content; otherwise the record after the pre-save hook is appended |
| ConsultationController.CreatedRecordContents | backend/src/controllers/consultationController.ts:250-261 | the record holds the parties, appointment and start given, the trimmed non-empty content, fair when no effect was given, and the duration iff an end was given |
| ConsultationController.ApplyPatch | backend/src/controllers/consultationController.ts:386-390 | each of the five fields changes only when supplied; every other field is unchanged; no valid document when the effect given is outside the enum |
| ConsultationController.ApplyPatchEmptyAndTwice | backend/src/controllers/consultationController.ts:386-390 | an empty patch changes nothing, and a patch applied twice is applied once |
| ConsultationController.SavePatched | backend/src/controllers/consultationController.ts:389-392 | the save fails exactly on an effect outside the enum or a content blank once trimmed; otherwise the patched record after the pre-save hook |
| ConsultationController.InvalidEffectFailsUpdate | backend/src/controllers/consultationController.ts:389-392 | an effect outside the enum always fails the update; a valid one is stored as the member it names |
| ConsultationController.UpdateConsultationRecord | backend/src/controllers/consultationController.ts:371-402 | 404 unless the record is the requesting counsellor's; a 500 with no change when the save refuses the patched record (an effect outside the enum, a blank content); otherwise the patched record after the hook replaces it |
| ConsultationController.UpdateKeepsParties | backend/src/controllers/consultationController.ts:378-392 | an update keeps the parties, the appointment, the times and the creation time; the duration follows the times it already had |

## Left out

- I/O: the Express request/response plumbing, logging, and the `catch` blocks that turn a thrown error into 500. What can throw inside the model is a `Result`-like outcome: a failed save, or handleAlert on an unknown id.
- Time: `new Date()` becomes a `now` parameter. Seven days are 7 × 86 400 000 ms, with no daylight-saving or calendar arithmetic. Date strings from a query are taken as already-parsed millisecond values, so an unparseable date (`Invalid Date`) is not modelled.
- `Math.random()`: each call becomes an explicit draw `u < 2^53`, standing for `u / 2^53`. `EmotionRecognition.ScaledFloor` computes `floor(u * n / 2^53)` exactly, where JavaScript rounds the product `Math.random() * n` to a double first. A draw just below a boundary can then land on the neighbouring integer; no proved property depends on which one.
- Floating point: scores, ages and paging values are integers. `Number(page)` on non-numeric text, which gives NaN, is not modelled.
- Strings: `trim()` uses an explicit set of white-space characters, and `toLowerCase()` maps ASCII letters only. Full Unicode, and lengths in UTF-16 code units, are not modelled.
- JavaScript falsiness is modelled as "absent or empty string". A body field of another JSON type (a number, an object), and `typeof content === 'string'` in the sanitiser, are not modelled.
- MongoDB: only the filters, sorts, skip and limit the handlers use are modelled. `populate`, ObjectId casting, `updatedAt`, and the `min: 0` validator on `duration` are not. A record whose populated user was deleted, where `._id` on null throws, is not modelled either.
- The aggregation pipelines (class and grade reports, alert and emotion statistics) use `$group`, `$lookup` and floating-point `$avg`.
- The error list the decision-support service returns on failure (lines 76-79 of its source): its queries cannot fail in the model.
- The teacher branch at the top of getAlerts is empty in the source and adds nothing.
- Collections.SortNewestFirst: MongoDB returns documents with equal sort keys in no specified order. The model fixes one, a stable insertion sort that puts the later-stored document first. The properties proved of it (a permutation, ordered by the key) hold for any order MongoDB picks. Which of two tied documents comes first, for example `recentEmotions[0]` in rule A when two records share a `createdAt`, is the model's choice. `EmotionController.NewRecordIsNewestInWindow` therefore requires every stored record to be strictly older than the new one.
- AlertService.MarkHandled: an absent `handledNote` keeps the stored note. This assumes that `findByIdAndUpdate` drops a key whose value is `undefined`, as Mongoose 6 and later do. Under Mongoose 5's default such a key writes `null` and clears the note; that behaviour is not modelled.
- Concurrency: the check-then-insert races in the alert duplicate check and in booking. Each request runs alone.
- getAllUsers: it returns the store's live array, and the model has no aliasing of that array.
- reloadUsers, readUsersFromFile, writeUsersToFile, ensureDataDir: the file that mirrors the user store, and its JSON.
- `comparePassword` on a stored user: bcrypt.
- UserStore.UserList.UpdateUser: a patch key that is present with the value `undefined` overwrites the field in the spread. The patch type cannot express that, so such a key counts as not supplied.
- The authentication middleware, JWT, rate limiting, the routes, the frontend and userController are outside this model.

## Findings

| source | as written | input that shows it | evidently intended | confidence | as-written member | corrected member |
|---|---|---|---|---|---|---|
| backend/src/services/alertService.ts:102 | `level: { $gte: alertLevel }` compares the stored strings, so `normal` ranks above `mild` and `moderate` | one unhandled manual alert of level normal; a new record with emotion sad and score 75 makes a mild candidate, and the query finds the normal alert, so no alert is raised | only an unhandled alert at least as severe as the candidate suppresses it (the comment on line 98), so a normal alert never blocks | not executed | AlertService.NormalAlertBlocksAsWritten | AlertService.LessSevereAlertNeverBlocks |
