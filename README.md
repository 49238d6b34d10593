# Emotion health monitor — a Dafny model

This project models the core of a small emotion-tracking web application.
Users submit emotion readings (an emotion label and a wellness score). The
server stores each reading as an emotion record and answers it according
to the user's care mode:

- normal mode below 60 suggests music therapy and an ambient setting;
- moderate mode below 55 suggests a guided exercise;
- clinical mode below 50 raises a crisis alert for caregivers.

The server also reports analytics over a user's records. Its other
routes list and resolve alerts, link caregivers to patients, show a
caregiver one patient, and read or update the user's profile and care
mode. A browser dashboard simulates scans, saves readings and shows the
history. It keeps its own copies of the music and ambient tables.

The model follows the program's structure:

| module | models |
|---|---|
| `Wrappers` | `Option` and `Result` |
| `Numeric` | sums, `Math.round` of a mean, decimal rendering of a score and reading it back |
| `Vocabulary` | the nine emotion labels, the three care modes, document identifiers |
| `EmotionRecordModel`, `AlertModel`, `UserModel` | the three document schemas: fields, enumerations, defaults, validation |
| `Store` | class `Db`: the three collections as maps, a counter for new identifiers |
| `Listing` | `sort({timestamp: -1}).limit(n)` as an insertion method with its specification |
| `Policy` | the two emotion-keyed tables with their fallbacks, the care-mode decision chain, the crisis alert |
| `Analytics` | the record window and the folds of the analytics answer |
| `EmotionRoutes` | the submission handler (imperative, on `Db`), the history listing and the analytics answer |
| `AlertRoutes`, `CaregiverRoutes`, `UserRoutes` | the other handlers, as methods on `Db` |
| `DashboardHelpers` | the dashboard's pure helpers, each set against the server |
| `Dashboard` | class `Monitor`: the dashboard's state and its handlers |

A few modelling choices:

- An emotion travels as a string, so the tables and the decision chain accept any string. Validity means being one of the nine labels.
- The schema enumerations for care modes, alert types and severities are datatypes.
- Timestamps are integers.
- The random draws, the clock and the server's answers to the dashboard are parameters of the handlers.

The submission handler is not a pure function of the submission: it
stores the crisis alert before it validates and saves the record, so a
record that then fails validation leaves its alert behind
(`EmotionRoutes.CreateEmotionRecord`).

## Model

| member | source | states |
|---|---|---|
| Numeric.RoundDiv | backend/routes/emotions.js:164 | the rounded quotient r lies within half a unit of num/den: 2·num − den < 2·den·r ≤ 2·num + den (round half up) |
| Numeric.MeanBounds | backend/routes/emotions.js:140-142 | the rounded mean of values in [lo, hi] lies in [lo, hi] |
| Numeric.DecimalRoundTrip | backend/routes/emotions.js:80 | the decimal rendering of a score parses back to the score |
| Vocabulary.LabelsRoundTrip | backend/models/EmotionRecord.js:9-13 | labels and emotions correspond one to one; a string parses exactly when it is one of the nine accepted labels |
| EmotionRecordModel.NewRecord | backend/models/EmotionRecord.js:15-43 | a new record keeps owner, emotion and score, uses scan mode `multimodal` when none is given, and starts with no intervention, no ambient setting and the music subdocument `{played: false}` without genre or track |
| EmotionRecordModel.NewRecordValidity | backend/models/EmotionRecord.js:9-24 | a new record passes validation iff its emotion is a label, its score is in [0, 100], its scan mode is one of the four or absent, and its sub-scores are in [0, 100] |
| AlertModel.NewAlertDefaults | backend/models/Alert.js:4-27 | a new alert is `medium`, unresolved and unnotified, with no record reference, message or response |
| AlertModel.NamesDistinct | backend/models/Alert.js:13-22 | every alert type and severity is stored under its own name |
| UserModel.NewUserDefaults | backend/models/User.js:4-35 | a new user is in normal mode, has every preference on and has no caregivers or patients; the required strings decide validity |
| UserModel.ProfileDropsOnlyPassword | backend/routes/user.js:10 | two users give the same outgoing profile iff they differ at most in the password |
| Store.Db.FreshId | backend/routes/emotions.js:50-58 | the new identifier is used by no document, and the store's invariant is kept |
| Store.Db.SaveRecord | backend/routes/emotions.js:87 | only a validated record is stored, under its identifier; the invariant is kept |
| Store.Db.CreateAlert | backend/routes/emotions.js:75-81 | the alert is stored under a new identifier and nothing else changes |
| Listing.Insert | backend/routes/alerts.js:14 | inserting into a newest-first list without duplicates gives a newest-first list without duplicates, holding exactly the old elements and the new one |
| Listing.NewestFirst | backend/routes/alerts.js:12-15 | the result lists min(limit, \|sel\|) selected documents, each once, newest first, and no document left out is newer than one listed |
| Policy.LookupSpec | backend/routes/emotions.js:21 | an object-literal lookup finds a value iff some entry has the key, and the value it finds belongs to such an entry |
| Policy.LookupFirst | backend/routes/emotions.js:21 | the lookup returns the first entry with the key |
| Policy.LookupKeys | backend/routes/emotions.js:33 | the lookup finds a value exactly for the keys of the table |
| Policy.MusicTableKeys | backend/routes/emotions.js:10-20 | the music table's keys are the nine labels, in the schema's order |
| Policy.MusicFor | backend/routes/emotions.js:9-22 | the track is the table's entry for the emotion, or the Neutral track when the table has no entry for it |
| Policy.MusicFallback | backend/routes/emotions.js:21 | any value outside the nine labels gets the Neutral entry |
| Policy.MusicSamples | backend/routes/emotions.js:12-17 | Neutral maps to Lo-fi Beats / Study Music and Sad to Soothing Classical / Moonlight Sonata |
| Policy.MusicTableDistinct | backend/routes/emotions.js:10-20 | no two music entries share a key or a track |
| Policy.MusicForLabel | backend/routes/emotions.js:9-22 | every label finds its own entry of the music table |
| Policy.MusicTableInjective | backend/routes/emotions.js:9-22 | different emotions get different music |
| Policy.AmbientFor | backend/routes/emotions.js:24-34 | the ambience is the table's entry for the emotion, or the generic `neutral`/`ambient` setting when the table has no entry for it |
| Policy.AmbientTablePartial | backend/routes/emotions.js:24-34 | the ambient setting differs from the generic one iff the emotion is Happy, Sad, Anxious, Calm, Stressed or Depressed |
| Policy.Evaluate | backend/routes/emotions.js:63-82 | something happens iff the score is below the mode's threshold; an alert carries the message for score and emotion and is `critical` iff the score is below 40 |
| Policy.KindIsThreshold | backend/routes/emotions.js:60-85 | the intervention is the mode's own kind iff the score is below the mode's threshold (60, 55 or 50), and none otherwise |
| Policy.EmotionNeverDecides | backend/routes/emotions.js:60-85 | two submissions with the same mode and score get the same intervention kind, whatever their emotions |
| Policy.Boundaries | backend/routes/emotions.js:63-79 | normal at 60, moderate at 55 and clinical at 50 do nothing; 59, 54 and 49 intervene; the severity is `high` at 49 and 40 and `critical` at 39 |
| Policy.PayloadsByBranch | backend/routes/emotions.js:63-82 | music and ambience come only from the normal branch, below 60, and follow the two tables; an alert comes iff clinical and below 50, `critical` iff the score is below 40 |
| Policy.AlertMessageRoundTrip | backend/routes/emotions.js:80 | score and emotion can be read back out of the alert message |
| Policy.CrisisAlertFor | backend/routes/emotions.js:75-81 | the alert belongs to the user, refers to the record, is `low_wellness`, `critical` below 40 and `high` otherwise, unresolved, unnotified and without a response |
| Policy.CrisisAlertSpec | backend/routes/emotions.js:75-81 | the crisis alert belongs to the user, refers to the new record, is `low_wellness`, is `critical` iff the score is below 40 and `high` otherwise, carries a message that gives back score and emotion, and starts unresolved and unnotified |
| Analytics.Window | backend/routes/emotions.js:135-138 | the window lists, in ascending identifier (insertion) order, which the model fixes because the query sets none, exactly the identifiers below the bound of the user's records stamped at or after the start |
| Analytics.WindowSize | backend/routes/emotions.js:135-138 | the window is as long as the set of selected records, so it lists each of them exactly once |
| Analytics.KeyOrder | backend/routes/emotions.js:144-147 | the histogram's keys, each once, are exactly the labels that occur |
| Analytics.KeyOrderFirstAppearance | backend/routes/emotions.js:144-151 | the keys are ordered by where their labels first occur among the records, the insertion order `Object.keys` gives and the `reduce` walks |
| Analytics.Histogram | backend/routes/emotions.js:144-147 | the histogram has a key exactly for each label that occurs |
| Analytics.HistogramCounts | backend/routes/emotions.js:144-147 | the histogram counts each label's occurrences and has no other keys |
| Analytics.HistogramTotal | backend/routes/emotions.js:144-147 | the histogram's counts add up to the number of records |
| Analytics.LastMaxIndex | backend/routes/emotions.js:150-152 | the key reached by the `reduce` has the largest count, and every later key has a strictly smaller count |
| Analytics.MostFrequent | backend/routes/emotions.js:149-153 | `Neutral` without records, otherwise one of the records' labels |
| Analytics.TriggeredCount | backend/routes/emotions.js:168 | the number of triggered records is at most the total; it is 0 iff none was triggered and the total iff all were |
| Analytics.AnalyticsOf | backend/routes/emotions.js:155-168 | the answer echoes the period, counts the records, has one trajectory point per record, keys the distribution by the labels that occur, reports no more interventions than records, and is 0 and `Neutral` without records |
| Analytics.AnalyticsInvariants | backend/routes/emotions.js:161-168 | the total is the number of records, the distribution counts every record once, the average is the rounded mean (0 with no records), and interventions do not exceed the total |
| Analytics.AverageInRange | backend/routes/emotions.js:140-142 | over valid records the average lies in [0, 100] |
| Analytics.MostFrequentSpec | backend/routes/emotions.js:149-153 | `Neutral` with no records; otherwise a label that occurs, whose count no label exceeds, and every label first seen after it has a smaller count |
| Analytics.WindowReport | backend/routes/emotions.js:135-168 | over a table of valid records the answer counts each selected record once, its distribution adds up to that count, and its average lies in [0, 100] |
| EmotionRoutes.DecidedRecord | backend/routes/emotions.js:50-85 | the decided record keeps owner, emotion, score and time, is flagged iff the score is below the mode's threshold, and its track is not played |
| EmotionRoutes.DecidedRecordSpec | backend/routes/emotions.js:60-96 | the record's flag is set iff the score is below the mode's threshold; the answer's intervention is null iff nothing was triggered, and otherwise names the mode's kind and carries the record's music and ambient fields; normal below 60 gives an unplayed track and an ambience from the tables, every other case the bare `{played: false}` and no ambience |
| EmotionRoutes.ApplyCarePolicy | backend/routes/emotions.js:60-85 | the record is the decided one; exactly one alert, the crisis alert under a fresh identifier, is added iff clinical and below 50 |
| EmotionRoutes.CreateEmotionRecord | backend/routes/emotions.js:37-101 | a missing user is a server error and changes nothing; otherwise a valid record is stored under its new identifier and answered with its intervention, an invalid one is a server error; the crisis alert is stored in either case |
| EmotionRoutes.ListEmotions | backend/routes/emotions.js:104-124 | the user's records, newest first, each once; 50 of them at most without a `limit`, all of them for `limit` 0, and at most \|n\| for a negative `limit` n |
| EmotionRoutes.GetAnalytics | backend/routes/emotions.js:127-173 | the answer folds the user's records from the start on, read in ascending identifier (insertion) order, echoing the period (`7` by default); it counts each such record of the store once, its distribution adds up to that count, its average lies in [0, 100], and interventions do not exceed the count |
| AlertRoutes.ResolvedFilterCases | backend/routes/alerts.js:10 | no `resolved` query means no filter, `'true'` means resolved alerts only, any other string means unresolved alerts only |
| AlertRoutes.ListAlerts | backend/routes/alerts.js:6-21 | only the requester's alerts that pass the filter, newest first, at most 50 |
| AlertRoutes.ResolveIn | backend/routes/alerts.js:26-32 | an update happens iff the alert exists and belongs to the user, and then keeps the identifiers and marks that alert resolved |
| AlertRoutes.ResolveInSpec | backend/routes/alerts.js:26-32 | only the owner's alert with that id is resolved: it gets resolved, notified and the response, and every other field and every other alert stays |
| AlertRoutes.ResolveIdempotent | backend/routes/alerts.js:26-30 | resolving twice with the same response is resolving once |
| AlertRoutes.ResolveAlert | backend/routes/alerts.js:23-37 | a missing or foreign alert is `NotFound` and changes nothing; otherwise the table becomes the resolved one and the updated alert is answered |
| CaregiverRoutes.AddToSet | backend/routes/caregivers.js:16-20 | the list afterwards holds the element, keeps the old list as a prefix, and grows by one exactly when the element was absent |
| CaregiverRoutes.AddToSetSpec | backend/routes/caregivers.js:15-21 | `$addToSet` adds exactly the element, keeps a list free of duplicates, keeps the old list as a prefix, and is idempotent |
| CaregiverRoutes.Link | backend/routes/caregivers.js:15-21 | the users keep their identifiers; the caregiver lists the requester, and the requester, when found, lists the caregiver |
| CaregiverRoutes.LinkSymmetric | backend/routes/caregivers.js:15-21 | after the link the requester lists the caregiver and the caregiver lists the requester |
| CaregiverRoutes.LinkFrame | backend/routes/caregivers.js:15-21 | only the two users change, only in their two lists, each list grows only by the other party, and emails stay |
| CaregiverRoutes.LinkKeepsDistinct | backend/routes/caregivers.js:16-20 | linking never creates a duplicate in any list |
| CaregiverRoutes.LinkIdempotent | backend/routes/caregivers.js:15-21 | linking the same pair again changes nothing |
| CaregiverRoutes.LinkKeepsValid | backend/routes/caregivers.js:15-21 | linking keeps the identifiers and the unique emails |
| CaregiverRoutes.AddCaregiver | backend/routes/caregivers.js:8-30 | the add fails iff no user has the email, and then it is `NotFound` and changes nothing; otherwise the found user is the only one with that email, it is answered, and the users become the linked ones |
| CaregiverRoutes.ViewPatient | backend/routes/caregivers.js:32-49 | a missing requester is a server error, a patient the requester does not list is forbidden; otherwise the answer has the profile, the 20 newest records and every unresolved alert, newest first |
| CaregiverRoutes.PatientViewBounds | backend/routes/caregivers.js:40-43 | the view shows at most 20 records, all of the patient, and exactly the patient's unresolved alerts |
| UserRoutes.GetProfile | backend/routes/user.js:6-22 | a missing user is `NotFound`; otherwise the answer is the profile without the password |
| UserRoutes.ApplyPatch | backend/routes/user.js:27-31 | an empty body changes nothing; the email and the care mode are the sent ones when sent and the stored ones otherwise |
| UserRoutes.ApplyPatchFields | backend/routes/user.js:26-32 | each field sent replaces the stored one, and each field not sent stays |
| UserRoutes.ApplyPatchLaws | backend/routes/user.js:26-32 | an empty body changes nothing, and applying a body twice is applying it once |
| UserRoutes.UpdateProfile | backend/routes/user.js:24-38 | a missing user is answered with null and changes nothing; an email taken by another user is a server error that changes nothing; otherwise only that user changes, to the patched one |
| UserRoutes.CareModePatchSpec | backend/routes/user.js:43-49 | a care-mode update changes the care mode and no other field, and never collides on email |
| UserRoutes.UpdateCareMode | backend/routes/user.js:40-55 | a missing user is a server error and changes nothing; otherwise only that user's care mode changes and the stored mode is answered |
| DashboardHelpers.FrontMusic | src/EmotionHealthMonitor.tsx:98-108 | every card's genre and track form an entry of the server's music table for the emotion's label |
| DashboardHelpers.FrontMusicAgrees | src/EmotionHealthMonitor.tsx:98-108 | the dashboard's music table gives every emotion the server's genre and track |
| DashboardHelpers.FrontAmbient | src/EmotionHealthMonitor.tsx:265-277 | the ambience is the dashboard table's entry for the name or, when it has none, the server's generic setting |
| DashboardHelpers.FrontAmbientTotal | src/EmotionHealthMonitor.tsx:265-277 | the dashboard's ambient table has an entry exactly for the nine labels |
| DashboardHelpers.FrontAmbientSame | src/EmotionHealthMonitor.tsx:265-277 | for the six shared labels and Neutral, the dashboard's ambience equals the server's |
| DashboardHelpers.FrontAmbientDiffers | src/EmotionHealthMonitor.tsx:265-277 | for Excited and Angry the dashboard's ambience differs from the server's generic fallback |
| DashboardHelpers.EmotionIcon | src/EmotionHealthMonitor.tsx:349-353 | smile iff Happy, Excited or Calm, and meh iff Neutral |
| DashboardHelpers.EmotionIconSplit | src/EmotionHealthMonitor.tsx:349-353 | smile iff Happy, Excited or Calm; meh iff Neutral; frown iff one of the other five |
| DashboardHelpers.ToMoodEntry | src/EmotionHealthMonitor.tsx:138-146 | an entry keeps emotion, score and date; without an expanded owner it is filed under normal; a missing note is empty and a missing context `Unknown` |
| DashboardHelpers.LoadHistory | src/EmotionHealthMonitor.tsx:134-146 | one entry per record, keeping its emotion and score, filed under normal |
| DashboardHelpers.LoadHistorySpec | src/EmotionHealthMonitor.tsx:138-146 | each entry keeps emotion and score, fills a missing note with the empty text and a missing location with `Unknown`, and is filed under normal |
| DashboardHelpers.AvgScore | src/EmotionHealthMonitor.tsx:582-584 | 0 for an empty history, otherwise within half a unit of the mean score (rounded half up) |
| DashboardHelpers.AvgScoreAgrees | src/EmotionHealthMonitor.tsx:582-584 | the average tile equals the server's analytics average over the same records and lies in [0, 100] for valid records |
| DashboardHelpers.ScanNeverIntervenes | src/EmotionHealthMonitor.tsx:231 | a simulated score lies in [60, 99] and no care mode intervenes on it |
| DashboardHelpers.DisplayThresholds | src/EmotionHealthMonitor.tsx:987-997 | the moderate hint and the server's exercise disagree exactly on scores 55 to 59; the clinical banner shows iff the server raises an alert |
| Dashboard.ScanEmotionsLabels | src/EmotionHealthMonitor.tsx:30 | the scan's emotion list is the schema's label list: every emotion appears, each once |
| Dashboard.ScanStateScanned | src/EmotionHealthMonitor.tsx:229-243 | a reading made from in-range draws has a score in [60, 99], a known place and sub-scores in [0, 99] |
| Dashboard.ScannedEntryAccepted | src/EmotionHealthMonitor.tsx:285-300 | the body saved for a simulated reading passes the server's validation, never triggers an intervention, and carries the journal text or the stock note |
| Dashboard.Monitor.constructor | src/EmotionHealthMonitor.tsx:7-27 | the initial state: signed out, nothing scanned, warm lights and calm music |
| Dashboard.Monitor.LoadUserData | src/EmotionHealthMonitor.tsx:133-152 | a fetched history replaces the shown one, transformed; a failed fetch keeps it |
| Dashboard.Monitor.Restore | src/EmotionHealthMonitor.tsx:111-121 | a stored session signs in, takes the stored care mode as the category and loads the history |
| Dashboard.Monitor.SignIn | src/EmotionHealthMonitor.tsx:155-195 | an answer with a token signs in and loads the history, leaving the category unset as before; another answer changes nothing |
| Dashboard.Monitor.Logout | src/EmotionHealthMonitor.tsx:198-205 | user, category and history are cleared; the reading, journal, music and ambience stay |
| Dashboard.Monitor.SetScanMode | src/EmotionHealthMonitor.tsx:831 | the scan mode becomes the chosen one |
| Dashboard.Monitor.WriteJournal | src/EmotionHealthMonitor.tsx:1020 | the journal text becomes the typed one |
| Dashboard.Monitor.UpdateAmbientMode | src/EmotionHealthMonitor.tsx:265-278 | the ambience becomes the dashboard table's entry for the emotion |
| Dashboard.Monitor.Scan | src/EmotionHealthMonitor.tsx:208-263 | without a camera only the scanning flag changes; otherwise the reading from the draws is shown, and only in the normal category the local music and ambience follow its emotion; the scan always ends not scanning |
| Dashboard.Monitor.SaveEntry | src/EmotionHealthMonitor.tsx:281-329 | without a reading nothing is sent; otherwise the sent body is the reading's; an error answer changes nothing; a created record applies the answer's ambience if any, reloads the history and clears journal, reading and music |
| Dashboard.Monitor.SelectCategory | src/EmotionHealthMonitor.tsx:332-347 | once the server has answered, whatever the answer, the category and the kept user's care mode become the chosen one |

## Left out

- Fractional scores: scores are integers. JavaScript numbers, and rounding a non-integer score, are not modelled.
- Dates: timestamps are integers. Date arithmetic for the analytics window (the number of days in `period`) is not modelled; the window's start is a parameter.
- Order of the analytics query: the store leaves the order of a `find` without `sort` unspecified. Analytics.Window fixes it as ascending identifier (insertion) order, which decides the trajectory order and the most-frequent tie-break.
- History date range: the `startDate`/`endDate` filter of the history route is not modelled.
- Malformed limits: a `limit` that does not parse as a number is not modelled; the model takes the parsed integer.
- Prototype keys: JavaScript object keys such as `__proto__` or `toString` behave differently in the real tables; the tables are plain association lists.
- `populate` and field selection: the model returns identifiers where the store would expand referenced documents (alerts' records, profile links).
- Update validation: enumeration and range validators do not run on updates in the store. The model types the enumerations, so such values cannot be out of range in the first place.
- Nested `$set` paths: a profile body with dotted keys, or with unknown fields, is not modelled. The body is a record of the top-level fields.
- Missing body fields: a missing `caregiverEmail` (which would match a user without an email) and a care-mode body without `careMode` are not modelled.
- Schema defaults on load: defaults that the store fills in when reading older documents are not modelled.
- Identifier parsing: malformed identifiers, and the 500 answers they cause, are left out. Identifiers are natural numbers handed out by a counter.
- Concurrency and atomicity: the two caregiver updates are not atomic, and concurrent handlers can interleave. Handlers are modelled as atomic steps.
- Outside I/O: the network, local storage, the camera, timers and React rendering are left out; their results are handler parameters. The AI services, the therapy routes and the server wiring are not part of this model.
- Dashboard.Monitor.SaveEntry: it does not record that the answer's music briefly replaces the playing track, because the handler clears it again before the next render.
- Dashboard.Monitor.SignIn: registration and sign-in answers are modelled as one answer with an optional user; the form fields are not modelled.
