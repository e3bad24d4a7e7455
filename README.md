# Focus tracker — a Dafny model

The system is a small study-focus toolkit. It has three parts.

- **Flask trackers.** The servers (`server.py`, `chrome/server.py`, and the server half of `combined.py`) receive the URL of the active browser tab on `POST /track` and reduce it to its domain (lower-cased, one leading `www.` dropped). `server.py` only keeps the current URL and domain, which `GET /status` serves. The other two also keep a per-domain visit history (`first_seen`, `last_seen`, `count`), which `GET /domains` serves.
- **Capture loops.** The loops (`eyes.py`, `chrome/eyes.py`, and the tracker half of `combined.py`) read webcam frames and detect faces and eyes. `eyes.py` and `combined.py` record the eye centres of every detected face in a window of the last 30 and measure focus as the time in which eyes were seen. `chrome/eyes.py` only counts the frames with eyes. `combined.py` also charges the time of every frame to the domain current at that frame. At the end of a session it labels each tracked domain "productive" or "unproductive" with a language model and adds up the time per label. `chrome/productivity_analyzer.py` labels and counts the domains of the history in the same way.
- **Next.js pages.** `study-app.tsx` greets the user and records a spoken study goal. The two dashboard pages (`page.tsx`, `FirstScreen/app/dashboard/page.tsx`) receive the model's plan as fenced JSON, clean it, start a countdown of the plan's minutes and keep check boxes for its tasks. `page.tsx` also reports the number of ticked tasks when the countdown ends. `FirstScreen/app/focus-wrapped/page.tsx` turns that report into a checklist percentage.

## Form of the model

There is one module per source file, plus shared modules:

- `Wrappers`: `Option`.
- `Text`: ASCII lower-casing, prefixes, and trimming with JavaScript's or Python's white space.
- `Domains`: `get_domain_root`, the history upsert and the `/domains` projection.
- `Gaze`: the eye centre, the 30-entry window, and the face and eye loops shared by both capture loops.
- `Numerals`: `toString`, `padStart` and `parseInt`.
- `ClockText`: `formatTime`, which both dashboards share.
- `Fences`: the code-fence cleaning.
- `Checklist`: the plan and its check boxes.

Module-level mutable state becomes a class:

- `Combined.Session`, `ChromeServer.Server` and `PlainServer.Server` for the Flask globals;
- `Productivity.Analyzer` for `_analyzer_enabled`;
- `EyeTracking.EyeTracker` for the tracker object;
- `TimerPage.Page`, `StudyDashboard.Dashboard` and `StudyApp.App` for React state.

Loops become methods with loop invariants. Each is proved against a recursive function over the inputs: `Window(Trail(shots))`, `FocusTime`, `ChargeAll`, `UnproductiveTime` and `CountUnproductive`. The properties are then lemmas about those functions.

Several things outside the program become parameters:

- clock readings (`time.time()`, `datetime.now()`, `Date.getHours()`);
- detector output (faces with eye boxes per frame);
- `urlparse(...).netloc` (a `string -> string` oracle);
- `strftime` (a `real -> string` oracle);
- the language model's answer per domain (`string -> Reply`, where `Raised` is an exception);
- `decodeURIComponent` and `JSON.parse` (oracles returning `None` when they throw);
- the set-up environment (`Environment`: the environment variable, the key file and whether `configure` raises);
- the webcam (whether it opens and whether the first read succeeds).

Python's `float` and JavaScript's `number` are modelled as `real` where the value is a duration or a ratio, and as `int` where it is a count or a number of seconds.

Some behaviours of the code that are easy to miss:

- `server.py` never checks the body, so a request without JSON raises (`PlainServer.ServerError`).
- `combined.py` reads `elapsed_time` in its `finally` block even when no frame was processed. That read fails (`Combined.SummaryUnbound`).
- `chrome/eyes.py`'s `stop` raises when `start` never ran (`EyeTracking.StartTimeMissing`).
- Only one `www.` is removed, so `www.www.x` yields `www.x` (`Domains.DomainRootStripsOnce`).

## Model

| member | source | states |
|---|---|---|
| Text.Lower | chrome/server.py:22-27 | same length; every ASCII capital shifted to lower case, every other character kept |
| Text.LowerFixpoint | chrome/server.py:22-27 | the result has no capital, and a string is its own lower case exactly when it has none |
| Text.TrimStart | page.tsx:25 | a suffix of the input that starts with a non-space; everything dropped is white space |
| Text.TrimEnd | page.tsx:25 | a prefix of the input that ends with a non-space; everything dropped is white space |
| Text.Trim | page.tsx:25 | a slice of the input at the trim offset, empty or with non-space characters at both ends |
| Text.TrimRemovesSpace | chrome/productivity_analyzer.py:62 | only white space is removed, at both ends; a string with non-space ends is unchanged |
| Text.TrimIdempotent | page.tsx:25 | trimming twice is trimming once |
| Text.TrimPadded | chrome/productivity_analyzer.py:62 | white space around a core with non-space ends is exactly what is removed |
| Domains.DomainRoot | chrome/server.py:22-27 | no capitals, no longer than the host; the lowered host is `www.` + root when it starts with `www.`, else the root |
| Domains.DomainRootStripsOnce | chrome/server.py:22-27 | the root starts with `www.` exactly when the lowered host starts with `www.www.` |
| Domains.DomainRootIgnoresCase | chrome/server.py:22-27 | the root of the lower-cased host equals the root of the host |
| Domains.DomainRootFixpoint | chrome/server.py:22-27 | normalising a root that does not start with `www.` again changes nothing |
| Domains.Record | chrome/server.py:50-59 | the domain is added to the keys; a known one keeps `first_seen`, gets `last_seen` = now and count + 1; a new one is (now, now, 1); other entries are unchanged |
| Domains.RecordSize | chrome/server.py:50-59 | the history grows by one entry exactly when the domain is new |
| Domains.ReplayFromEmpty | chrome/server.py:29-62 | after any sequence of hits from an empty history, a domain is present iff it was hit; its entry is (first hit, last hit, number of hits) |
| Domains.Project | chrome/server.py:64-73 | the listing has the history's domains, each entry formatted from its record with its count kept |
| Domains.HasData | chrome/server.py:37-39 | Python truthiness of the body: no JSON and the empty object are falsy, an object with a `url` is truthy |
| Domains.UrlOf | chrome/server.py:41 | the `url` field when present, "unknown" otherwise |
| ChromeServer.Server.constructor | chrome/server.py:18-20 | the URL and domain start as "unknown" and the history is empty |
| ChromeServer.Server.TrackUrl | chrome/server.py:29-62 | a missing or empty body gives 400 and changes nothing; otherwise the URL (default "unknown"), its domain root and the upserted history |
| ChromeServer.Server.GetDomains | chrome/server.py:64-73 | the listing has exactly the history's domains, each formatted from its record |
| PlainServer.Server.constructor | server.py:10-11 | the URL and domain start as "unknown" |
| PlainServer.Server.TrackUrl | server.py:22-31 | no JSON body raises and changes nothing; any object, the empty one included, sets the URL (default "unknown") and its domain root |
| PlainServer.Server.GetStatus | server.py:33-38 | reports "running" and the current domain |
| Gaze.EyeCentre | eyes.py:76-79 | each coordinate is the box origin plus the floor of half the box size, inside the box when its size is not negative |
| Gaze.FaceCentres | eyes.py:76-79 | one centre per eye of the face, in detection order |
| Gaze.CentresEmpty | eyes.py:76-91 | a frame yields eye centres (the definition `Centres`) exactly when some face has an eye |
| Gaze.TrailEmpty | eyes.py:60-91 | a run of frames yields eye centres (the definition `Trail`) exactly when some frame has eyes |
| Gaze.Window | eyes.py:91-95 | the last min(n, 30) entries of the sequence |
| Gaze.WindowAppend | eyes.py:91-95 | windowing after each step gives the same list as windowing once at the end |
| Gaze.Push | eyes.py:91-95 | on a list of at most 30, append-then-pop is the window of the list with the new centre |
| Gaze.PushKeepsWindow | eyes.py:91-95 | an append followed by a pop past 30 turns the window of s into the window of s + [c] |
| Gaze.PushPosition | eyes.py:91-95 | the append-then-pop step equals the pure `Push` |
| Gaze.RecordFace | eyes.py:76-95 | the list after one face's eye loop is the window of the old list plus the face's centres |
| Gaze.RecordEyes | eyes.py:60-95 | the list after the face loop is the window of the old list plus all centres; `eyes_detected` is true iff some face has an eye |
| EyesMain.LastDetection | eyes.py:108-111 | none iff no frame had eyes; otherwise the clock reading of the last frame with eyes |
| EyesMain.FocusTime | eyes.py:104-111 | a run of frames in which no face has an eye gives no focus time |
| EyesMain.FocusWithinElapsed | eyes.py:104-111 | with a clock that never goes back, focus time lies between 0 and the elapsed time |
| EyesMain.FocusScore | eyes.py:148-149 | 0 when no time elapsed; otherwise score × total = focus × 100 |
| EyesMain.ScoreIsPercentage | eyes.py:148-149 | a focus time within the elapsed time scores between 0 and 100 |
| EyesMain.ProcessFrame | eyes.py:44-111 | one loop pass moves window, total time, focus time and last detection from frames [..i] to [..i+1] |
| EyesMain.TrackFocus | eyes.py:10-161 | the two early returns; otherwise window, total time, focus time, last detection and score over all frames, with the score in [0, 100] when the clock is monotone |
| EyeTracking.Gain | chrome/eyes.py:25-45 | a step adds 1 exactly when running, the camera is readable, the read succeeded and some face has an eye, else 0 |
| EyeTracking.Score | chrome/eyes.py:47-53 | 0 when no time elapsed; otherwise score × total = frame count, and the score is not negative |
| EyeTracking.ScanFaces | chrome/eyes.py:36-42 | detects iff some face has eyes; stops right after the first such face, and all faces before it had none |
| EyeTracking.EyeTracker.constructor | chrome/eyes.py:6-11 | no capture, no focus, no start time, not running |
| EyeTracking.EyeTracker.Start | chrome/eyes.py:13-23 | the handle is replaced; if the camera opened, the tracker runs from `now` with focus 0, otherwise nothing else changes |
| EyeTracking.EyeTracker.Step | chrome/eyes.py:25-45 | focus time grows by `Gain` and nothing else changes |
| EyeTracking.EyeTracker.Stop | chrome/eyes.py:47-53 | always stops; without a start time it fails before releasing; otherwise it releases the camera and returns the score |
| Productivity.Normalise | chrome/productivity_analyzer.py:62 | no capitals and no Python white space at either end |
| Productivity.NormaliseIdempotent | chrome/productivity_analyzer.py:62 | normalising twice is normalising once |
| Productivity.Classify | chrome/productivity_analyzer.py:60-70 | always one of the two labels; the normalised answer is kept iff it is a label; "unproductive" iff the normalised answer is exactly that |
| Productivity.ClassifyPadded | chrome/productivity_analyzer.py:60-70 | a label in any case with white space around it reads as that label |
| Productivity.ApiKey | chrome/productivity_analyzer.py:14-40 | there is no key exactly when the variable is unset or empty and there is no key file |
| Productivity.SetupSucceeds | chrome/productivity_analyzer.py:14-40 | set-up succeeds iff a key is found and `configure` does not raise |
| Productivity.Decide | chrome/productivity_analyzer.py:42-70 | always a label; "productive" when a disabled analyzer fails set-up; "unproductive" iff the model was reached and answered "unproductive" |
| Productivity.DecideAfterSetup | chrome/productivity_analyzer.py:42-46 | after a set-up attempt, the decision no longer depends on the earlier flag |
| Productivity.DecideFromStart | chrome/productivity_analyzer.py:42-46 | in a loop over domains, every call decides as from the starting flag |
| Productivity.Bump | chrome/productivity_analyzer.py:99-101 | the two-label tally gains exactly one, in the bucket of the verdict |
| Productivity.CountUnproductive | chrome/productivity_analyzer.py:97-110 | the number of "unproductive" labels is at most the number of domains |
| Productivity.CountWithoutSetup | chrome/productivity_analyzer.py:42-46 | when set-up fails, no domain is counted "unproductive" |
| Productivity.TallyDomains | chrome/productivity_analyzer.py:83-110 | two counts that add up to the number of fetched domains; the second is the number labelled "unproductive"; [0, 0] when fetching failed; the flag ends enabled iff it was, or some domain was fetched and set-up succeeds |
| Productivity.CountDomain | chrome/productivity_analyzer.py:99-101 | one loop pass extends the counts from domains [..i] to [..i+1] |
| Productivity.Analyzer.constructor | chrome/productivity_analyzer.py:12 | the analyzer starts disabled |
| Productivity.Analyzer.OnImport | chrome/productivity_analyzer.py:80-81 | after the import-time set-up, the flag is set-up's result |
| Productivity.Analyzer.Setup | chrome/productivity_analyzer.py:14-40 | returns `SetupSucceeds` and stores it in the flag |
| Productivity.Analyzer.Analyze | chrome/productivity_analyzer.py:42-70 | the model is asked iff the analyzer was enabled or set-up succeeds; the flag becomes that; the verdict is `Decide` on the model's answer |
| Combined.OpenTimer | combined.py:57-58 | the domain gets a timer at 0 if it had none, and no existing time changes |
| Combined.Charge | combined.py:194-196 | the domain's time (0 if missing) grows by the delta; every other time is unchanged |
| Combined.EyeFrames | combined.py:153-172 | the number of frames with eyes is at most the number of frames |
| Combined.ChargeAll | combined.py:190-196 | the keys are the old keys plus exactly the domains the loop made current |
| Combined.ChargeAllSpent | combined.py:190-196 | after the loop, each domain's time grows by exactly the deltas of the frames it was current in |
| Combined.SpentWithinSession | combined.py:190-196 | with a monotone clock, no domain is charged less than 0 or more than the session's duration |
| Combined.TotalTime | combined.py:244-252 | with no negative time, the total is not negative |
| Combined.UnproductiveTime | combined.py:244-252 | with no negative time, the unproductive part is not negative |
| Combined.UnproductiveWithinTotal | combined.py:244-252 | with no negative time, the unproductive share lies between 0 and the total |
| Combined.NoUnproductiveWithoutSetup | combined.py:101-103 | when set-up fails, all tracked time is productive |
| Combined.AddTime | combined.py:252 | the buckets gain exactly the duration, in the verdict's bucket |
| Combined.Session.constructor | combined.py:21-25 | "unknown" URL and domain, an empty history and an empty time map, a disabled analyzer |
| Combined.Session.TrackUrl | combined.py:34-61 | 400 and no change for a missing or empty body; otherwise URL, domain root, upserted history and an opened timer |
| Combined.Session.GetStatus | combined.py:63-65 | reports "running" and the current domain |
| Combined.Session.GetDomains | combined.py:67-76 | the listing has exactly the history's domains, each formatted from its record |
| Combined.Session.ChargeTime | combined.py:194-196 | the time map becomes `Charge` of the old one; nothing else changes |
| Combined.Session.Capture | combined.py:141-200 | window, focus time (1/30 s per frame with eyes) and domain times over all frames; no elapsed time or percentage without a frame, otherwise those of the last frame |
| Combined.Session.CaptureFrame | combined.py:146-196 | one loop pass moves window, focus time, clock and domain times from frames [..i] to [..i+1] |
| Combined.Session.TallyProductivity | combined.py:244-252 | the two buckets hold the total time of the fetched domains, the unproductive one the time of those labelled "unproductive"; the flag ends enabled iff it was, or some domain was fetched and set-up succeeds |
| Combined.Session.TallyDomain | combined.py:249-252 | one loop pass extends both buckets from domains [..i] to [..i+1] |
| Combined.Session.RunEyeTracker | combined.py:124-252 | the early returns; no summary without a frame, and then the flag is unchanged; otherwise it finishes, with window, elapsed time, focus time, percentage, the productivity split over the fetched domains and the flag as in `TallyProductivity` |
| Numerals.DecimalText | page.tsx:52 | a non-empty digit string without a leading zero, one digit below 10 and at most two below 100 |
| Numerals.ValueOfText | page.tsx:52 | the decimal text reads back as the number |
| Numerals.IntText | page.tsx:67 | the decimal text, with a minus sign for a negative number |
| Numerals.PadStart2 | page.tsx:67 | zeros in front up to length 2, with the text as its suffix |
| Numerals.PadKeepsValue | page.tsx:67 | padding keeps a digit string's value |
| Numerals.ParseInt | FirstScreen/app/focus-wrapped/page.tsx:11-17 | NaN (None) exactly when no digit follows the skipped white space and the optional sign |
| Numerals.ParseIntOfText | FirstScreen/app/focus-wrapped/page.tsx:11-12 | `parseInt` reads back every integer's `toString` |
| ClockText.JsRem | page.tsx:66 | JavaScript's remainder: in [0, b) for a dividend that is not negative, in (-b, 0] otherwise |
| ClockText.Split | page.tsx:65-66 | for a time that is not negative, minutes ≥ 0 and seconds in [0, 60) with minutes × 60 + seconds = time |
| ClockText.FormatTime | page.tsx:64-68 | the "MM:SS" text of a time that is not negative reads back as that time |
| ClockText.ClockValue | page.tsx:67 | padded minutes and seconds around a colon read back as their total in seconds |
| ClockText.FormatIsFiveLong | FirstScreen/app/dashboard/page.tsx:45-49 | below 100 minutes the text has five characters with the colon in the middle |
| Fences.MatchLen | FirstScreen/app/dashboard/page.tsx:23 | the length of the first alternative that matches at the front, or none matches |
| Fences.ReplaceAll | page.tsx:23-24 | replacing never makes the text longer |
| Fences.CleanTwoPass | page.tsx:22-25 | cleaning never makes the text longer |
| Fences.CleanOnePass | FirstScreen/app/dashboard/page.tsx:23 | cleaning never makes the text longer |
| Fences.ReplaceLeavesNoFence | FirstScreen/app/dashboard/page.tsx:23 | removing every fence leaves no "```" anywhere |
| Fences.ReplaceFreeUnchanged | page.tsx:23-24 | a text without fences is left unchanged by the replace |
| Fences.TwoPassClean | page.tsx:22-25 | the two-pass cleaning leaves no fence and no white space at either end |
| Fences.OnePassClean | FirstScreen/app/dashboard/page.tsx:23 | the one-pass cleaning leaves no fence and no white space at either end |
| Fences.CleanWithoutFences | page.tsx:22-25 | on a text without fences both cleanings are just `trim` |
| Fences.CleanFixpoint | page.tsx:22-25 | a clean text is left as it is by both cleanings |
| Fences.TwoPassIdempotent | page.tsx:22-25 | cleaning twice is cleaning once |
| Fences.OnePassIdempotent | FirstScreen/app/dashboard/page.tsx:23 | cleaning twice is cleaning once |
| Fences.FencedAnswer | page.tsx:22-25 | "```json" + body + "```" cleans to the trimmed body on both pages, for a body without fences |
| Fences.BareFencedAnswer | FirstScreen/app/dashboard/page.tsx:23 | "```" + body + "```" cleans to the trimmed body in one pass for a body without fences that does not start with "json"; in two passes too unless it starts with one or two backticks and "json" |
| Fences.ClosingFence | page.tsx:24 | removing fences from a fence-free text followed by "```" gives back the text |
| Fences.NoTagBefore | page.tsx:23 | the "```json" pass leaves a fence-free text followed by "```" unchanged |
| Checklist.Seconds | page.tsx:28 | for a whole, non-negative number of minutes, a whole number of minutes in seconds |
| Checklist.Unchecked | page.tsx:31 | n check boxes, none ticked |
| Checklist.Toggle | page.tsx:77-81 | same length; the box at the index is flipped, every other box kept |
| Checklist.ToggleTwice | page.tsx:77-81 | toggling twice restores the list; an index outside the list changes nothing |
| Checklist.Completed | page.tsx:48 | the number of ticked boxes is at most the number of boxes |
| Checklist.CompletedUnchecked | page.tsx:31 | a fresh checklist has nothing completed |
| Checklist.ToggleCompleted | page.tsx:77-81 | ticking a box adds one completed task, unticking removes one |
| TimerPage.NextSecond | page.tsx:39-57 | no change without a scheduled interval; otherwise one second less, or 0 and stopped on the last tick |
| TimerPage.RunsDown | page.tsx:39-57 | a running countdown of n seconds shows n − k after k < n ticks, and 0 stopped from n ticks on |
| TimerPage.FinishesOnce | page.tsx:44-55 | the finishing tick is exactly the n-th |
| TimerPage.ButtonLabel | page.tsx:131-133 | "Pause" iff running, "Finished" iff stopped at 0, "Start" iff stopped with time left |
| TimerPage.LoadedPlan | page.tsx:17-36 | a plan exactly when the parameter is present and non-empty and decoding and parsing succeed; then the parse of the cleaned text |
| TimerPage.Page.constructor | page.tsx:10-14 | the initial `useState` values |
| TimerPage.Page.Load | page.tsx:17-36 | no change when loading fails; otherwise the plan, its seconds as time left and initial time, and fresh boxes |
| TimerPage.Page.Start | page.tsx:27-31 | the state updates of a successful load |
| TimerPage.Page.Tick | page.tsx:39-58 | the countdown moves by `NextSecond`; the finishing tick reports the ticked boxes and their number |
| TimerPage.Page.ToggleTimer | page.tsx:84-86 | flips `isRunning` only |
| TimerPage.Page.ToggleTask | page.tsx:77-81 | the boxes become `Toggle` of the old ones; nothing else changes |
| StudyDashboard.TickDown | FirstScreen/app/dashboard/page.tsx:35-43 | a countdown above 0 loses one second; otherwise it stays |
| StudyDashboard.CountsDownToZero | FirstScreen/app/dashboard/page.tsx:35-43 | after k ticks a countdown of n shows n − k, and 0 once k ≥ n |
| StudyDashboard.TimerColour | FirstScreen/app/dashboard/page.tsx:75 | red iff at most 60 seconds are left |
| StudyDashboard.Dashboard.constructor | FirstScreen/app/dashboard/page.tsx:15-17 | no plan, a countdown of 0, no boxes |
| StudyDashboard.Dashboard.Load | FirstScreen/app/dashboard/page.tsx:20-32 | no change when the parameter is missing or empty or parsing fails; otherwise the plan, its seconds and fresh boxes |
| StudyDashboard.Dashboard.Tick | FirstScreen/app/dashboard/page.tsx:35-43 | the countdown moves by `TickDown`; nothing else changes |
| StudyDashboard.Dashboard.ToggleChecklistItem | FirstScreen/app/dashboard/page.tsx:51-57 | the boxes become `Toggle` of the old ones; nothing else changes |
| FocusWrapped.OrDefault | FirstScreen/app/focus-wrapped/page.tsx:11-17 | an absent or empty value gives the fallback, any other value itself |
| FocusWrapped.Round | FirstScreen/app/focus-wrapped/page.tsx:13 | the nearest integer, ties rounded up |
| FocusWrapped.Percent | FirstScreen/app/focus-wrapped/page.tsx:13 | finite exactly when both numbers exist and the total is not 0 |
| FocusWrapped.PercentBounds | FirstScreen/app/focus-wrapped/page.tsx:13 | a share of a positive total is between 0 and 100; all done is 100 and nothing done is 0 |
| FocusWrapped.ChecklistPercentageAsWritten | FirstScreen/app/focus-wrapped/page.tsx:11-13 | NaN exactly when a number is unreadable or the total reads as 0 |
| FocusWrapped.SafeTotal | FirstScreen/app/focus-wrapped/page.tsx:12 | a total of 0 becomes 1; any other total is kept, and the result is never 0 |
| FocusWrapped.ChecklistPercentage | FirstScreen/app/focus-wrapped/page.tsx:11-13 | with the guard, finite exactly when both numbers are readable |
| FocusWrapped.FocusPercentage | FirstScreen/app/focus-wrapped/page.tsx:15 | an absent or empty `focus` reads as 0 |
| FocusWrapped.OverallScore | FirstScreen/app/focus-wrapped/page.tsx:17 | an absent or empty `score` reads as 0 |
| FocusWrapped.Defaults | FirstScreen/app/focus-wrapped/page.tsx:11-17 | without parameters every number on the page is 0 |
| FocusWrapped.DefaultNumbers | FirstScreen/app/focus-wrapped/page.tsx:11-17 | the fallbacks read as 0, 1, 0 and 0 |
| FocusWrapped.ReportNumbers | FirstScreen/app/focus-wrapped/page.tsx:11-12 | the counts `page.tsx` puts in the query read back as themselves |
| FocusWrapped.ReportPercentage | FirstScreen/app/focus-wrapped/page.tsx:11-13 | a report of a non-empty checklist gives the same percentage, between 0 and 100, with or without the guard |
| FocusWrapped.EmptyChecklistIsNaN | FirstScreen/app/focus-wrapped/page.tsx:12-13 | as written, an empty checklist's report gives NaN |
| FocusWrapped.GuardedReportPercentage | FirstScreen/app/focus-wrapped/page.tsx:12-13 | with the guard, every report gives a percentage between 0 and 100, and an empty checklist's is 0 |
| StudyApp.Greeting | FirstScreen/app/study-app.tsx:19-26 | morning iff 5 ≤ hour < 12, afternoon iff 12 ≤ hour < 18, evening otherwise |
| StudyApp.TranscriptAppend | FirstScreen/app/study-app.tsx:106-111 | the transcript of consecutive results is the join of their transcripts |
| StudyApp.Transcript | FirstScreen/app/study-app.tsx:106-111 | as long as the results' first alternatives together |
| StudyApp.TranscriptPieces | FirstScreen/app/study-app.tsx:106-111 | each result's first alternative sits in the transcript right after those of the results before it |
| StudyApp.ButtonText | FirstScreen/app/study-app.tsx:161-171 | "Stop Recording" iff recording, "Start Recording" iff not |
| StudyApp.App.constructor | FirstScreen/app/study-app.tsx:9-14 | the initial state: not recording, the morning greeting, no recognizer, an empty transcript |
| StudyApp.App.ShowGreeting | FirstScreen/app/study-app.tsx:17-26 | the greeting becomes that of the hour; nothing else changes |
| StudyApp.App.ToggleRecording | FirstScreen/app/study-app.tsx:93-128 | unsupported: only an alert; otherwise the recognizer exists, start or stop is sent, the flag flips, and starts and stops keep alternating |
| StudyApp.App.OnResult | FirstScreen/app/study-app.tsx:106-111 | the transcript becomes the join of the results' first alternatives |
| StudyApp.App.Edit | FirstScreen/app/study-app.tsx:179-180 | the transcript becomes the edited text |

## Left out

- Camera capture, the Haar cascades, drawing, the heat map, OpenCV windows and the matplotlib charts are left out. They are I/O; the model takes the detector's faces and eyes as input.
- Clocks become inputs. The model covers `time.time()`, `datetime.now()`, `Date.getHours()` and the `setInterval` ticks, which are modelled as a `Tick` call per second.
- `urlparse`, `strftime`, `requests`, `os.getenv`, reading `.api_key`, `genai.configure` and the Gemini call are oracles or the `Environment` value. Their own behaviour is outside the program.
- Request bodies are modelled as "no JSON" or a JSON object of strings. A JSON array, string or number is not modelled: `chrome/server.py` and `combined.py` answer 400 for a falsy one such as `[]`; otherwise `data.get` raises.
- Flask's threads, and the race between the server thread and the capture loop in `combined.py`, are left out. The loop's reading of `current_domain` is an input per frame.
- `round(..., 2)`, `:.1f` printing and the printed summaries are output formatting and are left out.
- Floating-point rounding is left out: durations and ratios are exact reals.
- `Combined.Session.Capture`: the focus time `1/30` per frame is exact, not a float sum.
- `Numerals.ParseInt`: only decimal text is modelled, not `0x` prefixes or the precision of very large numbers.
- `ClockText.FormatTime`: states the round trip only for whole, non-negative seconds. A fractional or negative time is outside it.
- `Checklist.Seconds`: a fractional `timer` is not modelled; minutes are integers.
- `Text.Lower`: only ASCII letters are lower-cased. Python's full Unicode `str.lower` is not modelled.
- The partial `setState` batching of React and the re-render after each update are not modelled. Each handler is one atomic method.
- `StudyDashboard.Dashboard.ToggleChecklistItem`: requires an index inside the list. `updated[index] = !updated[index]` past the end would grow the array, which the pages never do.
- `TimerPage.Page.Load`: a parsed plan without a `checklist` array is treated as a failed load. `page.tsx` sets the plan and the countdown first and then throws at `checklist.length`, so that state change is not modelled.
- `StudyDashboard.Dashboard.Load`: a parsed value without a `checklist` array is treated as a failed load. The dashboard sets the plan and the countdown first and then throws, so that state change is not modelled.
- On `page.tsx`, the circle's progress (`timeLeft / initialTime`, NaN before loading), the SVG and `router.push`'s navigation are left out. The push is recorded as the `Report` value.
- The wave animation, `alert`'s dialog, `fetch` to `/api/generate-dashboard` and the router in `study-app.tsx` are left out. They are I/O; the unsupported-browser alert is counted.
- `FirstScreen/app/focus-wrapped/focus-wrapped.tsx` (the presentation component) is not part of this model.

## Findings

The as-written half is `FocusWrapped.ChecklistPercentageAsWritten` with the lemma below; the corrected half is `FocusWrapped.ChecklistPercentage`, which divides by `FocusWrapped.SafeTotal`.

| source | as written | input that shows it | evidently intended | confidence | as-written member | corrected member |
|---|---|---|---|---|---|---|
| FirstScreen/app/focus-wrapped/page.tsx:12-13 | the fallback total of 1 is used only when the `total` parameter is absent or empty | `?completed=0&total=0`, which `page.tsx` sends when the plan has no tasks: "0" is not empty, so 0/0 gives NaN | a total of 0 is treated as 1, as the comment on that line says, giving 0% | not executed | FocusWrapped.EmptyChecklistIsNaN | FocusWrapped.GuardedReportPercentage |
