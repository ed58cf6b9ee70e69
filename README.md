# CUIMS-Plus core in Dafny

CUIMS-Plus logs a student into the Chandigarh University student portal and
scrapes their data: attendance, timetable, courses, marks, profile, results,
leaves, date sheet and fees. It stores the data in MongoDB per user id and
turns the attendance table into a projection for each course. The projection
holds the percentage, a status (safe, warning or critical) and a message
saying how many more classes may be missed or must be attended to stay at
the user's goal.

This project models that core and proves properties of it:

- `Captcha` (utils.py) models the whitelist filter applied to the OCR
  service's answer. It also covers how `extract_captcha_from_img` turns the
  answer into the captcha text.
- `Attendance` (utils.py) models `transform_attendance`. The two search
  loops are methods, proved equal to closed forms whose "largest x such
  that" and "smallest x such that" properties are lemmas. Percentages are
  exact integers, kept in hundredths.
- `Timetable` (cuims_scrapper.py) models the same source file's timetable
  scraper. It groups the grid into seven day lists and splits each period
  string with Python's `str.split` semantics.
- `Database` (database.py) models the store. It is a class with one map
  per collection. `Db` is its value, and the `With...` functions specify
  each write: what later reads return, and what stays the same.
- `Scraper` (cuims_scrapper.py) models `scrape_user_data` and
  `refresh_user_data` as imperative methods on the store. They are proved
  equal to the functions `Scrape` and `Refresh`. The browser, the portal
  and the OCR service are an oracle value, `Portal`. The clock reading is
  a parameter.

Behaviour of the code worth noting, which the model states and proves:

- At goal 75, 20 of 20 attended reports "can miss 6 more classes": 20/26 is
  still at least 75%.
- At goal 100, full attendance is "exactly at the limit" (warning).
- `set_goal_value` accepts any integer. With a goal of 0 or less, a course
  above it makes the "can miss" loop of `transform_attendance` run forever.
  With a goal of 100 or more, a course below it does the same to the
  "attend" loop.
- An exception while opening the saved session (cuims_scrapper.py:26-37)
  happens before the `try`. It leaves `last_updated` at "Refreshing Data"
  and propagates.
- A data name with no branch makes `scrape_user_data` return None. The
  `finally` still stamps the time, and `refresh_user_data` then raises a
  TypeError.
- Only "marks", "result", "leaves", "profile", "datesheet" and "fees" have
  single-collection branches. "courses", "attendance" and "timetable" are
  fetched only by "initial" and "all".
- The timetable, marks, result, date sheet and leaves scrapers catch every
  exception. A failed marks, result or date sheet page therefore gives a
  falsy value that is not written, and a failed leaves page gives
  `[[], []]`, which is.
- `update_last_updated` does not upsert. The first scrape of a user without
  a session document therefore writes no "Refreshing Data".

## Model

| member | source | states |
|---|---|---|
| Captcha.FilterText | utils.py:33-37 | the result holds only `[A-Za-z0-9]` characters; each of those occurs exactly as often as in the input, every other character not at all; it is no longer than the input |
| Captcha.FilterTextConcat | utils.py:35 | filtering a concatenation is concatenating the filtered parts, so the filter keeps the input order |
| Captcha.FilterTextKeepsClean | utils.py:33-37 | a text made only of whitelisted characters passes unchanged |
| Captcha.FilterTextIdempotent | utils.py:33-37 | filtering twice equals filtering once |
| Captcha.FilterTextDropsAll | utils.py:33-37 | a text with no whitelisted character filters to "" |
| Captcha.Strip | utils.py:41 | `str.strip()`: the result is a slice of the input with only white space cut from both ends, and it neither starts nor ends with white space |
| Captcha.StripStart | utils.py:41 | the leading white space removed, nothing else |
| Captcha.StripEnd | utils.py:41 | the trailing white space removed, nothing else |
| Captcha.FilterTextIgnoresStrip | utils.py:41 | stripping before filtering never changes the captcha text |
| Captcha.ExtractCaptcha | utils.py:39-45 | the captcha text is whitelisted only; "" when the reply cannot be parsed, otherwise the filter of the parsed text |
| Attendance.RoundedPercent | utils.py:57 | `round(a / t * 100, 2)` in hundredths: the nearest whole number of hundredths with halves rounded up, 0 when nothing was delivered |
| Attendance.RoundedAboveGoal | utils.py:69 | a rounded percentage above the goal means the exact one is above it |
| Attendance.RoundedBelowGoal | utils.py:85 | a rounded percentage below the goal means the exact one is below it |
| Attendance.ExactGoalRoundsToGoal | utils.py:82 | an exact percentage equal to the goal is reported as exactly at the limit |
| Attendance.RoundedPercentMonotonic | utils.py:57 | attending more of the same delivered classes never lowers the percentage |
| Attendance.SearchesEnd | utils.py:69-94 | a course ends both search loops when nothing was delivered, when the goal lies strictly between 0 and 100, or when the rounded percentage equals the goal |
| Attendance.CanMissCount | utils.py:69-79 | the count of further misses keeps the goal, and one more miss would break it |
| Attendance.CanMissIsLargest | utils.py:69-79 | no larger number of misses keeps the goal |
| Attendance.CanMissKeepsGoal | utils.py:69-79 | every number of misses up to the count keeps the goal |
| Attendance.MustAttendCount | utils.py:85-94 | the count is at least 1, attending that many reaches the goal, and one fewer does not |
| Attendance.MustAttendIsSmallest | utils.py:85-94 | no smaller number of attended classes reaches the goal |
| Attendance.SafeSearchNeverStops | utils.py:72-78 | with a goal of 0 or less the "can miss" loop never finds its break |
| Attendance.AttendSearchNeverStops | utils.py:88-94 | with a goal of 100 or more a course below it never reaches it, so the "attend" loop never ends |
| Attendance.SearchCanMiss | utils.py:69-79 | the loop's `x - 1` is the largest number of misses that keeps the goal |
| Attendance.SearchMustAttend | utils.py:85-94 | the loop's `x` is the smallest number of attended classes that reaches the goal |
| Attendance.NatToString | utils.py:81 | `str(n)`: decimal digits denoting n; a single digit exactly when n < 10, and no leading zero |
| Attendance.NatToStringUnique | utils.py:81 | the digits `str(n)` prints are the only digit string without a leading zero that denotes n |
| Attendance.MessagesPlural | utils.py:81 | both count messages end in "classes" exactly when the count is not 1 |
| Attendance.ProjectCourse | utils.py:50-110 | fields copied, missed = delivered - attended; no delivered classes gives critical with "No classes delivered yet"; otherwise safe, warning or critical exactly when the rounded percentage is above, equal to or below the goal, each with its message and count |
| Attendance.ProjectAll | utils.py:47-112 | one projection per course, the i-th being `ProjectCourse` of the i-th course |
| Attendance.TransformAttendance | utils.py:47-112 | one projection per course, in input order, each the one `ProjectCourse` specifies |
| Attendance.FullAttendanceExample | utils.py:69-81 | 20 of 20 at goal 75: 100.00%, safe, "can miss 6 more classes" |
| Attendance.HalfAttendanceExample | utils.py:85-96 | 5 of 10 at goal 75: 50.00%, critical, "have to attend 10 more classes" |
| Timetable.IndexOf | cuims_scrapper.py:318 | the first position where the separator occurs, or None when it does not occur |
| Timetable.Split | cuims_scrapper.py:318 | `str.split` gives at least one piece |
| Timetable.SplitLeftmost | cuims_scrapper.py:318 | one piece exactly when the separator does not occur, and then the piece is the string; otherwise the first piece ends at the leftmost occurrence |
| Timetable.SplitFirst | cuims_scrapper.py:318 | when `a` holds no occurrence, even one reaching into the separator, `a + sep + b` splits into `a` followed by the pieces of `b` |
| Timetable.SplitJoin | cuims_scrapper.py:318 | joining the pieces with the separator gives back the string |
| Timetable.SplitPiecesFree | cuims_scrapper.py:318 | no piece contains the separator |
| Timetable.ParsePeriod | cuims_scrapper.py:317-337 | an entry carries the day number and a subject code free of ":", and only comes from a string holding "::" |
| Timetable.ParsePeriodWithTeacher | cuims_scrapper.py:317-333 | "<subject>::<p>By <teacher> at <location>on<time>" parses to the subject code before the first ":", the teacher, the location and the time |
| Timetable.ParsePeriodWithoutTeacher | cuims_scrapper.py:317-333 | "<subject>::<p>By <m>at <location> on <time>" with no " at " parses with an empty teacher |
| Timetable.ParsePeriodDrops | cuims_scrapper.py:317-337 | the string is dropped when it has no "::"; when its second piece has no "By "; when the text after "By " has neither " at " nor "at "; when it has " at " but no "on" after it; or when it has only "at " and no " on " after that |
| Timetable.ParseDay | cuims_scrapper.py:313-339 | a day list is no longer than its period strings, and every entry carries the day number |
| Timetable.ParseDayFromPeriods | cuims_scrapper.py:313-339 | every entry comes from one of the day's period strings |
| Timetable.ParseDayKeepsParsed | cuims_scrapper.py:313-339 | no period string that parses is dropped |
| Timetable.DayColumn | cuims_scrapper.py:303-311 | a day list has at most one entry per row |
| Timetable.DayColumnCells | cuims_scrapper.py:303-311 | a day list holds "<cell> on <time>" for every non-empty cell of its column, and nothing that does not come from one |
| Timetable.GroupedDays | cuims_scrapper.py:294-311 | grouping gives seven day lists |
| Timetable.AppendRow | cuims_scrapper.py:304-311 | one row's cells are appended to their day lists, and it fails exactly when a cell lies past the seventh day |
| Timetable.GroupByDay | cuims_scrapper.py:294-311 | the loop over the rows builds exactly the grouped day lists |
| Timetable.ParseDayList | cuims_scrapper.py:314-339 | the loop over a day's periods builds exactly its day list |
| Timetable.ParseWeek | cuims_scrapper.py:313-339 | seven day lists, day d parsed with day number d + 1 |
| Timetable.TimetableOf | cuims_scrapper.py:289-346 | the timetable has exactly seven day lists, and every entry of day d has day number d + 1 |
| Timetable.ScrapeTimetable | cuims_scrapper.py:289-346 | the scraper's result is the timetable of its grid |
| Database.Store.constructor | database.py:8-13 | `init_db` on an empty database: every collection is empty |
| Database.SessionOf | database.py:93-96 | `load_session`: the saved storage state exactly when a session document exists |
| Database.LastUpdatedOf | database.py:98-101 | `get_last_updated`: a value only when a session document exists, and then its field |
| Database.GoalOf | database.py:188-194 | the stored goal, or 75 when the user or the field is missing |
| Database.WithSession | database.py:85-91 | after `save_session`, `load_session` returns the new state, `last_updated` is kept, and no other session changes |
| Database.WithLastUpdated | database.py:103-108 | the field is set when the session document exists; without one nothing changes; storage and other users are untouched |
| Database.WithAttendance | database.py:61-67 | after the upsert the user's attendance reads back as written, and no other user's changes |
| Database.WithTimetable | database.py:69-75 | after the upsert the user's timetable reads back as written, and no other user's changes |
| Database.WithDocument | database.py:77-83 | after the upsert the document reads back as written; no other collection or user changes |
| Database.WithGoal | database.py:196-198 | `get_attendance_goal` then returns the goal; other fields and users are untouched; a missing user gets a document with only the goal |
| Database.WithUserDocument | database.py:33-44 | an existing user is left unchanged; a new one gets the hash, the time, active and goal 75 |
| Database.WithNewUser | database.py:20-26 | the user id is added to `new_user`, nothing else changes |
| Database.Store.InsertNewUser | database.py:20-26 | the store's new state is `WithNewUser` of the old one |
| Database.Store.CreateUserDocument | database.py:33-44 | the store's new state is `WithUserDocument` of the old one |
| Database.Store.GetUser | database.py:15-18 | true exactly when a user document exists |
| Database.Store.GetUserByUid | database.py:28-31 | the user document, or None when there is none |
| Database.Store.GetAttendance | database.py:46-49 | the stored list, None where the source raises |
| Database.Store.GetTimetable | database.py:51-54 | the stored week, None where the source raises |
| Database.Store.GetDocument | database.py:56-59 | `get_courses` and the readers of lines 158-186: the stored document, None where the source raises |
| Database.Store.UpdateAttendance | database.py:61-67 | the store's new state is `WithAttendance` of the old one |
| Database.Store.UpdateTimetable | database.py:69-75 | the store's new state is `WithTimetable` of the old one |
| Database.Store.UpdateDocument | database.py:77-83 | `update_courses` and the writers of lines 110-156: the store's new state is `WithDocument` of the old one |
| Database.Store.SaveSession | database.py:85-91 | the store's new state is `WithSession` of the old one |
| Database.Store.LoadSession | database.py:93-96 | the stored state, or None without a session document |
| Database.Store.GetLastUpdated | database.py:98-101 | the stored field, None where the source raises |
| Database.Store.UpdateLastUpdated | database.py:103-108 | the store's new state is `WithLastUpdated` of the old one |
| Database.Store.GetAttendanceGoal | database.py:188-194 | the goal `GoalOf` gives |
| Database.Store.SetGoalValue | database.py:196-198 | the store's new state is `WithGoal` of the old one |
| Database.InsertNewUserIdempotent | database.py:20-26 | inserting twice is inserting once |
| Database.CreateUserIdempotent | database.py:33-44 | creating twice is creating once, whatever the second call passes |
| Database.GoalAfterCreate | database.py:33-44 | a goal set after creation wins; creation after a goal was set changes nothing |
| Database.LastUpdatedNeedsSession | database.py:103-108 | a `last_updated` written before the session exists is lost; one written after is kept |
| Scraper.LoginSecond | cuims_scrapper.py:225-251 | true exactly when the submitted page lands on the home URL; an exception while submitting gives false |
| Scraper.AttemptStep | cuims_scrapper.py:40-55 | a login attempt succeeds exactly when the captcha appears, the OCR request does not raise, and the typed text lands on the home page; it aborts exactly on a navigation or OCR exception; a missing captcha retries |
| Scraper.FirstExit | cuims_scrapper.py:40-55 | the first attempt that ends the loop, with every earlier attempt a retry; none exactly when all are retries |
| Scraper.LoginOf | cuims_scrapper.py:26-55 | the saved session is reused exactly when it is truthy and lands on the home page; the session check's exception escapes exactly when it is truthy and the check raises; otherwise a login happens exactly when some attempt ends the loop, with the storage state of that attempt's success or the message of its abort; no login means every attempt retried |
| Scraper.LoginAbortFails | cuims_scrapper.py:36-55 | without a reusable session, an attempt that aborts before any success makes the scrape fail with its message and the time |
| Scraper.ScrapeSuccessNeedsLogin | cuims_scrapper.py:26-55 | a scrape succeeds exactly when the browser logs in (a truthy saved state that lands on the home page, or else a first loop exit that authenticates), the name has a branch, and every scraper of the branch returns |
| Scraper.Single | cuims_scrapper.py:79-150 | the six names with a branch of their own, each mapped to its collection |
| Scraper.Extractors | cuims_scrapper.py:57-185 | "initial" runs courses, timetable and attendance; "all" runs all nine; a single name runs only its scraper; any other name matches no branch |
| Scraper.CaughtValue | cuims_scrapper.py:446-721 | the marks, result, date sheet and leaves scrapers catch everything and have a fixed fallback, falsy except for leaves; courses, profile and fees have none |
| Scraper.Fetch | cuims_scrapper.py:253-346 | the timetable scraper never raises, and its week is the parsed timetable; a document scraper returns its page's value, raises exactly when its page raises and it has no fallback, and otherwise returns the fallback; attendance raises exactly when its page does |
| Scraper.Gather | cuims_scrapper.py:57-185 | a branch that gets through has a value for exactly the scrapers it runs; one that fails ran at least one |
| Scraper.GatherFields | cuims_scrapper.py:57-185 | a branch that gets through holds each requested value exactly as its scraper returned it |
| Scraper.GatherThrows | cuims_scrapper.py:188-194 | a branch that fails stops at a scraper that raised, with its message, after the earlier ones returned |
| Scraper.Fetched | cuims_scrapper.py:57-197 | after login the `finally` stamps the time; an unknown name returns None; success and error carry the time and the gathered values or the message |
| Scraper.Scrape | cuims_scrapper.py:17-197 | a successful scrape is for a known name and the user, stamped with the time, holding what the branch gathered; a failure is stamped with the time too |
| Scraper.ScrapeUserData | cuims_scrapper.py:17-197 | the method's new store and result are those of `Scrape` |
| Scraper.FetchBranch | cuims_scrapper.py:57-197 | once logged in, the method's new store and result are those of `Fetched`: the name's branch, then the `finally` stamp |
| Scraper.FirstExitAt | cuims_scrapper.py:40-55 | an attempt that ends the loop after only retries is the one the login loop stops at |
| Scraper.PersistOne | cuims_scrapper.py:735-777 | a falsy or missing value writes nothing; attendance rows are written transformed with the stored goal, and the write ends exactly when every search loop does; a week is written to the timetable and a truthy document to its collection; users and sessions are never written |
| Scraper.PersistOrder | cuims_scrapper.py:733-777 | "initial" writes attendance, courses and timetable in that order; "all" writes every domain; a single name writes only its collection; an unknown name writes nothing |
| Scraper.Persist | cuims_scrapper.py:733-777 | the writes stop early only at attendance, and never touch another user's records, the users or the sessions |
| Scraper.PersistOrderDistinct | cuims_scrapper.py:733-777 | no branch writes a domain twice |
| Scraper.PersistStoresScraped | cuims_scrapper.py:739-777 | when the writes of distinct domains end, every listed week and truthy document reads back as scraped |
| Scraper.PersistStoresAttendance | cuims_scrapper.py:735-738 | when writes that start with attendance end, attendance reads back as the projection of the rows with the stored goal |
| Scraper.PersistKeepsTimetable | cuims_scrapper.py:733-777 | writes that do not list the timetable leave it alone |
| Scraper.PersistKeepsDocument | cuims_scrapper.py:733-777 | writes that do not list a collection leave every user's document in it alone |
| Scraper.StoreAttendance | cuims_scrapper.py:735-738 | the method writes what `PersistOne` specifies for attendance |
| Scraper.StoreField | cuims_scrapper.py:739-777 | a falsy or missing value leaves the store alone; a week becomes the user's timetable; a truthy document becomes the user's document in its collection |
| Scraper.StoreDocuments | cuims_scrapper.py:766-777 | the six JSON writes of "all": each truthy document reads back as scraped, and only the user's records change |
| Scraper.PersistFields | cuims_scrapper.py:733-777 | the writes of `Persist` over the name's domains; only the user's records change; when they end every week and truthy document reads back as scraped; they stop only at attendance for "initial" or "all", with the store untouched |
| Scraper.Refresh | cuims_scrapper.py:724-787 | an error exactly when the scrape failed, with its message and the time; success, with "<name> data refreshed successfully" and the time, whenever the scrape succeeds and the writes end, and only then; a hang exactly when the login loop or an attendance search does not end; a raise exactly when the saved-session check raised or the name has no branch, which raises the TypeError of subscripting None |
| Scraper.RefreshUserData | cuims_scrapper.py:724-787 | the method's new store and outcome are those of `Refresh` |
| Scraper.ReusedSessionSkipsLogin | cuims_scrapper.py:26-37 | with a truthy saved state that lands on the home page, the result does not depend on the login attempts, and the saved session is kept |
| Scraper.ExpiredSessionLogsIn | cuims_scrapper.py:32-37 | a saved state that lands elsewhere gives the same result as no saved state |
| Scraper.ScrapeWritesOnlySession | cuims_scrapper.py:17-197 | a scrape writes no collection but `sessions`, and no other user's session |
| Scraper.ReusedSessionFetches | cuims_scrapper.py:26-33 | a truthy saved state that lands on the home page is logged in: the run is the branch and stamp on the marked store, with no attempt made |
| Scraper.LoginSavesSession | cuims_scrapper.py:40-55 | without a reusable session, a first loop exit that authenticates saves that attempt's storage state, and the branch runs on that store |
| Scraper.LoggedInScrapeSucceeds | cuims_scrapper.py:57-197 | once logged in, a known name whose scrapers all return gives the success dictionary of exactly those values, stamped with the time |
| Scraper.RefreshSucceedsExactly | cuims_scrapper.py:724-785 | a refresh succeeds exactly when the browser logs in, the name has a branch whose scrapers all return, and the branch's writes end |
| Scraper.SessionSavedOnlyOnLogin | cuims_scrapper.py:45-49 | the stored session changes only to the storage state of a successful attempt |
| Scraper.ScrapeStampsTime | cuims_scrapper.py:18-196 | whenever the `finally` runs, `last_updated` ends as the time; when the session check raises or the loop never ends, it stays "Refreshing Data" |
| Scraper.RefreshSuccessMeans | cuims_scrapper.py:729-785 | success needs a successful scrape for a known name; it carries "<name> data refreshed successfully" and the time, and stamps `last_updated` |
| Scraper.UnknownNameRaises | cuims_scrapper.py:726-729 | an unknown name never succeeds; once logged in, it raises the TypeError of subscripting None |
| Scraper.FailedRefreshStoresNothing | cuims_scrapper.py:786-787 | a failed scrape is passed back and no record is written, only the session document |
| Scraper.RefreshKeepsGoal | cuims_scrapper.py:724-787 | a refresh never changes any user's goal |
| Scraper.RefreshSuccessSteps | cuims_scrapper.py:729-779 | a successful refresh is the scrape, then the branch's writes, then the time stamp |
| Scraper.DocumentWriteFrame | cuims_scrapper.py:744-755 | a JSON write touches only its own collection's document for the user |
| Scraper.RefreshStoresScraped | cuims_scrapper.py:729-777 | after a successful refresh every week and truthy document the branch scraped reads back under the user |
| Scraper.RefreshSingleStoresDocument | cuims_scrapper.py:744-765 | after a successful single-name refresh a truthy scraped document reads back in its collection |
| Scraper.RefreshKeepsUnlistedDocument | cuims_scrapper.py:724-787 | a refresh leaves every user's document alone in a collection its branch does not write |
| Scraper.RefreshInitialKeepsDocuments | cuims_scrapper.py:733-743 | an "initial" refresh writes no JSON-document collection but courses: marks, profile, result, leaves, date sheet and fees stay as they were for every user |
| Scraper.RefreshWritesOnlyOwnRecords | cuims_scrapper.py:724-787 | a refresh leaves users and new users alone, and changes no other user's session, time stamp, attendance, timetable or documents |
| Scraper.RefreshSingleWritesOneDocument | cuims_scrapper.py:744-755 | refreshing one collection writes only that collection's document for the user, besides the session |
| Scraper.RefreshStoresTransformedAttendance | cuims_scrapper.py:735-738 | after an "initial" or "all" refresh with attendance rows, the stored attendance is `transform_attendance` of the rows with the stored goal |
| Scraper.GatheredValueKinds | cuims_scrapper.py:253-346 | a gathered attendance value is the table rows or the scraper's `False`, a timetable value a week or `False`, and a document value JSON |
| Scraper.PersistKeepsAttendance | cuims_scrapper.py:739-777 | the writes after attendance never touch the stored attendance |
| Scraper.RefreshHangsOnlyInLoops | cuims_scrapper.py:40-55 | a refresh hangs only when the login loop never ends or an attendance search has no stopping point for the stored goal |
| Scraper.PersistStopsAtAttendance | cuims_scrapper.py:735-737 | the writes stop only at attendance rows whose searches do not all end |

## Left out

- The browser: Playwright navigation, DOM queries, waits, screenshots,
  `browser.close()` and `time.sleep(10)`. Their outcomes are the oracle
  `Portal`. The user id and the password are only typed into the page, so
  they appear only through the oracle.
- The page scrapers' field extraction (`_scrape_courses`, `_scrape_marks`,
  `_scrape_profile` and the rest). Their values are oracle JSON. In the
  model the timetable, marks, result, date sheet and leaves scrapers never
  raise, and their `except` values are modelled. The other document
  scrapers and the attendance scraper raise exactly when their page does.
  The leaves scraper's partial failure (one of its two sections) is part
  of the oracle JSON.
- The OCR HTTP request and image handling. Its reply is the oracle value
  `OcrReply`.
- Captcha.ExtractCaptcha: requires a reply that did not raise, because the
  raised request is modelled where it propagates, in Scraper.AttemptStep.
- `int()` parsing of the attendance counts. The rows arrive as
  non-negative integers; a non-numeric or negative cell is not modelled.
- Binary floating point in `round(..., 2)` and in the loops' divisions.
  Comparisons are exact, and rounding ties go up.
- `datetime.now()` and `datetime.utcnow()`: one clock reading `now` per
  call, passed in.
- async/await and concurrency. Calls are sequential.
- The connection and the environment reading of `init_db`. The Store
  constructor models it on an empty database. `main.py` and `config.py`
  (HTTP routes, crypto, environment reading) are not part of this model.
- The unused `max_miss_allowed` and `actual_miss`, and the dead
  `update_session_first` and `get_session_first`.
- Exceptions raised by the store itself (connection failures), and
  exceptions from browser launch or `storage_state()`.
- Exceptions from `browser.new_context()` and `context.new_page()` of the
  fresh login (cuims_scrapper.py:36-37). They lie outside the `try`, and
  the model treats both calls as never raising.
- Scraper.ScrapeUserData and Scraper.RefreshUserData: when the login loop
  never ends, the model stops when the finite list of attempts runs out
  (`Unfinished`, `Hangs`). The source loops forever.
- Scraper.StoreAttendance: when a search loop cannot end for the stored goal,
  the model reports `Hangs` (judged by `Attendance.AllSearchesEnd`) instead
  of running forever.
