/**
 * The control flow of `CUIMSScraper.scrape_user_data` and of
 * `refresh_user_data` in cuims_scrapper.py: reusing a saved session or
 * logging in through the captcha loop, choosing the page scrapers by the
 * requested data name, and writing what was scraped to the store.
 *
 * The browser is an oracle, `Portal`: where the saved session lands, what
 * each login attempt meets, and what each page scraper gives back.  The
 * clock reading `now` is a parameter.
 */
module Scraper {
  import opened Wrappers
  import Captcha
  import Attendance
  import Timetable
  import Database

  const HomeUrl: string := "https://students.cuchd.in/StudentHome.aspx"

  // ---------------------------------------------------------------------------
  // The portal, as the program meets it.

  /** Opening the home page with the saved storage state (lines 28-31). */
  datatype SessionCheck = Landed(url: string) | CheckRaised(msg: string)

  /** What clicking the login button does: the page URL afterwards, or an exception. */
  datatype Landing = LandedOn(url: string) | SubmitRaised

  /** One pass of the login loop (lines 41-55). */
  datatype Attempt =
      /** `page.goto` or filling the user id raised. */
    | NavigationRaised(msg: string)
      /** `_login_first` waited for the captcha image in vain and returned False. */
    | CaptchaMissing
      /**
       * The captcha image was shot; `ocr` is what the OCR service answers,
       * `submit` where the password and a given captcha text lead, and
       * `storage` the context's storage state afterwards.
       */
    | CaptchaShown(ocr: Captcha.OcrReply, submit: string -> Landing, storage: Database.Token)

  /** What one page scraper does: returns a value, or raises out of `scrape_user_data`. */
  datatype Extract<T> = Returned(value: T) | Threw(msg: string)

  /**
   * The page scrapers' answers.  `attendance` gives the table rows or None
   * for the `False` of an unreadable table; `timetable` is the text of the
   * grid, None where it cannot be read; `documents` the JSON value each
   * other scraper's page work produces (`False` is `JBool(false)`), or the
   * exception it raises, which `Fetch` lets escape only where the scraper
   * does not catch it.
   */
  datatype Pages = Pages(
    attendance: Extract<Option<seq<Attendance.RawCourse>>>,
    timetable: Option<seq<seq<string>>>,
    documents: Database.Collection -> Extract<Database.Json>)

  datatype Portal = Portal(check: SessionCheck, attempts: seq<Attempt>, pages: Pages)

  // ---------------------------------------------------------------------------
  // Logging in: `_login_first`, `_login_second` and the loop around them.

  datatype LoginExit = Authenticated(storage: Database.Token) | Abort(msg: string)

  datatype Step = Retry | Exit(exit: LoginExit)

  /**
   * `_login_second` (lines 225-251): True exactly when the page lands on the
   * home URL; an exception while submitting is caught and counts as False.
   */
  predicate LoginSecond(landing: Landing): (ok: bool)
    ensures ok <==> landing == LandedOn(HomeUrl)
    // The `except Exception` of lines 250-251: a raise while filling or clicking returns False.
    ensures landing.SubmitRaised? ==> !ok
  {
    landing.LandedOn? && landing.url == HomeUrl
  }

  /**
   * One pass of the loop: it retries when no captcha appears or the login is
   * refused, stops with the storage state on success, and stops with the
   * message when navigation or the OCR request raises.
   */
  function AttemptStep(a: Attempt): (s: Step)
    ensures (s.Exit? && s.exit.Authenticated?) <==>
              a.CaptchaShown? && !a.ocr.PostRaised? && LoginSecond(a.submit(Captcha.ExtractCaptcha(a.ocr)))
    ensures s.Exit? && s.exit.Authenticated? ==> s.exit.storage == a.storage
    ensures (s.Exit? && s.exit.Abort?) <==> a.NavigationRaised? || (a.CaptchaShown? && a.ocr.PostRaised?)
    ensures a.CaptchaMissing? ==> s == Retry
  {
    match a
    case NavigationRaised(msg) => Exit(Abort(msg))
    case CaptchaMissing => Retry
    case CaptchaShown(ocr, submit, storage) =>
      if ocr.PostRaised? then Exit(Abort(ocr.error))
      else if LoginSecond(submit(Captcha.ExtractCaptcha(ocr))) then Exit(Authenticated(storage))
      else Retry
  }

  datatype Found = NotFound | FoundAt(index: nat, exit: LoginExit)

  /** The first attempt at or after `from` that ends the loop. */
  function FirstExit(attempts: seq<Attempt>, from: nat): (f: Found)
    requires from <= |attempts|
    ensures f.NotFound? <==> forall j :: from <= j < |attempts| ==> AttemptStep(attempts[j]) == Retry
    ensures f.FoundAt? ==>
              && from <= f.index < |attempts|
              && AttemptStep(attempts[f.index]) == Exit(f.exit)
              && forall j :: from <= j < f.index ==> AttemptStep(attempts[j]) == Retry
    decreases |attempts| - from
  {
    if from == |attempts| then NotFound
    else match AttemptStep(attempts[from])
      case Exit(e) => FoundAt(from, e)
      case Retry => FirstExit(attempts, from + 1)
  }

  /** The loop stops at the first attempt that exits: every earlier one retried. */
  lemma {:induction false} FirstExitAt(attempts: seq<Attempt>, from: nat, i: nat, e: LoginExit)
    requires from <= i < |attempts| && AttemptStep(attempts[i]) == Exit(e)
    requires forall j :: from <= j < i ==> AttemptStep(attempts[j]) == Retry
    ensures FirstExit(attempts, from) == FoundAt(i, e)
    decreases i - from
  {
    if from < i {
      assert AttemptStep(attempts[from]) == Retry;
      FirstExitAt(attempts, from + 1, i, e);
    }
  }

  /** How the browser ends up logged in, or why it does not. */
  datatype Login =
    | Reused
    | LoggedIn(storage: Database.Token)
    | LoginAborted(msg: string)
    | CheckEscaped(msg: string)
    | NeverLoggedIn

  /** `if saved_state:` (line 27): a session document whose storage state is truthy. */
  predicate HasSavedState(db: Database.Db, uid: Database.Uid) {
    Database.SessionOf(db, uid).Some? && Database.SessionOf(db, uid).value != ""
  }

  /**
   * Lines 26-55: a truthy saved state is tried first; when it does not land
   * on the home page the loop runs until an attempt ends it.  `NeverLoggedIn`
   * is a loop that the given attempts do not end.
   */
  function LoginOf(db: Database.Db, uid: Database.Uid, portal: Portal): (l: Login)
    ensures l.Reused? <==> HasSavedState(db, uid) && portal.check == Landed(HomeUrl)
    ensures l.CheckEscaped? <==> HasSavedState(db, uid) && portal.check.CheckRaised?
    ensures l.CheckEscaped? ==> l.msg == portal.check.msg
    ensures !l.Reused? && !l.CheckEscaped? ==> (FirstExit(portal.attempts, 0).FoundAt? <==> l.LoggedIn? || l.LoginAborted?)
    ensures l.LoggedIn? ==> FirstExit(portal.attempts, 0).FoundAt? && FirstExit(portal.attempts, 0).exit == Authenticated(l.storage)
    ensures l.LoginAborted? ==> FirstExit(portal.attempts, 0).FoundAt? && FirstExit(portal.attempts, 0).exit == Abort(l.msg)
    ensures l.NeverLoggedIn? ==> forall j :: 0 <= j < |portal.attempts| ==> AttemptStep(portal.attempts[j]) == Retry
  {
    if HasSavedState(db, uid) && portal.check.CheckRaised? then CheckEscaped(portal.check.msg)
    else if HasSavedState(db, uid) && portal.check == Landed(HomeUrl) then Reused
    else match FirstExit(portal.attempts, 0)
      case NotFound => NeverLoggedIn
      case FoundAt(_, Authenticated(storage)) => LoggedIn(storage)
      case FoundAt(_, Abort(msg)) => LoginAborted(msg)
  }

  // ---------------------------------------------------------------------------
  // Scraping: which page scrapers run for a data name.

  datatype Domain = AttendanceData | TimetableData | Document(collection: Database.Collection)

  /** A value of the `data` dictionary; `Falsy` is the `False` a scraper returns. */
  datatype Value =
    | Rows(rows: seq<Attendance.RawCourse>)
    | Week(days: seq<seq<Timetable.Period>>)
    | Doc(json: Database.Json)
    | Falsy

  /** Python's truth value of a `data` entry: the week has seven days, so it is always true. */
  predicate Truthy(v: Value) {
    match v
    case Rows(rows) => rows != []
    case Week(_) => true
    case Doc(json) => Database.Truthy(json)
    case Falsy => false
  }

  /** The names with a branch of their own that fetch a single collection. */
  function Single(name: string): (c: Option<Database.Collection>)
    ensures c == Some(Database.Marks) <==> name == "marks"
    ensures c == Some(Database.Result) <==> name == "result"
    ensures c == Some(Database.Leaves) <==> name == "leaves"
    ensures c == Some(Database.Profile) <==> name == "profile"
    ensures c == Some(Database.Datesheet) <==> name == "datesheet"
    ensures c == Some(Database.Fees) <==> name == "fees"
    ensures c != Some(Database.Courses)
  {
    if name == "marks" then Some(Database.Marks)
    else if name == "result" then Some(Database.Result)
    else if name == "leaves" then Some(Database.Leaves)
    else if name == "profile" then Some(Database.Profile)
    else if name == "datesheet" then Some(Database.Datesheet)
    else if name == "fees" then Some(Database.Fees)
    else None
  }

  /** Every domain, in the order of the "all" branch (lines 151-169). */
  const AllDomains: seq<Domain> := [
    AttendanceData, Document(Database.Courses), TimetableData,
    Document(Database.Marks), Document(Database.Profile), Document(Database.Result),
    Document(Database.Leaves), Document(Database.Datesheet), Document(Database.Fees)]

  /**
   * The scrapers a branch of lines 57-185 runs, in order; None for a name
   * that no branch matches.
   */
  function Extractors(name: string): (ds: Option<seq<Domain>>)
    ensures ds.None? <==> name != "initial" && name != "all" && Single(name).None?
    ensures name == "initial" ==> ds == Some([Document(Database.Courses), TimetableData, AttendanceData])
    ensures name == "all" ==> ds == Some(AllDomains)
    ensures Single(name).Some? ==> ds == Some([Document(Single(name).value)])
  {
    if name == "initial" then Some([Document(Database.Courses), TimetableData, AttendanceData])
    else if name == "all" then Some(AllDomains)
    else match Single(name)
      case Some(c) => Some([Document(c)])
      case None => None
  }

  /**
   * What the `except` of a scraper whose page work all lies inside its `try`
   * returns: `{}` for marks (line 482), `False` for result and date sheet
   * (lines 602 and 648), and for leaves an empty list per failed section
   * (lines 683-686 and 717-720).  None for the courses, profile and fees
   * scrapers, whose `page.goto` comes before the `try` and may raise.
   */
  function CaughtValue(c: Database.Collection): (fallback: Option<Database.Json>)
    ensures fallback.None? <==> c == Database.Courses || c == Database.Profile || c == Database.Fees
    ensures fallback.Some? ==> (Database.Truthy(fallback.value) <==> c == Database.Leaves)
  {
    match c
    case Marks => Some(Database.JObject(map[]))
    case Result => Some(Database.JBool(false))
    case Datesheet => Some(Database.JBool(false))
    case Leaves => Some(Database.JArray([Database.JArray([]), Database.JArray([])]))
    case _ => None
  }

  /**
   * One scraper call.  The timetable, marks, result, date sheet and leaves
   * scrapers catch everything, so they never raise.
   */
  function Fetch(pages: Pages, d: Domain): (e: Extract<Value>)
    ensures d == TimetableData ==> e.Returned? && (e.value.Week? || e.value == Falsy)
    ensures d == TimetableData && e.value.Week? ==> Timetable.TimetableOf(pages.timetable) == Some(e.value.days)
    ensures d.Document? ==> (e.Threw? <==> pages.documents(d.collection).Threw? && CaughtValue(d.collection).None?)
    ensures d.Document? && pages.documents(d.collection).Returned? ==> e == Returned(Doc(pages.documents(d.collection).value))
    ensures d.Document? && pages.documents(d.collection).Threw? && CaughtValue(d.collection).Some? ==>
              e == Returned(Doc(CaughtValue(d.collection).value))
    ensures d == AttendanceData ==> (e.Threw? <==> pages.attendance.Threw?)
  {
    match d
    case AttendanceData =>
      (match pages.attendance
       case Threw(msg) => Threw(msg)
       case Returned(None) => Returned(Falsy)
       case Returned(Some(rows)) => Returned(Rows(rows)))
    case TimetableData =>
      (match Timetable.TimetableOf(pages.timetable)
       case None => Returned(Falsy)
       case Some(week) => Returned(Week(week)))
    case Document(c) =>
      (match pages.documents(c)
       case Threw(msg) => if CaughtValue(c).Some? then Returned(Doc(CaughtValue(c).value)) else Threw(msg)
       case Returned(json) => Returned(Doc(json)))
  }

  datatype Gathered = Fields(fields: map<Domain, Value>) | GatherThrew(msg: string)

  /** Running the scrapers `ds` one after another; the first that raises ends the branch. */
  function Gather(pages: Pages, ds: seq<Domain>): (g: Gathered)
    ensures g.Fields? ==> g.fields.Keys == set d | d in ds
    ensures g.GatherThrew? ==> ds != []
    decreases |ds|
  {
    if ds == [] then Fields(map[])
    else match Gather(pages, ds[..|ds| - 1])
      case GatherThrew(msg) => GatherThrew(msg)
      case Fields(fields) =>
        match Fetch(pages, ds[|ds| - 1])
        case Threw(msg) => GatherThrew(msg)
        case Returned(v) => Fields(fields[ds[|ds| - 1] := v])
  }

  /** A branch that gets through holds every requested value, each as its scraper returned it. */
  lemma {:induction false} GatherFields(pages: Pages, ds: seq<Domain>)
    requires Gather(pages, ds).Fields?
    ensures forall j :: 0 <= j < |ds| ==> Fetch(pages, ds[j]).Returned?
    ensures forall d :: d in ds ==> d in Gather(pages, ds).fields && Fetch(pages, d) == Returned(Gather(pages, ds).fields[d])
    decreases |ds|
  {
    if ds != [] {
      var init, last := ds[..|ds| - 1], ds[|ds| - 1];
      assert ds == init + [last];
      GatherFields(pages, init);
      var fields := Gather(pages, init).fields;
      var v := Fetch(pages, last).value;
      assert Gather(pages, ds).fields == fields[last := v];
      assert (set d | d in ds) == (set d | d in init) + {last};
      forall d | d in ds
        ensures Fetch(pages, d) == Returned(fields[last := v][d])
      {
        if d != last {
          assert d in init;
        }
      }
    }
  }

  /** A branch that stops does so at a scraper that raised, after the ones before it returned. */
  lemma {:induction false} GatherThrows(pages: Pages, ds: seq<Domain>)
    requires Gather(pages, ds).GatherThrew?
    ensures exists k :: 0 <= k < |ds| && Fetch(pages, ds[k]) == Threw(Gather(pages, ds).msg)
              && forall j :: 0 <= j < k ==> Fetch(pages, ds[j]).Returned?
    decreases |ds|
  {
    var init, last := ds[..|ds| - 1], ds[|ds| - 1];
    assert forall j :: 0 <= j < |init| ==> init[j] == ds[j];
    if Gather(pages, init).GatherThrew? {
      GatherThrows(pages, init);
      var k :| 0 <= k < |init| && Fetch(pages, init[k]) == Threw(Gather(pages, init).msg)
               && forall j :: 0 <= j < k ==> Fetch(pages, init[j]).Returned?;
      assert Fetch(pages, ds[k]) == Threw(Gather(pages, ds).msg);
    } else {
      GatherFields(pages, init);
      assert Fetch(pages, ds[|ds| - 1]) == Threw(Gather(pages, ds).msg);
    }
  }

  /** The `data` dictionary of a successful scrape. */
  datatype ScrapedData = ScrapedData(uid: Database.Uid, fields: map<Domain, Value>)

  /** What `scrape_user_data` does for the caller. */
  datatype ScrapeResult =
    | Success(data: ScrapedData, scrapedAt: string)
    | Failure(message: string, scrapedAt: string)
      /** No branch matched the name: the function falls off the end and returns None. */
    | NoBranch
      /** An exception raised outside the `try` (the saved-session check) leaves the function. */
    | Escaped(msg: string)
      /** The login loop does not end on the given attempts. */
    | Unfinished

  datatype Run = Run(db: Database.Db, result: ScrapeResult)

  /** Lines 57-197, once the browser is logged in: the branch, then the `finally`. */
  function Fetched(db: Database.Db, uid: Database.Uid, name: string, pages: Pages, now: string): (r: Run)
    ensures r.db == Database.WithLastUpdated(db, uid, now)
    ensures r.result.NoBranch? <==> Extractors(name).None?
    ensures r.result.Success? ==>
              && r.result.data.uid == uid && r.result.scrapedAt == now
              && Gather(pages, Extractors(name).value) == Fields(r.result.data.fields)
    ensures r.result.Failure? ==> r.result.scrapedAt == now && Gather(pages, Extractors(name).value) == GatherThrew(r.result.message)
    ensures !r.result.Escaped? && !r.result.Unfinished?
  {
    var db' := Database.WithLastUpdated(db, uid, now);
    match Extractors(name)
    case None => Run(db', NoBranch)
    case Some(ds) =>
      match Gather(pages, ds)
      case GatherThrew(msg) => Run(db', Failure(msg, now))
      case Fields(fields) => Run(db', Success(ScrapedData(uid, fields), now))
  }

  /** `scrape_user_data` (lines 17-197) on a store and a portal. */
  function Scrape(db: Database.Db, uid: Database.Uid, name: string, portal: Portal, now: string): (r: Run)
    ensures r.result.Success? ==>
              && r.result.data.uid == uid && r.result.scrapedAt == now && Extractors(name).Some?
              && Gather(portal.pages, Extractors(name).value) == Fields(r.result.data.fields)
    ensures r.result.Failure? ==> r.result.scrapedAt == now
  {
    var marked := Database.WithLastUpdated(db, uid, Database.RefreshingData);
    match LoginOf(marked, uid, portal)
    case CheckEscaped(msg) => Run(marked, Escaped(msg))
    case NeverLoggedIn => Run(marked, Unfinished)
    case LoginAborted(msg) => Run(Database.WithLastUpdated(marked, uid, now), Failure(msg, now))
    case Reused => Fetched(marked, uid, name, portal.pages, now)
    case LoggedIn(storage) => Fetched(Database.WithSession(marked, uid, storage), uid, name, portal.pages, now)
  }

  /**
   * `scrape_user_data`, step by step on the store: mark the data as being
   * refreshed, try the saved session, run the login loop, run the branch's
   * scrapers and stamp the time in the `finally`.
   */
  method ScrapeUserData(store: Database.Store, uid: Database.Uid, name: string, portal: Portal, now: string)
    returns (result: ScrapeResult)
    modifies store
    ensures Run(store.State(), result) == Scrape(old(store.State()), uid, name, portal, now)
  {
    store.UpdateLastUpdated(uid, Database.RefreshingData);
    ghost var marked := store.State();
    var loggedIn := false;
    var saved := store.LoadSession(uid);
    if saved.Some? && saved.value != "" {
      match portal.check
      case CheckRaised(msg) =>
        return Escaped(msg);
      case Landed(url) =>
        loggedIn := url == HomeUrl;
    }
    ghost var reused := loggedIn;
    ghost var authenticated: Database.Token := "";
    var i := 0;
    while !loggedIn
      invariant 0 <= i <= |portal.attempts|
      invariant reused ==> loggedIn && store.State() == marked
      invariant !loggedIn ==> store.State() == marked && forall j :: 0 <= j < i ==> AttemptStep(portal.attempts[j]) == Retry
      invariant loggedIn && !reused ==>
                  && FirstExit(portal.attempts, 0) == FoundAt(i, Authenticated(authenticated))
                  && store.State() == Database.WithSession(marked, uid, authenticated)
      decreases |portal.attempts| - i, if loggedIn then 0 else 1
    {
      if i == |portal.attempts| {
        return Unfinished;
      }
      match portal.attempts[i] {
        case NavigationRaised(msg) =>
          FirstExitAt(portal.attempts, 0, i, Abort(msg));
          store.UpdateLastUpdated(uid, now);
          return Failure(msg, now);
        case CaptchaMissing =>
          i := i + 1;
        case CaptchaShown(ocr, submit, storage) =>
          if ocr.PostRaised? {
            FirstExitAt(portal.attempts, 0, i, Abort(ocr.error));
            store.UpdateLastUpdated(uid, now);
            return Failure(ocr.error, now);
          }
          var captchaTxt := Captcha.ExtractCaptcha(ocr);
          var success := LoginSecond(submit(captchaTxt));
          if success {
            FirstExitAt(portal.attempts, 0, i, Authenticated(storage));
            store.SaveSession(uid, storage);
            authenticated := storage;
            loggedIn := true;
          } else {
            i := i + 1;
          }
      }
    }
    assert LoginOf(marked, uid, portal) == if reused then Reused else LoggedIn(authenticated);
    result := FetchBranch(store, uid, name, portal.pages, now);
  }

  /** Lines 57-197 once logged in: the branch the name selects, then the `finally`'s time stamp. */
  method FetchBranch(store: Database.Store, uid: Database.Uid, name: string, pages: Pages, now: string)
    returns (result: ScrapeResult)
    modifies store
    ensures Run(store.State(), result) == Fetched(old(store.State()), uid, name, pages, now)
  {
    var ds := Extractors(name);
    if ds.None? {
      result := NoBranch;
    } else {
      match Gather(pages, ds.value)
      case GatherThrew(msg) =>
        result := Failure(msg, now);
      case Fields(fields) =>
        result := Success(ScrapedData(uid, fields), now);
    }
    store.UpdateLastUpdated(uid, now);
  }

  // ---------------------------------------------------------------------------
  // Refreshing: writing the scraped data to the store.

  datatype RefreshOutcome =
    | RefreshSuccess(message: string, updatedAt: string)
      /** The error dictionary of `scrape_user_data`, passed back unchanged. */
    | RefreshError(message: string, scrapedAt: string)
      /** An exception leaves `refresh_user_data`. */
    | Raised(msg: string)
      /** A scrape or an attendance search that does not end. */
    | Hangs

  /** The TypeError of subscripting the None an unmatched name returns. */
  const NoneNotSubscriptable: string := "'NoneType' object is not subscriptable"

  datatype Stop = Stop(db: Database.Db, finished: bool)

  /**
   * One `if data.get(key): db.update_...(...)` of lines 735-777; attendance
   * is first passed through `transform_attendance` with the stored goal,
   * whose search loops may not end.
   */
  function PersistOne(db: Database.Db, uid: Database.Uid, d: Domain, fields: map<Domain, Value>): (s: Stop)
    ensures !s.finished ==> s.db == db && d == AttendanceData
    ensures d !in fields || !Truthy(fields[d]) ==> s == Stop(db, true)
    ensures d == AttendanceData && d in fields && fields[d].Rows? && fields[d].rows != [] ==>
              var goal := Database.GoalOf(db, uid);
              && (s.finished <==> Attendance.AllSearchesEnd(fields[d].rows, goal))
              && (s.finished ==> s.db == Database.WithAttendance(db, uid, Attendance.ProjectAll(fields[d].rows, goal)))
    ensures d == TimetableData && d in fields && fields[d].Week? ==>
              s == Stop(Database.WithTimetable(db, uid, fields[d].days), true)
    ensures d.Document? && d in fields && fields[d].Doc? && Database.Truthy(fields[d].json) ==>
              s == Stop(Database.WithDocument(db, d.collection, uid, fields[d].json), true)
    ensures s.db.users == db.users && s.db.sessions == db.sessions && s.db.newUsers == db.newUsers
  {
    if d !in fields || !Truthy(fields[d]) then Stop(db, true)
    else match (d, fields[d])
      case (AttendanceData, Rows(rows)) =>
        var goal := Database.GoalOf(db, uid);
        if Attendance.AllSearchesEnd(rows, goal) then
          Stop(Database.WithAttendance(db, uid, Attendance.ProjectAll(rows, goal)), true)
        else Stop(db, false)
      case (TimetableData, Week(days)) => Stop(Database.WithTimetable(db, uid, days), true)
      case (Document(c), Doc(json)) => Stop(Database.WithDocument(db, c, uid, json), true)
      case _ => Stop(db, true)
  }

  /**
   * What a refresh for `uid` may change: the user's own attendance, timetable
   * and documents.  Users, new users, sessions and every other user's
   * records stay as they are.
   */
  ghost predicate WritesOnlyRecordsOf(before: Database.Db, after: Database.Db, uid: Database.Uid) {
    after.sessions == before.sessions && TouchesOnly(before, after, uid)
  }

  lemma AttendanceWriteFrame(db: Database.Db, uid: Database.Uid, records: seq<Attendance.Projection>)
    ensures WritesOnlyRecordsOf(db, Database.WithAttendance(db, uid, records), uid)
  {
    var r := Database.WithAttendance(db, uid, records);
    assert r.(attendance := db.attendance) == db;
    assert r.documents == db.documents && r.timetable == db.timetable;
    assert r.users == db.users && r.newUsers == db.newUsers && r.sessions == db.sessions;
    forall v | v != uid
      ensures Database.SessionOf(r, v) == Database.SessionOf(db, v) && Database.LastUpdatedOf(r, v) == Database.LastUpdatedOf(db, v)
      ensures Database.AttendanceOf(r, v) == Database.AttendanceOf(db, v)
      ensures Database.StoredTimetable(r, v) == Database.StoredTimetable(db, v)
      ensures forall k :: Database.DocumentOf(r, k, v) == Database.DocumentOf(db, k, v)
    {
    }
    assert TouchesOnly(db, r, uid);
  }

  lemma TimetableWriteFrame(db: Database.Db, uid: Database.Uid, week: seq<seq<Timetable.Period>>)
    ensures WritesOnlyRecordsOf(db, Database.WithTimetable(db, uid, week), uid)
  {
    var r := Database.WithTimetable(db, uid, week);
    assert r.(timetable := db.timetable) == db;
    assert r.documents == db.documents && r.attendance == db.attendance;
    assert r.users == db.users && r.newUsers == db.newUsers && r.sessions == db.sessions;
    forall v | v != uid
      ensures Database.SessionOf(r, v) == Database.SessionOf(db, v) && Database.LastUpdatedOf(r, v) == Database.LastUpdatedOf(db, v)
      ensures Database.AttendanceOf(r, v) == Database.AttendanceOf(db, v)
      ensures Database.StoredTimetable(r, v) == Database.StoredTimetable(db, v)
      ensures forall k :: Database.DocumentOf(r, k, v) == Database.DocumentOf(db, k, v)
    {
    }
    assert TouchesOnly(db, r, uid);
  }

  lemma JsonWriteFrame(db: Database.Db, c: Database.Collection, uid: Database.Uid, json: Database.Json)
    ensures WritesOnlyRecordsOf(db, Database.WithDocument(db, c, uid, json), uid)
  {
    var r := Database.WithDocument(db, c, uid, json);
    assert r.(documents := db.documents) == db;
    assert r.timetable == db.timetable && r.attendance == db.attendance;
    assert r.users == db.users && r.newUsers == db.newUsers && r.sessions == db.sessions;
    forall v | v != uid
      ensures Database.SessionOf(r, v) == Database.SessionOf(db, v) && Database.LastUpdatedOf(r, v) == Database.LastUpdatedOf(db, v)
      ensures Database.AttendanceOf(r, v) == Database.AttendanceOf(db, v)
      ensures Database.StoredTimetable(r, v) == Database.StoredTimetable(db, v)
      ensures forall k :: Database.DocumentOf(r, k, v) == Database.DocumentOf(db, k, v)
    {
    }
    assert TouchesOnly(db, r, uid);
  }

  /** One write changes only the user's own records. */
  lemma PersistOneWritesOwnRecords(db: Database.Db, uid: Database.Uid, d: Domain, fields: map<Domain, Value>)
    ensures WritesOnlyRecordsOf(db, PersistOne(db, uid, d, fields).db, uid)
  {
    if d in fields && Truthy(fields[d]) {
      match (d, fields[d])
      case (AttendanceData, Rows(rows)) =>
        var goal := Database.GoalOf(db, uid);
        if Attendance.AllSearchesEnd(rows, goal) {
          AttendanceWriteFrame(db, uid, Attendance.ProjectAll(rows, goal));
        }
      case (TimetableData, Week(days)) => TimetableWriteFrame(db, uid, days);
      case (Document(c), Doc(json)) => JsonWriteFrame(db, c, uid, json);
      case _ =>
    }
  }

  /** The writes of one branch, in order, up to the first that does not end. */
  function Persist(db: Database.Db, uid: Database.Uid, ds: seq<Domain>, fields: map<Domain, Value>): (s: Stop)
    ensures !s.finished ==> AttendanceData in ds
    ensures WritesOnlyRecordsOf(db, s.db, uid)
    decreases |ds|
  {
    if ds == [] then Stop(db, true)
    else
      var s := PersistOne(db, uid, ds[0], fields);
      PersistOneWritesOwnRecords(db, uid, ds[0], fields);
      if !s.finished then s else Persist(s.db, uid, ds[1..], fields)
  }

  /** The writes each name selects at lines 733-777: "initial" writes attendance, courses and timetable. */
  function PersistOrder(name: string): (ds: seq<Domain>)
    ensures name == "initial" ==> ds == [AttendanceData, Document(Database.Courses), TimetableData]
    ensures name == "all" ==> ds == AllDomains
    ensures Single(name).Some? ==> ds == [Document(Single(name).value)]
    ensures name != "initial" && name != "all" && Single(name).None? ==> ds == []
  {
    if name == "initial" then AllDomains[..3]
    else if name == "all" then AllDomains
    else match Single(name)
      case Some(c) => [Document(c)]
      case None => []
  }

  /** No domain is written twice by one branch. */
  predicate Distinct(ds: seq<Domain>) {
    forall i, j :: 0 <= i < j < |ds| ==> ds[i] != ds[j]
  }

  /**
   * What a finished branch over `ds` leaves in the store: every truthy week
   * and JSON document it was given for a domain of `ds`, under the user.
   */
  ghost predicate StoresScraped(db: Database.Db, uid: Database.Uid, ds: seq<Domain>, fields: map<Domain, Value>) {
    && (TimetableData in ds && TimetableData in fields && fields[TimetableData].Week? ==>
          Database.StoredTimetable(db, uid) == Some(fields[TimetableData].days))
    && forall c :: Document(c) in ds && Document(c) in fields && fields[Document(c)].Doc? && Database.Truthy(fields[Document(c)].json) ==>
         Database.DocumentOf(db, c, uid) == Some(fields[Document(c)].json)
  }

  datatype RefreshRun = RefreshRun(db: Database.Db, outcome: RefreshOutcome)

  /**
   * `refresh_user_data` (lines 724-788) on a store and a portal: a failed
   * scrape is passed back as it is, a success carries the name and the time.
   */
  function Refresh(db: Database.Db, uid: Database.Uid, name: string, portal: Portal, now: string): (r: RefreshRun)
    ensures r.outcome.RefreshError? <==> Scrape(db, uid, name, portal, now).result.Failure?
    ensures r.outcome.RefreshError? ==> r.outcome == RefreshError(Scrape(db, uid, name, portal, now).result.message, now)
    ensures r.outcome.RefreshSuccess? ==>
              && Scrape(db, uid, name, portal, now).result.Success? && Extractors(name).Some?
              && r.outcome == RefreshSuccess(name + " data refreshed successfully", now)
    ensures Extractors(name).None? && Scrape(db, uid, name, portal, now).result == NoBranch ==>
              r.outcome == Raised(NoneNotSubscriptable)
    ensures var run := Scrape(db, uid, name, portal, now);
            run.result.Success? && Persist(run.db, uid, PersistOrder(name), run.result.data.fields).finished ==>
              r.outcome == RefreshSuccess(name + " data refreshed successfully", now)
    ensures var run := Scrape(db, uid, name, portal, now);
            r.outcome.Hangs? <==>
              run.result.Unfinished? || (run.result.Success? && !Persist(run.db, uid, PersistOrder(name), run.result.data.fields).finished)
    ensures r.outcome.Raised? <==> Scrape(db, uid, name, portal, now).result.Escaped? || Scrape(db, uid, name, portal, now).result == NoBranch
  {
    var run := Scrape(db, uid, name, portal, now);
    match run.result
    case Escaped(msg) => RefreshRun(run.db, Raised(msg))
    case Unfinished => RefreshRun(run.db, Hangs)
    case NoBranch => RefreshRun(run.db, Raised(NoneNotSubscriptable))
    case Failure(msg, at) => RefreshRun(run.db, RefreshError(msg, at))
    case Success(data, _) =>
      var stop := Persist(run.db, data.uid, PersistOrder(name), data.fields);
      if !stop.finished then RefreshRun(stop.db, Hangs)
      else RefreshRun(Database.WithLastUpdated(stop.db, uid, now), RefreshSuccess(name + " data refreshed successfully", now))
  }

  /**
   * `if data.get('attendance')`: transform with the stored goal and write,
   * unless a search loop does not end.  `pending` are the writes of the
   * branch still to come, this one first.
   */
  method StoreAttendance(store: Database.Store, uid: Database.Uid, fields: map<Domain, Value>, ghost pending: seq<Domain>)
    returns (finished: bool)
    requires pending != [] && pending[0] == AttendanceData
    modifies store
    ensures Stop(store.State(), finished) == PersistOne(old(store.State()), uid, AttendanceData, fields)
    ensures Persist(old(store.State()), uid, pending, fields) ==
              if finished then Persist(store.State(), uid, pending[1..], fields) else Stop(store.State(), false)
  {
    finished := true;
    if AttendanceData in fields && fields[AttendanceData].Rows? && fields[AttendanceData].rows != [] {
      var rows := fields[AttendanceData].rows;
      var goal := store.GetAttendanceGoal(uid);
      if !Attendance.AllSearchesEnd(rows, goal) {
        return false;
      }
      var transformed := Attendance.TransformAttendance(rows, goal);
      assert transformed == Attendance.ProjectAll(rows, goal);
      store.UpdateAttendance(uid, transformed);
    }
  }

  /** `if data.get(key): db.update_key(...)` for the timetable and the JSON collections. */
  method StoreField(store: Database.Store, uid: Database.Uid, d: Domain, fields: map<Domain, Value>, ghost pending: seq<Domain>)
    requires d != AttendanceData
    requires pending != [] && pending[0] == d
    modifies store
    ensures Stop(store.State(), true) == PersistOne(old(store.State()), uid, d, fields)
    ensures d !in fields || !Truthy(fields[d]) ==> store.State() == old(store.State())
    ensures d == TimetableData && d in fields && fields[d].Week? ==>
              store.State() == Database.WithTimetable(old(store.State()), uid, fields[d].days)
    ensures d.Document? && d in fields && fields[d].Doc? && Database.Truthy(fields[d].json) ==>
              store.State() == Database.WithDocument(old(store.State()), d.collection, uid, fields[d].json)
    ensures Persist(old(store.State()), uid, pending, fields) == Persist(store.State(), uid, pending[1..], fields)
  {
    if d in fields && Truthy(fields[d]) {
      match (d, fields[d])
      case (TimetableData, Week(days)) => store.UpdateTimetable(uid, days);
      case (Document(c), Doc(json)) => store.UpdateDocument(c, uid, json);
      case _ =>
    }
  }

  /** The six JSON writes that end the "all" branch (lines 766-777). */
  method StoreDocuments(store: Database.Store, uid: Database.Uid, fields: map<Domain, Value>, ghost pending: seq<Domain>)
    requires pending == AllDomains[3..]
    modifies store
    ensures Stop(store.State(), true) == Persist(old(store.State()), uid, pending, fields)
    ensures StoresScraped(store.State(), uid, pending, fields)
    ensures WritesOnlyRecordsOf(old(store.State()), store.State(), uid)
  {
    ghost var before := store.State();
    ghost var rest := pending;
    assert rest == [Document(Database.Marks), Document(Database.Profile), Document(Database.Result),
                    Document(Database.Leaves), Document(Database.Datesheet), Document(Database.Fees)];
    StoreField(store, uid, Document(Database.Marks), fields, rest);
    rest := rest[1..];
    StoreField(store, uid, Document(Database.Profile), fields, rest);
    rest := rest[1..];
    StoreField(store, uid, Document(Database.Result), fields, rest);
    rest := rest[1..];
    StoreField(store, uid, Document(Database.Leaves), fields, rest);
    rest := rest[1..];
    StoreField(store, uid, Document(Database.Datesheet), fields, rest);
    rest := rest[1..];
    StoreField(store, uid, Document(Database.Fees), fields, rest);
    rest := rest[1..];
    assert rest == [];
    DocumentDomainsDistinct();
    PersistStoresScraped(before, uid, pending, fields);
  }

  lemma DocumentDomainsDistinct()
    ensures Distinct(AllDomains[3..])
  {
    var ds := AllDomains[3..];
    assert ds == [Document(Database.Marks), Document(Database.Profile), Document(Database.Result),
                  Document(Database.Leaves), Document(Database.Datesheet), Document(Database.Fees)];
  }

  /**
   * The `if`/`elif` chain of lines 733-777: the writes the name selects, in
   * order, each guarded by the truth of its value.
   */
  method PersistFields(store: Database.Store, uid: Database.Uid, name: string, fields: map<Domain, Value>)
    returns (finished: bool)
    modifies store
    ensures Stop(store.State(), finished) == Persist(old(store.State()), uid, PersistOrder(name), fields)
    ensures WritesOnlyRecordsOf(old(store.State()), store.State(), uid)
    ensures finished ==> StoresScraped(store.State(), uid, PersistOrder(name), fields)
    ensures !finished ==> store.State() == old(store.State()) && (name == "initial" || name == "all")
  {
    finished := true;
    ghost var before := store.State();
    ghost var pending := PersistOrder(name);
    if name == "initial" || name == "all" {
      finished := StoreAttendance(store, uid, fields, pending);
      if !finished {
        return;
      }
      pending := pending[1..];
      StoreField(store, uid, Document(Database.Courses), fields, pending);
      pending := pending[1..];
      StoreField(store, uid, TimetableData, fields, pending);
      pending := pending[1..];
      if name == "all" {
        StoreDocuments(store, uid, fields, pending);
      } else {
        assert pending == [];
      }
    } else {
      var single := Single(name);
      if single.Some? {
        StoreField(store, uid, Document(single.value), fields, pending);
        assert pending[1..] == [];
      }
    }
    PersistOrderDistinct(name);
    PersistStoresScraped(before, uid, PersistOrder(name), fields);
  }

  /** `refresh_user_data`: scrape, then write what the name selects, then stamp the time. */
  method RefreshUserData(store: Database.Store, uid: Database.Uid, name: string, portal: Portal, now: string)
    returns (outcome: RefreshOutcome)
    modifies store
    ensures RefreshRun(store.State(), outcome) == Refresh(old(store.State()), uid, name, portal, now)
  {
    var scraped := ScrapeUserData(store, uid, name, portal, now);
    match scraped
    case Escaped(msg) =>
      outcome := Raised(msg);
    case Unfinished =>
      outcome := Hangs;
    case NoBranch =>
      outcome := Raised(NoneNotSubscriptable);
    case Failure(msg, at) =>
      outcome := RefreshError(msg, at);
    case Success(data, _) =>
      var finished := PersistFields(store, data.uid, name, data.fields);
      if !finished {
        return Hangs;
      }
      store.UpdateLastUpdated(uid, now);
      outcome := RefreshSuccess(name + " data refreshed successfully", now);
  }

  // ---------------------------------------------------------------------------
  // Properties of a scrape.

  /** A saved session that still lands on the home page is used as it is: no login attempt is made. */
  lemma ReusedSessionSkipsLogin(db: Database.Db, uid: Database.Uid, name: string, portal: Portal, others: seq<Attempt>, now: string)
    requires Database.SessionOf(db, uid).Some? && Database.SessionOf(db, uid).value != ""
    requires portal.check == Landed(HomeUrl)
    ensures Scrape(db, uid, name, portal, now) == Scrape(db, uid, name, portal.(attempts := others), now)
    ensures Database.SessionOf(Scrape(db, uid, name, portal, now).db, uid) == Database.SessionOf(db, uid)
  {
    var marked := Database.WithLastUpdated(db, uid, Database.RefreshingData);
    assert Database.SessionOf(marked, uid) == Database.SessionOf(db, uid);
    assert LoginOf(marked, uid, portal) == Reused;
  }

  /**
   * The browser ends up logged in: a truthy saved state lands on the home
   * page, or, without one that does, the first attempt that ends the loop
   * authenticates.
   */
  predicate LogsIn(db: Database.Db, uid: Database.Uid, portal: Portal) {
    || (HasSavedState(db, uid) && portal.check == Landed(HomeUrl))
    || ((!HasSavedState(db, uid) || (portal.check.Landed? && portal.check.url != HomeUrl))
        && FirstExit(portal.attempts, 0).FoundAt? && FirstExit(portal.attempts, 0).exit.Authenticated?)
  }

  /**
   * A truthy saved state that lands on the home page is logged in
   * (lines 26-33): the branch runs on the marked store, with no login.
   */
  lemma ReusedSessionFetches(db: Database.Db, uid: Database.Uid, name: string, portal: Portal, now: string)
    requires HasSavedState(db, uid) && portal.check == Landed(HomeUrl)
    ensures Scrape(db, uid, name, portal, now) ==
              Fetched(Database.WithLastUpdated(db, uid, Database.RefreshingData), uid, name, portal.pages, now)
  {
    var marked := Database.WithLastUpdated(db, uid, Database.RefreshingData);
    assert HasSavedState(marked, uid) == HasSavedState(db, uid);
  }

  /**
   * Without a reusable session, an attempt that authenticates before any
   * other exit saves its storage state (lines 45-49) and the branch runs on
   * that store.
   */
  lemma LoginSavesSession(db: Database.Db, uid: Database.Uid, name: string, portal: Portal, now: string, k: nat, storage: Database.Token)
    requires !HasSavedState(db, uid) || (portal.check.Landed? && portal.check.url != HomeUrl)
    requires FirstExit(portal.attempts, 0) == FoundAt(k, Authenticated(storage))
    ensures var marked := Database.WithLastUpdated(db, uid, Database.RefreshingData);
            Scrape(db, uid, name, portal, now) ==
              Fetched(Database.WithSession(marked, uid, storage), uid, name, portal.pages, now)
    ensures Database.SessionOf(Scrape(db, uid, name, portal, now).db, uid) == Some(storage)
  {
    var marked := Database.WithLastUpdated(db, uid, Database.RefreshingData);
    assert HasSavedState(marked, uid) == HasSavedState(db, uid);
    var saved := Database.WithSession(marked, uid, storage);
    assert Database.SessionOf(Database.WithLastUpdated(saved, uid, now), uid) == Some(storage);
  }

  /**
   * Once logged in, by a reused session or by an attempt, a known name whose
   * scrapers all return gives the success dictionary with the time.
   */
  lemma LoggedInScrapeSucceeds(db: Database.Db, uid: Database.Uid, name: string, portal: Portal, now: string, fields: map<Domain, Value>)
    requires LogsIn(db, uid, portal)
    requires Extractors(name).Some? && Gather(portal.pages, Extractors(name).value) == Fields(fields)
    ensures Scrape(db, uid, name, portal, now).result == Success(ScrapedData(uid, fields), now)
  {
    if HasSavedState(db, uid) && portal.check == Landed(HomeUrl) {
      ReusedSessionFetches(db, uid, name, portal, now);
    } else {
      var f := FirstExit(portal.attempts, 0);
      LoginSavesSession(db, uid, name, portal, now, f.index, f.exit.storage);
    }
  }

  /**
   * A saved session that no longer lands on the home page gives the same
   * answer as having no saved session at all.
   */
  lemma ExpiredSessionLogsIn(db: Database.Db, uid: Database.Uid, name: string, portal: Portal, now: string)
    requires portal.check.Landed? && portal.check.url != HomeUrl
    ensures Scrape(db, uid, name, portal, now).result ==
              Scrape(db.(sessions := db.sessions - {uid}), uid, name, portal, now).result
  {
    var bare := db.(sessions := db.sessions - {uid});
    var marked := Database.WithLastUpdated(db, uid, Database.RefreshingData);
    var marked' := Database.WithLastUpdated(bare, uid, Database.RefreshingData);
    assert Database.SessionOf(marked', uid) == None;
    assert LoginOf(marked, uid, portal) == LoginOf(marked', uid, portal);
  }

  /**
   * A scrape writes to no collection but `sessions`, and there only to the
   * user's own document.
   */
  lemma ScrapeWritesOnlySession(db: Database.Db, uid: Database.Uid, name: string, portal: Portal, now: string)
    ensures Scrape(db, uid, name, portal, now).db.(sessions := db.sessions) == db
    ensures forall v :: v != uid ==> Database.SessionOf(Scrape(db, uid, name, portal, now).db, v) == Database.SessionOf(db, v)
    ensures forall v :: v != uid ==> Database.LastUpdatedOf(Scrape(db, uid, name, portal, now).db, v) == Database.LastUpdatedOf(db, v)
  {
    var marked := Database.WithLastUpdated(db, uid, Database.RefreshingData);
    match LoginOf(marked, uid, portal)
    case LoggedIn(storage) =>
      var saved := Database.WithSession(marked, uid, storage);
      assert Scrape(db, uid, name, portal, now).db == Database.WithLastUpdated(saved, uid, now);
    case _ =>
  }

  /**
   * The stored session changes only when the loop logs in, and then it is
   * the storage state of a successful attempt.
   */
  lemma SessionSavedOnlyOnLogin(db: Database.Db, uid: Database.Uid, name: string, portal: Portal, now: string)
    ensures var after := Database.SessionOf(Scrape(db, uid, name, portal, now).db, uid);
            after != Database.SessionOf(db, uid) ==>
              after.Some? && exists k :: 0 <= k < |portal.attempts| && AttemptStep(portal.attempts[k]) == Exit(Authenticated(after.value))
  {
    var marked := Database.WithLastUpdated(db, uid, Database.RefreshingData);
    assert Database.SessionOf(marked, uid) == Database.SessionOf(db, uid);
    match LoginOf(marked, uid, portal)
    case LoggedIn(storage) =>
      var saved := Database.WithSession(marked, uid, storage);
      assert Database.SessionOf(Scrape(db, uid, name, portal, now).db, uid) == Database.SessionOf(saved, uid);
    case _ =>
  }

  /**
   * `last_updated` ends as the time stamp whenever the `finally` runs, and
   * stays "Refreshing Data" when an exception escapes the saved-session
   * check or the login loop does not end.
   */
  lemma ScrapeStampsTime(db: Database.Db, uid: Database.Uid, name: string, portal: Portal, now: string)
    ensures var run := Scrape(db, uid, name, portal, now);
            && (uid in db.sessions ==> uid in run.db.sessions)
            && (uid in run.db.sessions && !run.result.Escaped? && !run.result.Unfinished? ==>
                  Database.LastUpdatedOf(run.db, uid) == Some(now))
            && (uid in db.sessions && (run.result.Escaped? || run.result.Unfinished?) ==>
                  Database.LastUpdatedOf(run.db, uid) == Some(Database.RefreshingData))
  {
    var marked := Database.WithLastUpdated(db, uid, Database.RefreshingData);
    match LoginOf(marked, uid, portal)
    case LoggedIn(storage) =>
      var saved := Database.WithSession(marked, uid, storage);
      assert Scrape(db, uid, name, portal, now).db == Database.WithLastUpdated(saved, uid, now);
    case _ =>
  }

  // ---------------------------------------------------------------------------
  // Properties of a refresh.

  /** Only a scrape that succeeds for a known name is reported as a success, with its message and time. */
  lemma RefreshSuccessMeans(db: Database.Db, uid: Database.Uid, name: string, portal: Portal, now: string)
    ensures var r := Refresh(db, uid, name, portal, now);
            r.outcome.RefreshSuccess? ==>
              && Scrape(db, uid, name, portal, now).result.Success?
              && Extractors(name).Some?
              && r.outcome == RefreshSuccess(name + " data refreshed successfully", now)
              && (uid in r.db.sessions ==> Database.LastUpdatedOf(r.db, uid) == Some(now))
  {
  }

  /** A name with no branch gets through the login and then raises the TypeError of subscripting None. */
  lemma UnknownNameRaises(db: Database.Db, uid: Database.Uid, name: string, portal: Portal, now: string)
    requires Extractors(name).None?
    ensures !Refresh(db, uid, name, portal, now).outcome.RefreshSuccess?
    ensures var login := LoginOf(Database.WithLastUpdated(db, uid, Database.RefreshingData), uid, portal);
            login.Reused? || login.LoggedIn? ==> Refresh(db, uid, name, portal, now).outcome == Raised(NoneNotSubscriptable)
  {
  }

  /**
   * A refresh whose scrape fails, raises or hangs stores no scraped record:
   * it changes at most the user's session document.
   */
  lemma FailedRefreshStoresNothing(db: Database.Db, uid: Database.Uid, name: string, portal: Portal, now: string)
    requires !Scrape(db, uid, name, portal, now).result.Success?
    ensures !Refresh(db, uid, name, portal, now).outcome.RefreshSuccess?
    ensures Refresh(db, uid, name, portal, now).db.(sessions := db.sessions) == db
  {
    ScrapeWritesOnlySession(db, uid, name, portal, now);
  }

  /** A refresh never touches the users collection, so it never changes the goal. */
  lemma RefreshKeepsGoal(db: Database.Db, uid: Database.Uid, name: string, portal: Portal, now: string, v: Database.Uid)
    ensures Database.GoalOf(Refresh(db, uid, name, portal, now).db, v) == Database.GoalOf(db, v)
  {
    ScrapeWritesOnlySession(db, uid, name, portal, now);
  }

  /** The store after a refresh: the scrape's, then the branch's writes, stamped when they end. */
  lemma RefreshDb(db: Database.Db, uid: Database.Uid, name: string, portal: Portal, now: string)
    ensures var run := Scrape(db, uid, name, portal, now);
            Refresh(db, uid, name, portal, now).db ==
              if run.result.Success? then
                var stop := Persist(run.db, uid, PersistOrder(name), run.result.data.fields);
                if stop.finished then Database.WithLastUpdated(stop.db, uid, now) else stop.db
              else run.db
  {
  }

  /** A successful refresh is the scrape, then the branch's writes, then the time stamp. */
  lemma RefreshSuccessSteps(db: Database.Db, uid: Database.Uid, name: string, portal: Portal, now: string)
    requires Refresh(db, uid, name, portal, now).outcome.RefreshSuccess?
    ensures var run := Scrape(db, uid, name, portal, now);
            && run.result.Success? && run.db.(sessions := db.sessions) == db
            && var stop := Persist(run.db, uid, PersistOrder(name), run.result.data.fields);
               stop.finished && Refresh(db, uid, name, portal, now).db == Database.WithLastUpdated(stop.db, uid, now)
  {
    ScrapeWritesOnlySession(db, uid, name, portal, now);
  }

  /** What writing one JSON document leaves alone. */
  lemma DocumentWriteFrame(db: Database.Db, uid: Database.Uid, c: Database.Collection, fields: map<Domain, Value>)
    ensures var s := PersistOne(db, uid, Document(c), fields);
            && s.finished && s.db.attendance == db.attendance && s.db.timetable == db.timetable
            && forall d, v :: (d, v) != (c, uid) ==> Database.DocumentOf(s.db, d, v) == Database.DocumentOf(db, d, v)
  {
  }

  /**
   * Refreshing a single collection ("marks", "fees", ...) writes that
   * collection's document for the user and nothing else besides the session.
   */
  lemma RefreshSingleWritesOneDocument(db: Database.Db, uid: Database.Uid, name: string, portal: Portal, now: string)
    requires Single(name).Some?
    ensures var after := Refresh(db, uid, name, portal, now).db;
            && after.users == db.users && after.newUsers == db.newUsers
            && after.attendance == db.attendance && after.timetable == db.timetable
            && forall c, v :: (c, v) != (Single(name).value, uid) ==> Database.DocumentOf(after, c, v) == Database.DocumentOf(db, c, v)
  {
    ScrapeWritesOnlySession(db, uid, name, portal, now);
    RefreshDb(db, uid, name, portal, now);
    var run := Scrape(db, uid, name, portal, now);
    assert run.db.attendance == db.attendance && run.db.timetable == db.timetable && run.db.documents == db.documents;
    if run.result.Success? {
      assert PersistOrder(name) == [Document(Single(name).value)];
      SingleWriteFrame(run.db, uid, Single(name).value, run.result.data.fields, now);
    }
  }

  /** Writing one JSON document and stamping the time leave everything else alone. */
  lemma SingleWriteFrame(db: Database.Db, uid: Database.Uid, c: Database.Collection, fields: map<Domain, Value>, now: string)
    ensures var stop := Persist(db, uid, [Document(c)], fields);
            var after := Database.WithLastUpdated(stop.db, uid, now);
            && stop.finished
            && after.users == db.users && after.newUsers == db.newUsers
            && after.attendance == db.attendance && after.timetable == db.timetable
            && forall d, v :: (d, v) != (c, uid) ==> Database.DocumentOf(after, d, v) == Database.DocumentOf(db, d, v)
  {
    var s := PersistOne(db, uid, Document(c), fields);
    DocumentWriteFrame(db, uid, c, fields);
    assert Persist(db, uid, [Document(c)], fields) == Persist(s.db, uid, [], fields);
    StampKeepsRecords(s.db, uid, now);
  }

  /** A branch that starts with attendance rows and gets through stores their transformed list. */
  lemma PersistStoresAttendance(db: Database.Db, uid: Database.Uid, ds: seq<Domain>, fields: map<Domain, Value>)
    requires ds != [] && ds[0] == AttendanceData && AttendanceData !in ds[1..]
    requires Persist(db, uid, ds, fields).finished
    requires AttendanceData in fields && fields[AttendanceData].Rows? && fields[AttendanceData].rows != []
    ensures Attendance.AllSearchesEnd(fields[AttendanceData].rows, Database.GoalOf(db, uid))
    ensures Database.AttendanceOf(Persist(db, uid, ds, fields).db, uid) ==
              Some(Attendance.ProjectAll(fields[AttendanceData].rows, Database.GoalOf(db, uid)))
  {
    var first := PersistOne(db, uid, AttendanceData, fields);
    assert Persist(db, uid, ds, fields) == Persist(first.db, uid, ds[1..], fields);
    PersistKeepsAttendance(first.db, uid, ds[1..], fields);
  }

  /**
   * After a successful "initial" or "all" refresh with attendance rows, the
   * stored attendance is the transformed list for the stored goal.
   */
  lemma RefreshStoresTransformedAttendance(db: Database.Db, uid: Database.Uid, name: string, portal: Portal, now: string)
    requires name == "initial" || name == "all"
    requires Refresh(db, uid, name, portal, now).outcome.RefreshSuccess?
    ensures var fields := Scrape(db, uid, name, portal, now).result.data.fields;
            var after := Refresh(db, uid, name, portal, now).db;
            AttendanceData in fields && Truthy(fields[AttendanceData]) ==>
              && fields[AttendanceData].Rows?
              && Attendance.AllSearchesEnd(fields[AttendanceData].rows, Database.GoalOf(db, uid))
              && Database.AttendanceOf(after, uid) == Some(Attendance.ProjectAll(fields[AttendanceData].rows, Database.GoalOf(db, uid)))
  {
    RefreshSuccessSteps(db, uid, name, portal, now);
    var run := Scrape(db, uid, name, portal, now);
    StoresTransformedAfter(db, run, uid, name, portal.pages, now);
  }

  lemma StoresTransformedAfter(db: Database.Db, run: Run, uid: Database.Uid, name: string, pages: Pages, now: string)
    requires name == "initial" || name == "all"
    requires run.result.Success? && run.db.(sessions := db.sessions) == db
    requires Extractors(name).Some? && Gather(pages, Extractors(name).value) == Fields(run.result.data.fields)
    requires Persist(run.db, uid, PersistOrder(name), run.result.data.fields).finished
    ensures var fields := run.result.data.fields;
            AttendanceData in fields && Truthy(fields[AttendanceData]) ==>
              && fields[AttendanceData].Rows?
              && Attendance.AllSearchesEnd(fields[AttendanceData].rows, Database.GoalOf(db, uid))
              && Database.AttendanceOf(Database.WithLastUpdated(Persist(run.db, uid, PersistOrder(name), fields).db, uid, now), uid)
                 == Some(Attendance.ProjectAll(fields[AttendanceData].rows, Database.GoalOf(db, uid)))
  {
    var fields := run.result.data.fields;
    if AttendanceData in fields && Truthy(fields[AttendanceData]) {
      GatheredValueKinds(pages, Extractors(name).value, fields);
      assert run.db.users == db.users;
      StampedAttendance(run.db, uid, name, fields, now);
    }
  }

  /** "initial" and "all" write attendance first and only once. */
  lemma PersistOrderAttendanceFirst(name: string)
    requires name == "initial" || name == "all"
    ensures PersistOrder(name) != [] && PersistOrder(name)[0] == AttendanceData
    ensures AttendanceData !in PersistOrder(name)[1..]
  {
    var order := PersistOrder(name);
    if name == "initial" {
      assert order[1..] == [Document(Database.Courses), TimetableData];
    } else {
      assert order[1..] == AllDomains[1..];
    }
  }

  lemma StampedAttendanceOf(db: Database.Db, uid: Database.Uid, ds: seq<Domain>, fields: map<Domain, Value>, now: string)
    requires ds != [] && ds[0] == AttendanceData && AttendanceData !in ds[1..]
    requires Persist(db, uid, ds, fields).finished
    requires AttendanceData in fields && fields[AttendanceData].Rows? && fields[AttendanceData].rows != []
    ensures Attendance.AllSearchesEnd(fields[AttendanceData].rows, Database.GoalOf(db, uid))
    ensures Database.AttendanceOf(Database.WithLastUpdated(Persist(db, uid, ds, fields).db, uid, now), uid) ==
              Some(Attendance.ProjectAll(fields[AttendanceData].rows, Database.GoalOf(db, uid)))
  {
    PersistStoresAttendance(db, uid, ds, fields);
    StampKeepsRecords(Persist(db, uid, ds, fields).db, uid, now);
  }

  lemma StampedAttendance(db: Database.Db, uid: Database.Uid, name: string, fields: map<Domain, Value>, now: string)
    requires name == "initial" || name == "all"
    requires Persist(db, uid, PersistOrder(name), fields).finished
    requires AttendanceData in fields && fields[AttendanceData].Rows? && fields[AttendanceData].rows != []
    ensures Attendance.AllSearchesEnd(fields[AttendanceData].rows, Database.GoalOf(db, uid))
    ensures Database.AttendanceOf(Database.WithLastUpdated(Persist(db, uid, PersistOrder(name), fields).db, uid, now), uid) ==
              Some(Attendance.ProjectAll(fields[AttendanceData].rows, Database.GoalOf(db, uid)))
  {
    PersistOrderAttendanceFirst(name);
    StampedAttendanceOf(db, uid, PersistOrder(name), fields, now);
  }

  /**
   * Each gathered value has its scraper's kind: the attendance rows, the
   * parsed week or the JSON document, or the `False` of a scraper that
   * caught its own error.
   */
  lemma GatheredValueKinds(pages: Pages, ds: seq<Domain>, fields: map<Domain, Value>)
    requires Gather(pages, ds) == Fields(fields)
    ensures AttendanceData in fields ==> fields[AttendanceData].Rows? || fields[AttendanceData] == Falsy
    ensures TimetableData in fields ==> fields[TimetableData].Week? || fields[TimetableData] == Falsy
    ensures forall c :: Document(c) in fields ==> fields[Document(c)].Doc?
  {
    GatherFields(pages, ds);
  }

  /** The writes after the first one leave the stored attendance alone. */
  lemma {:induction false} PersistKeepsAttendance(db: Database.Db, uid: Database.Uid, ds: seq<Domain>, fields: map<Domain, Value>)
    requires AttendanceData !in ds
    ensures Persist(db, uid, ds, fields).db.attendance == db.attendance
    decreases |ds|
  {
    if ds != [] {
      var s := PersistOne(db, uid, ds[0], fields);
      if s.finished {
        PersistKeepsAttendance(s.db, uid, ds[1..], fields);
      }
    }
  }

  /**
   * A refresh hangs only where the source loops forever: the login attempts
   * never end the loop, or a course's search for the stored goal has no
   * stopping point.
   */
  lemma RefreshHangsOnlyInLoops(db: Database.Db, uid: Database.Uid, name: string, portal: Portal, now: string)
    requires Refresh(db, uid, name, portal, now).outcome == Hangs
    ensures || Scrape(db, uid, name, portal, now).result.Unfinished?
            || (var fields := Scrape(db, uid, name, portal, now).result.data.fields;
                && AttendanceData in fields && fields[AttendanceData].Rows?
                && !Attendance.AllSearchesEnd(fields[AttendanceData].rows, Database.GoalOf(db, uid)))
  {
    ScrapeWritesOnlySession(db, uid, name, portal, now);
    var run := Scrape(db, uid, name, portal, now);
    if run.result.Success? {
      var fields := run.result.data.fields;
      PersistStopsAtAttendance(run.db, uid, PersistOrder(name), fields);
    }
  }

  /** A branch's writes stop only at an attendance list whose searches do not all end. */
  lemma {:induction false} PersistStopsAtAttendance(db: Database.Db, uid: Database.Uid, ds: seq<Domain>, fields: map<Domain, Value>)
    requires !Persist(db, uid, ds, fields).finished
    ensures AttendanceData in fields && fields[AttendanceData].Rows?
    ensures !Attendance.AllSearchesEnd(fields[AttendanceData].rows, Database.GoalOf(db, uid))
    decreases |ds|
  {
    var s := PersistOne(db, uid, ds[0], fields);
    if s.finished {
      PersistStopsAtAttendance(s.db, uid, ds[1..], fields);
    }
  }

  /** The writes of a branch without the timetable leave the stored timetables alone. */
  lemma {:induction false} PersistKeepsTimetable(db: Database.Db, uid: Database.Uid, ds: seq<Domain>, fields: map<Domain, Value>)
    requires TimetableData !in ds
    ensures Persist(db, uid, ds, fields).db.timetable == db.timetable
    decreases |ds|
  {
    if ds != [] {
      var s := PersistOne(db, uid, ds[0], fields);
      if s.finished {
        PersistKeepsTimetable(s.db, uid, ds[1..], fields);
      }
    }
  }

  /** One write for another domain leaves every document of `c` alone. */
  lemma PersistOneKeepsDocument(db: Database.Db, uid: Database.Uid, d: Domain, fields: map<Domain, Value>, c: Database.Collection)
    requires d != Document(c)
    ensures forall v :: Database.DocumentOf(PersistOne(db, uid, d, fields).db, c, v) == Database.DocumentOf(db, c, v)
  {
    if d in fields && Truthy(fields[d]) {
      match (d, fields[d])
      case (AttendanceData, Rows(rows)) =>
        var goal := Database.GoalOf(db, uid);
        if Attendance.AllSearchesEnd(rows, goal) {
          assert Database.WithAttendance(db, uid, Attendance.ProjectAll(rows, goal)).documents == db.documents;
        }
      case (TimetableData, Week(days)) =>
        assert Database.WithTimetable(db, uid, days).documents == db.documents;
      case _ =>
    }
  }

  /** The writes of a branch without collection `c` leave every document of `c` alone. */
  lemma {:induction false} PersistKeepsDocument(db: Database.Db, uid: Database.Uid, ds: seq<Domain>, fields: map<Domain, Value>, c: Database.Collection)
    requires Document(c) !in ds
    ensures forall v :: Database.DocumentOf(Persist(db, uid, ds, fields).db, c, v) == Database.DocumentOf(db, c, v)
    decreases |ds|
  {
    if ds != [] {
      var s := PersistOne(db, uid, ds[0], fields);
      assert ds[0] in ds;
      PersistOneKeepsDocument(db, uid, ds[0], fields, c);
      if s.finished {
        PersistKeepsDocument(s.db, uid, ds[1..], fields, c);
      }
    }
  }

  /** A branch that gets through has stored every truthy week and document it was given. */
  lemma {:induction false} PersistStoresScraped(db: Database.Db, uid: Database.Uid, ds: seq<Domain>, fields: map<Domain, Value>)
    requires Distinct(ds)
    requires Persist(db, uid, ds, fields).finished
    ensures StoresScraped(Persist(db, uid, ds, fields).db, uid, ds, fields)
    decreases |ds|
  {
    if ds != [] {
      var d, rest := ds[0], ds[1..];
      var s := PersistOne(db, uid, d, fields);
      var after := Persist(s.db, uid, rest, fields);
      assert Persist(db, uid, ds, fields) == after;
      assert d !in rest by {
        forall j | 0 <= j < |rest|
          ensures rest[j] != d
        {
          assert rest[j] == ds[j + 1];
        }
      }
      assert Distinct(rest) by {
        forall i, j | 0 <= i < j < |rest|
          ensures rest[i] != rest[j]
        {
          assert rest[i] == ds[i + 1] && rest[j] == ds[j + 1];
        }
      }
      PersistStoresScraped(s.db, uid, rest, fields);
      if d == TimetableData {
        PersistKeepsTimetable(s.db, uid, rest, fields);
      } else if d.Document? {
        PersistKeepsDocument(s.db, uid, rest, fields, d.collection);
      }
      forall c | Document(c) in ds && Document(c) in fields && fields[Document(c)].Doc? && Database.Truthy(fields[Document(c)].json)
        ensures Database.DocumentOf(after.db, c, uid) == Some(fields[Document(c)].json)
      {
        if Document(c) != d {
          assert Document(c) in rest;
        }
      }
      if TimetableData in ds && TimetableData != d {
        assert TimetableData in rest;
      }
    }
  }

  /** The branches of `refresh_user_data` write each domain at most once. */
  lemma PersistOrderDistinct(name: string)
    ensures Distinct(PersistOrder(name))
  {
    var ds := PersistOrder(name);
    if name == "all" {
      forall i, j | 0 <= i < j < |ds|
        ensures ds[i] != ds[j]
      {
        assert ds == AllDomains;
      }
    }
  }

  /** Stamping `last_updated` touches only the session document. */
  lemma StampKeepsRecords(db: Database.Db, uid: Database.Uid, now: string)
    ensures var r := Database.WithLastUpdated(db, uid, now);
            && r.attendance == db.attendance && r.timetable == db.timetable && r.documents == db.documents
            && r.users == db.users && r.newUsers == db.newUsers
  {
    var r := Database.WithLastUpdated(db, uid, now);
    assert r.(sessions := db.sessions) == db;
  }

  lemma StampedScraped(db: Database.Db, uid: Database.Uid, ds: seq<Domain>, fields: map<Domain, Value>, now: string)
    requires Distinct(ds)
    requires Persist(db, uid, ds, fields).finished
    ensures StoresScraped(Database.WithLastUpdated(Persist(db, uid, ds, fields).db, uid, now), uid, ds, fields)
  {
    var stop := Persist(db, uid, ds, fields);
    PersistStoresScraped(db, uid, ds, fields);
    StampKeepsRecords(stop.db, uid, now);
    assert Database.StoredTimetable(Database.WithLastUpdated(stop.db, uid, now), uid) == Database.StoredTimetable(stop.db, uid);
  }

  /**
   * After a successful refresh every truthy week and JSON document the
   * name's branch scraped is in the store under the user: "marks" stores
   * the marks, "all" every collection, "initial" the courses and the
   * timetable.
   */
  lemma RefreshStoresScraped(db: Database.Db, uid: Database.Uid, name: string, portal: Portal, now: string)
    requires Refresh(db, uid, name, portal, now).outcome.RefreshSuccess?
    ensures var fields := Scrape(db, uid, name, portal, now).result.data.fields;
            && (TimetableData in fields && Truthy(fields[TimetableData]) ==> fields[TimetableData].Week?)
            && (forall c :: Document(c) in fields ==> fields[Document(c)].Doc?)
            && StoresScraped(Refresh(db, uid, name, portal, now).db, uid, PersistOrder(name), fields)
  {
    RefreshSuccessSteps(db, uid, name, portal, now);
    var run := Scrape(db, uid, name, portal, now);
    GatheredValueKinds(portal.pages, Extractors(name).value, run.result.data.fields);
    PersistOrderDistinct(name);
    StampedScraped(run.db, uid, PersistOrder(name), run.result.data.fields, now);
  }

  /** A successful refresh of one collection stores the scraped document when it is truthy. */
  lemma RefreshSingleStoresDocument(db: Database.Db, uid: Database.Uid, name: string, portal: Portal, now: string)
    requires Single(name).Some?
    requires Refresh(db, uid, name, portal, now).outcome.RefreshSuccess?
    ensures var fields := Scrape(db, uid, name, portal, now).result.data.fields;
            var d := Document(Single(name).value);
            && d in fields && fields[d].Doc?
            && (Database.Truthy(fields[d].json) ==>
                  Database.DocumentOf(Refresh(db, uid, name, portal, now).db, Single(name).value, uid) == Some(fields[d].json))
  {
    RefreshStoresScraped(db, uid, name, portal, now);
    var run := Scrape(db, uid, name, portal, now);
    GatherFields(portal.pages, Extractors(name).value);
    assert Document(Single(name).value) in Extractors(name).value;
    assert PersistOrder(name) == [Document(Single(name).value)];
  }

  /** A refresh never touches a collection its name's branch does not write. */
  lemma RefreshKeepsUnlistedDocument(db: Database.Db, uid: Database.Uid, name: string, portal: Portal, now: string, c: Database.Collection)
    requires Document(c) !in PersistOrder(name)
    ensures forall v :: Database.DocumentOf(Refresh(db, uid, name, portal, now).db, c, v) == Database.DocumentOf(db, c, v)
  {
    ScrapeWritesOnlySession(db, uid, name, portal, now);
    RefreshDb(db, uid, name, portal, now);
    var run := Scrape(db, uid, name, portal, now);
    assert run.db.documents == db.documents;
    if run.result.Success? {
      StampedKeepsDocument(run.db, uid, PersistOrder(name), run.result.data.fields, now, c);
    }
  }

  lemma StampedKeepsDocument(db: Database.Db, uid: Database.Uid, ds: seq<Domain>, fields: map<Domain, Value>, now: string, c: Database.Collection)
    requires Document(c) !in ds
    ensures var stop := Persist(db, uid, ds, fields);
            forall v ::
              && Database.DocumentOf(stop.db, c, v) == Database.DocumentOf(db, c, v)
              && Database.DocumentOf(Database.WithLastUpdated(stop.db, uid, now), c, v) == Database.DocumentOf(db, c, v)
  {
    PersistKeepsDocument(db, uid, ds, fields, c);
    StampKeepsRecords(Persist(db, uid, ds, fields).db, uid, now);
  }

  /** An "initial" refresh never touches marks, profile, result, leaves, date sheet or fees. */
  lemma RefreshInitialKeepsDocuments(db: Database.Db, uid: Database.Uid, portal: Portal, now: string)
    ensures forall c, v :: c != Database.Courses ==>
              Database.DocumentOf(Refresh(db, uid, "initial", portal, now).db, c, v) == Database.DocumentOf(db, c, v)
  {
    forall c, v | c != Database.Courses
      ensures Database.DocumentOf(Refresh(db, uid, "initial", portal, now).db, c, v) == Database.DocumentOf(db, c, v)
    {
      assert Document(c) !in PersistOrder("initial");
      RefreshKeepsUnlistedDocument(db, uid, "initial", portal, now, c);
    }
  }

  /**
   * `after` differs from `before` at most in the records and the session of
   * `uid`; users and new users are the same.
   */
  ghost predicate TouchesOnly(before: Database.Db, after: Database.Db, uid: Database.Uid) {
    && after.users == before.users && after.newUsers == before.newUsers
    && forall v :: v != uid ==>
         && Database.SessionOf(after, v) == Database.SessionOf(before, v)
         && Database.LastUpdatedOf(after, v) == Database.LastUpdatedOf(before, v)
         && Database.AttendanceOf(after, v) == Database.AttendanceOf(before, v)
         && Database.StoredTimetable(after, v) == Database.StoredTimetable(before, v)
         && forall c :: Database.DocumentOf(after, c, v) == Database.DocumentOf(before, c, v)
  }

  lemma ScrapeTouchesOnly(db: Database.Db, uid: Database.Uid, name: string, portal: Portal, now: string)
    ensures TouchesOnly(db, Scrape(db, uid, name, portal, now).db, uid)
  {
    ScrapeWritesOnlySession(db, uid, name, portal, now);
    var after := Scrape(db, uid, name, portal, now).db;
    assert after.(sessions := db.sessions) == db;
    assert after.attendance == db.attendance && after.timetable == db.timetable && after.documents == db.documents;
  }

  lemma TouchesOnlyChain(a: Database.Db, b: Database.Db, c: Database.Db, uid: Database.Uid)
    requires TouchesOnly(a, b, uid) && TouchesOnly(b, c, uid)
    ensures TouchesOnly(a, c, uid)
  {
  }

  /** Writes that leave the sessions alone touch only the user's records. */
  lemma RecordsTouchOnly(before: Database.Db, after: Database.Db, uid: Database.Uid)
    requires WritesOnlyRecordsOf(before, after, uid)
    ensures TouchesOnly(before, after, uid)
  {
  }

  /** Stamping `last_updated` touches only the user's session document. */
  lemma StampTouchesOnly(db: Database.Db, uid: Database.Uid, now: string)
    ensures TouchesOnly(db, Database.WithLastUpdated(db, uid, now), uid)
  {
    var after := Database.WithLastUpdated(db, uid, now);
    StampKeepsRecords(db, uid, now);
    forall v, c
      ensures Database.DocumentOf(after, c, v) == Database.DocumentOf(db, c, v)
    {
    }
  }

  lemma PersistTouchesOnly(db: Database.Db, uid: Database.Uid, ds: seq<Domain>, fields: map<Domain, Value>, now: string)
    ensures TouchesOnly(db, Database.WithLastUpdated(Persist(db, uid, ds, fields).db, uid, now), uid)
    ensures TouchesOnly(db, Persist(db, uid, ds, fields).db, uid)
  {
    var stop := Persist(db, uid, ds, fields);
    RecordsTouchOnly(db, stop.db, uid);
    StampTouchesOnly(stop.db, uid, now);
    TouchesOnlyChain(db, stop.db, Database.WithLastUpdated(stop.db, uid, now), uid);
  }

  /**
   * A refresh for one user never changes another user's records or session,
   * nor the users and new users collections.
   */
  lemma RefreshWritesOnlyOwnRecords(db: Database.Db, uid: Database.Uid, name: string, portal: Portal, now: string)
    ensures TouchesOnly(db, Refresh(db, uid, name, portal, now).db, uid)
  {
    var run := Scrape(db, uid, name, portal, now);
    ScrapeTouchesOnly(db, uid, name, portal, now);
    if run.result.Success? {
      var fields := run.result.data.fields;
      PersistTouchesOnly(run.db, uid, PersistOrder(name), fields, now);
      var stop := Persist(run.db, uid, PersistOrder(name), fields);
      var stamped := Database.WithLastUpdated(stop.db, uid, now);
      TouchesOnlyChain(db, run.db, stop.db, uid);
      TouchesOnlyChain(db, run.db, stamped, uid);
      assert Refresh(db, uid, name, portal, now).db == if stop.finished then stamped else stop.db;
    } else {
      assert Refresh(db, uid, name, portal, now).db == run.db;
    }
  }

  // ---------------------------------------------------------------------------
  // The login loop's error path.

  /**
   * Without a reusable saved session, a login attempt that raises (navigation
   * or the OCR request) ends the scrape in the `except`: the error dictionary
   * with its message and the time.
   */
  lemma LoginAbortFails(db: Database.Db, uid: Database.Uid, name: string, portal: Portal, now: string, k: nat, msg: string)
    requires !HasSavedState(db, uid) || (portal.check.Landed? && portal.check.url != HomeUrl)
    requires FirstExit(portal.attempts, 0) == FoundAt(k, Abort(msg))
    ensures Scrape(db, uid, name, portal, now).result == Failure(msg, now)
  {
    var marked := Database.WithLastUpdated(db, uid, Database.RefreshingData);
    assert HasSavedState(marked, uid) == HasSavedState(db, uid);
  }

  /**
   * A scrape succeeds only after logging in: the saved session landed on the
   * home page, or the first attempt that ended the loop was a successful login.
   */
  lemma ScrapeSuccessNeedsLogin(db: Database.Db, uid: Database.Uid, name: string, portal: Portal, now: string)
    ensures Scrape(db, uid, name, portal, now).result.Success? <==>
              LogsIn(db, uid, portal) && Extractors(name).Some? && Gather(portal.pages, Extractors(name).value).Fields?
  {
    var marked := Database.WithLastUpdated(db, uid, Database.RefreshingData);
    assert HasSavedState(marked, uid) == HasSavedState(db, uid);
    if LogsIn(db, uid, portal) && Extractors(name).Some? && Gather(portal.pages, Extractors(name).value).Fields? {
      LoggedInScrapeSucceeds(db, uid, name, portal, now, Gather(portal.pages, Extractors(name).value).fields);
    }
  }

  /**
   * A refresh succeeds exactly when the browser logs in, the name has a
   * branch whose scrapers all return, and the writes of lines 733-777 end.
   */
  lemma RefreshSucceedsExactly(db: Database.Db, uid: Database.Uid, name: string, portal: Portal, now: string)
    ensures Refresh(db, uid, name, portal, now).outcome.RefreshSuccess? <==>
              && LogsIn(db, uid, portal) && Extractors(name).Some?
              && Gather(portal.pages, Extractors(name).value).Fields?
              && Persist(Scrape(db, uid, name, portal, now).db, uid, PersistOrder(name),
                         Gather(portal.pages, Extractors(name).value).fields).finished
  {
    ScrapeSuccessNeedsLogin(db, uid, name, portal, now);
  }
}
