/**
 * The MongoDB store of database.py.  Every collection is a map from user id
 * to the one document `{uid: ...}` each function filters on; the module-level
 * `db` handle becomes a `Store` object whose methods update those maps.
 *
 * `Db` is the store's value, and the `With...` / `...Of` functions are the
 * specification of each write and read: each write says what the following
 * reads return and that every other document is left alone.
 */
module Database {
  import opened Wrappers
  import Attendance
  import Timetable

  type Uid = string

  /**
   * The `storage_state` of a browser context.  It is kept as text; an empty
   * one stands for a falsy value.
   */
  type Token = string

  /** The value of a scraped document, as BSON holds it. */
  datatype Json =
    | JNull
    | JBool(b: bool)
    | JNum(n: int)
    | JStr(s: string)
    | JArray(items: seq<Json>)
    | JObject(fields: map<string, Json>)

  /** Python's truth value of the decoded document (`if data.get(...)`). */
  predicate Truthy(j: Json) {
    match j
    case JNull => false
    case JBool(b) => b
    case JNum(n) => n != 0
    case JStr(s) => s != ""
    case JArray(items) => items != []
    case JObject(fields) => fields != map[]
  }

  /** A document of `users`; a field that was never set is None. */
  datatype UserDoc = UserDoc(
    hashedPassword: Option<string>,
    createdAt: Option<string>,
    isActive: Option<bool>,
    goal: Option<int>)

  /** A document of `sessions`: a saved browser state and the `last_updated` text. */
  datatype SessionDoc = SessionDoc(storage: Token, lastUpdated: Option<string>)

  /** The collections that hold one scraped JSON document per user. */
  datatype Collection = Courses | Marks | Profile | Result | Leaves | Datesheet | Fees

  const DefaultGoal: int := 75

  /** The `last_updated` text while a scrape is in progress. */
  const RefreshingData: string := "Refreshing Data"

  datatype Db = Db(
    users: map<Uid, UserDoc>,
    newUsers: set<Uid>,
    sessions: map<Uid, SessionDoc>,
    attendance: map<Uid, seq<Attendance.Projection>>,
    timetable: map<Uid, seq<seq<Timetable.Period>>>,
    documents: map<Collection, map<Uid, Json>>)

  // ---------------------------------------------------------------------------
  // Reads.

  /** `load_session`: the stored storage state, or None when there is no session document. */
  function SessionOf(db: Db, uid: Uid): (r: Option<Token>)
    ensures r.Some? <==> uid in db.sessions
    ensures r.Some? ==> r.value == db.sessions[uid].storage
  {
    if uid in db.sessions then Some(db.sessions[uid].storage) else None
  }

  /** `get_last_updated`: None where the source raises (no document, or no field). */
  function LastUpdatedOf(db: Db, uid: Uid): (r: Option<string>)
    ensures r.Some? ==> uid in db.sessions
    ensures uid in db.sessions ==> r == db.sessions[uid].lastUpdated
  {
    if uid in db.sessions then db.sessions[uid].lastUpdated else None
  }

  /** `get_attendance_goal`: the user's goal, or 75 when the user or the field is missing. */
  function GoalOf(db: Db, uid: Uid): (g: int)
    ensures uid in db.users && db.users[uid].goal.Some? ==> g == db.users[uid].goal.value
    ensures (uid !in db.users || db.users[uid].goal.None?) ==> g == DefaultGoal
  {
    if uid in db.users && db.users[uid].goal.Some? then db.users[uid].goal.value else DefaultGoal
  }

  /** `get_attendance`: the stored list, None where the source raises. */
  function AttendanceOf(db: Db, uid: Uid): Option<seq<Attendance.Projection>> {
    if uid in db.attendance then Some(db.attendance[uid]) else None
  }

  /** `get_timetable`: the stored week, None where the source raises. */
  function StoredTimetable(db: Db, uid: Uid): Option<seq<seq<Timetable.Period>>> {
    if uid in db.timetable then Some(db.timetable[uid]) else None
  }

  /** `get_courses`, `get_marks`, ...: the stored document, None where the source raises. */
  function DocumentOf(db: Db, c: Collection, uid: Uid): Option<Json> {
    if c in db.documents && uid in db.documents[c] then Some(db.documents[c][uid]) else None
  }

  // ---------------------------------------------------------------------------
  // Writes.

  /** `save_session`: an upsert that sets `storage` and keeps `last_updated`. */
  function WithSession(db: Db, uid: Uid, storage: Token): (r: Db)
    ensures SessionOf(r, uid) == Some(storage)
    ensures LastUpdatedOf(r, uid) == LastUpdatedOf(db, uid)
    ensures forall v :: v != uid ==> (v in r.sessions <==> v in db.sessions)
    ensures forall v :: v != uid && v in db.sessions ==> r.sessions[v] == db.sessions[v]
    ensures r.(sessions := db.sessions) == db
  {
    var last := if uid in db.sessions then db.sessions[uid].lastUpdated else None;
    db.(sessions := db.sessions[uid := SessionDoc(storage, last)])
  }

  /**
   * `update_last_updated`: sets the field of an existing session document.
   * There is no upsert, so without a session document nothing changes.
   */
  function WithLastUpdated(db: Db, uid: Uid, msg: string): (r: Db)
    ensures uid in db.sessions ==> LastUpdatedOf(r, uid) == Some(msg)
    ensures uid !in db.sessions ==> r == db
    ensures forall v :: SessionOf(r, v) == SessionOf(db, v)
    ensures forall v :: v != uid ==> LastUpdatedOf(r, v) == LastUpdatedOf(db, v)
    ensures r.(sessions := db.sessions) == db
  {
    if uid in db.sessions then
      db.(sessions := db.sessions[uid := db.sessions[uid].(lastUpdated := Some(msg))])
    else db
  }

  /** `update_attendance`: an upsert of the transformed list. */
  function WithAttendance(db: Db, uid: Uid, records: seq<Attendance.Projection>): (r: Db)
    ensures AttendanceOf(r, uid) == Some(records)
    ensures forall v :: v != uid ==> AttendanceOf(r, v) == AttendanceOf(db, v)
    ensures r.(attendance := db.attendance) == db
  {
    db.(attendance := db.attendance[uid := records])
  }

  /** `update_timetable`: an upsert of the seven day lists. */
  function WithTimetable(db: Db, uid: Uid, week: seq<seq<Timetable.Period>>): (r: Db)
    ensures StoredTimetable(r, uid) == Some(week)
    ensures forall v :: v != uid ==> StoredTimetable(r, v) == StoredTimetable(db, v)
    ensures r.(timetable := db.timetable) == db
  {
    db.(timetable := db.timetable[uid := week])
  }

  /** `update_courses`, `update_marks`, ...: an upsert into one collection. */
  function WithDocument(db: Db, c: Collection, uid: Uid, data: Json): (r: Db)
    ensures DocumentOf(r, c, uid) == Some(data)
    ensures forall d, v :: (d, v) != (c, uid) ==> DocumentOf(r, d, v) == DocumentOf(db, d, v)
    ensures r.(documents := db.documents) == db
  {
    var docs := if c in db.documents then db.documents[c] else map[];
    db.(documents := db.documents[c := docs[uid := data]])
  }

  /** `set_goal_value`: an upsert of `goal`; the other user fields stay as they are. */
  function WithGoal(db: Db, uid: Uid, goal: int): (r: Db)
    ensures GoalOf(r, uid) == goal
    ensures uid in r.users
    ensures uid in db.users ==> r.users[uid] == db.users[uid].(goal := Some(goal))
    ensures uid !in db.users ==> r.users[uid] == UserDoc(None, None, None, Some(goal))
    ensures forall v :: v != uid ==> GoalOf(r, v) == GoalOf(db, v)
    ensures forall v :: v != uid ==> (v in r.users <==> v in db.users)
    ensures r.(users := db.users) == db
  {
    var doc := if uid in db.users then db.users[uid] else UserDoc(None, None, None, None);
    db.(users := db.users[uid := doc.(goal := Some(goal))])
  }

  /**
   * `create_user_document`: a `$setOnInsert` upsert, so an existing user is
   * left untouched and a new one gets the hash, the creation time, active
   * and the goal 75.
   */
  function WithUserDocument(db: Db, uid: Uid, hashedPassword: string, now: string): (r: Db)
    ensures uid in r.users
    ensures uid in db.users ==> r == db
    ensures uid !in db.users ==>
              && r.users[uid] == UserDoc(Some(hashedPassword), Some(now), Some(true), Some(DefaultGoal))
              && GoalOf(r, uid) == DefaultGoal
    ensures forall v :: v != uid ==> (v in r.users <==> v in db.users)
    ensures forall v :: v != uid && v in db.users ==> r.users[v] == db.users[v]
    ensures r.(users := db.users) == db
  {
    if uid in db.users then db
    else db.(users := db.users[uid := UserDoc(Some(hashedPassword), Some(now), Some(true), Some(DefaultGoal))])
  }

  /** `insert_new_user`: a `$setOnInsert` upsert into `new_user`. */
  function WithNewUser(db: Db, uid: Uid): (r: Db)
    ensures r.newUsers == db.newUsers + {uid}
    ensures r.(newUsers := db.newUsers) == db
  {
    db.(newUsers := db.newUsers + {uid})
  }

  /** Inserting a new user twice leaves the same single entry as inserting it once. */
  lemma InsertNewUserIdempotent(db: Db, uid: Uid)
    ensures WithNewUser(WithNewUser(db, uid), uid) == WithNewUser(db, uid)
  {
  }

  /** Creating a user document twice is creating it once, whatever the second call passes. */
  lemma CreateUserIdempotent(db: Db, uid: Uid, h1: string, t1: string, h2: string, t2: string)
    ensures WithUserDocument(WithUserDocument(db, uid, h1, t1), uid, h2, t2) == WithUserDocument(db, uid, h1, t1)
  {
  }

  /** Setting the goal after creating the user wins; creating the user after setting the goal changes nothing. */
  lemma GoalAfterCreate(db: Db, uid: Uid, h: string, now: string, goal: int)
    ensures GoalOf(WithGoal(WithUserDocument(db, uid, h, now), uid, goal), uid) == goal
    ensures WithUserDocument(WithGoal(db, uid, goal), uid, h, now) == WithGoal(db, uid, goal)
    ensures GoalOf(WithUserDocument(WithGoal(db, uid, goal), uid, h, now), uid) == goal
  {
  }

  /** A `last_updated` written before the session is saved is lost; one written after it is kept. */
  lemma LastUpdatedNeedsSession(db: Db, uid: Uid, storage: Token, msg: string)
    requires uid !in db.sessions
    ensures LastUpdatedOf(WithSession(WithLastUpdated(db, uid, msg), uid, storage), uid) == None
    ensures LastUpdatedOf(WithLastUpdated(WithSession(db, uid, storage), uid, msg), uid) == Some(msg)
  {
  }

  // ---------------------------------------------------------------------------
  // The store itself.

  /** The database handle `db` of database.py, one field per collection. */
  class Store {
    var users: map<Uid, UserDoc>
    var newUsers: set<Uid>
    var sessions: map<Uid, SessionDoc>
    var attendance: map<Uid, seq<Attendance.Projection>>
    var timetable: map<Uid, seq<seq<Timetable.Period>>>
    var documents: map<Collection, map<Uid, Json>>

    function State(): Db
      reads this
    {
      Db(users, newUsers, sessions, attendance, timetable, documents)
    }

    /** `init_db` on an empty database. */
    constructor ()
      ensures State() == Db(map[], {}, map[], map[], map[], map[])
    {
      users, newUsers, sessions := map[], {}, map[];
      attendance, timetable, documents := map[], map[], map[];
    }

    method GetUser(uid: Uid) returns (found: bool)
      ensures found <==> uid in users
    {
      found := uid in users;
    }

    method GetUserByUid(uid: Uid) returns (user: Option<UserDoc>)
      ensures user.Some? <==> uid in users
      ensures user.Some? ==> user.value == users[uid]
    {
      user := if uid in users then Some(users[uid]) else None;
    }

    method InsertNewUser(uid: Uid)
      modifies this
      ensures State() == WithNewUser(old(State()), uid)
    {
      newUsers := newUsers + {uid};
    }

    method CreateUserDocument(uid: Uid, hashedPassword: string, now: string)
      modifies this
      ensures State() == WithUserDocument(old(State()), uid, hashedPassword, now)
    {
      if uid !in users {
        users := users[uid := UserDoc(Some(hashedPassword), Some(now), Some(true), Some(DefaultGoal))];
      }
    }

    method GetAttendance(uid: Uid) returns (records: Option<seq<Attendance.Projection>>)
      ensures records == AttendanceOf(State(), uid)
    {
      records := if uid in attendance then Some(attendance[uid]) else None;
    }

    method GetTimetable(uid: Uid) returns (week: Option<seq<seq<Timetable.Period>>>)
      ensures week == StoredTimetable(State(), uid)
    {
      week := if uid in timetable then Some(timetable[uid]) else None;
    }

    method GetDocument(c: Collection, uid: Uid) returns (data: Option<Json>)
      ensures data == DocumentOf(State(), c, uid)
    {
      data := None;
      if c in documents {
        var docs := documents[c];
        if uid in docs {
          data := Some(docs[uid]);
        }
      }
    }

    method UpdateAttendance(uid: Uid, records: seq<Attendance.Projection>)
      modifies this
      ensures State() == WithAttendance(old(State()), uid, records)
    {
      attendance := attendance[uid := records];
    }

    method UpdateTimetable(uid: Uid, week: seq<seq<Timetable.Period>>)
      modifies this
      ensures State() == WithTimetable(old(State()), uid, week)
    {
      timetable := timetable[uid := week];
    }

    method UpdateDocument(c: Collection, uid: Uid, data: Json)
      modifies this
      ensures State() == WithDocument(old(State()), c, uid, data)
    {
      var docs := if c in documents then documents[c] else map[];
      documents := documents[c := docs[uid := data]];
    }

    method SaveSession(uid: Uid, storage: Token)
      modifies this
      ensures State() == WithSession(old(State()), uid, storage)
    {
      var last := if uid in sessions then sessions[uid].lastUpdated else None;
      sessions := sessions[uid := SessionDoc(storage, last)];
    }

    method LoadSession(uid: Uid) returns (storage: Option<Token>)
      ensures storage == SessionOf(State(), uid)
    {
      storage := if uid in sessions then Some(sessions[uid].storage) else None;
    }

    method GetLastUpdated(uid: Uid) returns (msg: Option<string>)
      ensures msg == LastUpdatedOf(State(), uid)
    {
      msg := if uid in sessions then sessions[uid].lastUpdated else None;
    }

    method UpdateLastUpdated(uid: Uid, msg: string)
      modifies this
      ensures State() == WithLastUpdated(old(State()), uid, msg)
    {
      if uid in sessions {
        sessions := sessions[uid := sessions[uid].(lastUpdated := Some(msg))];
      }
    }

    method GetAttendanceGoal(uid: Uid) returns (goal: int)
      ensures goal == GoalOf(State(), uid)
    {
      goal := DefaultGoal;
      if uid in users {
        match users[uid].goal {
          case Some(g) => goal := g;
          case None =>
        }
      }
    }

    method SetGoalValue(uid: Uid, goal: int)
      modifies this
      ensures State() == WithGoal(old(State()), uid, goal)
    {
      var doc := if uid in users then users[uid] else UserDoc(None, None, None, None);
      users := users[uid := doc.(goal := Some(goal))];
    }
  }
}
