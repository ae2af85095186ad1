/** The two tables the services touch, as in-memory rows, with the constraints
    the table definitions put on them (backend/src/migrations), and the errors
    the database driver raises when a row breaks one of them. Timestamps are
    integers (seconds); `NOW()` and `CURRENT_DATE` are parameters of the
    operations that use them. Row identifiers are numbers. */
module Store {
  import opened Base
  import opened TodoSchema

  /** One row of `users`. */
  datatype UserRow = UserRow(
    id: nat,
    firebaseUid: string,
    email: string,
    displayName: Option<string>,
    photoUrl: Option<string>,
    emailVerified: bool,
    isActive: bool,
    lastLoginAt: Option<int>,
    createdAt: int,
    updatedAt: int,
    deletedAt: Option<int>)

  /** One row of `todos`; `starred` is the single flag the service reads and writes. */
  datatype TodoRow = TodoRow(
    id: nat,
    userId: nat,
    title: string,
    description: Option<string>,
    status: Status,
    priority: Priority,
    dueDate: Option<int>,
    completedAt: Option<int>,
    position: int,
    tags: seq<string>,
    starred: bool,
    reminderAt: Option<int>,
    createdAt: int,
    updatedAt: int,
    deletedAt: Option<int>)

  // ---------------------------------------------------------------------
  // Constraints of the todos table
  // ---------------------------------------------------------------------

  /** `todo_completed_logic`: a completion time exactly when the status is completed. */
  predicate CompletedLogic(t: TodoRow)
  {
    t.completedAt.Some? <==> t.status == Completed
  }

  /** `todo_title_length`: `LENGTH(TRIM(title)) >= 1`; the database's TRIM strips spaces only. */
  predicate TitleNotBlank(title: string)
  {
    exists i :: 0 <= i < |title| && title[i] != ' '
  }

  /** A JavaScript-trimmed title passes the database check exactly when it is non-empty. */
  lemma TrimmedTitleCheck(s: string)
    ensures TitleNotBlank(Trim(s)) <==> Trim(s) != []
  {
    var r := Trim(s);
    if r != [] {
      assert !IsWhitespace(r[0]);
      assert r[0] != ' ';
    }
  }

  // ---------------------------------------------------------------------
  // Constraints of the users table
  // ---------------------------------------------------------------------

  predicate LocalChar(c: char)
  {
    IsUpper(c) || IsLower(c) || IsDigit(c) || c in "._%+-"
  }

  predicate DomainChar(c: char)
  {
    IsUpper(c) || IsLower(c) || IsDigit(c) || c in ".-"
  }

  /** The character class `[A-Z|a-z]`, which also admits a bar. */
  predicate TldChar(c: char)
  {
    IsUpper(c) || IsLower(c) || c == '|'
  }

  /** `users_email_check`: local part, '@', domain, '.', and a top-level part of
      two or more letters, matched as a whole. */
  predicate EmailCheck(s: string)
  {
    exists at, dot :: 0 < at && at + 1 < dot && dot + 2 < |s|
      && s[at] == '@' && s[dot] == '.'
      && (forall k :: 0 <= k < at ==> LocalChar(s[k]))
      && (forall k :: at < k < dot ==> DomainChar(s[k]))
      && (forall k :: dot < k < |s| ==> TldChar(s[k]))
  }

  /** The top-level part needs two letters at least: "a@b.co" passes the check
      and "a@b.c" is refused. */
  lemma EmailCheckTopLevel()
    ensures EmailCheck("a@b.co")
    ensures !EmailCheck("a@b.c")
  {
    var s := "a@b.co";
    assert s[1] == '@' && s[3] == '.';
    assert forall k :: 3 < k < |s| ==> TldChar(s[k]);
  }

  // ---------------------------------------------------------------------
  // Statement parameters
  // ---------------------------------------------------------------------

  /** A value bound to a `$k` placeholder. */
  datatype Param = PText(s: string) | PNull | PBool(b: bool) | PInt(n: int) | PTexts(items: seq<string>)

  /** `1, 2, ..., n`: the placeholders of a statement whose k-th placeholder names the k-th value. */
  function Iota(n: nat): (r: seq<nat>)
    ensures |r| == n && forall i :: 0 <= i < n ==> r[i] == i + 1
  {
    seq(n, i => i + 1)
  }

  /** The text of an enum value is cast back to the enum by the database. */
  function StatusFromName(s: string): Option<Status>
  {
    if s == "pending" then Some(Pending) else if s == "in_progress" then Some(InProgress)
    else if s == "completed" then Some(Completed) else if s == "archived" then Some(Archived)
    else None
  }

  function PriorityFromName(s: string): Option<Priority>
  {
    if s == "low" then Some(Low) else if s == "medium" then Some(Medium)
    else if s == "high" then Some(High) else if s == "critical" then Some(Critical)
    else None
  }

  /** The cast reads back every name it is given. */
  lemma EnumCastRoundTrip(st: Status, p: Priority)
    ensures StatusFromName(StatusName(st)) == Some(st)
    ensures PriorityFromName(PriorityName(p)) == Some(p)
  {
    match st
    case Pending => assert StatusName(st) == "pending";
    case InProgress => assert StatusName(st) == "in_progress";
    case Completed => assert StatusName(st) == "completed";
    case Archived => assert StatusName(st) == "archived";
    match p
    case Low => assert PriorityName(p) == "low";
    case Medium => assert PriorityName(p) == "medium";
    case High => assert PriorityName(p) == "high";
    case Critical => assert PriorityName(p) == "critical";
  }

  // ---------------------------------------------------------------------
  // Driver errors
  // ---------------------------------------------------------------------

  /** The fields of a driver error that the services and the error handler read. */
  datatype PgError = PgError(code: string, constraint: Option<string>, column: Option<string>, message: string)

  function TooLong(width: string): PgError
  {
    PgError("22001", None, None, "value too long for type character varying(" + width + ")")
  }

  function NotNull(table: string, column: string): PgError
  {
    PgError("23502", None, Some(column), "null value in column \"" + column + "\" of relation \"" + table + "\" violates not-null constraint")
  }

  function CheckViolation(table: string, constraint: string): PgError
  {
    PgError("23514", Some(constraint), None, "new row for relation \"" + table + "\" violates check constraint \"" + constraint + "\"")
  }

  function UniqueViolation(constraint: string): PgError
  {
    PgError("23505", Some(constraint), None, "duplicate key value violates unique constraint \"" + constraint + "\"")
  }

  // ---------------------------------------------------------------------
  // What a new or changed row is checked against, in the order the database
  // checks it: declared widths, NOT NULL columns, CHECK constraints by name,
  // then unique keys in the order they were declared.
  // ---------------------------------------------------------------------

  /** The `integer` column type. */
  predicate Int4(n: int) { -0x8000_0000 <= n < 0x8000_0000 }

  /** The checks on a todos row, given its owner (a missing owner is a NULL `user_id`). */
  function TodoRowError(owner: Option<nat>, t: TodoRow): (e: Option<PgError>)
    ensures e.None? <==> owner.Some? && TodoFits(t)
  {
    if |t.title| > 500 then Some(TooLong("500"))
    else if !Int4(t.position) then Some(PgError("22003", None, None, "integer out of range"))
    else if owner.None? then Some(NotNull("todos", "user_id"))
    else if !CompletedLogic(t) then Some(CheckViolation("todos", "todo_completed_logic"))
    else if !TitleNotBlank(t.title) then Some(CheckViolation("todos", "todo_title_length"))
    else None
  }

  /** The checks on a users row against the other rows of the table. */
  function UserRowError(others: seq<UserRow>, u: UserRow): (e: Option<PgError>)
    ensures e.None? <==> UserFits(u) && EmailCheck(u.email)
                         && (forall k :: 0 <= k < |others| ==> others[k].firebaseUid != u.firebaseUid && others[k].email != u.email)
  {
    if |u.firebaseUid| > 128 then Some(TooLong("128"))
    else if |u.email| > 255 then Some(TooLong("255"))
    else if u.displayName.Some? && |u.displayName.value| > 255 then Some(TooLong("255"))
    else if !EmailCheck(u.email) then Some(CheckViolation("users", "users_email_check"))
    else if exists k :: 0 <= k < |others| && others[k].firebaseUid == u.firebaseUid then Some(UniqueViolation("users_firebase_uid_key"))
    else if exists k :: 0 <= k < |others| && others[k].email == u.email then Some(UniqueViolation("users_email_key"))
    else None
  }

  predicate UserFits(u: UserRow)
  {
    |u.firebaseUid| <= 128 && |u.email| <= 255 && (u.displayName.Some? ==> |u.displayName.value| <= 255)
  }

  predicate TodoFits(t: TodoRow)
  {
    |t.title| <= 500 && Int4(t.position) && CompletedLogic(t) && TitleNotBlank(t.title)
  }

  /** Unique keys hold over every row, soft-deleted ones included. */
  predicate UsersValid(users: seq<UserRow>)
  {
    && (forall i, j :: 0 <= i < j < |users| ==>
          users[i].id != users[j].id && users[i].firebaseUid != users[j].firebaseUid && users[i].email != users[j].email)
    && (forall i :: 0 <= i < |users| ==> UserFits(users[i]) && EmailCheck(users[i].email))
  }

  predicate HasUser(users: seq<UserRow>, id: nat)
  {
    exists k :: 0 <= k < |users| && users[k].id == id
  }

  /** Unique ids, the row checks, and every todo's owner exists. */
  predicate TodosValid(users: seq<UserRow>, todos: seq<TodoRow>)
  {
    && (forall i, j :: 0 <= i < j < |todos| ==> todos[i].id != todos[j].id)
    && (forall i :: 0 <= i < |todos| ==> TodoFits(todos[i]) && HasUser(users, todos[i].userId))
  }

  // ---------------------------------------------------------------------
  // Lookups shared by the services
  // ---------------------------------------------------------------------

  /** `SELECT id FROM users WHERE firebase_uid = $1 [AND deleted_at IS NULL]`. */
  function UserIdByUid(users: seq<UserRow>, uid: string, liveOnly: bool): (r: Option<nat>)
    ensures r.Some? <==> exists k :: 0 <= k < |users| && users[k].firebaseUid == uid && (liveOnly ==> users[k].deletedAt.None?)
    ensures r.Some? ==> exists k :: 0 <= k < |users| && users[k].firebaseUid == uid && users[k].id == r.value
                                    && (liveOnly ==> users[k].deletedAt.None?)
  {
    if users == [] then None
    else if users[0].firebaseUid == uid && (liveOnly ==> users[0].deletedAt.None?) then Some(users[0].id)
    else
      var r := UserIdByUid(users[1..], uid, liveOnly);
      assert forall k :: 0 < k < |users| ==> users[k] == users[1..][k - 1];
      r
  }

  /** Firebase uids are unique over all rows, so the live lookup and the
      unrestricted one agree whenever the first finds a row. */
  lemma UidNamesOneUser(users: seq<UserRow>, uid: string)
    requires UsersValid(users) && UserIdByUid(users, uid, true).Some?
    ensures UserIdByUid(users, uid, false) == UserIdByUid(users, uid, true)
  {
    var live := UserIdByUid(users, uid, true);
    var any := UserIdByUid(users, uid, false);
    var k1 :| 0 <= k1 < |users| && users[k1].firebaseUid == uid && users[k1].id == live.value;
    assert any.Some? by {
      assert users[k1].firebaseUid == uid;
    }
    var k2 :| 0 <= k2 < |users| && users[k2].firebaseUid == uid && users[k2].id == any.value;
    SameUidSameRow(users, k1, k2);
  }

  /** Two rows with one firebase uid are the same row. */
  lemma SameUidSameRow(users: seq<UserRow>, k1: nat, k2: nat)
    requires forall i, j :: 0 <= i < j < |users| ==> users[i].firebaseUid != users[j].firebaseUid
    requires k1 < |users| && k2 < |users| && users[k1].firebaseUid == users[k2].firebaseUid
    ensures k1 == k2
  {
  }

  /** Appending a row with a new id, a present owner and passing checks keeps the table valid. */
  lemma AppendTodoValid(users: seq<UserRow>, todos: seq<TodoRow>, row: TodoRow)
    requires TodosValid(users, todos)
    requires forall k :: 0 <= k < |todos| ==> todos[k].id != row.id
    requires TodoFits(row) && HasUser(users, row.userId)
    ensures TodosValid(users, todos + [row])
  {
    var t := todos + [row];
    assert forall k :: 0 <= k < |todos| ==> t[k] == todos[k];
  }

  /** The join `todos t INNER JOIN users u ON t.user_id = u.id` restricted to
      `u.firebase_uid = uid`, both rows live. */
  predicate VisibleTo(users: seq<UserRow>, t: TodoRow, uid: string)
  {
    t.deletedAt.None?
    && exists k :: 0 <= k < |users| && users[k].id == t.userId && users[k].firebaseUid == uid && users[k].deletedAt.None?
  }

  /** The same join with no liveness test (the permanent delete). */
  predicate OwnedBy(users: seq<UserRow>, t: TodoRow, uid: string)
  {
    exists k :: 0 <= k < |users| && users[k].id == t.userId && users[k].firebaseUid == uid
  }

  /** An id above every id in use (the column default draws a fresh id). */
  function FreshId(ids: seq<nat>): (id: nat)
    ensures forall k :: 0 <= k < |ids| ==> ids[k] < id
  {
    if ids == [] then 0
    else
      var rest := FreshId(ids[1..]);
      assert forall k :: 0 < k < |ids| ==> ids[k] == ids[1..][k - 1];
      if ids[0] < rest then rest else ids[0] + 1
  }

  function UserIds(users: seq<UserRow>): (ids: seq<nat>)
    ensures |ids| == |users| && forall k :: 0 <= k < |users| ==> ids[k] == users[k].id
  {
    seq(|users|, k requires 0 <= k < |users| => users[k].id)
  }

  function TodoIds(todos: seq<TodoRow>): (ids: seq<nat>)
    ensures |ids| == |todos| && forall k :: 0 <= k < |todos| ==> ids[k] == todos[k].id
  {
    seq(|todos|, k requires 0 <= k < |todos| => todos[k].id)
  }

  /** The database: two tables the services read and change in place. */
  class Database {
    var users: seq<UserRow>
    var todos: seq<TodoRow>

    predicate Valid()
      reads this
    {
      UsersValid(users) && TodosValid(users, todos)
    }

    constructor()
      ensures Valid() && users == [] && todos == []
    {
      users := [];
      todos := [];
    }
  }
}
