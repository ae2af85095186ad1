/** `getStats` of backend/src/services/todo.service.ts: one aggregate over the
    live todos of a live user, counted by status, by priority, by due date and
    by completion day. `CURRENT_DATE` is a parameter `today`, the timestamp of
    that day's midnight, in seconds. */
module TodoStats {
  import opened Base
  import opened TodoSchema
  import opened Store
  import opened TodoListing

  const Day := 86400

  /** The rows the aggregate reads: the join restricted to the uid, both rows live. */
  function OwnRows(users: seq<UserRow>, todos: seq<TodoRow>, uid: string): seq<TodoRow>
  {
    SelectRows(InnerJoin(users, todos), (j: Joined) => j.u.firebaseUid == uid && j.t.deletedAt.None? && j.u.deletedAt.None?)
  }

  /** The aggregate reads exactly the todos `getTodoById` would show to that uid. */
  lemma OwnRowsAreVisible(users: seq<UserRow>, todos: seq<TodoRow>, uid: string, t: TodoRow)
    ensures t in OwnRows(users, todos, uid) <==> t in todos && VisibleTo(users, t, uid)
  {
    if t in todos && VisibleTo(users, t, uid) {
      var k :| 0 <= k < |users| && users[k].id == t.userId && users[k].firebaseUid == uid && users[k].deletedAt.None?;
      assert Joined(t, users[k]) in InnerJoin(users, todos);
    }
  }

  /** The FILTER of each counter. */
  datatype Counter = All | WithStatus(s: Status) | WithPriority(p: Priority) | CompletedToday | DueSoon | Overdue | Starred

  predicate Counts(c: Counter, t: TodoRow, today: int)
  {
    match c
    case All => true
    case WithStatus(s) => t.status == s
    case WithPriority(p) => t.priority == p
    // DATE(completed_at) = CURRENT_DATE
    case CompletedToday => t.completedAt.Some? && today <= t.completedAt.value < today + Day
    // due within the next seven days, inclusive, and not completed
    case DueSoon => t.dueDate.Some? && today <= t.dueDate.value <= today + 7 * Day && t.status != Completed
    // due before today, neither completed nor archived
    case Overdue => t.dueDate.Some? && t.dueDate.value < today && t.status != Completed && t.status != Archived
    case Starred => t.starred
  }

  /** `COUNT(*) FILTER (WHERE ...)`. */
  function Count(rows: seq<TodoRow>, c: Counter, today: int): (n: nat)
    ensures n <= |rows|
    decreases |rows|
  {
    if rows == [] then 0
    else (if Counts(c, rows[0], today) then 1 else 0) + Count(rows[1..], c, today)
  }

  datatype StatusCounts = StatusCounts(pending: nat, inProgress: nat, completed: nat, archived: nat)
  datatype PriorityCounts = PriorityCounts(low: nat, medium: nat, high: nat, critical: nat)

  datatype Stats = Stats(total: nat, byStatus: StatusCounts, byPriority: PriorityCounts,
                         completedToday: nat, dueSoon: nat, overdue: nat, starred: nat)

  /** `getStats`. */
  function GetStats(users: seq<UserRow>, todos: seq<TodoRow>, uid: string, today: int): Stats
  {
    var rows := OwnRows(users, todos, uid);
    Stats(Count(rows, All, today),
          StatusCounts(Count(rows, WithStatus(Pending), today), Count(rows, WithStatus(InProgress), today),
                       Count(rows, WithStatus(Completed), today), Count(rows, WithStatus(Archived), today)),
          PriorityCounts(Count(rows, WithPriority(Low), today), Count(rows, WithPriority(Medium), today),
                         Count(rows, WithPriority(High), today), Count(rows, WithPriority(Critical), today)),
          Count(rows, CompletedToday, today), Count(rows, DueSoon, today), Count(rows, Overdue, today),
          Count(rows, Starred, today))
  }

  lemma {:induction false} CountAll(rows: seq<TodoRow>, today: int)
    ensures Count(rows, All, today) == |rows|
    decreases |rows|
  {
    if rows != [] {
      CountAll(rows[1..], today);
    }
  }

  /** Every row has exactly one status. */
  lemma {:induction false} StatusesPartition(rows: seq<TodoRow>, today: int)
    ensures Count(rows, WithStatus(Pending), today) + Count(rows, WithStatus(InProgress), today)
          + Count(rows, WithStatus(Completed), today) + Count(rows, WithStatus(Archived), today) == |rows|
    decreases |rows|
  {
    if rows != [] {
      StatusesPartition(rows[1..], today);
    }
  }

  /** Every row has exactly one priority. */
  lemma {:induction false} PrioritiesPartition(rows: seq<TodoRow>, today: int)
    ensures Count(rows, WithPriority(Low), today) + Count(rows, WithPriority(Medium), today)
          + Count(rows, WithPriority(High), today) + Count(rows, WithPriority(Critical), today) == |rows|
    decreases |rows|
  {
    if rows != [] {
      PrioritiesPartition(rows[1..], today);
    }
  }

  /** Two counters that never hold together count at most every row once. */
  lemma {:induction false} CountDisjoint(rows: seq<TodoRow>, a: Counter, b: Counter, today: int)
    requires forall t :: !(Counts(a, t, today) && Counts(b, t, today))
    ensures Count(rows, a, today) + Count(rows, b, today) <= |rows|
    decreases |rows|
  {
    if rows != [] {
      CountDisjoint(rows[1..], a, b, today);
    }
  }

  /** A counter implied by another on every row counts at least as many. */
  lemma {:induction false} CountMonotone(rows: seq<TodoRow>, a: Counter, b: Counter, today: int)
    requires forall i :: 0 <= i < |rows| ==> Counts(a, rows[i], today) ==> Counts(b, rows[i], today)
    ensures Count(rows, a, today) <= Count(rows, b, today)
    decreases |rows|
  {
    if rows != [] {
      assert forall i :: 0 <= i < |rows[1..]| ==> rows[1..][i] == rows[i + 1];
      CountMonotone(rows[1..], a, b, today);
    }
  }

  /** What the figures promise: the status and priority counts each add up to
      the total, nothing is both due soon and overdue, and on a consistent table
      the todos completed today are among the completed ones. */
  lemma StatsAddUp(users: seq<UserRow>, todos: seq<TodoRow>, uid: string, today: int)
    ensures var s := GetStats(users, todos, uid, today);
      && s.total == |OwnRows(users, todos, uid)|
      && s.byStatus.pending + s.byStatus.inProgress + s.byStatus.completed + s.byStatus.archived == s.total
      && s.byPriority.low + s.byPriority.medium + s.byPriority.high + s.byPriority.critical == s.total
      && s.dueSoon + s.overdue <= s.total
      && s.starred <= s.total
    ensures TodosValid(users, todos) ==>
      GetStats(users, todos, uid, today).completedToday <= GetStats(users, todos, uid, today).byStatus.completed
  {
    var rows := OwnRows(users, todos, uid);
    CountAll(rows, today);
    StatusesPartition(rows, today);
    PrioritiesPartition(rows, today);
    CountDisjoint(rows, DueSoon, Overdue, today);
    if TodosValid(users, todos) {
      CompletedTodayAmongCompleted(users, todos, uid, today);
    }
  }

  /** On a consistent table only a completed todo has a completion time. */
  lemma CompletedTodayAmongCompleted(users: seq<UserRow>, todos: seq<TodoRow>, uid: string, today: int)
    requires TodosValid(users, todos)
    ensures var rows := OwnRows(users, todos, uid);
      Count(rows, CompletedToday, today) <= Count(rows, WithStatus(Completed), today)
  {
    var rows := OwnRows(users, todos, uid);
    forall i | 0 <= i < |rows| ensures Counts(CompletedToday, rows[i], today) ==> Counts(WithStatus(Completed), rows[i], today) {
      OwnRowsAreVisible(users, todos, uid, rows[i]);
      assert CompletedLogic(rows[i]);
    }
    CountMonotone(rows, CompletedToday, WithStatus(Completed), today);
  }
}
