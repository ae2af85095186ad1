/** `getTodosByUserId` of backend/src/services/todo.service.ts: the WHERE
    clause built from the query filters, the join of todos with their owners,
    the count, the ORDER BY and the page cut by LIMIT and OFFSET. */
module TodoListing {
  import opened Base
  import opened TodoSchema
  import opened Store
  import opened Like

  // ---------------------------------------------------------------------
  // The join and the filters it is asked for
  // ---------------------------------------------------------------------

  /** One row of `todos t INNER JOIN users u ON t.user_id = u.id`. */
  datatype Joined = Joined(t: TodoRow, u: UserRow)

  /** The users a todo joins with, in table order. */
  function OwnersOf(users: seq<UserRow>, t: TodoRow): (r: seq<Joined>)
    ensures forall j :: j in r <==> j.t == t && j.u in users && j.u.id == t.userId
    decreases |users|
  {
    if users == [] then []
    else (if users[0].id == t.userId then [Joined(t, users[0])] else []) + OwnersOf(users[1..], t)
  }

  /** The inner join, todo by todo. */
  function InnerJoin(users: seq<UserRow>, todos: seq<TodoRow>): (r: seq<Joined>)
    ensures forall j :: j in r <==> j.t in todos && j.u in users && j.u.id == j.t.userId
    decreases |todos|
  {
    if todos == [] then []
    else OwnersOf(users, todos[0]) + InnerJoin(users, todos[1..])
  }

  /** A todo matches the search when its title or its description contains
      the pattern; a NULL description never does. */
  predicate LikeTitleOrDescription(t: TodoRow, p: string)
  {
    ILike(t.title, p) || (t.description.Some? && ILike(t.description.value, p))
  }

  predicate SharesTag(t: TodoRow, tags: seq<string>)
  {
    exists i :: 0 <= i < |tags| && tags[i] in t.tags
  }

  /** The filters the query asks for. A filter whose value is falsy in
      JavaScript (an empty search, an empty tag list) is not applied; a
      starred filter is applied whenever it is given, `false` included. */
  predicate FilterMatch(q: TodoQuery, t: TodoRow, cast: string -> int)
  {
    && (q.status.Some? ==> t.status == q.status.value)
    && (q.priority.Some? ==> t.priority == q.priority.value)
    && (q.starred.Some? ==> t.starred == q.starred.value)
    && (q.search.Some? && q.search.value != [] ==> LikeTitleOrDescription(t, Surround(q.search.value)))
    && (q.dueDateFrom.Some? && q.dueDateFrom.value != [] ==> t.dueDate.Some? && t.dueDate.value >= cast(q.dueDateFrom.value))
    && (q.dueDateTo.Some? && q.dueDateTo.value != [] ==> t.dueDate.Some? && t.dueDate.value <= cast(q.dueDateTo.value))
    && (q.tags.Some? && q.tags.value != [] ==> SharesTag(t, q.tags.value))
  }

  /** The join rows the query selects: the owner has that uid, both rows are
      live, and the filters hold. */
  predicate Selected(uid: string, q: TodoQuery, j: Joined, cast: string -> int)
  {
    j.u.firebaseUid == uid && j.t.deletedAt.None? && j.u.deletedAt.None? && FilterMatch(q, j.t, cast)
  }

  /** The todos of the join rows that `keep` selects, in join order. */
  function SelectRows(joined: seq<Joined>, keep: Joined -> bool): (r: seq<TodoRow>)
    ensures |r| <= |joined|
    ensures forall t :: t in r <==> exists j :: j in joined && keep(j) && j.t == t
    decreases |joined|
  {
    if joined == [] then []
    else
      var rest := SelectRows(joined[1..], keep);
      assert forall j :: j in joined <==> j == joined[0] || j in joined[1..];
      (if keep(joined[0]) then [joined[0].t] else []) + rest
  }

  /** Two selections that agree on every join row select the same todos. */
  lemma {:induction false} SameSelection(joined: seq<Joined>, a: Joined -> bool, b: Joined -> bool)
    requires forall j :: j in joined ==> (a(j) <==> b(j))
    ensures SelectRows(joined, a) == SelectRows(joined, b)
    decreases |joined|
  {
    if joined != [] {
      SameSelection(joined[1..], a, b);
    }
  }

  /** The todos the count and the data query both see. */
  function Matching(users: seq<UserRow>, todos: seq<TodoRow>, uid: string, q: TodoQuery, cast: string -> int): seq<TodoRow>
  {
    SelectRows(InnerJoin(users, todos), (j: Joined) => Selected(uid, q, j, cast))
  }

  /** A todo is listed exactly when `getTodoById` would show it to that uid
      and it passes the filters. */
  lemma MatchingIsVisible(users: seq<UserRow>, todos: seq<TodoRow>, uid: string, q: TodoQuery, cast: string -> int, t: TodoRow)
    ensures t in Matching(users, todos, uid, q, cast) <==> t in todos && VisibleTo(users, t, uid) && FilterMatch(q, t, cast)
  {
    if t in todos && VisibleTo(users, t, uid) && FilterMatch(q, t, cast) {
      var k :| 0 <= k < |users| && users[k].id == t.userId && users[k].firebaseUid == uid && users[k].deletedAt.None?;
      assert Joined(t, users[k]) in InnerJoin(users, todos);
    }
  }

  // ---------------------------------------------------------------------
  // The WHERE builder
  // ---------------------------------------------------------------------

  /** One condition of the WHERE clause; `k` is its placeholder. The search
      condition names its placeholder twice, for the title and the description. */
  datatype Cond =
    | OwnerUid(k: nat)
    | TodoLive
    | OwnerLive
    | StatusIs(k: nat)
    | PriorityIs(k: nat)
    | StarredIs(k: nat)
    | TitleOrDescriptionLike(k: nat)
    | DueFrom(k: nat)
    | DueTo(k: nat)
    | TagsOverlap(k: nat)

  /** The value bound to placeholder `$k`. */
  function Bound(values: seq<Param>, k: nat): Option<Param>
  {
    if 1 <= k <= |values| then Some(values[k - 1]) else None
  }

  /** What the database makes of one condition on one join row. */
  predicate Holds(c: Cond, values: seq<Param>, j: Joined, cast: string -> int)
  {
    match c
    case OwnerUid(k) => Bound(values, k) == Some(PText(j.u.firebaseUid))
    case TodoLive => j.t.deletedAt.None?
    case OwnerLive => j.u.deletedAt.None?
    case StatusIs(k) =>
      (match Bound(values, k) case Some(PText(s)) => StatusFromName(s) == Some(j.t.status) case _ => false)
    case PriorityIs(k) =>
      (match Bound(values, k) case Some(PText(s)) => PriorityFromName(s) == Some(j.t.priority) case _ => false)
    case StarredIs(k) => Bound(values, k) == Some(PBool(j.t.starred))
    case TitleOrDescriptionLike(k) =>
      (match Bound(values, k) case Some(PText(p)) => LikeTitleOrDescription(j.t, p) case _ => false)
    case DueFrom(k) =>
      (match Bound(values, k) case Some(PText(s)) => j.t.dueDate.Some? && j.t.dueDate.value >= cast(s) case _ => false)
    case DueTo(k) =>
      (match Bound(values, k) case Some(PText(s)) => j.t.dueDate.Some? && j.t.dueDate.value <= cast(s) case _ => false)
    case TagsOverlap(k) =>
      (match Bound(values, k) case Some(PTexts(items)) => SharesTag(j.t, items) case _ => false)
  }

  /** The conditions joined with AND. */
  predicate AllHold(conds: seq<Cond>, values: seq<Param>, j: Joined, cast: string -> int)
  {
    forall i :: 0 <= i < |conds| ==> Holds(conds[i], values, j, cast)
  }

  function PlaceholderOf(c: Cond): nat
  {
    match c
    case TodoLive => 0
    case OwnerLive => 0
    case _ => c.k
  }

  /** Binding more values after the placeholders of a condition does not change it. */
  lemma HoldsExtend(c: Cond, values: seq<Param>, extra: seq<Param>, j: Joined, cast: string -> int)
    requires PlaceholderOf(c) <= |values|
    ensures Holds(c, values + extra, j, cast) <==> Holds(c, values, j, cast)
  {
    if !(c.TodoLive? || c.OwnerLive?) && 1 <= c.k {
      assert (values + extra)[c.k - 1] == values[c.k - 1];
    }
  }

  /** Whether the filter read at stage `n` is applied (JavaScript truthiness). */
  predicate Active(q: TodoQuery, n: nat)
  {
    if n == 0 then q.status.Some?
    else if n == 1 then q.priority.Some?
    else if n == 2 then q.starred.Some?
    else if n == 3 then q.search.Some? && q.search.value != []
    else if n == 4 then q.dueDateFrom.Some? && q.dueDateFrom.value != []
    else if n == 5 then q.dueDateTo.Some? && q.dueDateTo.value != []
    else n == 6 && q.tags.Some? && q.tags.value != []
  }

  /** The condition added at stage `n` with placeholder `k`. */
  function CondAt(n: nat, k: nat): (c: Cond)
    ensures PlaceholderOf(c) == k
  {
    if n == 0 then StatusIs(k) else if n == 1 then PriorityIs(k) else if n == 2 then StarredIs(k)
    else if n == 3 then TitleOrDescriptionLike(k) else if n == 4 then DueFrom(k) else if n == 5 then DueTo(k)
    else TagsOverlap(k)
  }

  /** The value pushed at stage `n`. */
  function ValueAt(q: TodoQuery, n: nat): Param
    requires Active(q, n)
  {
    if n == 0 then PText(StatusName(q.status.value))
    else if n == 1 then PText(PriorityName(q.priority.value))
    else if n == 2 then PBool(q.starred.value)
    else if n == 3 then PText(Surround(q.search.value))
    else if n == 4 then PText(q.dueDateFrom.value)
    else if n == 5 then PText(q.dueDateTo.value)
    else PTexts(q.tags.value)
  }

  /** The filter of stage `n`, as `FilterMatch` states it. */
  predicate FilterAt(q: TodoQuery, n: nat, t: TodoRow, cast: string -> int)
    requires Active(q, n)
  {
    if n == 0 then t.status == q.status.value
    else if n == 1 then t.priority == q.priority.value
    else if n == 2 then t.starred == q.starred.value
    else if n == 3 then LikeTitleOrDescription(t, Surround(q.search.value))
    else if n == 4 then t.dueDate.Some? && t.dueDate.value >= cast(q.dueDateFrom.value)
    else if n == 5 then t.dueDate.Some? && t.dueDate.value <= cast(q.dueDateTo.value)
    else SharesTag(t, q.tags.value)
  }

  /** The first `n` filters. */
  predicate FilterUpTo(q: TodoQuery, t: TodoRow, cast: string -> int, n: nat)
  {
    if n == 0 then true
    else FilterUpTo(q, t, cast, n - 1) && (Active(q, n - 1) ==> FilterAt(q, n - 1, t, cast))
  }

  lemma AllFilters(q: TodoQuery, t: TodoRow, cast: string -> int)
    ensures FilterUpTo(q, t, cast, 7) <==> FilterMatch(q, t, cast)
  {
    assert FilterUpTo(q, t, cast, 1) <==> (q.status.Some? ==> t.status == q.status.value);
    assert FilterUpTo(q, t, cast, 2) <==> FilterUpTo(q, t, cast, 1) && (q.priority.Some? ==> t.priority == q.priority.value);
    assert FilterUpTo(q, t, cast, 3) <==> FilterUpTo(q, t, cast, 2) && (q.starred.Some? ==> t.starred == q.starred.value);
    assert FilterUpTo(q, t, cast, 4) <==> FilterUpTo(q, t, cast, 3) && (Active(q, 3) ==> FilterAt(q, 3, t, cast));
    assert FilterUpTo(q, t, cast, 5) <==> FilterUpTo(q, t, cast, 4) && (Active(q, 4) ==> FilterAt(q, 4, t, cast));
    assert FilterUpTo(q, t, cast, 6) <==> FilterUpTo(q, t, cast, 5) && (Active(q, 5) ==> FilterAt(q, 5, t, cast));
  }

  /** The condition of stage `n`, bound to its value, is that filter. */
  lemma CondMeans(q: TodoQuery, n: nat, values: seq<Param>, j: Joined, cast: string -> int)
    requires n < 7 && Active(q, n)
    ensures Holds(CondAt(n, |values| + 1), values + [ValueAt(q, n)], j, cast) <==> FilterAt(q, n, j.t, cast)
  {
    assert Bound(values + [ValueAt(q, n)], |values| + 1) == Some(ValueAt(q, n));
    if n == 0 {
      EnumCastRoundTrip(q.status.value, Low);
      EnumCastRoundTrip(j.t.status, Low);
    } else if n == 1 {
      EnumCastRoundTrip(Pending, q.priority.value);
      EnumCastRoundTrip(Pending, j.t.priority);
    }
  }

  /** The builder's state after stage `n`. */
  ghost predicate WhereBuilt(conds: seq<Cond>, values: seq<Param>, uid: string, q: TodoQuery, n: nat)
  {
    && (forall i :: 0 <= i < |conds| ==> PlaceholderOf(conds[i]) <= |values|)
    && (forall j, cast :: AllHold(conds, values, j, cast) <==>
          (j.u.firebaseUid == uid && j.t.deletedAt.None? && j.u.deletedAt.None? && FilterUpTo(q, j.t, cast, n)))
  }

  /** One block of the builder: when the filter is truthy, add its condition
      with the next placeholder and push its value. */
  method AddFilter(uid: string, q: TodoQuery, n: nat, conds: seq<Cond>, values: seq<Param>, paramCount: nat)
    returns (conds': seq<Cond>, values': seq<Param>, paramCount': nat)
    requires n < 7 && WhereBuilt(conds, values, uid, q, n) && paramCount == |values| + 1
    ensures WhereBuilt(conds', values', uid, q, n + 1) && paramCount' == |values'| + 1
    ensures conds' == if Active(q, n) then conds + [CondAt(n, paramCount)] else conds
    ensures values' == if Active(q, n) then values + [ValueAt(q, n)] else values
  {
    if Active(q, n) {
      conds' := conds + [CondAt(n, paramCount)];
      values' := values + [ValueAt(q, n)];
      paramCount' := paramCount + 1;
      forall j, cast
        ensures AllHold(conds', values', j, cast) <==>
          (j.u.firebaseUid == uid && j.t.deletedAt.None? && j.u.deletedAt.None? && FilterUpTo(q, j.t, cast, n + 1))
      {
        forall i | 0 <= i < |conds| ensures Holds(conds'[i], values', j, cast) <==> Holds(conds[i], values, j, cast) {
          HoldsExtend(conds[i], values, [ValueAt(q, n)], j, cast);
        }
        CondMeans(q, n, values, j, cast);
        assert AllHold(conds', values', j, cast) <==> AllHold(conds, values, j, cast) && Holds(conds'[|conds|], values', j, cast);
      }
    } else {
      conds', values', paramCount' := conds, values, paramCount;
    }
  }

  /** The WHERE builder: the owner's uid as `$1`, both rows live, then the
      status, priority, starred, search, due-date bounds and tags filters. */
  method BuildTodoWhere(uid: string, q: TodoQuery) returns (conds: seq<Cond>, values: seq<Param>, paramCount: nat)
    ensures paramCount == |values| + 1
    ensures forall i :: 0 <= i < |conds| ==> PlaceholderOf(conds[i]) <= |values|
    ensures forall j, cast :: AllHold(conds, values, j, cast) <==> Selected(uid, q, j, cast)
  {
    conds := [OwnerUid(1), TodoLive, OwnerLive];
    values := [PText(uid)];
    paramCount := 2;
    forall j, cast
      ensures AllHold(conds, values, j, cast) <==> (j.u.firebaseUid == uid && j.t.deletedAt.None? && j.u.deletedAt.None?)
    {
      assert Holds(conds[0], values, j, cast) <==> j.u.firebaseUid == uid;
      assert AllHold(conds, values, j, cast) <==>
        Holds(conds[0], values, j, cast) && Holds(conds[1], values, j, cast) && Holds(conds[2], values, j, cast);
    }
    assert WhereBuilt(conds, values, uid, q, 0);
    conds, values, paramCount := AddFilter(uid, q, 0, conds, values, paramCount);
    conds, values, paramCount := AddFilter(uid, q, 1, conds, values, paramCount);
    conds, values, paramCount := AddFilter(uid, q, 2, conds, values, paramCount);
    conds, values, paramCount := AddFilter(uid, q, 3, conds, values, paramCount);
    conds, values, paramCount := AddFilter(uid, q, 4, conds, values, paramCount);
    conds, values, paramCount := AddFilter(uid, q, 5, conds, values, paramCount);
    conds, values, paramCount := AddFilter(uid, q, 6, conds, values, paramCount);
    forall j, cast ensures AllHold(conds, values, j, cast) <==> Selected(uid, q, j, cast) {
      AllFilters(q, j.t, cast);
    }
  }

  // ---------------------------------------------------------------------
  // ORDER BY
  // ---------------------------------------------------------------------

  /** A sort key: the column's value, or NULL. */
  datatype Key = KInt(i: int) | KText(s: string) | KNull

  /** The key of a row for the sort column; the enums sort in declaration order. */
  function KeyOf(t: TodoRow, c: SortColumn): Key
  {
    match c
    case ByCreatedAt => KInt(t.createdAt)
    case ByUpdatedAt => KInt(t.updatedAt)
    case ByDueDate => if t.dueDate.Some? then KInt(t.dueDate.value) else KNull
    case ByPriority => KInt(PriorityRank(t.priority))
    case ByStatus => KInt(StatusRank(t.status))
    case ByPosition => KInt(t.position)
    case ByTitle => KText(t.title)
  }

  /** Code-point order on text. */
  predicate TextLe(a: string, b: string)
  {
    a == [] || (b != [] && (a[0] < b[0] || (a[0] == b[0] && TextLe(a[1..], b[1..]))))
  }

  lemma {:induction false} TextLeTotal(a: string, b: string)
    ensures TextLe(a, b) || TextLe(b, a)
  {
    if a != [] && b != [] && a[0] == b[0] {
      TextLeTotal(a[1..], b[1..]);
    }
  }

  lemma {:induction false} TextLeTransitive(a: string, b: string, c: string)
    requires TextLe(a, b) && TextLe(b, c)
    ensures TextLe(a, c)
  {
    if a != [] && a[0] == b[0] && b[0] == c[0] {
      TextLeTransitive(a[1..], b[1..], c[1..]);
    }
  }

  /** Ascending order with NULLs last, the default for ASC. */
  predicate KeyLe(a: Key, b: Key)
  {
    match (a, b)
    case (_, KNull) => true
    case (KNull, _) => false
    case (KInt(x), KInt(y)) => x <= y
    case (KText(x), KText(y)) => TextLe(x, y)
    case (KInt(_), KText(_)) => true
    case (KText(_), KInt(_)) => false
  }

  /** `a` may come before `b`. DESC reverses ASC, so NULLs come first, as
      they do by default for DESC. */
  predicate Before(a: TodoRow, b: TodoRow, c: SortColumn, o: SortOrder)
  {
    if o == Asc then KeyLe(KeyOf(a, c), KeyOf(b, c)) else KeyLe(KeyOf(b, c), KeyOf(a, c))
  }

  lemma BeforeTotal(a: TodoRow, b: TodoRow, c: SortColumn, o: SortOrder)
    ensures Before(a, b, c, o) || Before(b, a, c, o)
  {
    if KeyOf(a, c).KText? && KeyOf(b, c).KText? {
      TextLeTotal(KeyOf(a, c).s, KeyOf(b, c).s);
    }
  }

  lemma BeforeTransitive(a: TodoRow, b: TodoRow, d: TodoRow, c: SortColumn, o: SortOrder)
    requires Before(a, b, c, o) && Before(b, d, c, o)
    ensures Before(a, d, c, o)
  {
    var ka, kb, kd := KeyOf(a, c), KeyOf(b, c), KeyOf(d, c);
    if ka.KText? && kb.KText? && kd.KText? {
      if o == Asc {
        TextLeTransitive(ka.s, kb.s, kd.s);
      } else {
        TextLeTransitive(kd.s, kb.s, ka.s);
      }
    }
  }

  predicate Sorted(rows: seq<TodoRow>, c: SortColumn, o: SortOrder)
  {
    forall i, j :: 0 <= i < j < |rows| ==> Before(rows[i], rows[j], c, o)
  }

  /** A row that may precede every row of a sorted list may head it. */
  lemma ConsSorted(h: TodoRow, rest: seq<TodoRow>, c: SortColumn, o: SortOrder)
    requires Sorted(rest, c, o)
    requires forall j :: 0 <= j < |rest| ==> Before(h, rest[j], c, o)
    ensures Sorted([h] + rest, c, o)
  {
    var s := [h] + rest;
    forall i, j | 0 <= i < j < |s| ensures Before(s[i], s[j], c, o) {
      assert s[j] == rest[j - 1];
      if i > 0 {
        assert s[i] == rest[i - 1];
      }
    }
  }

  /** Puts `x` before the first row it may precede. */
  function Insert(x: TodoRow, rows: seq<TodoRow>, c: SortColumn, o: SortOrder): (r: seq<TodoRow>)
    requires Sorted(rows, c, o)
    ensures Sorted(r, c, o)
    ensures forall y :: y in r <==> y == x || y in rows
    ensures multiset(r) == multiset(rows) + multiset{x}
    ensures |r| == |rows| + 1
    decreases |rows|
  {
    if rows == [] then [x]
    else if Before(x, rows[0], c, o) then
      InsertAtHead(x, rows, c, o);
      [x] + rows
    else
      var tail := rows[1..];
      assert rows == [rows[0]] + tail;
      var rest := Insert(x, tail, c, o);
      InsertBehindHead(x, rows[0], tail, rest, c, o);
      [rows[0]] + rest
  }

  /** A row that may precede the head of a sorted list may precede all of it. */
  lemma InsertAtHead(x: TodoRow, rows: seq<TodoRow>, c: SortColumn, o: SortOrder)
    requires Sorted(rows, c, o) && rows != [] && Before(x, rows[0], c, o)
    ensures Sorted([x] + rows, c, o)
  {
    forall j | 0 < j < |rows| ensures Before(x, rows[j], c, o) {
      BeforeTransitive(x, rows[0], rows[j], c, o);
    }
    ConsSorted(x, rows, c, o);
  }

  /** The head stays in front when `x` goes somewhere behind it. */
  lemma InsertBehindHead(x: TodoRow, h: TodoRow, tail: seq<TodoRow>, rest: seq<TodoRow>, c: SortColumn, o: SortOrder)
    requires Sorted([h] + tail, c, o) && !Before(x, h, c, o)
    requires Sorted(rest, c, o) && forall y :: y in rest <==> y == x || y in tail
    ensures Sorted([h] + rest, c, o)
  {
    BeforeTotal(x, h, c, o);
    var rows := [h] + tail;
    assert Sorted(tail, c, o) by {
      forall i, j | 0 <= i < j < |tail| ensures Before(tail[i], tail[j], c, o) {
        assert rows[i + 1] == tail[i] && rows[j + 1] == tail[j];
      }
    }
    forall j | 0 <= j < |rest| ensures Before(h, rest[j], c, o) {
      if rest[j] != x {
        assert rest[j] in tail;
        var m :| 0 <= m < |tail| && tail[m] == rest[j];
        assert rows[0] == h && rows[m + 1] == tail[m];
      }
    }
    ConsSorted(h, rest, c, o);
  }

  /** `ORDER BY t.<column> <order>`: sorted, and the same rows. Rows with
      equal keys keep their order in the join. */
  function SortRows(rows: seq<TodoRow>, c: SortColumn, o: SortOrder): (r: seq<TodoRow>)
    ensures Sorted(r, c, o)
    ensures multiset(r) == multiset(rows)
    ensures |r| == |rows|
    decreases |rows|
  {
    if rows == [] then []
    else
      assert rows == [rows[0]] + rows[1..];
      Insert(rows[0], SortRows(rows[1..], c, o), c, o)
  }

  // ---------------------------------------------------------------------
  // Pagination
  // ---------------------------------------------------------------------

  /** `Math.ceil(n / d)`. */
  function CeilDiv(n: nat, d: nat): (c: nat)
    requires d > 0
    ensures c * d >= n
    ensures c > 0 ==> (c - 1) * d < n
  {
    (n + d - 1) / d
  }

  /** `LIMIT limit OFFSET offset`. */
  function Window(rows: seq<TodoRow>, offset: nat, limit: nat): (r: seq<TodoRow>)
    ensures |r| == if offset >= |rows| then 0 else if offset + limit <= |rows| then limit else |rows| - offset
  {
    var from := if offset < |rows| then offset else |rows|;
    var to := if offset + limit < |rows| then offset + limit else |rows|;
    rows[from..to]
  }

  /** `(page - 1) * limit`: the rows of the earlier pages. */
  function Offset(page: nat, limit: nat): (n: nat)
    requires page >= 1
  {
    var before: nat := page - 1;
    before * limit
  }

  datatype Pagination = Pagination(page: nat, limit: nat, total: nat, totalPages: nat, hasMore: bool)

  datatype TodoPage = TodoPage(todos: seq<TodoRow>, pagination: Pagination)

  /** `page || 1`, `limit || 20`. */
  function PageOf(q: TodoQuery): (p: nat)
    ensures p >= 1 && (q.page > 0 ==> p == q.page)
  {
    if q.page == 0 then 1 else q.page
  }

  function LimitOf(q: TodoQuery): (l: nat)
    ensures l >= 1 && (q.limit > 0 ==> l == q.limit)
  {
    if q.limit == 0 then 20 else q.limit
  }

  /** The page of `getTodosByUserId`. */
  function ListTodos(users: seq<UserRow>, todos: seq<TodoRow>, uid: string, q: TodoQuery, cast: string -> int): TodoPage
  {
    var matching := Matching(users, todos, uid, q, cast);
    var page := PageOf(q);
    var limit := LimitOf(q);
    var totalPages := CeilDiv(|matching|, limit);
    TodoPage(Window(SortRows(matching, q.sortBy, q.sortOrder), Offset(page, limit), limit),
             Pagination(page, limit, |matching|, totalPages, page < totalPages))
  }

  /** `page < ceil(total / limit)` says that rows remain after this page. */
  lemma HasMoreIff(page: nat, limit: nat, total: nat)
    requires page >= 1 && limit >= 1
    ensures page < CeilDiv(total, limit) <==> page * limit < total
  {
    var c := CeilDiv(total, limit);
    if page < c {
      MulMonotone(page, c - 1, limit);
    } else {
      MulMonotone(c, page, limit);
    }
  }

  /** Multiplying by the same factor keeps the order. */
  lemma MulMonotone(a: nat, b: nat, d: nat)
    requires a <= b
    ensures a * d <= b * d
  {
    assert b * d == a * d + (b - a) * d;
  }

  /** What the page holds: at most `limit` rows, all of them todos the uid may
      see that pass the filters, in the requested order, namely the window of
      the sorted matches at the page's offset; the total counts every match, and
      `hasMore` tells whether rows lie beyond this page. */
  lemma PageContents(users: seq<UserRow>, todos: seq<TodoRow>, uid: string, q: TodoQuery, cast: string -> int)
    ensures var r := ListTodos(users, todos, uid, q, cast);
      && r.todos == Window(SortRows(Matching(users, todos, uid, q, cast), q.sortBy, q.sortOrder),
                           Offset(PageOf(q), LimitOf(q)), LimitOf(q))
      && r.pagination.total == |Matching(users, todos, uid, q, cast)|
      && r.pagination.page == PageOf(q) && r.pagination.limit == LimitOf(q)
      && |r.todos| <= r.pagination.limit
      && Sorted(r.todos, q.sortBy, q.sortOrder)
      && (forall t :: t in r.todos ==> t in todos && VisibleTo(users, t, uid) && FilterMatch(q, t, cast))
      && (r.pagination.hasMore <==> r.pagination.page * r.pagination.limit < r.pagination.total)
  {
    var matching := Matching(users, todos, uid, q, cast);
    var sorted := SortRows(matching, q.sortBy, q.sortOrder);
    var page := Window(sorted, Offset(PageOf(q), LimitOf(q)), LimitOf(q));
    assert ListTodos(users, todos, uid, q, cast).todos == page;
    HasMoreIff(PageOf(q), LimitOf(q), |matching|);
    WindowOfSorted(sorted, Offset(PageOf(q), LimitOf(q)), LimitOf(q), q.sortBy, q.sortOrder);
    forall t | t in page ensures t in todos && VisibleTo(users, t, uid) && FilterMatch(q, t, cast) {
      assert t in multiset(sorted);
      MatchingIsVisible(users, todos, uid, q, cast, t);
    }
  }

  /** A window of a sorted list is sorted and holds only rows of that list. */
  lemma WindowOfSorted(rows: seq<TodoRow>, offset: nat, limit: nat, c: SortColumn, o: SortOrder)
    requires Sorted(rows, c, o)
    ensures Sorted(Window(rows, offset, limit), c, o)
    ensures forall t :: t in Window(rows, offset, limit) ==> t in rows
  {
    var from := if offset < |rows| then offset else |rows|;
    var to := if offset + limit < |rows| then offset + limit else |rows|;
    var w := Window(rows, offset, limit);
    assert w == rows[from..to];
    forall i, j | 0 <= i < j < |w| ensures Before(w[i], w[j], c, o) {
      assert w[i] == rows[from + i] && w[j] == rows[from + j];
    }
    forall t | t in w ensures t in rows {
      var i :| 0 <= i < |w| && w[i] == t;
      assert rows[from + i] == t;
    }
  }

  /** A page past the last one is empty but still reports the total. */
  lemma PastLastPage(users: seq<UserRow>, todos: seq<TodoRow>, uid: string, q: TodoQuery, cast: string -> int)
    requires Offset(PageOf(q), LimitOf(q)) >= |Matching(users, todos, uid, q, cast)|
    ensures ListTodos(users, todos, uid, q, cast).todos == []
    ensures !ListTodos(users, todos, uid, q, cast).pagination.hasMore
  {
    HasMoreIff(PageOf(q), LimitOf(q), |Matching(users, todos, uid, q, cast)|);
  }

  /** Every page before the last is full. */
  lemma EarlyPagesFull(users: seq<UserRow>, todos: seq<TodoRow>, uid: string, q: TodoQuery, cast: string -> int)
    requires ListTodos(users, todos, uid, q, cast).pagination.hasMore
    ensures |ListTodos(users, todos, uid, q, cast).todos| == LimitOf(q)
  {
    HasMoreIff(PageOf(q), LimitOf(q), |Matching(users, todos, uid, q, cast)|);
  }

  // ---------------------------------------------------------------------
  // getTodosByUserId
  // ---------------------------------------------------------------------

  /** The rows of the join that every condition accepts. */
  function Select(joined: seq<Joined>, conds: seq<Cond>, values: seq<Param>, cast: string -> int): seq<TodoRow>
  {
    SelectRows(joined, (j: Joined) => AllHold(conds, values, j, cast))
  }

  /** `getTodosByUserId`: builds the WHERE clause, counts the matching rows,
      computes the page figures, binds LIMIT and OFFSET to the two placeholders
      after the filter values, and fetches that page. */
  method GetTodosByUserId(db: Database, uid: string, q: TodoQuery, cast: string -> int) returns (result: TodoPage)
    ensures result == ListTodos(db.users, db.todos, uid, q, cast)
  {
    var conds, values, paramCount := BuildTodoWhere(uid, q);
    var joined := InnerJoin(db.users, db.todos);
    var matching := Select(joined, conds, values, cast);
    SameSelection(joined, (j: Joined) => AllHold(conds, values, j, cast), (j: Joined) => Selected(uid, q, j, cast));
    assert matching == Matching(db.users, db.todos, uid, q, cast);
    var total := |matching|;
    var page := if q.page == 0 then 1 else q.page;
    var limit := if q.limit == 0 then 20 else q.limit;
    assert page == PageOf(q) && limit == LimitOf(q);
    var offset := Offset(page, limit);
    var totalPages := CeilDiv(total, limit);
    values := values + [PInt(limit), PInt(offset)];
    assert values[paramCount - 1] == PInt(limit) && values[paramCount] == PInt(offset);
    var rows := Window(SortRows(matching, q.sortBy, q.sortOrder), values[paramCount].n, values[paramCount - 1].n);
    result := TodoPage(rows, Pagination(page, limit, total, totalPages, page < totalPages));
  }
}
