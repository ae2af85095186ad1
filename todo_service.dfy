/** The todo operations of backend/src/services/todo.service.ts that create,
    read, change and delete single rows. The database's text-to-timestamp cast
    is a parameter `cast`, and the clock reading `NOW()` a parameter `now`. */
module TodoService {
  import opened Base
  import opened Zod
  import opened Errors
  import opened TodoSchema
  import opened Store

  // ---------------------------------------------------------------------
  // createTodo
  // ---------------------------------------------------------------------

  /** `value || null` on a nullish text: undefined, null and the empty text are all stored as null. */
  function TextOrNull(v: Nullish<string>): (r: Option<string>)
    ensures r.Some? <==> v.Given? && v.value != []
    ensures r.Some? ==> r.value == v.value
  {
    if v.Given? && v.value != "" then Some(v.value) else None
  }

  /** The same for a timestamp sent as text and cast by the database. */
  function TimeOrNull(v: Nullish<string>, cast: string -> int): (r: Option<int>)
    ensures r.Some? <==> v.Given? && v.value != []
    ensures r.Some? ==> r.value == cast(v.value)
  {
    if v.Given? && v.value != "" then Some(cast(v.value)) else None
  }

  /** `MAX(position)` over the rows of one owner. */
  function MaxPosition(todos: seq<TodoRow>, owner: nat): (m: Option<int>)
    ensures m.None? <==> forall k :: 0 <= k < |todos| ==> todos[k].userId != owner
    ensures m.Some? ==> forall k :: 0 <= k < |todos| && todos[k].userId == owner ==> todos[k].position <= m.value
    ensures m.Some? ==> exists k :: 0 <= k < |todos| && todos[k].userId == owner && todos[k].position == m.value
    decreases |todos|
  {
    if todos == [] then None
    else
      var rest := MaxPosition(todos[1..], owner);
      assert forall k :: 0 < k < |todos| ==> todos[k] == todos[1..][k - 1];
      if todos[0].userId != owner then rest
      else if rest.Some? && rest.value > todos[0].position then rest
      else Some(todos[0].position)
  }

  /** The position subquery: one past the largest position among the rows of
      the user with that uid, soft-deleted rows (and a soft-deleted user)
      included; 1 when there are none. */
  function NextPosition(users: seq<UserRow>, todos: seq<TodoRow>, uid: string): (p: int)
    ensures forall k :: 0 <= k < |todos| && UserIdByUid(users, uid, false) == Some(todos[k].userId) ==> todos[k].position < p
    ensures (forall k :: 0 <= k < |todos| ==> UserIdByUid(users, uid, false) != Some(todos[k].userId)) ==> p == 1
  {
    match UserIdByUid(users, uid, false)
    case None => 1
    case Some(id) =>
      match MaxPosition(todos, id)
      case None => 1
      case Some(m) => m + 1
  }

  /** The completion time a new row gets. */
  function CompletionStamp(status: Status, now: int): (c: Option<int>)
    ensures c.Some? <==> status == Completed
  {
    if status == Completed then Some(now) else None
  }

  /** The row the insert proposes; the owner is the live user with that uid. */
  function ProposedRow(users: seq<UserRow>, todos: seq<TodoRow>, uid: string, input: CreateTodoInput,
                       now: int, cast: string -> int, completedAt: Option<int>): TodoRow
  {
    var owner := UserIdByUid(users, uid, true);
    TodoRow(FreshId(TodoIds(todos)), if owner.Some? then owner.value else 0, input.title,
            TextOrNull(input.description), input.status, input.priority, TimeOrNull(input.dueDate, cast),
            completedAt, NextPosition(users, todos, uid), if input.tags.Some? then input.tags.value else [],
            input.starred, TimeOrNull(input.reminderAt, cast), now, now, None)
  }

  /** The insert: the proposed row, or the error the database raises for it,
      rethrown as a database error. */
  function InsertTodo(users: seq<UserRow>, todos: seq<TodoRow>, uid: string, input: CreateTodoInput,
                      now: int, cast: string -> int, completedAt: Option<int>): (r: Result<TodoRow, AppError>)
    ensures r.Ok? <==> UserIdByUid(users, uid, true).Some? && TodoFits(ProposedRow(users, todos, uid, input, now, cast, completedAt))
    ensures r.Ok? ==> r.value == ProposedRow(users, todos, uid, input, now, cast, completedAt)
    ensures r.Err? ==> r.error.cls == DatabaseErrorClass && r.error.statusCode == 500
  {
    var row := ProposedRow(users, todos, uid, input, now, cast, completedAt);
    match TodoRowError(UserIdByUid(users, uid, true), row)
    case Some(e) => Err(DatabaseError(Some("Failed to create todo: " + e.message)))
    case None => Ok(row)
  }

  /** `createTodo` as written: the insert does not name `completed_at`, so it is NULL. */
  function CreateTodoAsWritten(users: seq<UserRow>, todos: seq<TodoRow>, uid: string, input: CreateTodoInput,
                               now: int, cast: string -> int): (r: Result<TodoRow, AppError>)
    ensures r.Ok? ==> r.value.completedAt.None?
  {
    InsertTodo(users, todos, uid, input, now, cast, None)
  }

  const CompletedLogicMessage := "Failed to create todo: " + CheckViolation("todos", "todo_completed_logic").message

  /** As written, a todo created with status completed never reaches the table:
      its NULL completion time breaks `todo_completed_logic`, and the caller gets
      a 500 database error although the request passed validation. */
  lemma CompletedCreateRefused(users: seq<UserRow>, todos: seq<TodoRow>, uid: string, input: CreateTodoInput,
                               now: int, cast: string -> int)
    requires UserIdByUid(users, uid, true).Some?
    requires |input.title| <= 500 && TitleNotBlank(input.title) && Int4(NextPosition(users, todos, uid))
    requires input.status == Completed
    ensures CreateTodoAsWritten(users, todos, uid, input, now, cast) == Err(DatabaseError(Some(CompletedLogicMessage)))
    ensures ErrorHandler(AppThrown(CreateTodoAsWritten(users, todos, uid, input, now, cast).error), None, None).statusCode == 500
  {
    var row := ProposedRow(users, todos, uid, input, now, cast, None);
    assert !CompletedLogic(row);
    assert TodoRowError(UserIdByUid(users, uid, true), row) == Some(CheckViolation("todos", "todo_completed_logic"));
  }

  /** `createTodo` as intended: a todo created as completed is stamped with the
      insert time, like an update to completed is. */
  function CreateTodoResult(users: seq<UserRow>, todos: seq<TodoRow>, uid: string, input: CreateTodoInput,
                            now: int, cast: string -> int): (r: Result<TodoRow, AppError>)
    ensures r.Ok? <==> UserIdByUid(users, uid, true).Some? && |input.title| <= 500 && TitleNotBlank(input.title)
                       && Int4(NextPosition(users, todos, uid))
    ensures r.Ok? ==> CompletedLogic(r.value) && r.value.completedAt == CompletionStamp(input.status, now)
  {
    InsertTodo(users, todos, uid, input, now, cast, CompletionStamp(input.status, now))
  }

  /** What an accepted create stores: the live owner, the fields as given with
      falsy texts as null and absent tags as empty, a fresh id, both timestamps
      at `now`, and a position above every earlier row of that owner. */
  lemma CreateTodoStores(users: seq<UserRow>, todos: seq<TodoRow>, uid: string, input: CreateTodoInput,
                         now: int, cast: string -> int)
    requires UsersValid(users)
    requires CreateTodoResult(users, todos, uid, input, now, cast).Ok?
    ensures var t := CreateTodoResult(users, todos, uid, input, now, cast).value;
      && Some(t.userId) == UserIdByUid(users, uid, true)
      && t.title == input.title && t.status == input.status && t.priority == input.priority
      && t.starred == input.starred && t.deletedAt.None? && t.createdAt == now && t.updatedAt == now
      && (t.description.Some? <==> input.description.Given? && input.description.value != [])
      && (t.dueDate.Some? <==> input.dueDate.Given? && input.dueDate.value != [])
      && (input.tags.None? ==> t.tags == [])
      && (forall k :: 0 <= k < |todos| ==> todos[k].id != t.id)
      && (forall k :: 0 <= k < |todos| && todos[k].userId == t.userId ==> todos[k].position < t.position)
  {
    UidNamesOneUser(users, uid);
  }

  /** Without a live user for the uid the insert has a NULL owner: the caller
      gets a database error, never a not-found error. */
  lemma NoOwnerIsDatabaseError(users: seq<UserRow>, todos: seq<TodoRow>, uid: string, input: CreateTodoInput,
                               now: int, cast: string -> int)
    requires UserIdByUid(users, uid, true).None?
    ensures var r := CreateTodoResult(users, todos, uid, input, now, cast);
      r.Err? && r.error.cls == DatabaseErrorClass && r.error.statusCode == 500
  {
  }

  /** A title of blanks passes the schema trimmed to nothing, and the
      database's title check then refuses the row. */
  lemma BlankTitleRefused(users: seq<UserRow>, todos: seq<TodoRow>, uid: string, input: CreateTodoInput,
                          now: int, cast: string -> int)
    requires input.title == []
    ensures CreateTodoResult(users, todos, uid, input, now, cast).Err?
  {
  }

  /** `createTodo`: appends the row, or changes nothing and reports the database error. */
  method CreateTodo(db: Database, uid: string, input: CreateTodoInput, now: int, cast: string -> int)
    returns (r: Result<TodoRow, AppError>)
    requires db.Valid()
    modifies db
    ensures db.Valid()
    ensures r == CreateTodoResult(old(db.users), old(db.todos), uid, input, now, cast)
    ensures db.users == old(db.users)
    ensures db.todos == if r.Ok? then old(db.todos) + [r.value] else old(db.todos)
  {
    r := CreateTodoResult(db.users, db.todos, uid, input, now, cast);
    if r.Ok? {
      var row := r.value;
      AppendTodoValid(db.users, db.todos, row);
      db.todos := db.todos + [row];
    }
  }

  // ---------------------------------------------------------------------
  // getTodoById
  // ---------------------------------------------------------------------

  /** The index of a row satisfying `p`. */
  function FindRow(todos: seq<TodoRow>, p: TodoRow -> bool): (i: Option<nat>)
    ensures i.Some? ==> i.value < |todos| && p(todos[i.value])
    ensures i.None? ==> forall k :: 0 <= k < |todos| ==> !p(todos[k])
    decreases |todos|
  {
    if todos == [] then None
    else if p(todos[|todos| - 1]) then Some(|todos| - 1)
    else
      var i := FindRow(todos[..|todos| - 1], p);
      assert forall k :: 0 <= k < |todos| - 1 ==> todos[..|todos| - 1][k] == todos[k];
      i
  }

  /** The row with that id that the uid may see: both it and its owner live. */
  function VisibleIndex(users: seq<UserRow>, todos: seq<TodoRow>, id: nat, uid: string): (i: Option<nat>)
    ensures i.Some? ==> i.value < |todos| && todos[i.value].id == id && VisibleTo(users, todos[i.value], uid)
    ensures i.None? <==> forall k :: 0 <= k < |todos| ==> !(todos[k].id == id && VisibleTo(users, todos[k], uid))
  {
    FindRow(todos, (t: TodoRow) => t.id == id && VisibleTo(users, t, uid))
  }

  /** `getTodoById`: the row when it exists, is live, and belongs to a live user with that uid. */
  function GetTodoById(users: seq<UserRow>, todos: seq<TodoRow>, id: nat, uid: string): (r: Option<TodoRow>)
    ensures r.Some? <==> exists k :: 0 <= k < |todos| && todos[k].id == id && VisibleTo(users, todos[k], uid)
    ensures r.Some? ==> r.value in todos && r.value.id == id && VisibleTo(users, r.value, uid)
  {
    match VisibleIndex(users, todos, id, uid)
    case None => None
    case Some(i) => Some(todos[i])
  }

  /** Owners have distinct uids, so no todo is visible to two different uids. */
  lemma OnlyOwnerSees(users: seq<UserRow>, t: TodoRow, uid1: string, uid2: string)
    requires UsersValid(users)
    requires VisibleTo(users, t, uid1) && VisibleTo(users, t, uid2)
    ensures uid1 == uid2
  {
    var k1 :| 0 <= k1 < |users| && users[k1].id == t.userId && users[k1].firebaseUid == uid1 && users[k1].deletedAt.None?;
    var k2 :| 0 <= k2 < |users| && users[k2].id == t.userId && users[k2].firebaseUid == uid2 && users[k2].deletedAt.None?;
  }

  // ---------------------------------------------------------------------
  // updateTodo
  // ---------------------------------------------------------------------

  /** `undefined` fields are left alone; every other field is written. */
  predicate NothingToChange(u: UpdateTodoInput)
  {
    u.title.None? && u.description.Undefined? && u.status.None? && u.priority.None? && u.dueDate.Undefined?
    && u.tags.None? && u.starred.None? && u.reminderAt.Undefined? && u.position.None?
  }

  /** The written fields of an update; `completed_at` follows a written status:
      now for completed, null for any other, untouched when no status is sent. */
  function Changes(row: TodoRow, u: UpdateTodoInput, now: int, cast: string -> int): TodoRow
  {
    row.(
      title := if u.title.Some? then u.title.value else row.title,
      description := (match u.description case Undefined => row.description case Null => None case Given(s) => Some(s)),
      status := if u.status.Some? then u.status.value else row.status,
      completedAt := if u.status == Some(Completed) then Some(now) else if u.status.Some? then None else row.completedAt,
      priority := if u.priority.Some? then u.priority.value else row.priority,
      dueDate := (match u.dueDate case Undefined => row.dueDate case Null => None case Given(s) => Some(cast(s))),
      tags := if u.tags.Some? then u.tags.value else row.tags,
      starred := if u.starred.Some? then u.starred.value else row.starred,
      reminderAt := (match u.reminderAt case Undefined => row.reminderAt case Null => None case Given(s) => Some(cast(s))),
      position := if u.position.Some? then u.position.value else row.position)
  }

  /** The updated row: the written fields, and `updated_at` refreshed. */
  function Updated(row: TodoRow, u: UpdateTodoInput, now: int, cast: string -> int): TodoRow
  {
    Changes(row, u, now, cast).(updatedAt := now)
  }

  /** An update keeps `todo_completed_logic` whenever the row satisfied it. */
  lemma UpdateKeepsCompletedLogic(row: TodoRow, u: UpdateTodoInput, now: int, cast: string -> int)
    requires CompletedLogic(row)
    ensures CompletedLogic(Updated(row, u, now, cast))
  {
  }

  /** Sending the same update twice at the same time gives the same row. */
  lemma UpdateIdempotent(row: TodoRow, u: UpdateTodoInput, now: int, cast: string -> int)
    ensures Updated(Updated(row, u, now, cast), u, now, cast) == Updated(row, u, now, cast)
  {
  }

  /** Only the identity, owner, creation time and deletion mark are never written. */
  lemma UpdateKeepsIdentity(row: TodoRow, u: UpdateTodoInput, now: int, cast: string -> int)
    ensures var r := Updated(row, u, now, cast);
      r.id == row.id && r.userId == row.userId && r.createdAt == row.createdAt && r.deletedAt == row.deletedAt
    ensures NothingToChange(u) ==> Updated(row, u, now, cast) == row.(updatedAt := now)
  {
  }

  /** A column of the SET list. */
  datatype Column = TitleCol | DescriptionCol | StatusCol | PriorityCol | DueDateCol | TagsCol | StarredCol | ReminderCol | PositionCol

  /** One entry of the SET list: a column from a placeholder, or a fixed expression. */
  datatype Assignment = Assign(column: Column, k: nat) | CompletedAtNow | CompletedAtNull | UpdatedAtNow

  /** The placeholder numbers of a SET list, in order. */
  function Placeholders(fields: seq<Assignment>): seq<nat>
    decreases |fields|
  {
    if fields == [] then []
    else
      var init := Placeholders(fields[..|fields| - 1]);
      match fields[|fields| - 1]
      case Assign(_, k) => init + [k]
      case _ => init
  }

  /** What the database does with one column value; a value of the wrong kind
      leaves the row as it is (the builder never produces one). */
  function SetColumn(row: TodoRow, c: Column, p: Param, cast: string -> int): TodoRow
  {
    match c
    case TitleCol => if p.PText? then row.(title := p.s) else row
    case DescriptionCol => if p.PText? then row.(description := Some(p.s)) else if p.PNull? then row.(description := None) else row
    case StatusCol => if p.PText? && StatusFromName(p.s).Some? then row.(status := StatusFromName(p.s).value) else row
    case PriorityCol => if p.PText? && PriorityFromName(p.s).Some? then row.(priority := PriorityFromName(p.s).value) else row
    case DueDateCol => if p.PText? then row.(dueDate := Some(cast(p.s))) else if p.PNull? then row.(dueDate := None) else row
    case TagsCol => if p.PTexts? then row.(tags := p.items) else row
    case StarredCol => if p.PBool? then row.(starred := p.b) else row
    case ReminderCol => if p.PText? then row.(reminderAt := Some(cast(p.s))) else if p.PNull? then row.(reminderAt := None) else row
    case PositionCol => if p.PInt? then row.(position := p.n) else row
  }

  function ApplyOne(row: TodoRow, a: Assignment, values: seq<Param>, now: int, cast: string -> int): TodoRow
  {
    match a
    case Assign(c, k) => if 1 <= k <= |values| then SetColumn(row, c, values[k - 1], cast) else row
    case CompletedAtNow => row.(completedAt := Some(now))
    case CompletedAtNull => row.(completedAt := None)
    case UpdatedAtNow => row.(updatedAt := now)
  }

  /** `SET a1, a2, ...` with the placeholders bound to `values`: the columns are
      distinct, so applying the entries one after another is the same. */
  function ApplySet(fields: seq<Assignment>, values: seq<Param>, row: TodoRow, now: int, cast: string -> int): TodoRow
    decreases |fields|
  {
    if fields == [] then row
    else ApplyOne(ApplySet(fields[..|fields| - 1], values, row, now, cast), fields[|fields| - 1], values, now, cast)
  }

  /** Values bound after the last placeholder of a SET list do not change it. */
  lemma {:induction false} ApplySetExtend(fields: seq<Assignment>, values: seq<Param>, extra: seq<Param>,
                                          row: TodoRow, now: int, cast: string -> int)
    requires forall i :: 0 <= i < |Placeholders(fields)| ==> Placeholders(fields)[i] <= |values|
    ensures ApplySet(fields, values + extra, row, now, cast) == ApplySet(fields, values, row, now, cast)
    decreases |fields|
  {
    if fields != [] {
      var init := fields[..|fields| - 1];
      var last := fields[|fields| - 1];
      assert Placeholders(fields) == Placeholders(init) + (if last.Assign? then [last.k] else []);
      assert forall i :: 0 <= i < |Placeholders(init)| ==> Placeholders(init)[i] == Placeholders(fields)[i];
      ApplySetExtend(init, values, extra, row, now, cast);
      if last.Assign? {
        assert Placeholders(fields)[|Placeholders(fields)| - 1] == last.k;
        if 1 <= last.k {
          assert (values + extra)[last.k - 1] == values[last.k - 1];
        }
      }
    }
  }

  /** The input with only its first `j` fields (in the order the builder reads them). */
  function Truncate(u: UpdateTodoInput, j: nat): UpdateTodoInput
  {
    UpdateTodoInput(
      if j > 0 then u.title else None,
      if j > 1 then u.description else Undefined,
      if j > 2 then u.status else None,
      if j > 3 then u.priority else None,
      if j > 4 then u.dueDate else Undefined,
      if j > 5 then u.tags else None,
      if j > 6 then u.starred else None,
      if j > 7 then u.reminderAt else Undefined,
      if j > 8 then u.position else None)
  }

  /** The builder's state after reading the first `j` fields: consecutive
      placeholders, and a SET list that writes exactly those fields. */
  ghost predicate Built(fields: seq<Assignment>, values: seq<Param>, u: UpdateTodoInput, j: nat)
  {
    && Placeholders(fields) == Iota(|values|)
    && (fields == [] <==> NothingToChange(Truncate(u, j)))
    && (forall row, now, cast :: ApplySet(fields, values, row, now, cast) == Changes(row, Truncate(u, j), now, cast))
  }

  /** The column the builder reads at stage `j`. */
  function ColumnAt(j: nat): Column
  {
    if j == 0 then TitleCol else if j == 1 then DescriptionCol else if j == 2 then StatusCol
    else if j == 3 then PriorityCol else if j == 4 then DueDateCol else if j == 5 then TagsCol
    else if j == 6 then StarredCol else if j == 7 then ReminderCol else PositionCol
  }

  /** The field read at stage `j` is not undefined. */
  predicate Supplied(u: UpdateTodoInput, j: nat)
  {
    if j == 0 then u.title.Some? else if j == 1 then !u.description.Undefined? else if j == 2 then u.status.Some?
    else if j == 3 then u.priority.Some? else if j == 4 then !u.dueDate.Undefined? else if j == 5 then u.tags.Some?
    else if j == 6 then u.starred.Some? else if j == 7 then !u.reminderAt.Undefined? else j == 8 && u.position.Some?
  }

  function TextOrNullParam(v: Nullish<string>): Param
  {
    match v
    case Given(s) => PText(s)
    case _ => PNull
  }

  /** The value pushed at stage `j`. */
  function ParamAt(u: UpdateTodoInput, j: nat): Param
    requires Supplied(u, j)
  {
    if j == 0 then PText(u.title.value) else if j == 1 then TextOrNullParam(u.description)
    else if j == 2 then PText(StatusName(u.status.value)) else if j == 3 then PText(PriorityName(u.priority.value))
    else if j == 4 then TextOrNullParam(u.dueDate) else if j == 5 then PTexts(u.tags.value)
    else if j == 6 then PBool(u.starred.value) else if j == 7 then TextOrNullParam(u.reminderAt)
    else PInt(u.position.value)
  }

  /** An undefined field adds nothing. */
  lemma Skipped(fields: seq<Assignment>, values: seq<Param>, u: UpdateTodoInput, j: nat)
    requires j < 9 && Built(fields, values, u, j) && !Supplied(u, j)
    ensures Built(fields, values, u, j + 1)
  {
    assert Truncate(u, j) == Truncate(u, j + 1);
  }

  /** Writing the value of stage `j` into its column is the change that field asks for. */
  lemma StageWrites(u: UpdateTodoInput, j: nat, row: TodoRow, now: int, cast: string -> int)
    requires j < 9 && j != 2 && Supplied(u, j)
    ensures SetColumn(Changes(row, Truncate(u, j), now, cast), ColumnAt(j), ParamAt(u, j), cast)
         == Changes(row, Truncate(u, j + 1), now, cast)
  {
    match j
    case 0 => TitleStageWrites(u, row, now, cast);
    case 1 => DescriptionStageWrites(u, row, now, cast);
    case 3 => PriorityStageWrites(u, row, now, cast);
    case 4 => DueDateStageWrites(u, row, now, cast);
    case 5 => TagsStageWrites(u, row, now, cast);
    case 6 => StarredStageWrites(u, row, now, cast);
    case 7 => ReminderStageWrites(u, row, now, cast);
    case 8 => PositionStageWrites(u, row, now, cast);
  }

  /** `StageWrites` for the title. */
  lemma TitleStageWrites(u: UpdateTodoInput, row: TodoRow, now: int, cast: string -> int)
    requires u.title.Some?
    ensures SetColumn(Changes(row, Truncate(u, 0), now, cast), TitleCol, PText(u.title.value), cast)
         == Changes(row, Truncate(u, 1), now, cast)
  {
  }

  /** `StageWrites` for the description. */
  lemma DescriptionStageWrites(u: UpdateTodoInput, row: TodoRow, now: int, cast: string -> int)
    requires !u.description.Undefined?
    ensures SetColumn(Changes(row, Truncate(u, 1), now, cast), DescriptionCol, TextOrNullParam(u.description), cast)
         == Changes(row, Truncate(u, 2), now, cast)
  {
  }

  /** `StageWrites` for the priority. */
  lemma PriorityStageWrites(u: UpdateTodoInput, row: TodoRow, now: int, cast: string -> int)
    requires u.priority.Some?
    ensures SetColumn(Changes(row, Truncate(u, 3), now, cast), PriorityCol, PText(PriorityName(u.priority.value)), cast)
         == Changes(row, Truncate(u, 4), now, cast)
  {
    EnumCastRoundTrip(Pending, u.priority.value);
  }

  /** `StageWrites` for the due date. */
  lemma DueDateStageWrites(u: UpdateTodoInput, row: TodoRow, now: int, cast: string -> int)
    requires !u.dueDate.Undefined?
    ensures SetColumn(Changes(row, Truncate(u, 4), now, cast), DueDateCol, TextOrNullParam(u.dueDate), cast)
         == Changes(row, Truncate(u, 5), now, cast)
  {
  }

  /** `StageWrites` for the tags. */
  lemma TagsStageWrites(u: UpdateTodoInput, row: TodoRow, now: int, cast: string -> int)
    requires u.tags.Some?
    ensures SetColumn(Changes(row, Truncate(u, 5), now, cast), TagsCol, PTexts(u.tags.value), cast)
         == Changes(row, Truncate(u, 6), now, cast)
  {
  }

  /** `StageWrites` for the star. */
  lemma StarredStageWrites(u: UpdateTodoInput, row: TodoRow, now: int, cast: string -> int)
    requires u.starred.Some?
    ensures SetColumn(Changes(row, Truncate(u, 6), now, cast), StarredCol, PBool(u.starred.value), cast)
         == Changes(row, Truncate(u, 7), now, cast)
  {
  }

  /** `StageWrites` for the reminder. */
  lemma ReminderStageWrites(u: UpdateTodoInput, row: TodoRow, now: int, cast: string -> int)
    requires !u.reminderAt.Undefined?
    ensures SetColumn(Changes(row, Truncate(u, 7), now, cast), ReminderCol, TextOrNullParam(u.reminderAt), cast)
         == Changes(row, Truncate(u, 8), now, cast)
  {
  }

  /** `StageWrites` for the position. */
  lemma PositionStageWrites(u: UpdateTodoInput, row: TodoRow, now: int, cast: string -> int)
    requires u.position.Some?
    ensures SetColumn(Changes(row, Truncate(u, 8), now, cast), PositionCol, PInt(u.position.value), cast)
         == Changes(row, Truncate(u, 9), now, cast)
  {
  }

  /** Pushing `column = $n` with the n-th value. */
  lemma Pushed(fields: seq<Assignment>, values: seq<Param>, u: UpdateTodoInput, j: nat)
    requires j < 9 && j != 2 && Built(fields, values, u, j) && Supplied(u, j)
    ensures Built(fields + [Assign(ColumnAt(j), |values| + 1)], values + [ParamAt(u, j)], u, j + 1)
  {
    var f := fields + [Assign(ColumnAt(j), |values| + 1)];
    var v := values + [ParamAt(u, j)];
    assert f[..|f| - 1] == fields;
    assert Placeholders(f) == Iota(|v|);
    forall row, now, cast
      ensures ApplySet(f, v, row, now, cast) == Changes(row, Truncate(u, j + 1), now, cast)
    {
      ApplySetExtend(fields, values, [ParamAt(u, j)], row, now, cast);
      StageWrites(u, j, row, now, cast);
    }
  }

  /** The fixed `completed_at` entry that follows a written status. */
  function CompletionEntry(st: Status): Assignment
  {
    if st == Completed then CompletedAtNow else CompletedAtNull
  }

  /** Pushing `status = $n` and then the `completed_at` entry. */
  lemma PushedStatus(fields: seq<Assignment>, values: seq<Param>, u: UpdateTodoInput)
    requires Built(fields, values, u, 2) && u.status.Some?
    ensures Built(fields + [Assign(StatusCol, |values| + 1), CompletionEntry(u.status.value)],
                  values + [PText(StatusName(u.status.value))], u, 3)
  {
    var st := u.status.value;
    var f1 := fields + [Assign(StatusCol, |values| + 1)];
    var f := f1 + [CompletionEntry(st)];
    var v := values + [PText(StatusName(st))];
    assert f == fields + [Assign(StatusCol, |values| + 1), CompletionEntry(st)];
    assert f1[..|f1| - 1] == fields;
    assert f[..|f| - 1] == f1;
    assert Placeholders(f1) == Iota(|v|);
    EnumCastRoundTrip(st, Low);
    forall row, now, cast
      ensures ApplySet(f, v, row, now, cast) == Changes(row, Truncate(u, 3), now, cast)
    {
      ApplySetExtend(fields, values, [PText(StatusName(st))], row, now, cast);
    }
  }

  /** One block of the SET builder: when the field read at stage `j` is not
      undefined, add `column = $n` with the next placeholder and push its value. */
  method AddField(u: UpdateTodoInput, j: nat, fields: seq<Assignment>, values: seq<Param>, paramCount: nat)
    returns (fields': seq<Assignment>, values': seq<Param>, paramCount': nat)
    requires j < 9 && j != 2 && Built(fields, values, u, j) && paramCount == |values| + 1
    ensures Built(fields', values', u, j + 1) && paramCount' == |values'| + 1
    ensures fields' == if Supplied(u, j) then fields + [Assign(ColumnAt(j), paramCount)] else fields
    ensures values' == if Supplied(u, j) then values + [ParamAt(u, j)] else values
  {
    if Supplied(u, j) {
      Pushed(fields, values, u, j);
      fields' := fields + [Assign(ColumnAt(j), paramCount)];
      paramCount' := paramCount + 1;
      values' := values + [ParamAt(u, j)];
    } else {
      Skipped(fields, values, u, j);
      fields', values', paramCount' := fields, values, paramCount;
    }
  }

  /** The status block: `status = $n`, then `completed_at` set to now for a
      completed todo and to null for any other status. */
  method AddStatus(u: UpdateTodoInput, fields: seq<Assignment>, values: seq<Param>, paramCount: nat)
    returns (fields': seq<Assignment>, values': seq<Param>, paramCount': nat)
    requires Built(fields, values, u, 2) && paramCount == |values| + 1
    ensures Built(fields', values', u, 3) && paramCount' == |values'| + 1
    ensures fields' == if u.status.Some? then fields + [Assign(StatusCol, paramCount), CompletionEntry(u.status.value)] else fields
    ensures values' == if u.status.Some? then values + [PText(StatusName(u.status.value))] else values
  {
    if u.status.Some? {
      PushedStatus(fields, values, u);
      fields' := fields + [Assign(StatusCol, paramCount)];
      paramCount' := paramCount + 1;
      values' := values + [PText(StatusName(u.status.value))];
      if u.status.value == Completed {
        fields' := fields' + [CompletedAtNow];
      } else {
        fields' := fields' + [CompletedAtNull];
      }
      assert fields' == fields + [Assign(StatusCol, paramCount), CompletionEntry(u.status.value)];
    } else {
      Skipped(fields, values, u, 2);
      fields', values', paramCount' := fields, values, paramCount;
    }
  }

  /** The SET builder of `updateTodo`: title, description, status (with
      `completed_at`), priority, due date, tags, starred, reminder and position,
      in that order, each only when it is not undefined. */
  method BuildTodoSet(u: UpdateTodoInput) returns (fields: seq<Assignment>, values: seq<Param>, paramCount: nat)
    ensures Placeholders(fields) == Iota(|values|) && paramCount == |values| + 1
    ensures forall row, now, cast :: ApplySet(fields, values, row, now, cast) == Changes(row, u, now, cast)
    ensures fields == [] <==> NothingToChange(u)
  {
    fields, values, paramCount := [], [], 1;
    assert Built(fields, values, u, 0);
    fields, values, paramCount := AddField(u, 0, fields, values, paramCount);
    fields, values, paramCount := AddField(u, 1, fields, values, paramCount);
    fields, values, paramCount := AddStatus(u, fields, values, paramCount);
    fields, values, paramCount := AddField(u, 3, fields, values, paramCount);
    fields, values, paramCount := AddField(u, 4, fields, values, paramCount);
    fields, values, paramCount := AddField(u, 5, fields, values, paramCount);
    fields, values, paramCount := AddField(u, 6, fields, values, paramCount);
    fields, values, paramCount := AddField(u, 7, fields, values, paramCount);
    fields, values, paramCount := AddField(u, 8, fields, values, paramCount);
    assert Truncate(u, 9) == u;
  }

  const UpdateNotFound := "Todo not found or you do not have permission to update it"
  const NoFieldsMessage := "No fields to update"

  /** `updateTodo`: not found unless `getTodoById` sees the row; the plain
      error for an empty update and any database error come back as database
      errors; otherwise the updated row. */
  function UpdateTodoResult(users: seq<UserRow>, todos: seq<TodoRow>, id: nat, uid: string, u: UpdateTodoInput,
                            now: int, cast: string -> int): (r: Result<TodoRow, AppError>)
    ensures (r.Err? && r.error.cls == NotFoundErrorClass) <==> GetTodoById(users, todos, id, uid).None?
    ensures r.Err? && r.error.cls == NotFoundErrorClass ==> r.error.message == UpdateNotFound && r.error.statusCode == 404
    ensures r.Err? && r.error.cls != NotFoundErrorClass ==> r.error.cls == DatabaseErrorClass && r.error.statusCode == 500
    ensures GetTodoById(users, todos, id, uid).Some? && NothingToChange(u) ==>
              r == Err(DatabaseError(Some("Failed to update todo: " + NoFieldsMessage)))
    ensures r.Ok? ==> !NothingToChange(u) && TodoFits(r.value)
                      && r.value == Updated(GetTodoById(users, todos, id, uid).value, u, now, cast)
  {
    match VisibleIndex(users, todos, id, uid)
    case None => Err(NotFoundError(Some(UpdateNotFound)))
    case Some(i) =>
      if NothingToChange(u) then Err(DatabaseError(Some("Failed to update todo: " + NoFieldsMessage)))
      else
        var row := Updated(todos[i], u, now, cast);
        match TodoRowError(Some(row.userId), row)
        case Some(e) => Err(DatabaseError(Some("Failed to update todo: " + e.message)))
        case None => Ok(row)
  }

  /** On a consistent table, an update of a visible row that writes something
      succeeds exactly when the new title fits and is not blank and the new
      position is a 32-bit integer: `todo_completed_logic` always holds. */
  lemma UpdateAcceptedIff(users: seq<UserRow>, todos: seq<TodoRow>, id: nat, uid: string, u: UpdateTodoInput,
                          now: int, cast: string -> int)
    requires TodosValid(users, todos)
    requires GetTodoById(users, todos, id, uid).Some? && !NothingToChange(u)
    ensures var row := Updated(GetTodoById(users, todos, id, uid).value, u, now, cast);
      UpdateTodoResult(users, todos, id, uid, u, now, cast).Ok? <==>
        |row.title| <= 500 && Int4(row.position) && TitleNotBlank(row.title)
  {
    var old_ := GetTodoById(users, todos, id, uid).value;
    UpdateKeepsCompletedLogic(old_, u, now, cast);
  }

  /** Replacing a row by one with the same id and owner that passes the row checks. */
  lemma ReplaceTodoValid(users: seq<UserRow>, todos: seq<TodoRow>, i: nat, row: TodoRow)
    requires TodosValid(users, todos) && i < |todos|
    requires row.id == todos[i].id && row.userId == todos[i].userId && TodoFits(row)
    ensures TodosValid(users, todos[i := row])
  {
  }

  /** The SET list with `updated_at = NOW()` appended, and the id and uid bound after its values. */
  lemma StampedSet(fields: seq<Assignment>, values: seq<Param>, id: nat, uid: string, u: UpdateTodoInput,
                   row: TodoRow, now: int, cast: string -> int)
    requires Placeholders(fields) == Iota(|values|)
    requires ApplySet(fields, values, row, now, cast) == Changes(row, u, now, cast)
    ensures ApplySet(fields + [UpdatedAtNow], values + [PInt(id), PText(uid)], row, now, cast) == Updated(row, u, now, cast)
  {
    assert (fields + [UpdatedAtNow])[..|fields|] == fields;
    ApplySetExtend(fields, values, [PInt(id), PText(uid)], row, now, cast);
  }

  /** `updateTodo`: looks the row up, builds the SET list, binds the id and uid
      to the two placeholders after it, and writes the row the database accepts. */
  method UpdateTodo(db: Database, id: nat, uid: string, u: UpdateTodoInput, now: int, cast: string -> int)
    returns (r: Result<TodoRow, AppError>)
    requires db.Valid()
    modifies db
    ensures db.Valid()
    ensures r == UpdateTodoResult(old(db.users), old(db.todos), id, uid, u, now, cast)
    ensures db.users == old(db.users)
    ensures r.Err? ==> db.todos == old(db.todos)
    ensures r.Ok? ==> VisibleIndex(old(db.users), old(db.todos), id, uid).Some?
                      && db.todos == old(db.todos)[VisibleIndex(old(db.users), old(db.todos), id, uid).value := r.value]
  {
    var found := GetTodoById(db.users, db.todos, id, uid);
    if found.None? {
      r := Err(NotFoundError(Some(UpdateNotFound)));
      return;
    }
    var fields, values, paramCount := BuildTodoSet(u);
    if |fields| == 0 {
      r := Err(DatabaseError(Some("Failed to update todo: " + NoFieldsMessage)));
      return;
    }
    ghost var builtFields, builtValues := fields, values;
    fields := fields + [UpdatedAtNow];
    values := values + [PInt(id), PText(uid)];
    var idSlot := paramCount;
    var uidSlot := paramCount + 1;
    assert values[idSlot - 1] == PInt(id) && values[uidSlot - 1] == PText(uid);
    // WHERE t.id = $idSlot AND u.firebase_uid = $uidSlot, both rows live: the row found above.
    var target := VisibleIndex(db.users, db.todos, values[idSlot - 1].n, values[uidSlot - 1].s);
    var i := target.value;
    StampedSet(builtFields, builtValues, id, uid, u, db.todos[i], now, cast);
    var row := ApplySet(fields, values, db.todos[i], now, cast);
    match TodoRowError(Some(row.userId), row)
    case Some(e) =>
      r := Err(DatabaseError(Some("Failed to update todo: " + e.message)));
    case None =>
      ReplaceTodoValid(db.users, db.todos, i, row);
      db.todos := db.todos[i := row];
      r := Ok(row);
  }

  // ---------------------------------------------------------------------
  // softDeleteTodo and hardDeleteTodo
  // ---------------------------------------------------------------------

  const DeleteNotFound := "Todo not found or you do not have permission to delete it"

  /** With unique ids, once the row with that id is marked deleted nobody sees it. */
  lemma GoneAfterMark(users: seq<UserRow>, todos: seq<TodoRow>, i: nat, now: int, uid: string)
    requires TodosValid(users, todos) && i < |todos|
    ensures GetTodoById(users, todos[i := todos[i].(deletedAt := Some(now))], todos[i].id, uid).None?
  {
    var t := todos[i := todos[i].(deletedAt := Some(now))];
    assert forall k :: 0 <= k < |t| && k != i ==> t[k].id != todos[i].id;
  }

  /** `softDeleteTodo`: stamps `deleted_at` on the row `getTodoById` would
      return, or reports not found and changes nothing. */
  method SoftDeleteTodo(db: Database, id: nat, uid: string, now: int) returns (err: Option<AppError>)
    requires db.Valid()
    modifies db
    ensures db.Valid()
    ensures err.None? <==> GetTodoById(old(db.users), old(db.todos), id, uid).Some?
    ensures err.Some? ==> err.value == NotFoundError(Some(DeleteNotFound)) && db.todos == old(db.todos)
    ensures db.users == old(db.users)
    ensures err.None? ==> (VisibleIndex(old(db.users), old(db.todos), id, uid).Some?
      && var i := VisibleIndex(old(db.users), old(db.todos), id, uid).value;
         db.todos == old(db.todos)[i := old(db.todos)[i].(deletedAt := Some(now))])
    ensures GetTodoById(db.users, db.todos, id, uid).None?
  {
    var target := VisibleIndex(db.users, db.todos, id, uid);
    if target.None? {
      err := Some(NotFoundError(Some(DeleteNotFound)));
      return;
    }
    var i := target.value;
    GoneAfterMark(db.users, db.todos, i, now, uid);
    ReplaceTodoValid(db.users, db.todos, i, db.todos[i].(deletedAt := Some(now)));
    db.todos := db.todos[i := db.todos[i].(deletedAt := Some(now))];
    err := None;
  }

  /** The row a permanent delete removes: the id and the uid of its owner,
      with no liveness test on either. */
  function OwnedIndex(users: seq<UserRow>, todos: seq<TodoRow>, id: nat, uid: string): (i: Option<nat>)
    ensures i.Some? ==> i.value < |todos| && todos[i.value].id == id && OwnedBy(users, todos[i.value], uid)
    ensures i.None? <==> forall k :: 0 <= k < |todos| ==> !(todos[k].id == id && OwnedBy(users, todos[k], uid))
  {
    FindRow(todos, (t: TodoRow) => t.id == id && OwnedBy(users, t, uid))
  }

  /** Removing a row keeps the table consistent. */
  lemma RemoveTodoValid(users: seq<UserRow>, todos: seq<TodoRow>, i: nat, rest: seq<TodoRow>)
    requires TodosValid(users, todos) && i < |todos|
    requires rest == todos[..i] + todos[i + 1..]
    ensures TodosValid(users, rest)
    ensures forall k :: 0 <= k < |rest| ==> rest[k].id != todos[i].id
  {
    assert forall k :: 0 <= k < |rest| ==> rest[k] == if k < i then todos[k] else todos[k + 1];
  }

  /** `hardDeleteTodo`: removes the row for good, soft-deleted or not, when
      its owner has that uid; afterwards no row has that id. */
  method HardDeleteTodo(db: Database, id: nat, uid: string) returns (err: Option<AppError>)
    requires db.Valid()
    modifies db
    ensures db.Valid()
    ensures err.None? <==> exists k :: 0 <= k < |old(db.todos)| && old(db.todos)[k].id == id && OwnedBy(old(db.users), old(db.todos)[k], uid)
    ensures err.Some? ==> err.value == NotFoundError(Some(DeleteNotFound)) && db.todos == old(db.todos)
    ensures db.users == old(db.users)
    ensures err.None? ==> (OwnedIndex(old(db.users), old(db.todos), id, uid).Some?
      && var i := OwnedIndex(old(db.users), old(db.todos), id, uid).value;
         db.todos == old(db.todos)[..i] + old(db.todos)[i + 1..]
         && forall k :: 0 <= k < |db.todos| ==> db.todos[k].id != id)
  {
    var target := OwnedIndex(db.users, db.todos, id, uid);
    if target.None? {
      err := Some(NotFoundError(Some(DeleteNotFound)));
      return;
    }
    var i := target.value;
    RemoveTodoValid(db.users, db.todos, i, db.todos[..i] + db.todos[i + 1..]);
    db.todos := db.todos[..i] + db.todos[i + 1..];
    err := None;
  }
}
