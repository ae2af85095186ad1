/** The user operations of backend/src/services/user.service.ts over the users
    table. The clock reading `NOW()` is a parameter `now`. */
module UserService {
  import opened Base
  import opened Zod
  import opened Errors
  import opened Store
  import TodoService

  // ---------------------------------------------------------------------
  // Lookups
  // ---------------------------------------------------------------------

  /** The index of the first user satisfying `p`. */
  function FindUser(users: seq<UserRow>, p: UserRow -> bool): (i: Option<nat>)
    ensures i.Some? ==> i.value < |users| && p(users[i.value]) && forall k :: 0 <= k < i.value ==> !p(users[k])
    ensures i.None? <==> forall k :: 0 <= k < |users| ==> !p(users[k])
    decreases |users|
  {
    if users == [] then None
    else if p(users[0]) then Some(0)
    else
      var i := FindUser(users[1..], p);
      assert forall k :: 0 < k < |users| ==> users[k] == users[1..][k - 1];
      if i.Some? then Some(i.value + 1) else None
  }

  /** `WHERE firebase_uid = $1 AND deleted_at IS NULL`. */
  function LiveByUid(users: seq<UserRow>, uid: string): (i: Option<nat>)
    ensures i.Some? ==> i.value < |users| && users[i.value].firebaseUid == uid && users[i.value].deletedAt.None?
    ensures i.None? <==> forall k :: 0 <= k < |users| ==> !(users[k].firebaseUid == uid && users[k].deletedAt.None?)
  {
    FindUser(users, (u: UserRow) => u.firebaseUid == uid && u.deletedAt.None?)
  }

  /** `findUserByFirebaseUid`: the live user with that uid, or null. */
  function FindUserByFirebaseUid(users: seq<UserRow>, uid: string): (r: Option<UserRow>)
    ensures r.Some? <==> exists k :: 0 <= k < |users| && users[k].firebaseUid == uid && users[k].deletedAt.None?
    ensures r.Some? ==> r.value in users && r.value.firebaseUid == uid && r.value.deletedAt.None?
  {
    match LiveByUid(users, uid)
    case None => None
    case Some(i) => Some(users[i])
  }

  /** `findUserByEmail`: the live user with that email, or null. */
  function FindUserByEmail(users: seq<UserRow>, email: string): (r: Option<UserRow>)
    ensures r.Some? <==> exists k :: 0 <= k < |users| && users[k].email == email && users[k].deletedAt.None?
    ensures r.Some? ==> r.value in users && r.value.email == email && r.value.deletedAt.None?
  {
    match FindUser(users, (u: UserRow) => u.email == email && u.deletedAt.None?)
    case None => None
    case Some(i) => Some(users[i])
  }

  /** The uid names one user, so the lookup finds exactly that one. */
  lemma FindsTheOnlyUser(users: seq<UserRow>, k: nat)
    requires UsersValid(users) && k < |users| && users[k].deletedAt.None?
    ensures FindUserByFirebaseUid(users, users[k].firebaseUid) == Some(users[k])
    ensures FindUserByEmail(users, users[k].email) == Some(users[k])
  {
  }

  // ---------------------------------------------------------------------
  // createUser
  // ---------------------------------------------------------------------

  /** The row the insert proposes: `photoURL || null`, not verified, active. */
  function NewUserRow(users: seq<UserRow>, uid: string, email: string, displayName: string,
                      photoUrl: Option<string>, now: int): UserRow
  {
    UserRow(FreshId(UserIds(users)), uid, email, Some(displayName),
            if photoUrl.Some? && photoUrl.value != "" then photoUrl else None,
            false, true, None, now, now, None)
  }

  const UidTaken := "User with this Firebase UID already exists"
  const EmailTaken := "User with this email already exists"

  /** The catch block of `createUser`: a unique violation on the uid or the
      email becomes a conflict; anything else a database error. */
  function CreateUserError(e: PgError): (r: AppError)
    ensures r.cls == ConflictErrorClass <==>
              e.code == "23505" && e.constraint in {Some("users_firebase_uid_key"), Some("users_email_key")}
    ensures r.cls == ConflictErrorClass ==> r.statusCode == 409
    ensures r.cls != ConflictErrorClass ==> r == DatabaseError(Some("Failed to create user: " + e.message))
  {
    if e.code == "23505" && e.constraint == Some("users_firebase_uid_key") then ConflictError(Some(UidTaken))
    else if e.code == "23505" && e.constraint == Some("users_email_key") then ConflictError(Some(EmailTaken))
    else DatabaseError(Some("Failed to create user: " + e.message))
  }

  /** `createUser`. */
  function CreateUserResult(users: seq<UserRow>, uid: string, email: string, displayName: string,
                            photoUrl: Option<string>, now: int): (r: Result<UserRow, AppError>)
    ensures r.Ok? <==> UserRowError(users, NewUserRow(users, uid, email, displayName, photoUrl, now)).None?
    ensures r.Ok? ==> r.value == NewUserRow(users, uid, email, displayName, photoUrl, now)
  {
    var row := NewUserRow(users, uid, email, displayName, photoUrl, now);
    match UserRowError(users, row)
    case None => Ok(row)
    case Some(e) => Err(CreateUserError(e))
  }

  /** A new user is stored when the widths and the email check pass and
      neither the uid nor the email is in use by any row, deleted or not;
      then it is active, unverified, never logged in, with a fresh id. */
  lemma CreateUserAccepts(users: seq<UserRow>, uid: string, email: string, displayName: string,
                          photoUrl: Option<string>, now: int)
    ensures var r := CreateUserResult(users, uid, email, displayName, photoUrl, now);
      r.Ok? <==> |uid| <= 128 && |email| <= 255 && |displayName| <= 255 && EmailCheck(email)
                 && forall k :: 0 <= k < |users| ==> users[k].firebaseUid != uid && users[k].email != email
    ensures var r := CreateUserResult(users, uid, email, displayName, photoUrl, now);
      r.Ok? ==> && r.value.firebaseUid == uid && r.value.email == email && r.value.displayName == Some(displayName)
                && !r.value.emailVerified && r.value.isActive && r.value.lastLoginAt.None? && r.value.deletedAt.None?
                && (r.value.photoUrl.Some? <==> photoUrl.Some? && photoUrl.value != [])
                && forall k :: 0 <= k < |users| ==> users[k].id != r.value.id
  {
  }

  /** A uid already stored, even on a soft-deleted row, makes a valid
      registration a conflict: the unique keys do not look at `deleted_at`. */
  lemma UidInUseConflicts(users: seq<UserRow>, uid: string, email: string, displayName: string,
                          photoUrl: Option<string>, now: int, k: nat)
    requires k < |users| && users[k].firebaseUid == uid
    requires |uid| <= 128 && |email| <= 255 && |displayName| <= 255 && EmailCheck(email)
    ensures CreateUserResult(users, uid, email, displayName, photoUrl, now) == Err(ConflictError(Some(UidTaken)))
  {
    var row := NewUserRow(users, uid, email, displayName, photoUrl, now);
    assert UserRowError(users, row) == Some(UniqueViolation("users_firebase_uid_key"));
  }

  /** The same for an email in use under another uid. */
  lemma EmailInUseConflicts(users: seq<UserRow>, uid: string, email: string, displayName: string,
                            photoUrl: Option<string>, now: int, k: nat)
    requires k < |users| && users[k].email == email
    requires forall m :: 0 <= m < |users| ==> users[m].firebaseUid != uid
    requires |uid| <= 128 && |email| <= 255 && |displayName| <= 255 && EmailCheck(email)
    ensures CreateUserResult(users, uid, email, displayName, photoUrl, now) == Err(ConflictError(Some(EmailTaken)))
  {
    var row := NewUserRow(users, uid, email, displayName, photoUrl, now);
    assert UserRowError(users, row) == Some(UniqueViolation("users_email_key"));
  }

  /** Appending a row that passes the checks, with a fresh id, keeps both tables consistent. */
  lemma AppendUserValid(users: seq<UserRow>, todos: seq<TodoRow>, row: UserRow)
    requires UsersValid(users) && TodosValid(users, todos)
    requires UserRowError(users, row).None?
    requires forall k :: 0 <= k < |users| ==> users[k].id != row.id
    ensures UsersValid(users + [row]) && TodosValid(users + [row], todos)
  {
    var u := users + [row];
    assert forall k :: 0 <= k < |users| ==> u[k] == users[k];
    forall i | 0 <= i < |todos| ensures HasUser(u, todos[i].userId) {
      var k :| 0 <= k < |users| && users[k].id == todos[i].userId;
      assert u[k].id == todos[i].userId;
    }
  }

  /** `createUser`: appends the row, or reports the error and changes nothing. */
  method CreateUser(db: Database, uid: string, email: string, displayName: string, photoUrl: Option<string>, now: int)
    returns (r: Result<UserRow, AppError>)
    requires db.Valid()
    modifies db
    ensures db.Valid()
    ensures r == CreateUserResult(old(db.users), uid, email, displayName, photoUrl, now)
    ensures db.todos == old(db.todos)
    ensures db.users == if r.Ok? then old(db.users) + [r.value] else old(db.users)
  {
    var photo := if photoUrl.Some? && photoUrl.value != "" then photoUrl else None;
    var row := UserRow(FreshId(UserIds(db.users)), uid, email, Some(displayName), photo, false, true, None, now, now, None);
    match UserRowError(db.users, row)
    case Some(e) =>
      r := Err(CreateUserError(e));
    case None =>
      AppendUserValid(db.users, db.todos, row);
      db.users := db.users + [row];
      r := Ok(row);
  }

  // ---------------------------------------------------------------------
  // updateUser
  // ---------------------------------------------------------------------

  /** The fields `updateUser` may write; undefined ones are left alone. */
  datatype ProfileUpdate = ProfileUpdate(displayName: Option<string>, photoUrl: Nullish<string>, emailVerified: Option<bool>)

  predicate NoUserFields(u: ProfileUpdate)
  {
    u.displayName.None? && u.photoUrl.Undefined? && u.emailVerified.None?
  }

  /** The updated row: the given fields written, a null photo clearing it, and `updated_at` refreshed. */
  function UpdatedUser(row: UserRow, u: ProfileUpdate, now: int): UserRow
  {
    row.(
      displayName := if u.displayName.Some? then u.displayName else row.displayName,
      photoUrl := (match u.photoUrl case Undefined => row.photoUrl case Null => None case Given(s) => Some(s)),
      emailVerified := if u.emailVerified.Some? then u.emailVerified.value else row.emailVerified,
      updatedAt := now)
  }

  datatype UserColumn = DisplayNameCol | PhotoUrlCol | EmailVerifiedCol

  /** An entry of the SET list of `updateUser`. */
  datatype UserAssignment = SetUser(column: UserColumn, k: nat) | UserUpdatedAtNow

  /** What the database does with one column value; a value of the wrong kind
      leaves the row as it is (the builder never produces one). */
  function SetUserColumn(row: UserRow, c: UserColumn, p: Param): UserRow
  {
    match (c, p)
    case (DisplayNameCol, PText(s)) => row.(displayName := Some(s))
    case (PhotoUrlCol, PText(s)) => row.(photoUrl := Some(s))
    case (PhotoUrlCol, PNull) => row.(photoUrl := None)
    case (EmailVerifiedCol, PBool(b)) => row.(emailVerified := b)
    case _ => row
  }

  /** One entry of the SET list, placeholders bound to `values`. */
  function UserStep(before: UserRow, a: UserAssignment, values: seq<Param>, now: int): UserRow
  {
    match a
    case SetUser(c, k) => if 1 <= k <= |values| then SetUserColumn(before, c, values[k - 1]) else before
    case UserUpdatedAtNow => before.(updatedAt := now)
  }

  /** The SET list applied entry by entry. */
  function ApplyUserSet(fields: seq<UserAssignment>, values: seq<Param>, row: UserRow, now: int): UserRow
    decreases |fields|
  {
    if fields == [] then row
    else UserStep(ApplyUserSet(fields[..|fields| - 1], values, row, now), fields[|fields| - 1], values, now)
  }

  lemma UserSetExtend(fields: seq<UserAssignment>, a: UserAssignment, values: seq<Param>, row: UserRow, now: int)
    ensures ApplyUserSet(fields + [a], values, row, now) == UserStep(ApplyUserSet(fields, values, row, now), a, values, now)
  {
    assert (fields + [a])[..|fields|] == fields;
  }

  /** The SET builder of `updateUser` followed by `updated_at = NOW()`, and
      the uid bound to the placeholder after the field values. */
  method BuildUserSet(uid: string, u: ProfileUpdate) returns (fields: seq<UserAssignment>, values: seq<Param>, uidSlot: nat)
    requires !NoUserFields(u)
    ensures 1 <= uidSlot == |values| == |fields| && values[uidSlot - 1] == PText(uid)
    ensures fields[|fields| - 1] == UserUpdatedAtNow
    ensures forall i :: 0 <= i < |fields| - 1 ==> fields[i].SetUser? && fields[i].k == i + 1
    ensures forall row, now :: ApplyUserSet(fields, values, row, now) == UpdatedUser(row, u, now)
  {
    fields, values := [], [];
    var paramCount := 1;
    if u.displayName.Some? {
      fields := fields + [SetUser(DisplayNameCol, paramCount)];
      paramCount := paramCount + 1;
      values := values + [PText(u.displayName.value)];
    }
    ghost var f1, v1 := fields, values;
    if !u.photoUrl.Undefined? {
      fields := fields + [SetUser(PhotoUrlCol, paramCount)];
      paramCount := paramCount + 1;
      values := values + [PhotoParam(u)];
    }
    ghost var f2, v2 := fields, values;
    if u.emailVerified.Some? {
      fields := fields + [SetUser(EmailVerifiedCol, paramCount)];
      paramCount := paramCount + 1;
      values := values + [PBool(u.emailVerified.value)];
    }
    ghost var f3, v3 := fields, values;
    fields := fields + [UserUpdatedAtNow];
    values := values + [PText(uid)];
    uidSlot := paramCount;
    forall row, now ensures ApplyUserSet(fields, values, row, now) == UpdatedUser(row, u, now) {
      UserSetSteps(f1, v1, f2, v2, f3, v3, fields, values, uid, u, row, now);
    }
  }

  /** The value pushed for the photo address: NULL clears it. */
  function PhotoParam(u: ProfileUpdate): Param
    requires !u.photoUrl.Undefined?
  {
    if u.photoUrl.Null? then PNull else PText(u.photoUrl.value)
  }

  /** The row after each stage of the builder. */
  function NameStage(row: UserRow, u: ProfileUpdate): (r: UserRow)
    ensures r == row.(displayName := if u.displayName.Some? then u.displayName else row.displayName)
  {
    if u.displayName.Some? then SetUserColumn(row, DisplayNameCol, PText(u.displayName.value)) else row
  }

  function PhotoStage(row: UserRow, u: ProfileUpdate): (r: UserRow)
    ensures r == row.(photoUrl := (match u.photoUrl case Undefined => row.photoUrl case Null => None case Given(s) => Some(s)))
  {
    if !u.photoUrl.Undefined? then SetUserColumn(row, PhotoUrlCol, PhotoParam(u)) else row
  }

  function VerifiedStage(row: UserRow, u: ProfileUpdate): (r: UserRow)
    ensures r == row.(emailVerified := if u.emailVerified.Some? then u.emailVerified.value else row.emailVerified)
  {
    if u.emailVerified.Some? then SetUserColumn(row, EmailVerifiedCol, PBool(u.emailVerified.value)) else row
  }

  /** The stages together, then `updated_at`, are the intended update. */
  lemma StagesMakeUpdate(row: UserRow, u: ProfileUpdate, now: int)
    ensures VerifiedStage(PhotoStage(NameStage(row, u), u), u).(updatedAt := now) == UpdatedUser(row, u, now)
  {
  }

  /** The three stages of the user builder, entry by entry. */
  lemma UserSetSteps(f1: seq<UserAssignment>, v1: seq<Param>, f2: seq<UserAssignment>, v2: seq<Param>,
                     f3: seq<UserAssignment>, v3: seq<Param>, fields: seq<UserAssignment>, values: seq<Param>,
                     uid: string, u: ProfileUpdate, row: UserRow, now: int)
    requires f1 == (if u.displayName.Some? then [SetUser(DisplayNameCol, 1)] else [])
    requires v1 == (if u.displayName.Some? then [PText(u.displayName.value)] else [])
    requires f2 == (if !u.photoUrl.Undefined? then f1 + [SetUser(PhotoUrlCol, |v1| + 1)] else f1)
    requires v2 == (if !u.photoUrl.Undefined? then v1 + [PhotoParam(u)] else v1)
    requires f3 == (if u.emailVerified.Some? then f2 + [SetUser(EmailVerifiedCol, |v2| + 1)] else f2)
    requires v3 == (if u.emailVerified.Some? then v2 + [PBool(u.emailVerified.value)] else v2)
    requires fields == f3 + [UserUpdatedAtNow] && values == v3 + [PText(uid)]
    ensures ApplyUserSet(fields, values, row, now) == UpdatedUser(row, u, now)
  {
    assert v3 <= values;
    VerifiedStep(f2, v2, f3, v3, values, u, row, now);
    PhotoStep(f1, v1, f2, v2, values, u, row, now);
    NameStep(f1, v1, values, u, row, now);
    UserSetExtend(f3, UserUpdatedAtNow, values, row, now);
    StagesMakeUpdate(row, u, now);
  }

  lemma NameStep(f1: seq<UserAssignment>, v1: seq<Param>, values: seq<Param>, u: ProfileUpdate, row: UserRow, now: int)
    requires f1 == (if u.displayName.Some? then [SetUser(DisplayNameCol, 1)] else [])
    requires v1 == (if u.displayName.Some? then [PText(u.displayName.value)] else [])
    requires v1 <= values
    ensures ApplyUserSet(f1, values, row, now) == NameStage(row, u)
  {
    var p := if u.displayName.Some? then PText(u.displayName.value) else PNull;
    OptionalStage([], [], f1, v1, u.displayName.Some?, DisplayNameCol, p, values, row, now);
  }

  lemma PhotoStep(f1: seq<UserAssignment>, v1: seq<Param>, f2: seq<UserAssignment>, v2: seq<Param>,
                  values: seq<Param>, u: ProfileUpdate, row: UserRow, now: int)
    requires f2 == (if !u.photoUrl.Undefined? then f1 + [SetUser(PhotoUrlCol, |v1| + 1)] else f1)
    requires v2 == (if !u.photoUrl.Undefined? then v1 + [PhotoParam(u)] else v1)
    requires v2 <= values
    ensures ApplyUserSet(f2, values, row, now) == PhotoStage(ApplyUserSet(f1, values, row, now), u)
    ensures v1 <= values
  {
    var p := if !u.photoUrl.Undefined? then PhotoParam(u) else PNull;
    OptionalStage(f1, v1, f2, v2, !u.photoUrl.Undefined?, PhotoUrlCol, p, values, row, now);
  }

  lemma VerifiedStep(f2: seq<UserAssignment>, v2: seq<Param>, f3: seq<UserAssignment>, v3: seq<Param>,
                     values: seq<Param>, u: ProfileUpdate, row: UserRow, now: int)
    requires f3 == (if u.emailVerified.Some? then f2 + [SetUser(EmailVerifiedCol, |v2| + 1)] else f2)
    requires v3 == (if u.emailVerified.Some? then v2 + [PBool(u.emailVerified.value)] else v2)
    requires v3 <= values
    ensures ApplyUserSet(f3, values, row, now) == VerifiedStage(ApplyUserSet(f2, values, row, now), u)
    ensures v2 <= values
  {
    var p := if u.emailVerified.Some? then PBool(u.emailVerified.value) else PNull;
    OptionalStage(f2, v2, f3, v3, u.emailVerified.Some?, EmailVerifiedCol, p, values, row, now);
  }

  /** A stage that appends its entry and value only when its field is given. */
  lemma OptionalStage(prefix: seq<UserAssignment>, before: seq<Param>, after: seq<UserAssignment>, pushed: seq<Param>,
                      given: bool, c: UserColumn, p: Param, values: seq<Param>, row: UserRow, now: int)
    requires after == (if given then prefix + [SetUser(c, |before| + 1)] else prefix)
    requires pushed == (if given then before + [p] else before)
    requires pushed <= values
    ensures ApplyUserSet(after, values, row, now)
         == if given then SetUserColumn(ApplyUserSet(prefix, values, row, now), c, p) else ApplyUserSet(prefix, values, row, now)
    ensures before <= values
  {
    if given {
      UserSetExtend(prefix, SetUser(c, |before| + 1), values, row, now);
      assert values[|before|] == pushed[|before|];
    }
  }

  const NoUserFieldsMessage := "Failed to update user: No fields to update"

  /** `updateUser`: an empty update is refused before the lookup; a uid with
      no live user is not found; otherwise the row the database accepts. */
  function UpdateUserResult(users: seq<UserRow>, uid: string, u: ProfileUpdate, now: int): (r: Result<UserRow, AppError>)
    ensures NoUserFields(u) ==> r == Err(DatabaseError(Some(NoUserFieldsMessage)))
    ensures !NoUserFields(u) && LiveByUid(users, uid).None? ==> r == Err(NotFoundError(Some("User not found")))
    ensures r.Ok? ==> LiveByUid(users, uid).Some? && r.value == UpdatedUser(users[LiveByUid(users, uid).value], u, now)
    ensures r.Err? ==> r.error.cls in {DatabaseErrorClass, NotFoundErrorClass}
  {
    if NoUserFields(u) then Err(DatabaseError(Some(NoUserFieldsMessage)))
    else
      match LiveByUid(users, uid)
      case None => Err(NotFoundError(Some("User not found")))
      case Some(i) =>
        var row := UpdatedUser(users[i], u, now);
        match UserRowError(users[..i] + users[i + 1..], row)
        case Some(e) => Err(DatabaseError(Some("Failed to update user: " + e.message)))
        case None => Ok(row)
  }

  /** On a consistent table the update of a live user succeeds exactly when
      the new display name fits its column: the uid and the email are kept,
      so the unique keys and the email check still hold. */
  lemma UpdateUserAcceptedIff(users: seq<UserRow>, uid: string, u: ProfileUpdate, now: int)
    requires UsersValid(users) && !NoUserFields(u) && LiveByUid(users, uid).Some?
    ensures UpdateUserResult(users, uid, u, now).Ok? <==>
              (u.displayName.Some? ==> |u.displayName.value| <= 255)
  {
    var i := LiveByUid(users, uid).value;
    var row := UpdatedUser(users[i], u, now);
    assert UserFits(users[i]) && EmailCheck(users[i].email);
    OthersKeepKeys(users, i);
  }

  /** The other rows share neither the uid nor the email of row `i`. */
  lemma OthersKeepKeys(users: seq<UserRow>, i: nat)
    requires UsersValid(users) && i < |users|
    ensures var others := users[..i] + users[i + 1..];
      forall k :: 0 <= k < |others| ==> others[k].firebaseUid != users[i].firebaseUid && others[k].email != users[i].email
  {
    var others := users[..i] + users[i + 1..];
    forall k | 0 <= k < |others|
      ensures others[k].firebaseUid != users[i].firebaseUid && others[k].email != users[i].email
    {
      if k < i {
        assert others[k] == users[k];
      } else {
        assert others[k] == users[k + 1];
      }
    }
  }

  /** Replacing a user row by one with the same id, uid and email that fits keeps both tables consistent. */
  lemma ReplaceUserValid(users: seq<UserRow>, todos: seq<TodoRow>, i: nat, row: UserRow)
    requires UsersValid(users) && TodosValid(users, todos) && i < |users|
    requires row.id == users[i].id && row.firebaseUid == users[i].firebaseUid && row.email == users[i].email
    requires UserFits(row)
    ensures UsersValid(users[i := row]) && TodosValid(users[i := row], todos)
  {
    var u := users[i := row];
    forall t | 0 <= t < |todos| ensures HasUser(u, todos[t].userId) {
      var k :| 0 <= k < |users| && users[k].id == todos[t].userId;
      assert u[k].id == todos[t].userId;
    }
  }

  /** `updateUser`: builds the SET list, finds the live row through the uid
      placeholder, and writes the row the database accepts. */
  method UpdateUser(db: Database, uid: string, u: ProfileUpdate, now: int) returns (r: Result<UserRow, AppError>)
    requires db.Valid()
    modifies db
    ensures db.Valid()
    ensures r == UpdateUserResult(old(db.users), uid, u, now)
    ensures db.todos == old(db.todos)
    ensures r.Err? ==> db.users == old(db.users)
    ensures r.Ok? ==> LiveByUid(old(db.users), uid).Some?
                      && db.users == old(db.users)[LiveByUid(old(db.users), uid).value := r.value]
  {
    if NoUserFields(u) {
      r := Err(DatabaseError(Some(NoUserFieldsMessage)));
      return;
    }
    var fields, values, uidSlot := BuildUserSet(uid, u);
    var target := LiveByUid(db.users, values[uidSlot - 1].s);
    if target.None? {
      r := Err(NotFoundError(Some("User not found")));
      return;
    }
    var i := target.value;
    var row := ApplyUserSet(fields, values, db.users[i], now);
    match UserRowError(db.users[..i] + db.users[i + 1..], row)
    case Some(e) =>
      r := Err(DatabaseError(Some("Failed to update user: " + e.message)));
    case None =>
      var others := db.users[..i] + db.users[i + 1..];
      assert forall k :: 0 <= k < |others| ==> others[k] == if k < i then db.users[k] else db.users[k + 1];
      ReplaceUserValid(db.users, db.todos, i, row);
      db.users := db.users[i := row];
      r := Ok(row);
  }

  // ---------------------------------------------------------------------
  // updateLastLogin and softDeleteUser
  // ---------------------------------------------------------------------

  /** `updateLastLogin`: stamps the live row with that uid; a missing user is
      not an error, and `updated_at` is not touched. */
  method UpdateLastLogin(db: Database, uid: string, now: int)
    requires db.Valid()
    modifies db
    ensures db.Valid()
    ensures db.todos == old(db.todos)
    ensures LiveByUid(old(db.users), uid).None? ==> db.users == old(db.users)
    ensures LiveByUid(old(db.users), uid).Some? ==>
      var i := LiveByUid(old(db.users), uid).value;
      db.users == old(db.users)[i := old(db.users)[i].(lastLoginAt := Some(now))]
  {
    var target := LiveByUid(db.users, uid);
    if target.Some? {
      var i := target.value;
      ReplaceUserValid(db.users, db.todos, i, db.users[i].(lastLoginAt := Some(now)));
      db.users := db.users[i := db.users[i].(lastLoginAt := Some(now))];
    }
  }

  const UserDeleteNotFound := "User not found or already deleted"

  /** With unique uids, once the live row with that uid is marked deleted no live row has it. */
  lemma NoLiveRowAfterMark(users: seq<UserRow>, i: nat, now: int)
    requires UsersValid(users) && i < |users|
    ensures LiveByUid(users[i := users[i].(deletedAt := Some(now), isActive := false)], users[i].firebaseUid).None?
  {
  }

  /** `softDeleteUser`: marks the live row deleted and inactive, or reports
      not found; afterwards no live user has that uid. */
  method SoftDeleteUser(db: Database, uid: string, now: int) returns (err: Option<AppError>)
    requires db.Valid()
    modifies db
    ensures db.Valid()
    ensures db.todos == old(db.todos)
    ensures err.Some? <==> LiveByUid(old(db.users), uid).None?
    ensures err.Some? ==> err.value == NotFoundError(Some(UserDeleteNotFound)) && db.users == old(db.users)
    ensures err.None? ==> (LiveByUid(old(db.users), uid).Some? &&
      var i := LiveByUid(old(db.users), uid).value;
      db.users == old(db.users)[i := old(db.users)[i].(deletedAt := Some(now), isActive := false)])
    ensures LiveByUid(db.users, uid).None?
  {
    var target := LiveByUid(db.users, uid);
    if target.None? {
      err := Some(NotFoundError(Some(UserDeleteNotFound)));
      return;
    }
    var i := target.value;
    var row := db.users[i].(deletedAt := Some(now), isActive := false);
    NoLiveRowAfterMark(db.users, i, now);
    ReplaceUserValid(db.users, db.todos, i, row);
    db.users := db.users[i := row];
    err := None;
  }

  /** A deleted account cannot come back: it is no longer found by uid, and
      registering the same uid again is a conflict. */
  lemma DeletedUserCannotReturn(users: seq<UserRow>, i: nat, now: int, email: string, displayName: string,
                                photoUrl: Option<string>, later: int)
    requires UsersValid(users) && i < |users|
    requires |email| <= 255 && |displayName| <= 255 && EmailCheck(email)
    ensures var after := users[i := users[i].(deletedAt := Some(now), isActive := false)];
      && FindUserByFirebaseUid(after, users[i].firebaseUid).None?
      && CreateUserResult(after, users[i].firebaseUid, email, displayName, photoUrl, later) == Err(ConflictError(Some(UidTaken)))
  {
    var after := users[i := users[i].(deletedAt := Some(now), isActive := false)];
    NoLiveRowAfterMark(users, i, now);
    UidInUseConflicts(after, users[i].firebaseUid, email, displayName, photoUrl, later, i);
  }

  /** After `softDeleteUser` the user's todos are hidden from every lookup
      under that uid, though their rows stay in the table. */
  lemma DeletedUserTodosHidden(users: seq<UserRow>, todos: seq<TodoRow>, i: nat, now: int, id: nat)
    requires UsersValid(users) && i < |users|
    ensures TodoService.GetTodoById(users[i := users[i].(deletedAt := Some(now), isActive := false)], todos, id,
                                    users[i].firebaseUid).None?
  {
    var after := users[i := users[i].(deletedAt := Some(now), isActive := false)];
    forall k | 0 <= k < |todos| ensures !VisibleTo(after, todos[k], users[i].firebaseUid) {
      NoLiveRowAfterMark(users, i, now);
    }
  }
}
