/** The request bodies of the account endpoints (backend/src/schemas/auth.schema.ts). */
module AuthSchema {
  import opened Base
  import opened Zod
  import Validation

  const NameTooShort := "Display name must be at least 2 characters"
  const NameTooLong := "Display name must not exceed 100 characters"
  const TokenRequired := "ID token is required"
  const PhotoNotUrl := "Photo URL must be a valid URL"
  const PhotoTooLong := "Photo URL must not exceed 500 characters"

  /** The display-name chain: bounds on the text as sent, then trimming. */
  function ParseDisplayName(v: Option<Json>): (r: Result<string, seq<Issue>>)
    ensures r.Ok? <==> IsStr(v) && 2 <= |v.value.s| <= 100
    ensures r.Ok? ==> r.value == Trim(v.value.s)
  {
    var checks := [MinLength(2, NameTooShort), MaxLength(100, NameTooLong), TrimSpace];
    if IsStr(v) then
      BoundsThenTrim(v.value.s, 2, 100, NameTooShort, NameTooLong);
      ParseString(v, checks, ["displayName"])
    else ParseString(v, checks, ["displayName"])
  }

  /** The identity token only has to be non-empty. */
  function ParseIdToken(v: Option<Json>): (r: Result<string, seq<Issue>>)
    ensures r.Ok? <==> IsStr(v) && v.value.s != []
    ensures r.Ok? ==> r.value == v.value.s
  {
    if IsStr(v) then
      SingleCheck(v.value.s, MinLength(1, TokenRequired));
      ParseString(v, [MinLength(1, TokenRequired)], ["idToken"])
    else ParseString(v, [MinLength(1, TokenRequired)], ["idToken"])
  }

  /** The photo address: an absolute URL of at most 500 characters, or left out. */
  function ParsePhotoUrl(v: Option<Json>): (r: Result<Option<string>, seq<Issue>>)
    ensures r.Ok? <==> v.None? || (IsStr(v) && LooksLikeUrl(v.value.s) && |v.value.s| <= 500)
    ensures r.Ok? && v.Some? ==> r.value == Some(v.value.s)
    ensures v.None? ==> r == Ok(None)
  {
    var checks := [Regex(WebUrl, PhotoNotUrl), MaxLength(500, PhotoTooLong)];
    if IsStr(v) then
      AllPassWithoutTrim(v.value.s, checks);
      assert Passes(checks[0], v.value.s) == LooksLikeUrl(v.value.s);
      ParseOptionalString(v, checks, ["photoURL"])
    else ParseOptionalString(v, checks, ["photoURL"])
  }

  datatype RegisterInput = RegisterInput(email: string, password: string, displayName: string)

  /** `registerSchema`: every field parsed, the issues of all fields reported together. */
  function RegisterSchema(body: Json): (r: Result<RegisterInput, seq<Issue>>)
    ensures r.Ok? ==> body.JObj?
  {
    match ObjectFields(body)
    case Err(e) => Err(e)
    case Ok(m) =>
      var email := Validation.EmailSchema(Lookup(m, "email"), ["email"]);
      var password := Validation.PasswordSchema(Lookup(m, "password"), ["password"]);
      var name := ParseDisplayName(Lookup(m, "displayName"));
      if email.Ok? && password.Ok? && name.Ok? then Ok(RegisterInput(email.value, password.value, name.value))
      else Err(IssuesOf(email) + IssuesOf(password) + IssuesOf(name))
  }

  predicate EmailOk(v: Option<Json>) { IsStr(v) && LooksLikeEmail(v.value.s) && 3 <= |v.value.s| <= 255 }
  predicate PasswordOk(v: Option<Json>) { IsStr(v) && Validation.StrongPassword(v.value.s) }
  predicate NameOk(v: Option<Json>) { IsStr(v) && 2 <= |v.value.s| <= 100 }

  /** A registration object is accepted exactly when it has a well-formed address,
      a strong password and a 2 to 100 character name; the name is trimmed, the
      address and password are kept as sent. */
  lemma RegisterSchemaRule(m: map<string, Json>)
    ensures var r := RegisterSchema(JObj(m));
      var email, password, name := Lookup(m, "email"), Lookup(m, "password"), Lookup(m, "displayName");
      && (r.Ok? <==> EmailOk(email) && PasswordOk(password) && NameOk(name))
      && (r.Ok? ==> r.value == RegisterInput(email.value.s, password.value.s, Trim(name.value.s)))
  {
    var email, password, name := Lookup(m, "email"), Lookup(m, "password"), Lookup(m, "displayName");
    assert Validation.EmailSchema(email, ["email"]).Ok? <==> EmailOk(email);
    assert Validation.PasswordSchema(password, ["password"]).Ok? <==> PasswordOk(password);
    assert ParseDisplayName(name).Ok? <==> NameOk(name);
  }

  /** Trimming comes after the length checks, so a name of spaces is accepted and becomes empty. */
  lemma BlankNameSurvivesSchema(blanks: string)
    requires 2 <= |blanks| <= 100 && AllWhitespace(blanks)
    ensures ParseDisplayName(Some(JStr(blanks))) == Ok([])
  {
  }

  datatype LoginInput = LoginInput(email: string, idToken: string)

  /** `loginSchema`. */
  function LoginSchema(body: Json): (r: Result<LoginInput, seq<Issue>>)
    ensures r.Ok? ==> body.JObj?
  {
    match ObjectFields(body)
    case Err(e) => Err(e)
    case Ok(m) =>
      var email := Validation.EmailSchema(Lookup(m, "email"), ["email"]);
      var token := ParseIdToken(Lookup(m, "idToken"));
      if email.Ok? && token.Ok? then Ok(LoginInput(email.value, token.value))
      else Err(IssuesOf(email) + IssuesOf(token))
  }

  /** A login object is accepted exactly when it has a well-formed address and a
      non-empty token, both kept as sent. */
  lemma LoginSchemaRule(m: map<string, Json>)
    ensures var r := LoginSchema(JObj(m));
      var email, token := Lookup(m, "email"), Lookup(m, "idToken");
      && (r.Ok? <==> EmailOk(email) && IsStr(token) && token.value.s != [])
      && (r.Ok? ==> r.value == LoginInput(email.value.s, token.value.s))
  {
    var email := Lookup(m, "email");
    assert Validation.EmailSchema(email, ["email"]).Ok? <==> EmailOk(email);
  }

  datatype ProfileInput = ProfileInput(displayName: Option<string>, photoUrl: Option<string>)

  /** `updateProfileSchema`: both fields may be left out; neither may be null. */
  function UpdateProfileSchema(body: Json): (r: Result<ProfileInput, seq<Issue>>)
    ensures r.Ok? ==> body.JObj?
  {
    match ObjectFields(body)
    case Err(e) => Err(e)
    case Ok(m) =>
      var v := Lookup(m, "displayName");
      var name := if v.None? then Ok(None) else
        match ParseDisplayName(v)
        case Ok(s) => Ok(Some(s))
        case Err(e) => Err(e);
      var photo := ParsePhotoUrl(Lookup(m, "photoURL"));
      if name.Ok? && photo.Ok? then Ok(ProfileInput(name.value, photo.value))
      else Err(IssuesOf(name) + IssuesOf(photo))
  }

  /** A profile object is accepted exactly when each field is left out or valid
      (null is refused); an empty object is a valid, empty update. */
  lemma UpdateProfileSchemaRule(m: map<string, Json>)
    ensures var r := UpdateProfileSchema(JObj(m));
      var name, photo := Lookup(m, "displayName"), Lookup(m, "photoURL");
      && (r.Ok? <==> (name.None? || NameOk(name))
                     && (photo.None? || (IsStr(photo) && LooksLikeUrl(photo.value.s) && |photo.value.s| <= 500)))
      && (r.Ok? ==> r.value.displayName == (if name.None? then None else Some(Trim(name.value.s)))
                    && r.value.photoUrl == (if photo.None? then None else Some(photo.value.s)))
  {
    var name := Lookup(m, "displayName");
    assert name.Some? ==> (ParseDisplayName(name).Ok? <==> NameOk(name));
  }
}
