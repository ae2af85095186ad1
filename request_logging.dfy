/** What the request logger writes (backend/src/middleware/logger.middleware.ts):
    the user-id token, the redacted body token and the severity of the
    per-request record. The log sinks and the clock are not modelled; the
    finishing time is a parameter. */
module RequestLogging {
  import opened Base
  import opened Zod

  /** `req.userId || 'anonymous'`: an absent or empty id is logged as anonymous. */
  function UserIdToken(userId: Option<string>): (r: string)
    ensures r != []
    ensures userId.Some? && userId.value != [] ==> r == userId.value
    ensures userId.None? || userId.value == [] ==> r == "anonymous"
  {
    if userId.Some? && userId.value != "" then userId.value else "anonymous"
  }

  /** JavaScript truthiness of a JSON value. */
  predicate Truthy(v: Json)
  {
    match v
    case JNull => false
    case JBool(b) => b
    case JNum(n) => n != 0.0
    case JStr(s) => s != []
    case JArr(_) => true
    case JObj(_) => true
  }

  /** `{ ...body }`: an object's own fields; an array's or a string's elements
      under their indices; nothing for the other values. */
  function Spread(body: Json): (m: map<string, Json>)
    ensures body.JObj? ==> m == body.fields
    ensures !body.JObj? ==> forall k :: k in m ==> AllDigits(k)
  {
    match body
    case JObj(fields) => fields
    case JArr(items) => map i | 0 <= i < |items| :: NatToString(i) := items[i]
    case JStr(s) => map i | 0 <= i < |s| :: NatToString(i) := JStr([s[i]])
    case _ => map[]
  }

  const Sensitive: seq<string> := ["password", "token", "secret", "apiKey"]
  const Redaction := "[REDACTED]"

  /** The redacted copy: every key kept, a sensitive key with a truthy value
      masked, everything else as it was. */
  function Redact(m: map<string, Json>): (r: map<string, Json>)
    ensures r.Keys == m.Keys
  {
    map k | k in m :: if k in Sensitive && Truthy(m[k]) then JStr(Redaction) else m[k]
  }

  /** The copy-and-overwrite loop over the sensitive names; the body itself is
      a value and is not changed. */
  method Sanitize(body: Json) returns (copy: map<string, Json>)
    ensures copy.Keys == Spread(body).Keys
    ensures forall k :: k in copy && k in Sensitive && Truthy(Spread(body)[k]) ==> copy[k] == JStr(Redaction)
    ensures forall k :: k in copy && !(k in Sensitive && Truthy(Spread(body)[k])) ==> copy[k] == Spread(body)[k]
  {
    var original := Spread(body);
    copy := original;
    var i := 0;
    while i < |Sensitive|
      invariant 0 <= i <= |Sensitive|
      invariant copy.Keys == original.Keys
      invariant forall k :: k in copy ==>
        copy[k] == (if k in Sensitive[..i] && Truthy(original[k]) then JStr(Redaction) else original[k])
    {
      var field := Sensitive[i];
      assert field !in Sensitive[..i];
      assert Sensitive[..i + 1] == Sensitive[..i] + [field];
      if field in copy && Truthy(copy[field]) {
        copy := copy[field := JStr(Redaction)];
      }
      forall k | k in copy
        ensures copy[k] == (if k in Sensitive[..i + 1] && Truthy(original[k]) then JStr(Redaction) else original[k])
      {
        if k != field {
          assert (k in Sensitive[..i + 1]) == (k in Sensitive[..i]);
        }
      }
      i := i + 1;
    }
    assert Sensitive[..i] == Sensitive;
  }

  /** The loop computes the redacted copy. */
  lemma SanitizeIsRedact(body: Json, copy: map<string, Json>)
    requires copy.Keys == Spread(body).Keys
    requires forall k :: k in copy && k in Sensitive && Truthy(Spread(body)[k]) ==> copy[k] == JStr(Redaction)
    requires forall k :: k in copy && !(k in Sensitive && Truthy(Spread(body)[k])) ==> copy[k] == Spread(body)[k]
    ensures copy == Redact(Spread(body))
  {
  }

  /** Nothing sensitive gets through: a masked name holds the mask or a falsy value. */
  lemma NoSecretLogged(m: map<string, Json>, k: string)
    requires k in Redact(m) && k in Sensitive
    ensures Redact(m)[k] == JStr(Redaction) || !Truthy(Redact(m)[k])
  {
  }

  /** The mask is itself truthy, so redacting twice changes nothing. */
  lemma RedactIdempotent(m: map<string, Json>)
    ensures Redact(Redact(m)) == Redact(m)
  {
    var r := Redact(m);
    assert Truthy(JStr(Redaction));
    forall k | k in r
      ensures Redact(r)[k] == r[k]
    {
      if k in Sensitive && Truthy(m[k]) {
        assert r[k] == JStr(Redaction);
      }
    }
  }

  /** The body token: a dash for reads, the redacted copy otherwise. */
  datatype BodyToken = Dash | Logged(fields: map<string, Json>)

  function BodyTokenOf(verb: string, body: Json): (t: BodyToken)
    ensures t.Dash? <==> verb in {"GET", "HEAD"}
    ensures t.Logged? ==> t.fields == Redact(Spread(body))
  {
    if verb == "GET" || verb == "HEAD" then Dash else Logged(Redact(Spread(body)))
  }

  /** A body without sensitive names is logged as sent. */
  lemma PlainBodyLoggedAsIs(verb: string, fields: map<string, Json>)
    requires verb !in {"GET", "HEAD"}
    requires forall k :: k in fields ==> k !in Sensitive
    ensures BodyTokenOf(verb, JObj(fields)) == Logged(fields)
  {
  }

  /** The severity a finished request is logged with. */
  datatype Level = Http | Warn | Error

  function Severity(l: Level): nat
  {
    match l
    case Http => 0
    case Warn => 1
    case Error => 2
  }

  function LogLevel(status: int): (l: Level)
    ensures l == Error <==> status >= 500
    ensures l == Warn <==> 400 <= status < 500
    ensures l == Http <==> status < 400
  {
    if status >= 500 then Error else if status >= 400 then Warn else Http
  }

  /** A higher status is never logged at a lower severity. */
  lemma LevelMonotone(s1: int, s2: int)
    requires s1 <= s2
    ensures Severity(LogLevel(s1)) <= Severity(LogLevel(s2))
  {
  }

  /** The record written when the response finishes. */
  datatype LogRecord = LogRecord(level: Level, message: string, verb: string, url: string,
                                 statusCode: int, durationMs: int, userId: string)

  function FinishRecord(verb: string, originalUrl: string, url: string, userId: Option<string>,
                        statusCode: int, startTime: int, finishTime: int): (r: LogRecord)
    ensures r.level == LogLevel(statusCode) && r.statusCode == statusCode
    ensures r.message == (match r.level
                          case Error => "HTTP Request Failed"
                          case Warn => "HTTP Request Client Error"
                          case Http => "HTTP Request")
    ensures r.url == (if originalUrl != [] then originalUrl else url)
    ensures r.durationMs == finishTime - startTime
    ensures r.userId == UserIdToken(userId)
  {
    var level := LogLevel(statusCode);
    var message := if statusCode >= 500 then "HTTP Request Failed"
                   else if statusCode >= 400 then "HTTP Request Client Error"
                   else "HTTP Request";
    LogRecord(level, message, verb, if originalUrl != "" then originalUrl else url,
              statusCode, finishTime - startTime, UserIdToken(userId))
  }
}
