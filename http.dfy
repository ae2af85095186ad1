/** The parts of an incoming request that the middleware reads and writes, and
    what a middleware does with it. */
module Http {
  import opened Base
  import opened Zod
  import opened Errors

  /** The three parts of a request a schema may validate. */
  datatype Target = Body | Params | Query

  function TargetName(t: Target): string
  {
    match t
    case Body => "body"
    case Params => "params"
    case Query => "query"
  }

  /** The decoded identity token returned by the token verifier. */
  datatype DecodedToken = DecodedToken(uid: string, email: Option<string>)

  /** The request object that the middleware chain passes along and updates. */
  class Request {
    var verb: string
    var url: string
    var authorization: Option<string>
    var body: Json
    var params: Json
    var query: Json
    var user: Option<DecodedToken>
    var userId: Option<string>

    constructor(verb: string, url: string, authorization: Option<string>, body: Json, params: Json, query: Json)
      ensures this.verb == verb && this.url == url && this.authorization == authorization
      ensures this.body == body && this.params == params && this.query == query
      ensures user == None && userId == None
    {
      this.verb := verb;
      this.url := url;
      this.authorization := authorization;
      this.body := body;
      this.params := params;
      this.query := query;
      user := None;
      userId := None;
    }

    /** `req[target]`. */
    function Get(t: Target): Json
      reads this
    {
      match t
      case Body => body
      case Params => params
      case Query => query
    }

    /** `req[target] = v`: that part only changes. */
    method Set(t: Target, v: Json)
      modifies this
      ensures Get(t) == v
      ensures forall u :: u != t ==> Get(u) == old(Get(u))
      ensures body == (if t == Body then v else old(body))
      ensures params == (if t == Params then v else old(params))
      ensures query == (if t == Query then v else old(query))
      ensures verb == old(verb) && url == old(url) && authorization == old(authorization)
      ensures user == old(user) && userId == old(userId)
    {
      match t
      case Body => body := v;
      case Params => params := v;
      case Query => query := v;
    }
  }

  /** How a middleware finished: it called `next()`, called `next(error)`, or
      answered the request itself. */
  datatype Outcome<+R> = Next | NextWithError(err: Thrown) | Respond(status: int, response: R)
}
