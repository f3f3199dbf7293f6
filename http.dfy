/**
 * The HTTP vocabulary shared by the token exchange and the API gateway:
 * JSON values, request shapes, status classes, ASCII upper-casing of the
 * method name and the bearer credential of section 2.1 of RFC 6750.
 */
module Http {
  import opened Wrappers

  /** A JSON value; numbers are integers in this model. */
  datatype Json =
    | JNull
    | JBool(b: bool)
    | JNumber(n: int)
    | JString(s: string)
    | JArray(items: seq<Json>)
    | JObject(fields: map<string, Json>)

  /** The two methods the gateway sends. */
  datatype Verb = Get | Post

  /** What is handed to the HTTP client: method, URL, headers, query parameters and JSON body. */
  datatype HttpRequest = HttpRequest(
    verb: Verb,
    url: string,
    headers: map<string, string>,
    params: Option<map<string, string>>,
    json: Option<Json>)

  /** `raise_for_status` lets a response through exactly when its status is 2xx. */
  predicate IsSuccess(status: int) {
    200 <= status < 300
  }

  /** Upper-casing of one character, for the ASCII range. */
  function UpperChar(c: char): char {
    if 'a' <= c <= 'z' then (c as int - 32) as char else c
  }

  function Upper(s: string): string {
    seq(|s|, i requires 0 <= i < |s| => UpperChar(s[i]))
  }

  /** `method.upper() == "GET"` / `== "POST"`: the dispatch of the gateway. */
  function ParseVerb(httpMethod: string): Option<Verb> {
    var u := Upper(httpMethod);
    if u == "GET" then Some(Get) else if u == "POST" then Some(Post) else None
  }

  /**
   * The dispatch does not depend on the case of its input: two names that
   * upper-case alike are dispatched alike, and a name is dispatched like its
   * upper-cased form.
   */
  lemma ParseVerbIgnoresCase(s: string, t: string)
    ensures Upper(s) == Upper(t) ==> ParseVerb(s) == ParseVerb(t)
    ensures ParseVerb(Upper(s)) == ParseVerb(s)
  {
  }

  /** "GET" in any mix of cases, and nothing else, is dispatched as a GET. */
  lemma ParseVerbGet(httpMethod: string)
    ensures ParseVerb(httpMethod) == Some(Get) <==>
      |httpMethod| == 3 && httpMethod[0] in "Gg" && httpMethod[1] in "Ee" && httpMethod[2] in "Tt"
  {
    var u := Upper(httpMethod);
    if |httpMethod| == 3 && httpMethod[0] in "Gg" && httpMethod[1] in "Ee" && httpMethod[2] in "Tt" {
      assert u[0] == 'G' && u[1] == 'E' && u[2] == 'T';
      assert u == "GET";
    }
    if u == "GET" {
      assert |httpMethod| == 3;
      assert u[0] == 'G' && u[1] == 'E' && u[2] == 'T';
    }
  }

  /** "POST" in any mix of cases, and nothing else, is dispatched as a POST. */
  lemma ParseVerbPost(httpMethod: string)
    ensures ParseVerb(httpMethod) == Some(Post) <==>
      |httpMethod| == 4 && httpMethod[0] in "Pp" && httpMethod[1] in "Oo" && httpMethod[2] in "Ss" && httpMethod[3] in "Tt"
  {
    var u := Upper(httpMethod);
    if |httpMethod| == 4 && httpMethod[0] in "Pp" && httpMethod[1] in "Oo" && httpMethod[2] in "Ss" && httpMethod[3] in "Tt" {
      assert u[0] == 'P' && u[1] == 'O' && u[2] == 'S' && u[3] == 'T';
      assert u == "POST";
    }
    if u == "POST" {
      assert |httpMethod| == 4;
      assert u[0] == 'P' && u[1] == 'O' && u[2] == 'S' && u[3] == 'T';
    }
  }

  /** How an f-string renders a Python `str | None`: the text itself, or "None". */
  function Interpolated(v: Option<string>): string {
    if v.Some? then v.value else "None"
  }

  const BearerPrefix: string := "Bearer "

  /** The `Authorization` header value carrying a bearer token. */
  function BearerCredential(token: string): string {
    BearerPrefix + token
  }

  /** Reads the token back out of an `Authorization` header value. */
  function ParseBearer(header: string): Option<string> {
    if |header| >= |BearerPrefix| && header[..|BearerPrefix|] == BearerPrefix
    then Some(header[|BearerPrefix|..])
    else None
  }

  /** The credential header round-trips to exactly the token it was built from. */
  lemma BearerRoundTrip(token: string)
    ensures ParseBearer(BearerCredential(token)) == Some(token)
  {
  }
}
