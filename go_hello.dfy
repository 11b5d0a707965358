/**
 * The Go sample function: `Main` takes a decoded `Event`, works out a name,
 * a method and a path, and answers GET with a greeting, POST with an echo of
 * the body and every other method with 405.
 *
 * Go's nil maps are `None`; a non-nil map, even an empty one, is `Some`.
 * The timestamp read from the clock is the parameter `now`.
 */
module GoHello {
  import opened Invocation

  /** The invocation parameters, after the platform decoded them into the struct. */
  datatype Event = Event(
    name: string,
    query: Option<map<string, Json>>,
    body: Option<map<string, Json>>,
    httpMethod: string,
    path: string)

  const DefaultName := "stranger"

  /** The string under "name" in the query map, if the map is non-nil and holds a string there. */
  function QueryName(e: Event): (r: Option<string>)
    ensures r.Some? <==> e.query.Some? && "name" in e.query.value && e.query.value["name"].JStr?
    ensures r.Some? ==> e.query.value["name"] == JStr(r.value)
  {
    match e.query
    case None => None
    case Some(q) => if "name" in q && q["name"].JStr? then Some(q["name"].s) else None
  }

  /** The display name: a non-empty Name field, else a string query name, else the default. */
  function ResolveName(e: Event): (name: string)
    ensures name == e.name || QueryName(e) == Some(name) || name == DefaultName
    ensures e.name != "" ==> name == e.name
  {
    if e.name != "" then e.name
    else if QueryName(e).Some? then QueryName(e).value
    else DefaultName
  }

  /** The method, "GET" when the Method field is empty. */
  function ResolveMethod(e: Event): (verb: string)
    ensures verb != ""
  {
    if e.httpMethod != "" then e.httpMethod else "GET"
  }

  /** The path, "/" when the Path field is empty. */
  function ResolvePath(e: Event): (path: string)
    ensures path != ""
  {
    if e.path != "" then e.path else "/"
  }

  /** "Hello %s!" with the name in the hole. */
  function Greeting(name: string): (g: string)
    ensures |g| == |name| + 7
  {
    Fill("Hello ", name, "!")
  }

  /** What a POST echoes: the body map when it is non-nil, else a map holding only the name. */
  function ReceivedData(e: Event): (data: Json)
    ensures data.JObj?
    ensures e.body.Some? ==> data.fields == e.body.value
    ensures e.body.None? ==> data.fields.Keys == {"name"} && data.fields["name"] == JStr(ResolveName(e))
  {
    match e.body
    case Some(b) => JObj(b)
    case None => JObj(map["name" := JStr(ResolveName(e))])
  }

  /** The handler. */
  function Main(e: Event, now: string): (r: Response)
    ensures WellFormed(r)
    ensures r.statusCode == 200 <==> ResolveMethod(e) == "GET" || ResolveMethod(e) == "POST"
    ensures r.statusCode == 405 <==> e.httpMethod != "" && e.httpMethod != "GET" && e.httpMethod != "POST"
  {
    var name := ResolveName(e);
    var verb := ResolveMethod(e);
    var path := ResolvePath(e);
    if verb == "GET" then
      Response(200, JsonCorsHeaders, JObj(map[
        "message" := JStr(Greeting(name)),
        "timestamp" := JStr(now),
        "method" := JStr(verb),
        "path" := JStr(path),
        "runtime" := JStr("Go (go:default)"),
        "language" := JStr("golang")]))
    else if verb == "POST" then
      Response(200, JsonCorsHeaders, JObj(map[
        "message" := JStr("Data received successfully"),
        "receivedData" := ReceivedData(e),
        "timestamp" := JStr(now)]))
    else
      Response(405, JsonCorsHeaders, NotAllowedBody(verb))
  }

  // ---------------------------------------------------------------------
  // Properties of the resolution steps
  // ---------------------------------------------------------------------

  /** Name precedence: a non-empty Name, then a string query name (even an empty one), then "stranger". */
  lemma NamePrecedence(e: Event)
    ensures e.name != "" ==> ResolveName(e) == e.name
    ensures e.name == "" && e.query.Some? && "name" in e.query.value && e.query.value["name"].JStr?
            ==> ResolveName(e) == e.query.value["name"].s
    ensures ResolveName(e) == DefaultName
            <==> e.name == DefaultName
                 || (e.name == "" && (QueryName(e) == None || QueryName(e) == Some(DefaultName)))
  {
  }

  /** A query name that is not a string is ignored without error: the default name is kept. */
  lemma NonStringQueryNameIgnored(e: Event, now: string)
    requires e.name == "" && e.query.Some? && "name" in e.query.value
    requires !e.query.value["name"].JStr?
    ensures ResolveName(e) == DefaultName
    ensures e.httpMethod == "" ==> Field(Main(e, now).body, "message") == Some(JStr("Hello stranger!"))
  {
    assert Greeting(DefaultName) == "Hello stranger!";
  }

  /** A nil query map and an empty one are treated alike. */
  lemma NilQueryLikeEmptyQuery(e: Event, now: string)
    requires e.query == None
    ensures Main(e, now) == Main(e.(query := Some(map[])), now)
  {
  }

  /** The method defaults to "GET" and the path to "/" exactly when the field is empty. */
  lemma MethodAndPathDefaults(e: Event)
    ensures ResolveMethod(e) == "GET" <==> e.httpMethod == "" || e.httpMethod == "GET"
    ensures e.httpMethod != "" ==> ResolveMethod(e) == e.httpMethod
    ensures ResolvePath(e) == "/" <==> e.path == "" || e.path == "/"
    ensures e.path != "" ==> ResolvePath(e) == e.path
  {
  }

  // ---------------------------------------------------------------------
  // Properties of the three branches
  // ---------------------------------------------------------------------

  /** The greeting names exactly one name: it can be read back and two names never share a greeting. */
  lemma GreetingDeterminesName(a: string, b: string)
    ensures Hole("Hello ", Greeting(a), "!") == Some(a)
    ensures Greeting(a) == Greeting(b) <==> a == b
  {
    FillInjective("Hello ", a, b, "!");
  }

  /** GET: status 200, a greeting of the resolved name, the method and path echoed, and the runtime. */
  lemma GetGreets(e: Event, now: string)
    requires e.httpMethod == "" || e.httpMethod == "GET"
    ensures Main(e, now).statusCode == 200
    ensures Main(e, now).body.fields.Keys == {"message", "timestamp", "method", "path", "runtime", "language"}
    ensures Field(Main(e, now).body, "message") == Some(JStr("Hello " + ResolveName(e) + "!"))
    ensures Field(Main(e, now).body, "method") == Some(JStr("GET"))
    ensures Field(Main(e, now).body, "path") == Some(JStr(ResolvePath(e)))
    ensures Field(Main(e, now).body, "timestamp") == Some(JStr(now))
    ensures Field(Main(e, now).body, "language") == Some(JStr("golang"))
    ensures Field(Main(e, now).body, "runtime") == Some(JStr("Go (go:default)"))
  {
  }

  /** POST: status 200, the non-nil body echoed (an empty one too), else the name wrapped in a map. */
  lemma PostEchoes(e: Event, now: string)
    requires e.httpMethod == "POST"
    ensures Main(e, now).statusCode == 200
    ensures Main(e, now).body.fields.Keys == {"message", "receivedData", "timestamp"}
    ensures Field(Main(e, now).body, "message") == Some(JStr("Data received successfully"))
    ensures e.body.Some? ==> Field(Main(e, now).body, "receivedData") == Some(JObj(e.body.value))
    ensures e.body.None? ==>
              Field(Main(e, now).body, "receivedData") == Some(JObj(map["name" := JStr(ResolveName(e))]))
    ensures Field(Main(e, now).body, "timestamp") == Some(JStr(now))
  {
  }

  /** Any other method, compared case-sensitively, gets 405 naming the method and listing GET and POST. */
  lemma OtherMethodsRejected(e: Event, now: string)
    requires e.httpMethod != "" && e.httpMethod != "GET" && e.httpMethod != "POST"
    ensures Main(e, now).statusCode == 405
    ensures Main(e, now).body.fields.Keys == {"error", "allowedMethods"}
    ensures Field(Main(e, now).body, "error") == Some(JStr("Method " + e.httpMethod + " not allowed"))
    ensures Contains(Main(e, now).body.fields["error"].s, e.httpMethod)
    ensures Field(Main(e, now).body, "allowedMethods") == Some(JArr([JStr("GET"), JStr("POST")]))
  {
    NotAllowedNamesMethod(e.httpMethod);
  }

  /** Greetings for an empty event, a query name, and a Name that overrides the query name. */
  lemma ExamplesGreet(now: string)
    ensures Field(Main(Event("", None, None, "", ""), now).body, "message") == Some(JStr("Hello stranger!"))
    ensures Field(Main(Event("", Some(map["name" := JStr("Ada")]), None, "GET", ""), now).body, "message")
            == Some(JStr("Hello Ada!"))
    ensures Field(Main(Event("Bob", Some(map["name" := JStr("Ada")]), None, "GET", ""), now).body, "message")
            == Some(JStr("Hello Bob!"))
  {
    assert Fill("Hello ", "stranger", "!") == "Hello stranger!";
    assert Fill("Hello ", "Ada", "!") == "Hello Ada!";
    assert Fill("Hello ", "Bob", "!") == "Hello Bob!";
  }

  /** Methods are compared case-sensitively: "get" is rejected, and so is DELETE. */
  lemma ExamplesReject(now: string)
    ensures Main(Event("", None, None, "get", ""), now).statusCode == 405
    ensures Field(Main(Event("", None, None, "DELETE", ""), now).body, "error")
            == Some(JStr("Method DELETE not allowed"))
  {
    assert Fill("Method ", "DELETE", " not allowed") == "Method DELETE not allowed";
  }
}
