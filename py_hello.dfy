/**
 * The Python sample function: `main(args)` looks up a name, a method and a
 * path in the parameter dictionary with `.get` and a default, and answers GET
 * with a greeting, POST with an echo of the body and every other method with
 * 405.
 *
 * Unlike the Go version the values are untyped: the name, method and path are
 * whatever JSON value the key holds, and the greeting and error texts render
 * them with Python's `str()`. A `query` that is present but not a dictionary
 * makes the lookup raise, which is modelled as an `Err` result.
 * The timestamp read from the clock is the parameter `now`.
 */
module PyHello {
  import opened Invocation

  /** The invocation parameters: a dictionary from strings to JSON values. */
  type Args = map<string, Json>

  /** The one exception the handler can raise: looking up `.get` on a value that lacks it. */
  datatype Exception = AttributeError(typeName: string, attribute: string)

  /** A value computed (for the handler, the response it returns), or the exception raised. */
  datatype Result<+T> = Ok(value: T) | Err(error: Exception)

  const DefaultName := JStr("World")

  /** The Python type name of a decoded JSON value. */
  function TypeName(v: Json): string
  {
    match v
    case JNull => "NoneType"
    case JBool(_) => "bool"
    case JNum(_) => "int"
    case JStr(_) => "str"
    case JArr(_) => "list"
    case JObj(_) => "dict"
  }

  /** `d.get(key, default)` on a dictionary. */
  function Get(d: Args, key: string, default: Json): Json
  {
    if key in d then d[key] else default
  }

  /** `receiver.get(key, default)` on any value: only a dictionary has `.get`. */
  function CallGet(receiver: Json, key: string, default: Json): (r: Result<Json>)
    ensures r.Err? <==> !receiver.JObj?
  {
    if receiver.JObj? then Ok(Get(receiver.fields, key, default))
    else Err(AttributeError(TypeName(receiver), "get"))
  }

  /** The query, when present, is a dictionary: the only condition under which the handler returns. */
  predicate QueryIsDict(args: Args)
  {
    "query" in args ==> args["query"].JObj?
  }

  /**
   * `args.get('name', args.get('query', {}).get('name', 'World'))`: the
   * default argument is evaluated first, so the query lookup happens (and may
   * raise) even when `name` is present.
   */
  function ResolveName(args: Args): (r: Result<Json>)
    ensures r.Err? <==> !QueryIsDict(args)
    ensures r.Err? ==> r.error == AttributeError(TypeName(args["query"]), "get")
    ensures r.Ok? ==> r.value == DefaultName || r.value in args.Values
                      || ("query" in args && r.value in args["query"].fields.Values)
  {
    match CallGet(Get(args, "query", JObj(map[])), "name", DefaultName)
    case Err(x) => Err(x)
    case Ok(fallback) => Ok(Get(args, "name", fallback))
  }

  /** `args.get('__ow_method', 'GET')`. */
  function ResolveMethod(args: Args): (verb: Json)
    ensures verb == JStr("GET") || verb in args.Values
  {
    Get(args, "__ow_method", JStr("GET"))
  }

  /** `args.get('__ow_path', '/')`. */
  function ResolvePath(args: Args): (path: Json)
    ensures path == JStr("/") || path in args.Values
  {
    Get(args, "__ow_path", JStr("/"))
  }

  /** What a POST echoes: `args.get('body', args)`. */
  function ReceivedData(args: Args): (data: Json)
    ensures data == JObj(args) || data in args.Values
    ensures "body" !in args ==> data == JObj(args)
  {
    Get(args, "body", JObj(args))
  }

  // ---------------------------------------------------------------------
  // str() of a value, as the f-strings use it
  // ---------------------------------------------------------------------

  /** The decimal digit for `d`. */
  function DigitChar(d: nat): (c: char)
    requires d < 10
    ensures '0' <= c <= '9' && c as int - '0' as int == d
  {
    ('0' as int + d) as char
  }

  /** The decimal numeral of `n`, without leading zeros. */
  function Digits(n: nat): (s: string)
    ensures |s| > 0
    ensures forall i :: 0 <= i < |s| ==> '0' <= s[i] <= '9'
    ensures s[0] == '0' <==> n == 0
    decreases n
  {
    if n < 10 then [DigitChar(n)] else Digits(n / 10) + [DigitChar(n % 10)]
  }

  /** The number a string of decimal digits denotes. */
  function DigitsValue(s: string): int
  {
    if s == [] then 0 else DigitsValue(s[..|s| - 1]) * 10 + (s[|s| - 1] as int - '0' as int)
  }

  /** `str()` of an integer: a minus sign for negative numbers, then the digits. */
  function IntStr(n: int): (s: string)
    ensures |s| > 0
    ensures s[0] == '-' <==> n < 0
  {
    if n < 0 then "-" + Digits(-n) else Digits(n)
  }

  /** The integer a numeral written by `IntStr` denotes. */
  function IntValue(s: string): int
  {
    if |s| > 0 && s[0] == '-' then -DigitsValue(s[1..]) else DigitsValue(s)
  }

  /** Reading the digits back gives the number. */
  lemma {:induction false} DigitsRoundTrip(n: nat)
    ensures DigitsValue(Digits(n)) == n
    decreases n
  {
    if n >= 10 {
      DigitsRoundTrip(n / 10);
      var s := Digits(n / 10);
      assert (s + [DigitChar(n % 10)])[..|s|] == s;
    }
  }

  /** Reading the numeral back gives the integer, so different integers render differently. */
  lemma IntStrRoundTrip(n: int)
    ensures IntValue(IntStr(n)) == n
  {
    if n < 0 {
      DigitsRoundTrip(-n);
      assert IntStr(n)[1..] == Digits(-n);
    } else {
      DigitsRoundTrip(n);
    }
  }

  /**
   * `str()` of a value. Strings are themselves; None, booleans and integers
   * are spelt as Python spells them; lists and dictionaries are rendered by
   * `showContainer`, which stands for Python's repr of a container.
   */
  function Str(v: Json, showContainer: Json -> string): (s: string)
    ensures v.JStr? ==> s == v.s
    ensures v.JNum? ==> IntValue(s) == v.n
    ensures (v.JArr? || v.JObj?) ==> s == showContainer(v)
  {
    match v
    case JStr(s) => s
    case JNull => "None"
    case JBool(b) => if b then "True" else "False"
    case JNum(n) => IntStrRoundTrip(n); IntStr(n)
    case JArr(_) => showContainer(v)
    case JObj(_) => showContainer(v)
  }

  /** f'Hello, {name}!' with the rendered name in the hole. */
  function Greeting(name: string): (g: string)
    ensures |g| == |name| + 8
  {
    Fill("Hello, ", name, "!")
  }

  /** The handler. */
  function Main(args: Args, now: string, showContainer: Json -> string): (out: Result<Response>)
    ensures out.Err? <==> !QueryIsDict(args)
    ensures out.Err? ==> out.error == AttributeError(TypeName(args["query"]), "get")
    ensures out.Ok? ==> WellFormed(out.value)
    ensures out.Ok? ==>
              (out.value.statusCode == 200
               <==> ResolveMethod(args) == JStr("GET") || ResolveMethod(args) == JStr("POST"))
  {
    match ResolveName(args)
    case Err(x) => Err(x)
    case Ok(name) =>
      var verb := ResolveMethod(args);
      var path := ResolvePath(args);
      if verb == JStr("GET") then
        Ok(Response(200, JsonCorsHeaders, JObj(map[
          "message" := JStr(Greeting(Str(name, showContainer))),
          "timestamp" := JStr(now),
          "method" := verb,
          "path" := path,
          "language" := JStr("Python")])))
      else if verb == JStr("POST") then
        Ok(Response(200, JsonCorsHeaders, JObj(map[
          "message" := JStr("Data received successfully"),
          "receivedData" := ReceivedData(args),
          "timestamp" := JStr(now)])))
      else
        Ok(Response(405, JsonCorsHeaders, NotAllowedBody(Str(verb, showContainer))))
  }

  // ---------------------------------------------------------------------
  // Properties of the resolution steps
  // ---------------------------------------------------------------------

  /** Name precedence: a present `name` (whatever its value, even ''), then `query['name']`, then 'World'. */
  lemma NamePrecedence(args: Args)
    requires QueryIsDict(args)
    ensures "name" in args ==> ResolveName(args) == Ok(args["name"])
    ensures "name" !in args && "query" in args && "name" in args["query"].fields
            ==> ResolveName(args) == Ok(args["query"].fields["name"])
    ensures "name" !in args && ("query" !in args || "name" !in args["query"].fields)
            ==> ResolveName(args) == Ok(DefaultName)
    ensures ResolveName(args) == Ok(DefaultName)
            <==> if "name" in args then args["name"] == DefaultName
                 else "query" !in args || "name" !in args["query"].fields
                      || args["query"].fields["name"] == DefaultName
  {
  }

  /** The method defaults to 'GET' and the path to '/' only when the key is absent. */
  lemma MethodAndPathDefaults(args: Args)
    ensures ResolveMethod(args) == JStr("GET") <==> "__ow_method" !in args || args["__ow_method"] == JStr("GET")
    ensures "__ow_method" in args ==> ResolveMethod(args) == args["__ow_method"]
    ensures ResolvePath(args) == JStr("/") <==> "__ow_path" !in args || args["__ow_path"] == JStr("/")
    ensures "__ow_path" in args ==> ResolvePath(args) == args["__ow_path"]
  {
  }

  /** `str()` leaves a string as it is, and different integers get different numerals. */
  lemma StrProperties(v: Json, w: Json, showContainer: Json -> string)
    ensures v.JStr? ==> Str(v, showContainer) == v.s
    ensures v.JNum? && w.JNum? && Str(v, showContainer) == Str(w, showContainer) ==> v == w
  {
    if v.JNum? && w.JNum? {
      IntStrRoundTrip(v.n);
      IntStrRoundTrip(w.n);
    }
  }

  // ---------------------------------------------------------------------
  // Properties of the three branches
  // ---------------------------------------------------------------------

  /** The greeting names exactly one name: it can be read back and two names never share a greeting. */
  lemma GreetingDeterminesName(a: string, b: string)
    ensures Hole("Hello, ", Greeting(a), "!") == Some(a)
    ensures Greeting(a) == Greeting(b) <==> a == b
  {
    FillInjective("Hello, ", a, b, "!");
  }

  /**
   * The greeting fixes only the rendered name: names of different types can
   * render alike, so 1 and '1', and None and 'None', get the same greeting.
   */
  lemma RenderedNamesCollide(now: string, showContainer: Json -> string)
    ensures JNum(1) != JStr("1") && JNull != JStr("None")
    ensures Main(map["name" := JNum(1)], now, showContainer)
            == Main(map["name" := JStr("1")], now, showContainer)
    ensures Field(Main(map["name" := JNum(1)], now, showContainer).value.body, "message") == Some(JStr("Hello, 1!"))
    ensures Main(map["name" := JNull], now, showContainer)
            == Main(map["name" := JStr("None")], now, showContainer)
  {
    assert DigitChar(1) == '1';
    assert Str(JNum(1), showContainer) == "1";
    assert Greeting("1") == "Hello, 1!";
  }

  /** GET: status 200, a greeting of the resolved name, the method and path echoed, and the language. */
  lemma GetGreets(args: Args, now: string, showContainer: Json -> string)
    requires QueryIsDict(args)
    requires ResolveMethod(args) == JStr("GET")
    ensures Main(args, now, showContainer).Ok?
    ensures Main(args, now, showContainer).value.statusCode == 200
    ensures Main(args, now, showContainer).value.body.fields.Keys
            == {"message", "timestamp", "method", "path", "language"}
    ensures Field(Main(args, now, showContainer).value.body, "message")
            == Some(JStr("Hello, " + Str(ResolveName(args).value, showContainer) + "!"))
    ensures Field(Main(args, now, showContainer).value.body, "method") == Some(JStr("GET"))
    ensures Field(Main(args, now, showContainer).value.body, "path") == Some(ResolvePath(args))
    ensures Field(Main(args, now, showContainer).value.body, "timestamp") == Some(JStr(now))
    ensures Field(Main(args, now, showContainer).value.body, "language") == Some(JStr("Python"))
  {
  }

  /** POST: status 200 and `args['body']` echoed when the key is present, else the whole of `args`. */
  lemma PostEchoes(args: Args, now: string, showContainer: Json -> string)
    requires QueryIsDict(args)
    requires ResolveMethod(args) == JStr("POST")
    ensures Main(args, now, showContainer).Ok?
    ensures Main(args, now, showContainer).value.statusCode == 200
    ensures Main(args, now, showContainer).value.body.fields.Keys == {"message", "receivedData", "timestamp"}
    ensures Field(Main(args, now, showContainer).value.body, "message")
            == Some(JStr("Data received successfully"))
    ensures "body" in args ==> Field(Main(args, now, showContainer).value.body, "receivedData") == Some(args["body"])
    ensures "body" !in args ==> Field(Main(args, now, showContainer).value.body, "receivedData") == Some(JObj(args))
    ensures Field(Main(args, now, showContainer).value.body, "timestamp") == Some(JStr(now))
  {
  }

  /** Any other method value gets 405 naming the method and listing GET and POST. */
  lemma OtherMethodsRejected(args: Args, now: string, showContainer: Json -> string)
    requires QueryIsDict(args)
    requires ResolveMethod(args) != JStr("GET") && ResolveMethod(args) != JStr("POST")
    ensures Main(args, now, showContainer).Ok?
    ensures Main(args, now, showContainer).value.statusCode == 405
    ensures Main(args, now, showContainer).value.body.fields.Keys == {"error", "allowedMethods"}
    ensures Field(Main(args, now, showContainer).value.body, "error")
            == Some(JStr("Method " + Str(ResolveMethod(args), showContainer) + " not allowed"))
    ensures Contains(Main(args, now, showContainer).value.body.fields["error"].s,
                     Str(ResolveMethod(args), showContainer))
    ensures Field(Main(args, now, showContainer).value.body, "allowedMethods")
            == Some(JArr([JStr("GET"), JStr("POST")]))
  {
    NotAllowedNamesMethod(Str(ResolveMethod(args), showContainer));
  }

  /** A method key that is present but empty is not defaulted: the request is rejected. */
  lemma EmptyMethodRejected(args: Args, now: string, showContainer: Json -> string)
    requires QueryIsDict(args)
    requires "__ow_method" in args && args["__ow_method"] == JStr("")
    ensures Main(args, now, showContainer).Ok?
    ensures Main(args, now, showContainer).value.statusCode == 405
    ensures Field(Main(args, now, showContainer).value.body, "error") == Some(JStr("Method  not allowed"))
  {
    assert NotAllowedError("") == "Method  not allowed";
  }

  /** Greetings for `{}` and for a name given with an explicit GET. */
  lemma ExamplesGreet(now: string, showContainer: Json -> string)
    ensures Field(Main(map[], now, showContainer).value.body, "message") == Some(JStr("Hello, World!"))
    ensures Field(Main(map["name" := JStr("Ada"), "__ow_method" := JStr("GET")], now, showContainer).value.body,
                  "message")
            == Some(JStr("Hello, Ada!"))
  {
    assert Greeting("World") == "Hello, World!";
    assert Greeting("Ada") == "Hello, Ada!";
  }

  /** Names that are not strings are rendered by `str()`: an integer and None. */
  lemma ExamplesRenderName(now: string, showContainer: Json -> string)
    ensures Field(Main(map["name" := JNum(-42)], now, showContainer).value.body, "message")
            == Some(JStr("Hello, -42!"))
    ensures Field(Main(map["name" := JNull], now, showContainer).value.body, "message")
            == Some(JStr("Hello, None!"))
  {
    assert DigitChar(4) == '4' && DigitChar(2) == '2';
    assert Digits(42) == "42";
    assert Str(JNum(-42), showContainer) == "-42";
    assert Greeting("-42") == "Hello, -42!";
    assert Greeting("None") == "Hello, None!";
  }

  /** A POST echoing its body, a DELETE rejected, and a string query raising despite a name. */
  lemma ExamplesOther(now: string, showContainer: Json -> string)
    ensures Field(Main(map["__ow_method" := JStr("POST"), "body" := JObj(map["x" := JNum(1)])], now, showContainer)
                    .value.body, "receivedData")
            == Some(JObj(map["x" := JNum(1)]))
    ensures Field(Main(map["__ow_method" := JStr("DELETE")], now, showContainer).value.body, "error")
            == Some(JStr("Method DELETE not allowed"))
    ensures Main(map["name" := JStr("Ada"), "query" := JStr("x")], now, showContainer)
            == Err(AttributeError("str", "get"))
  {
    var delete := map["__ow_method" := JStr("DELETE")];
    assert Str(ResolveMethod(delete), showContainer) == "DELETE";
    assert Main(delete, now, showContainer) == Ok(Response(405, JsonCorsHeaders, NotAllowedBody("DELETE")));
    assert Fill("Method ", "DELETE", " not allowed") == "Method DELETE not allowed";
  }
}
