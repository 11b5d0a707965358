/**
 * Where the Go and the Python handler agree and where they part, for the
 * same request: the Go event carries the method as a string (empty when
 * absent), the Python dictionary carries it under "__ow_method".
 */
module Divergence {
  import opened Invocation
  import GoHello
  import PyHello

  /**
   * An empty method is defaulted to GET by Go (an empty string counts as
   * absent) but rejected by Python (only a missing key is defaulted).
   */
  lemma EmptyMethodDiverges(e: GoHello.Event, args: PyHello.Args, now: string, showContainer: Json -> string)
    requires e.httpMethod == ""
    requires PyHello.QueryIsDict(args) && "__ow_method" in args && args["__ow_method"] == JStr("")
    ensures GoHello.Main(e, now).statusCode == 200
    ensures PyHello.Main(args, now, showContainer).value.statusCode == 405
  {
  }

  /**
   * For the same non-empty method string both handlers take the same branch,
   * and when they reject it they send the same 405 body.
   */
  lemma SameDispatchOnNonEmptyMethod(e: GoHello.Event, args: PyHello.Args, now: string, showContainer: Json -> string)
    requires e.httpMethod != ""
    requires PyHello.QueryIsDict(args) && "__ow_method" in args && args["__ow_method"] == JStr(e.httpMethod)
    ensures PyHello.Main(args, now, showContainer).Ok?
    ensures GoHello.Main(e, now).statusCode == PyHello.Main(args, now, showContainer).value.statusCode
    ensures GoHello.Main(e, now).statusCode == 405
            ==> GoHello.Main(e, now).body == PyHello.Main(args, now, showContainer).value.body
  {
  }

  /** The two greeting formats never produce the same text: the sixth character is ' ' in Go, ',' in Python. */
  lemma GreetingsNeverCoincide(a: string, b: string)
    ensures GoHello.Greeting(a) != PyHello.Greeting(b)
  {
    assert GoHello.Greeting(a)[5] == ' ';
    assert PyHello.Greeting(b)[5] == ',';
  }
}
