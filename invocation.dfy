/**
 * What the function platform hands to a handler and what it takes back:
 * JSON values, the response record, the two headers every response of the
 * sample handlers carries, and the text templates both handlers fill in.
 */
module Invocation {

  datatype Option<+T> = None | Some(value: T)

  /** A JSON value as the platform decodes it (numbers are integers here). */
  datatype Json =
    | JNull
    | JBool(b: bool)
    | JNum(n: int)
    | JStr(s: string)
    | JArr(items: seq<Json>)
    | JObj(fields: map<string, Json>)

  /** The record a handler returns: status code, headers and body. */
  datatype Response = Response(statusCode: int, headers: map<string, string>, body: Json)

  /** The headers of every response: a JSON content type and CORS open to all origins. */
  const JsonCorsHeaders: map<string, string> :=
    map["Content-Type" := "application/json", "Access-Control-Allow-Origin" := "*"]

  /** The value of `key` in a JSON object, or None when `j` is not an object or lacks the key. */
  function Field(j: Json, key: string): Option<Json>
  {
    if j.JObj? && key in j.fields then Some(j.fields[key]) else None
  }

  /** Every response either handler can produce has this shape. */
  predicate WellFormed(r: Response)
  {
    && (r.statusCode == 200 || r.statusCode == 405)
    && r.headers == JsonCorsHeaders
    && r.body.JObj?
  }

  // ---------------------------------------------------------------------
  // One-hole text templates: "Hello %s!", "Method %s not allowed", ...
  // ---------------------------------------------------------------------

  /** The template `prefix` + hole + `suffix` with `hole` filled in. */
  function Fill(prefix: string, hole: string, suffix: string): string
  {
    prefix + hole + suffix
  }

  /** Reads back what was put into the hole of the template, if `text` fits it. */
  function Hole(prefix: string, text: string, suffix: string): (hole: Option<string>)
    ensures hole.Some? ==> |text| == |prefix| + |hole.value| + |suffix|
  {
    if |prefix| + |suffix| <= |text| && text[..|prefix|] == prefix && text[|text| - |suffix|..] == suffix
    then Some(text[|prefix|..|text| - |suffix|])
    else None
  }

  /** Filling the hole and reading it back gives what was put in. */
  lemma HoleOfFill(prefix: string, hole: string, suffix: string)
    ensures Hole(prefix, Fill(prefix, hole, suffix), suffix) == Some(hole)
  {
  }

  /** Conversely, a text that fits the template is the template filled with its hole. */
  lemma FillOfHole(prefix: string, text: string, suffix: string)
    requires Hole(prefix, text, suffix).Some?
    ensures Fill(prefix, Hole(prefix, text, suffix).value, suffix) == text
  {
  }

  /** A filled template determines its hole: different values give different texts. */
  lemma FillInjective(prefix: string, a: string, b: string, suffix: string)
    ensures Fill(prefix, a, suffix) == Fill(prefix, b, suffix) <==> a == b
  {
    if Fill(prefix, a, suffix) == Fill(prefix, b, suffix) {
      HoleOfFill(prefix, a, suffix);
      HoleOfFill(prefix, b, suffix);
    }
  }

  /** `part` occurs in `text` starting at position `i`. */
  predicate OccursAt(text: string, part: string, i: int)
  {
    0 <= i && i + |part| <= |text| && text[i..i + |part|] == part
  }

  /** `part` occurs somewhere in `text`. */
  ghost predicate Contains(text: string, part: string)
  {
    exists i :: OccursAt(text, part, i)
  }

  /** A filled template contains the value in its hole, right after the prefix. */
  lemma FillContainsHole(prefix: string, hole: string, suffix: string)
    ensures Contains(Fill(prefix, hole, suffix), hole)
  {
    var text := Fill(prefix, hole, suffix);
    assert OccursAt(text, hole, |prefix|);
  }

  // ---------------------------------------------------------------------
  // The 405 answer, identical in both handlers
  // ---------------------------------------------------------------------

  /** "Method %s not allowed" with the method's text in the hole. */
  function NotAllowedError(verb: string): (text: string)
    ensures |text| == |verb| + 19
  {
    Fill("Method ", verb, " not allowed")
  }

  /** The body of a 405: the error text and the two methods that are served. */
  function NotAllowedBody(verb: string): (body: Json)
    ensures body.JObj? && body.fields.Keys == {"error", "allowedMethods"}
    ensures body.fields["error"].JStr? && |body.fields["error"].s| == |verb| + 19
    ensures body.fields["allowedMethods"] == JArr([JStr("GET"), JStr("POST")])
  {
    JObj(map["error" := JStr(NotAllowedError(verb)),
             "allowedMethods" := JArr([JStr("GET"), JStr("POST")])])
  }

  /** The error text names the rejected method, and the method can be read back from it. */
  lemma NotAllowedNamesMethod(verb: string)
    ensures Contains(NotAllowedError(verb), verb)
    ensures Hole("Method ", NotAllowedError(verb), " not allowed") == Some(verb)
  {
    FillContainsHole("Method ", verb, " not allowed");
    HoleOfFill("Method ", verb, " not allowed");
  }
}
