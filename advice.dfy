/**
 * Response normalisation: the model's reply becomes the advice.
 *
 * `JSON.parse` is the parameter `parse` (None where it would throw). On
 * success the parsed value is the advice as it stands; otherwise the raw
 * reply becomes the summary of an otherwise empty advice object.
 */
module Advice {
  import opened Wrappers

  /**
   * JSON values as `JSON.parse` returns them. Numbers are kept as integers;
   * an object is its members in order.
   */
  datatype Json =
    | JNull
    | JBool(b: bool)
    | JNumber(n: int)
    | JString(s: string)
    | JArray(items: seq<Json>)
    | JObject(members: seq<(string, Json)>)

  /** The value of `key` in an object: the last member of that name, as in `JSON.parse`. */
  function Member(j: Json, key: string): (r: Option<Json>)
    ensures r.Some? ==> j.JObject? && exists i :: (0 <= i < |j.members| && j.members[i] == (key, r.value)
                                                   && forall k :: i < k < |j.members| ==> j.members[k].0 != key)
    ensures r.None? ==> !j.JObject? || forall i :: 0 <= i < |j.members| ==> j.members[i].0 != key
    decreases if j.JObject? then |j.members| else 0
  {
    match j
    case JObject(ms) =>
      if ms == [] then None
      else if ms[|ms| - 1].0 == key then Some(ms[|ms| - 1].1)
      else
        var r := Member(JObject(ms[..|ms| - 1]), key);
        assert forall i :: 0 <= i < |ms| - 1 ==> ms[..|ms| - 1][i] == ms[i];
        r
    case _ => None
  }

  predicate IsText(j: Json)
  {
    j.JString?
  }

  predicate IsTextList(j: Json)
  {
    j.JArray? && forall i :: 0 <= i < |j.items| ==> IsText(j.items[i])
  }

  /**
   * The shape both prompts ask for: an object whose `summary` is a string
   * and whose `insights` and `recommendations` are arrays of strings.
   */
  predicate IsAdvice(j: Json)
  {
    && j.JObject?
    && Member(j, "summary").Some? && IsText(Member(j, "summary").value)
    && Member(j, "insights").Some? && IsTextList(Member(j, "insights").value)
    && Member(j, "recommendations").Some? && IsTextList(Member(j, "recommendations").value)
  }

  /** `{ summary: raw, insights: [], recommendations: [] }` */
  function Fallback(raw: string): (j: Json)
    ensures IsAdvice(j)
    ensures Member(j, "summary") == Some(JString(raw))
    ensures Member(j, "insights") == Some(JArray([])) && Member(j, "recommendations") == Some(JArray([]))
  {
    var ms := [("summary", JString(raw)), ("insights", JArray([])), ("recommendations", JArray([]))];
    assert ms[..2] == [("summary", JString(raw)), ("insights", JArray([]))];
    assert ms[..2][..1] == [("summary", JString(raw))];
    assert Member(JObject(ms[..2][..1]), "summary") == Some(JString(raw));
    assert Member(JObject(ms[..2]), "summary") == Some(JString(raw));
    assert Member(JObject(ms[..2]), "insights") == Some(JArray([]));
    JObject(ms)
  }

  /**
   * Lines 60-65: the parsed reply as it stands, or the fallback built from
   * the raw text when it does not parse. A total function: it never fails.
   */
  function Normalise(raw: string, parse: string -> Option<Json>): (advice: Json)
    ensures parse(raw).Some? ==> advice == parse(raw).value
    ensures parse(raw).None? ==> advice == Fallback(raw)
  {
    match parse(raw)
    case Some(j) => j
    case None => Fallback(raw)
  }

  /**
   * The advice has the three-key shape exactly when the reply does not parse
   * or parses to that shape; a parsed value is never repaired.
   */
  lemma NormaliseShape(raw: string, parse: string -> Option<Json>)
    ensures IsAdvice(Normalise(raw, parse)) <==> (parse(raw).None? || IsAdvice(parse(raw).value))
    ensures parse(raw).None? ==> Member(Normalise(raw, parse), "summary") == Some(JString(raw))
  {
  }

  /** The reply the prompts ask for: `{"summary":"S","insights":["a"],"recommendations":["b","c"]}`. */
  function SampleAdvice(): Json
  {
    JObject([("summary", JString("S")),
             ("insights", JArray([JString("a")])),
             ("recommendations", JArray([JString("b"), JString("c")]))])
  }

  /** A reply that parses to the requested shape comes back as that same structure. */
  lemma WellFormedReplyKept(raw: string, parse: string -> Option<Json>)
    requires parse(raw) == Some(SampleAdvice())
    ensures Normalise(raw, parse) == SampleAdvice()
    ensures IsAdvice(Normalise(raw, parse))
    ensures Member(Normalise(raw, parse), "recommendations") == Some(JArray([JString("b"), JString("c")]))
  {
    var ms := SampleAdvice().members;
    assert ms[..2][..1] == [("summary", JString("S"))];
    assert ms[..2] == [("summary", JString("S")), ("insights", JArray([JString("a")]))];
  }

  /** A reply that is not JSON is shown as the summary, with empty lists. */
  lemma ProseReplyFallsBack(parse: string -> Option<Json>)
    requires parse("Sorry, I cannot help.") == None
    ensures Normalise("Sorry, I cannot help.", parse)
         == JObject([("summary", JString("Sorry, I cannot help.")), ("insights", JArray([])), ("recommendations", JArray([]))])
  {
  }

  /**
   * A reply that parses to an object missing keys, or to a value that is no
   * object at all, is passed on unrepaired: no key is defaulted.
   */
  lemma ParsedReplyNotRepaired(raw: string, parse: string -> Option<Json>)
    requires parse(raw) == Some(JObject([("summary", JString("S"))])) || parse(raw) == Some(JNumber(42))
    ensures !IsAdvice(Normalise(raw, parse))
    ensures Member(Normalise(raw, parse), "insights") == None
  {
  }
}
