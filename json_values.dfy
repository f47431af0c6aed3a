/**
 * JSON values as a handler sees them after `await req.json()` or
 * `await response.json()`, together with the JavaScript operations the
 * handlers apply to them: property destructuring, truthiness (`!x`) and
 * template interpolation (`${x}`).
 */
module JsonValues {
  import opened Wrappers
  import opened Text

  /** A parsed JSON value. Numbers are integral in this model. */
  datatype Json =
    | JNull
    | JBool(b: bool)
    | JNumber(n: int)
    | JString(s: string)
    | JArray(items: seq<Json>)
    | JObject(members: seq<(string, Json)>)

  /** The result of JSON text that may not parse: what `JSON.parse` returns or the message it throws. */
  datatype JsonText = Malformed(message: string) | WellFormed(value: Json)

  /**
   * The value of member `key` of a parsed object; `None` is `undefined`.
   * When `JSON.parse` meets a key twice, the last occurrence wins.
   */
  function Member(members: seq<(string, Json)>, key: string): (r: Option<Json>)
    ensures r.None? <==> forall i :: 0 <= i < |members| ==> members[i].0 != key
    ensures r.Some? ==> (key, r.value) in members
    decreases |members|
  {
    if members == [] then None
    else if Last(members).0 == key then Some(Last(members).1)
    else Member(members[..|members| - 1], key)
  }

  /** The member found is the one at index `i`, and no later member has the same key. */
  lemma {:induction false} MemberIsLastOccurrence(members: seq<(string, Json)>, key: string) returns (i: nat)
    requires Member(members, key).Some?
    ensures i < |members| && members[i] == (key, Member(members, key).value)
    ensures forall j :: i < j < |members| ==> members[j].0 != key
    decreases |members|
  {
    var n := |members|;
    if Last(members).0 == key {
      i := n - 1;
    } else {
      var front := members[..n - 1];
      i := MemberIsLastOccurrence(front, key);
      assert members[i] == front[i];
      assert forall j :: i < j < n - 1 ==> members[j] == front[j];
    }
  }

  /** What `const { key } = v` binds: the property (or `undefined`), or the TypeError it throws. */
  datatype Binding = Bound(field: Option<Json>) | Thrown(message: string)

  function NullDestructureMessage(key: string): string {
    "Cannot destructure property '" + key + "' of '(intermediate value)' as it is null."
  }

  /**
   * Destructuring reads a property of any value except `null`, which throws.
   * Primitives and arrays have no such own property, so the binding is `undefined`.
   */
  function Destructure(v: Json, key: string): (b: Binding)
    ensures b.Thrown? <==> v.JNull?
    ensures v.JObject? ==> b == Bound(Member(v.members, key))
    ensures !v.JObject? && !v.JNull? ==> b == Bound(None)
  {
    match v
    case JNull => Thrown(NullDestructureMessage(key))
    case JObject(ms) => Bound(Member(ms, key))
    case _ => Bound(None)
  }

  /** `!!x`: `undefined`, `null`, `false`, `0` and `""` are falsy, everything else truthy. */
  predicate Truthy(f: Option<Json>) {
    match f
    case None => false
    case Some(v) =>
      match v
      case JNull => false
      case JBool(b) => b
      case JNumber(n) => n != 0
      case JString(s) => s != ""
      case JArray(_) => true
      case JObject(_) => true
  }

  function JoinComma(parts: seq<string>): string
    decreases |parts|
  {
    if parts == [] then "" else if |parts| == 1 then parts[0] else parts[0] + "," + JoinComma(parts[1..])
  }

  /**
   * `${v}`: strings are inserted as they are; arrays join their elements with
   * commas (a `null` element becomes empty); objects become "[object Object]".
   */
  function ToJsString(v: Json): string
    decreases v
  {
    match v
    case JNull => "null"
    case JBool(b) => if b then "true" else "false"
    case JNumber(n) => IntToString(n)
    case JString(s) => s
    case JArray(items) =>
      JoinComma(seq(|items|, i requires 0 <= i < |items| =>
        if items[i].JNull? then "" else ToJsString(items[i])))
    case JObject(_) => "[object Object]"
  }
}
