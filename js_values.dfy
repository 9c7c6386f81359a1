/**
 * JSON values as JavaScript sees them after parsing, and the implicit conversions the handler
 * applies to them: truthiness (`if (x)`, `x || y`), ToString (template literals and the argument
 * of decodeURIComponent), the comparison `x >= 1`, property reads and object spread.
 */
module JsValues {
  import opened Wrappers
  import Assoc
  import JsNumbers

  /**
   * A parsed JSON value. Numbers are integers; an object's members are in the order in which
   * the engine enumerates its properties, with no key twice.
   */
  datatype Json =
    | JNull
    | JBool(b: bool)
    | JNum(n: int)
    | JStr(s: string)
    | JArr(items: seq<Json>)
    | JObj(members: seq<(string, Json)>)

  /** The TypeError message of Node's engine (V8) when an object cannot be made primitive. */
  const ConvertMessage := "Cannot convert object to primitive value"

  /**
   * Making a value primitive throws exactly when it is an object with a `toString` member of its
   * own, or an array holding such an object at any depth. A parsed member is never callable, so
   * it shadows `Object.prototype.toString` and `valueOf` gives back the object itself.
   */
  predicate ThrowsOnConversion(v: Json)
  {
    match v
    case JObj(members) => "toString" in Assoc.Keys(members)
    case JArr(items) => exists i :: 0 <= i < |items| && ThrowsOnConversion(items[i])
    case _ => false
  }

  /** ToBoolean; `None` is `undefined`. */
  predicate Truthy(v: Option<Json>)
    ensures Truthy(v) <==>
              v !in {None, Some(JNull), Some(JBool(false)), Some(JNum(0)), Some(JStr(""))}
  {
    match v
    case None => false
    case Some(JNull) => false
    case Some(JBool(b)) => b
    case Some(JNum(n)) => n != 0
    case Some(JStr(s)) => s != ""
    case Some(JArr(_)) => true
    case Some(JObj(_)) => true
  }

  /**
   * ToString of a value: an array joins its elements with commas, an object without its own
   * `toString` prints as "[object Object]"; the conversion fails with a TypeError otherwise.
   */
  function ToStr(v: Json): (r: Result<string, string>)
    decreases v, 1
    ensures r.Failure? <==> ThrowsOnConversion(v)
    ensures r.Failure? ==> r.error == ConvertMessage
  {
    match v
    case JNull => Success("null")
    case JBool(b) => Success(if b then "true" else "false")
    case JNum(n) => Success(JsNumbers.IntToDecimal(n))
    case JStr(s) => Success(s)
    case JArr(items) => Join(v, |items|)
    case JObj(members) =>
      if "toString" in Assoc.Keys(members) then Failure(ConvertMessage) else Success("[object Object]")
  }

  /**
   * Array.prototype.join(",") over the first `n` elements of `arr`, left to right; null elements
   * print as "" and the first element that cannot be converted stops the join.
   */
  function Join(arr: Json, n: nat): (r: Result<string, string>)
    requires arr.JArr? && n <= |arr.items|
    decreases arr, 0, n
    ensures r.Failure? <==> exists i :: 0 <= i < n && ThrowsOnConversion(arr.items[i])
    ensures r.Failure? ==> r.error == ConvertMessage
  {
    if n == 0 then Success("")
    else
      match Join(arr, n - 1)
      case Failure(e) => Failure(e)
      case Success(prefix) =>
        var last := arr.items[n - 1];
        var text := if last == JNull then Success("") else ToStr(last);
        match text
        case Failure(e) => Failure(e)
        case Success(t) => Success(if n == 1 then t else prefix + "," + t)
  }

  /** What a template literal `${v}` inserts; an absent property prints as "undefined". */
  function TemplateText(v: Option<Json>): (r: Result<string, string>)
    ensures v.None? ==> r == Success("undefined")
    ensures v.Some? ==> r == ToStr(v.value)
    ensures r.Failure? <==> v.Some? && ThrowsOnConversion(v.value)
    ensures r.Failure? ==> r.error == ConvertMessage
  {
    match v
    case None => Success("undefined")
    case Some(x) => ToStr(x)
  }

  /** Reading property `key` of a parsed value: an object's own member, otherwise undefined. */
  function Member(v: Json, key: string): (r: Option<Json>)
    ensures r.Some? <==> v.JObj? && key in Assoc.Keys(v.members)
  {
    if v.JObj? then
      Assoc.LookupFound(v.members, key);
      Assoc.Lookup(v.members, key)
    else None
  }

  /**
   * The comparison `v >= 1`. The value is first made primitive (an array or object becomes its
   * string, which may throw), then a number: undefined is NaN, null is 0, booleans are 0 or 1,
   * strings go through StringToNumber.
   */
  function AtLeastOne(v: Option<Json>): (r: Result<bool, string>)
    ensures r.Failure? <==> v.Some? && ThrowsOnConversion(v.value)
    ensures r.Failure? ==> r.error == ConvertMessage
  {
    match v
    case None => Success(false)
    case Some(JNull) => Success(false)
    case Some(JBool(b)) => Success(b)
    case Some(JNum(n)) => Success(n >= 1)
    case Some(x) =>
      match ToStr(x)
      case Failure(e) => Failure(e)
      case Success(text) => Success(JsNumbers.AtLeastOne(JsNumbers.StringToNumber(text)))
  }

  /**
   * The entries that `{...v}` copies: an object's members; an array's elements and a string's
   * characters under their decimal indices; nothing for null, booleans and numbers.
   */
  function OwnEntries(v: Json): seq<(string, Json)>
  {
    match v
    case JObj(members) => members
    case JArr(items) => seq(|items|, i requires 0 <= i < |items| => (JsNumbers.NatToDecimal(i), items[i]))
    case JStr(s) => seq(|s|, i requires 0 <= i < |s| => (JsNumbers.NatToDecimal(i), JStr([s[i]])))
    case _ => []
  }

  /** A numeric string compares with 1 exactly as the number it spells. */
  lemma NumericStringAtLeastOne(n: int)
    ensures AtLeastOne(Some(JStr(JsNumbers.IntToDecimal(n)))) == AtLeastOne(Some(JNum(n)))
  {
    JsNumbers.DecimalAtLeastOne(n);
  }

  /** A one-element array compares with 1 as its element does: `[5] >= 1` because "5" >= 1. */
  lemma SingletonArrayAtLeastOne(n: int)
    ensures AtLeastOne(Some(JArr([JNum(n)]))) == Success(n >= 1)
  {
    var arr := JArr([JNum(n)]);
    assert Join(arr, 0) == Success("");
    assert Join(arr, 1) == ToStr(JNum(n));
    JsNumbers.DecimalAtLeastOne(n);
  }

  /**
   * The entries spread from an array or a string are one per element or character, keyed by
   * the indices in order, with no key twice.
   */
  lemma OwnEntriesIndexed(v: Json)
    requires v.JArr? || v.JStr?
    ensures |OwnEntries(v)| == if v.JArr? then |v.items| else |v.s|
    ensures Assoc.Distinct(Assoc.Keys(OwnEntries(v)))
    ensures forall i :: 0 <= i < |OwnEntries(v)| ==> OwnEntries(v)[i].0 == JsNumbers.NatToDecimal(i)
    ensures forall i :: 0 <= i < |OwnEntries(v)| ==>
              OwnEntries(v)[i].1 == if v.JArr? then v.items[i] else JStr([v.s[i]])
  {
    var e := OwnEntries(v);
    Assoc.KeysLength(e);
    var ks := Assoc.Keys(e);
    forall i, j | 0 <= i < j < |ks| ensures ks[i] != ks[j] {
      if ks[i] == ks[j] {
        JsNumbers.NatToDecimalInjective(i, j);
      }
    }
  }
}
