/**
 * JSON-like values as the app cell stores them in cell metadata and as the
 * workspace service returns them, with the few JavaScript operations the core
 * applies to them: property access, `typeof`, truthiness and `String(v)`.
 * Numbers are integers; JavaScript `undefined` is `None` of an `Option<Json>`.
 */
module Json {
  import opened Wrappers
  import opened Text

  /** Members of an object keep their insertion order, which is the order of `Object.keys`. */
  datatype Json =
    | JNull
    | JBool(b: bool)
    | JNum(n: int)
    | JStr(s: string)
    | JArr(items: seq<Json>)
    | JObj(members: seq<Member>)

  datatype Member = Member(key: string, value: Json)

  /** `Object.keys` of an object. */
  function Keys(members: seq<Member>): (keys: seq<string>)
    ensures |keys| == |members|
    ensures forall i :: 0 <= i < |members| ==> keys[i] == members[i].key
  {
    seq(|members|, i requires 0 <= i < |members| => members[i].key)
  }

  /** The value stored under `key`, or `None` (undefined) when there is none. */
  function Field(members: seq<Member>, key: string): (r: Option<Json>)
    ensures r.Some? <==> exists i :: 0 <= i < |members| && members[i].key == key
    ensures r.Some? ==> exists i :: 0 <= i < |members| && members[i] == Member(key, r.value)
  {
    if |members| == 0 then None
    else if members[0].key == key then Some(members[0].value)
    else
      var r := Field(members[1..], key);
      assert forall i :: 1 <= i < |members| ==> members[i] == members[1..][i - 1];
      r
  }

  /** JavaScript truthiness. */
  predicate Truthy(v: Json) {
    match v
    case JNull => false
    case JBool(b) => b
    case JNum(n) => n != 0
    case JStr(s) => s != ""
    case _ => true
  }

  predicate OptTruthy(v: Option<Json>) {
    v.Some? && Truthy(v.value)
  }

  /** `typeof v`. */
  function TypeOf(v: Option<Json>): string {
    match v
    case None => "undefined"
    case Some(JBool(_)) => "boolean"
    case Some(JNum(_)) => "number"
    case Some(JStr(_)) => "string"
    case Some(_) => "object"
  }

  /** The array index a property name denotes, when it is a canonical decimal index. */
  function IndexOf(key: string): (r: Option<nat>)
    ensures r.Some? ==> key == NatToString(r.value)
  {
    if |key| >= 1 && IsDigits(key) && NatToString(DigitsValue(key)) == key then Some(DigitsValue(key)) else None
  }

  /**
   * `v[key]` for a value that is neither null nor undefined (on those JavaScript
   * throws a TypeError, which the callers model). Properties inherited from
   * prototypes other than `length` are taken to be undefined.
   */
  function Property(v: Json, key: string): Option<Json>
    requires !v.JNull?
  {
    match v
    case JObj(members) => Field(members, key)
    case JArr(items) =>
      if key == "length" then Some(JNum(|items|))
      else
        var i := IndexOf(key);
        if i.Some? && i.value < |items| then Some(items[i.value]) else None
    case JStr(s) =>
      if key == "length" then Some(JNum(|s|))
      else
        var i := IndexOf(key);
        if i.Some? && i.value < |s| then Some(JStr([s[i.value]])) else None
    case _ => None
  }

  /** `String(v)` as `Array.prototype.join` applies it to an element. */
  function ToJsString(v: Json): string
  {
    match v
    case JNull => ""
    case JBool(b) => if b then "true" else "false"
    case JNum(n) => IntToString(n)
    case JStr(s) => s
    case JArr(items) => Join(seq(|items|, i requires 0 <= i < |items| => ToJsString(items[i])), ',')
    case JObj(_) => "[object Object]"
  }

  /**
   * `String(v)` as string concatenation applies it: unlike an array join it
   * writes out `null` and `undefined`.
   */
  function StringOf(v: Option<Json>): (s: string)
    ensures v.Some? && v.value.JStr? ==> s == v.value.s
    ensures v.None? ==> s == "undefined"
  {
    match v
    case None => "undefined"
    case Some(JNull) => "null"
    case Some(x) => ToJsString(x)
  }

  /** The values of a sequence of strings, as a JSON array. */
  function Strings(ss: seq<string>): (v: Json)
    ensures v.JArr? && |v.items| == |ss|
    ensures forall i :: 0 <= i < |ss| ==> v.items[i] == JStr(ss[i])
  {
    JArr(seq(|ss|, i requires 0 <= i < |ss| => JStr(ss[i])))
  }

  /** An array of strings joins to the join of the strings. */
  lemma JoinStrings(ss: seq<string>)
    ensures ToJsString(Strings(ss)) == Join(ss, ',')
  {
    var v := Strings(ss);
    var mapped := seq(|v.items|, i requires 0 <= i < |v.items| => ToJsString(v.items[i]));
    assert mapped == ss;
  }
}
