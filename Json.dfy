// JSON documents as both sides of the system see them: the C++ client reads
// them with a JSON library whose typed getters throw on a type mismatch, and
// the JavaScript backend reads request bodies with JavaScript truthiness.
module Json {
  import opened Common

  /**
   * A parsed JSON document. Numbers with an integral value are JInt, the
   * others JReal. Object members are a map: the key order of a serialised
   * document plays no part in the system.
   */
  datatype JsonValue =
    | JNull
    | JBool(b: bool)
    | JInt(i: int)
    | JReal(r: real)
    | JString(s: string)
    | JArray(items: seq<JsonValue>)
    | JObject(fields: map<string, JsonValue>)

  /**
   * The object built by assigning the members in order, as `j[key] = value`
   * does (a later key replaces an earlier one).
   */
  function Object(members: seq<(string, JsonValue)>): (r: JsonValue)
    ensures r.JObject?
  {
    if members == [] then JObject(map[])
    else JObject(Object(members[..|members| - 1]).fields[members[|members| - 1].0 := members[|members| - 1].1])
  }

  /** A key assigned at position i and never again holds the value assigned there. */
  lemma {:induction false} ObjectMemberAt(members: seq<(string, JsonValue)>, i: nat, key: string)
    requires i < |members| && members[i].0 == key
    requires forall j :: i < j < |members| ==> members[j].0 != key
    ensures key in Object(members).fields && Object(members).fields[key] == members[i].1
  {
    if i < |members| - 1 {
      ObjectMemberAt(members[..|members| - 1], i, key);
    }
  }

  /** A key never assigned is not a member. */
  lemma {:induction false} ObjectLacks(members: seq<(string, JsonValue)>, key: string)
    requires forall j :: 0 <= j < |members| ==> members[j].0 != key
    ensures key !in Object(members).fields
  {
    if members != [] {
      ObjectLacks(members[..|members| - 1], key);
    }
  }

  /** json.contains(key): false for anything that is not an object. */
  predicate Has(v: JsonValue, key: string)
  {
    v.JObject? && key in v.fields
  }

  /** json[key] on an object that has the key. */
  function Member(v: JsonValue, key: string): JsonValue
    requires Has(v, key)
  {
    v.fields[key]
  }

  /** json.get<bool>(): None is the type error the library throws. */
  function AsBool(v: JsonValue): (r: Option<bool>)
    ensures r.Some? <==> v.JBool?
  {
    if v.JBool? then Some(v.b) else None
  }

  /** json.get<std::string>(): only a JSON string converts. */
  function AsString(v: JsonValue): (r: Option<string>)
    ensures r.Some? <==> v.JString?
  {
    if v.JString? then Some(v.s) else None
  }

  /**
   * json.get<int>(): numbers convert (a fractional one truncated toward
   * zero), and so do booleans (as 0 or 1).
   */
  function AsInt(v: JsonValue): (r: Option<int>)
    ensures r.Some? <==> (v.JInt? || v.JReal? || v.JBool?)
    ensures v.JInt? ==> r == Some(v.i)
  {
    match v
    case JInt(i) => Some(i)
    case JReal(x) => Some(Trunc(x))
    case JBool(b) => Some(if b then 1 else 0)
    case _ => None
  }

  /** The JSON number written for a float value. */
  function Number(x: real): (r: JsonValue)
    ensures r.JInt? ==> r.i as real == x
    ensures r.JReal? ==> r.r == x
  {
    if x.Floor as real == x then JInt(x.Floor) else JReal(x)
  }

  // ---------------------------------------------------------------------
  // JavaScript view of a request body member (undefined is None)
  // ---------------------------------------------------------------------

  /** req.body.key: undefined (None) when the body is not an object or lacks the key. */
  function Field(body: JsonValue, key: string): (r: Option<JsonValue>)
    ensures r.Some? <==> Has(body, key)
  {
    if Has(body, key) then Some(body.fields[key]) else None
  }

  /** JavaScript truthiness: undefined, null, false, 0 and "" are falsy. */
  predicate Truthy(v: Option<JsonValue>)
  {
    match v
    case None => false
    case Some(JNull) => false
    case Some(JBool(b)) => b
    case Some(JInt(i)) => i != 0
    case Some(JReal(x)) => x != 0.0
    case Some(JString(s)) => s != ""
    case Some(_) => true
  }

  /** `v || fallback`: the value when truthy, otherwise the fallback. */
  function OrElse(v: Option<JsonValue>, fallback: JsonValue): (r: JsonValue)
    ensures Truthy(v) ==> Some(r) == v
    ensures !Truthy(v) ==> r == fallback
  {
    if Truthy(v) then v.value else fallback
  }

  /** Destructuring default `{ key = fallback }`: applies only to undefined. */
  function OrDefault(v: Option<JsonValue>, fallback: JsonValue): (r: JsonValue)
    ensures v.Some? ==> r == v.value
    ensures v.None? ==> r == fallback
  {
    if v.Some? then v.value else fallback
  }
}
