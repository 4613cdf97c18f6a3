/** The JavaScript values the request handlers and validators receive and
    throw, as far as the application inspects them. */
module JsRuntime {
  import opened Wrappers
  import JsStrings

  /** A JavaScript `Date`: a time value in milliseconds since the epoch, or an
      Invalid Date, whose `getTime()` is `NaN`. */
  datatype JsDate = ValidDate(ms: int) | InvalidDate

  /** `new Date(text)`. String parsing is host-defined, so it is supplied by the
      caller rather than modelled. */
  type DateParser = string -> JsDate

  /** A value as an untyped validator sees it: what `request.json()` yields,
      plus `undefined` and `Date` instances, which other callers can pass.
      An object's entries are listed in property-enumeration order. */
  datatype JsValue =
    | JUndefined
    | JNull
    | JBool(b: bool)
    | JNumber(n: real)
    | JString(s: string)
    | JArray(items: seq<JsValue>)
    | JObject(fields: seq<(string, JsValue)>)
    | JDate(date: JsDate)

  /** `typeof v`. */
  function TypeOf(v: JsValue): string {
    match v
    case JUndefined => "undefined"
    case JBool(_) => "boolean"
    case JNumber(_) => "number"
    case JString(_) => "string"
    case _ => "object"
  }

  function Lookup(fields: seq<(string, JsValue)>, key: string): JsValue {
    if fields == [] then JUndefined
    else if fields[0].0 == key then fields[0].1
    else Lookup(fields[1..], key)
  }

  /** `v[key]` for one of the application's field names. None of those names
      is an array index or a property of `Array.prototype`, `Date.prototype`
      or `Object.prototype`, so only plain objects can answer. */
  function Get(v: JsValue, key: string): (r: JsValue)
    ensures !v.JObject? ==> r == JUndefined
    ensures v.JObject? && r != JUndefined ==> exists i :: 0 <= i < |v.fields| && v.fields[i] == (key, r)
  {
    if v.JObject? then
      LookupFound(v.fields, key);
      Lookup(v.fields, key)
    else JUndefined
  }

  lemma {:induction false} LookupFound(fields: seq<(string, JsValue)>, key: string)
    ensures Lookup(fields, key) != JUndefined ==>
              exists i :: 0 <= i < |fields| && fields[i] == (key, Lookup(fields, key))
  {
    if fields != [] && fields[0].0 != key {
      LookupFound(fields[1..], key);
      if Lookup(fields, key) != JUndefined {
        var i :| 0 <= i < |fields[1..]| && fields[1..][i] == (key, Lookup(fields, key));
        assert fields[i + 1] == (key, Lookup(fields, key));
      }
    }
  }

  /** The first entry with the key is the one found. */
  lemma {:induction false} LookupAt(fields: seq<(string, JsValue)>, key: string, i: nat)
    requires i < |fields| && fields[i].0 == key
    requires forall j :: 0 <= j < i ==> fields[j].0 != key
    ensures Lookup(fields, key) == fields[i].1
  {
    if i > 0 {
      LookupAt(fields[1..], key, i - 1);
    }
  }

  /** Entries before the first one with the key are skipped. */
  lemma {:induction false} LookupSkips(fields: seq<(string, JsValue)>, key: string, i: nat)
    requires i <= |fields|
    requires forall j :: 0 <= j < i ==> fields[j].0 != key
    ensures Lookup(fields, key) == Lookup(fields[i..], key)
  {
    if i > 0 {
      LookupSkips(fields[1..], key, i - 1);
      assert fields[1..][i - 1..] == fields[i..];
    }
  }

  /** `Object.keys(v)` for the values `typeof` calls objects: the entry names of
      a plain object, the indices of an array, nothing for a `Date`. */
  function Keys(v: JsValue): (r: seq<string>)
    ensures v.JObject? ==> |r| == |v.fields| && forall i :: 0 <= i < |r| ==> r[i] == v.fields[i].0
    ensures v.JArray? ==> |r| == |v.items| && forall i :: 0 <= i < |r| ==> r[i] == JsStrings.NatToString(i)
    ensures !v.JObject? && !v.JArray? ==> r == []
  {
    match v
    case JObject(fields) => seq(|fields|, i requires 0 <= i < |fields| => fields[i].0)
    case JArray(items) => seq(|items|, i requires 0 <= i < |items| => JsStrings.NatToString(i))
    case _ => []
  }

  /** The built-in error classes the application tells apart. */
  datatype ErrorClass = PlainError | SyntaxError | OtherError

  /** A thrown value: an instance of `Error` (or a subclass) with its message,
      or anything else a `throw` can carry. */
  datatype Thrown = ErrorObject(cls: ErrorClass, message: string) | NonErrorValue(value: JsValue)

  /** `new Error(message)`. */
  function Err(message: string): (e: Thrown)
    ensures e.ErrorObject? && e.cls == PlainError && e.message == message
  {
    ErrorObject(PlainError, message)
  }

  /** The completion of a call that may throw. */
  datatype Outcome<+T> = Ok(value: T) | Throws(error: Thrown)
}
