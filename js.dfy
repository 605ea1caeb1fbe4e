/**
 * The JavaScript values that the handlers read from request payloads and
 * MongoDB documents, with the two tests the code applies to them:
 * truthiness (`if (x)`, `x && …`, `x || …`) and nullishness (`x ?? …`).
 */
module Js {
  import opened Wrappers

  /**
   * A JavaScript value. Numbers are integers (NaN and -0 are not modelled);
   * `Date` is a Date object holding milliseconds since the epoch, `Oid` a
   * MongoDB ObjectId given by its hex string, `Obj` a plain object.
   */
  datatype Value =
    | Undefined
    | Null
    | Bool(b: bool)
    | Num(n: int)
    | Str(s: string)
    | Date(millis: int)
    | Oid(hex: string)
    | Obj(fields: map<string, Value>)

  /** JavaScript truthiness: undefined, null, false, 0 and "" are falsy, every object is truthy. */
  predicate Truthy(v: Value) {
    match v
    case Undefined => false
    case Null => false
    case Bool(b) => b
    case Num(n) => n != 0
    case Str(s) => s != ""
    case _ => true
  }

  /** The left operand test of `??`: only null and undefined are nullish. */
  predicate Nullish(v: Value) {
    v.Undefined? || v.Null?
  }

  /** Property access `o[k]`: a missing key reads as undefined. */
  function Get(fields: map<string, Value>, k: string): Value {
    if k in fields then fields[k] else Undefined
  }

  /** Optional chaining `v?.k`: undefined on a nullish or non-object value. */
  function GetOpt(v: Value, k: string): Value {
    if v.Obj? then Get(v.fields, k) else Undefined
  }

  /** The value a property of a BSON document holds once written: the driver stores undefined as null. */
  function Stored(v: Value): (r: Value)
    ensures r != Undefined
    ensures v == Undefined ==> r == Null
    ensures v != Undefined ==> r == v
  {
    if v.Undefined? then Null else v
  }

  /**
   * Strict equality `a === b`: primitives compare by value, while objects, Dates and ObjectIds
   * compare by identity. Two such values never share identity here, since one of them is always
   * freshly read from the database.
   */
  predicate StrictEquals(a: Value, b: Value) {
    a == b && !(a.Obj? || a.Date? || a.Oid?)
  }

  /** The hex string of an ObjectId, as `ObjectId.toString()` prints it: 24 lower-case hex digits. */
  type ObjectId = string

  predicate IsHexDigit(c: char) {
    '0' <= c <= '9' || 'a' <= c <= 'f' || 'A' <= c <= 'F'
  }

  predicate IsCanonicalObjectId(s: string) {
    |s| == 24 && forall i :: 0 <= i < |s| ==> '0' <= s[i] <= '9' || 'a' <= s[i] <= 'f'
  }

  function LowerHexDigit(c: char): (r: char)
    requires IsHexDigit(c)
    ensures '0' <= r <= '9' || 'a' <= r <= 'f'
    ensures !('A' <= c <= 'F') ==> r == c
  {
    if 'A' <= c <= 'F' then (c as int - 'A' as int + 'a' as int) as char else c
  }

  /** Stands for the message of the error `ObjectId.createFromHexString` throws on a malformed id. */
  const INVALID_ID_MESSAGE: string := "input must be a 24 character hex string"

  /**
   * `ObjectId.createFromHexString(v)`: a string of 24 hex digits in either case
   * names the ObjectId printed by its lower-case form; anything else throws.
   */
  function ParseObjectId(v: Value): (r: Option<ObjectId>)
    ensures r.Some? <==> v.Str? && |v.s| == 24 && forall i :: 0 <= i < |v.s| ==> IsHexDigit(v.s[i])
    ensures r.Some? ==> IsCanonicalObjectId(r.value)
    ensures r.Some? ==> forall i :: 0 <= i < 24 ==> r.value[i] == LowerHexDigit(v.s[i])
  {
    if v.Str? && |v.s| == 24 && forall i :: 0 <= i < |v.s| ==> IsHexDigit(v.s[i]) then
      Some(seq(|v.s|, i requires 0 <= i < |v.s| => LowerHexDigit(v.s[i])))
    else
      None
  }

  /** Parsing the printed form of an ObjectId gives that ObjectId back. */
  lemma ParsePrintedObjectId(id: ObjectId)
    requires IsCanonicalObjectId(id)
    ensures ParseObjectId(Str(id)) == Some(id)
  {
    var lowered := seq(|id|, i requires 0 <= i < |id| => LowerHexDigit(id[i]));
    assert lowered == id;
  }

  /** A stored MongoDB document of a collection: its `_id` and its other properties. */
  datatype Document = Document(id: ObjectId, fields: map<string, Value>)
}
