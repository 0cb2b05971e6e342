/**
 * Decoded JSON values, and the few Python operations the handlers apply to
 * them: truthiness, the `in` operator, `float()`, and `str.lower()`.
 */
module Json {
  import opened Common

  /** A value as `json.loads` returns it. */
  datatype Json =
    | JNull
    | JBool(b: bool)
    | JNum(n: real)
    | JStr(s: string)
    | JArr(items: seq<Json>)
    | JObj(fields: map<string, Json>)

  /** Python truthiness (`if not x:`). */
  predicate Truthy(j: Json)
  {
    match j
    case JNull => false
    case JBool(b) => b
    case JNum(n) => n != 0.0
    case JStr(s) => s != []
    case JArr(items) => items != []
    case JObj(fields) => fields != map[]
  }

  /** Outcome of Python's `key in value`: a `TypeError` when the value is no container. */
  datatype Membership = Present | Absent | NotContainer

  predicate IsPrefix(p: string, s: string)
  {
    |p| <= |s| && s[..|p|] == p
  }

  /** Python's `p in s` for two texts: `p` occurs at some position of `s`. */
  predicate IsSubstring(p: string, s: string)
    decreases |s|
  {
    IsPrefix(p, s) || (s != [] && IsSubstring(p, s[1..]))
  }

  /** Python's `key in j` for a text key: keys of a dict, elements of a list, substrings of a str. */
  function In(key: string, j: Json): (m: Membership)
    ensures m == NotContainer <==> !(j.JObj? || j.JArr? || j.JStr?)
    ensures j.JObj? ==> (m == Present <==> key in j.fields)
    ensures j.JArr? ==> (m == Present <==> JStr(key) in j.items)
    ensures j.JStr? ==> (m == Present <==> IsSubstring(key, j.s))
  {
    match j
    case JObj(fields) => if key in fields then Present else Absent
    case JArr(items) => if JStr(key) in items then Present else Absent
    case JStr(s) => if IsSubstring(key, s) then Present else Absent
    case _ => NotContainer
  }

  /**
   * Python's `float(j)`; None stands for the exception it raises. `floatOfText`
   * is Python's parser of numeric text, an input of the model.
   */
  function Float(j: Json, floatOfText: string -> Option<real>): (r: Option<real>)
    ensures j.JNum? ==> r == Some(j.n)
    ensures j.JNull? || j.JArr? || j.JObj? ==> r.None?
  {
    match j
    case JNum(n) => Some(n)
    case JBool(b) => Some(if b then 1.0 else 0.0)
    case JStr(s) => floatOfText(s)
    case _ => None
  }

  /** `str.lower()` on one character; only ASCII upper-case letters change. */
  function LowerChar(c: char): char
  {
    if 'A' <= c <= 'Z' then (c as int + 32) as char else c
  }

  /** `str.lower()`, character by character. */
  function Lower(s: string): (r: string)
    ensures |r| == |s|
    ensures forall i :: 0 <= i < |s| ==> r[i] == LowerChar(s[i])
  {
    if s == [] then [] else [LowerChar(s[0])] + Lower(s[1..])
  }
}
