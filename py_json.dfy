/**
 * JSON values as Python's json.loads hands them to the log viewer, and the
 * few Python operations the viewer applies to them: truthiness, `k in x`,
 * `x[k]`, iteration, `len(x) == 0` and `x[0]`.  Where Python raises an
 * exception for a value of the wrong type (or a missing key), the operation
 * returns a Failure carrying that exception.
 */
module PyJson {
  import opened Wrappers

  /** A decoded JSON value.  Objects keep the order of their members.
      JNull is also Python's None: app.py uses None for "not set". */
  datatype Json =
    | JNull
    | JBool(b: bool)
    | JNum(n: int)
    | JStr(s: string)
    | JArr(items: seq<Json>)
    | JObj(fields: seq<(string, Json)>)

  /** The Python exceptions the modelled code can raise. */
  datatype PyError =
    | DecodeError          // json.loads rejected the message
    | KeyError(key: Json)  // d[k] where k is not a key of the dict d
    | IndexError           // s[0] on an empty list or str
    | TypeError            // an operation not defined for the value's type
    | OverflowError        // an int divided into a float beyond the float range
    | AttributeError       // a method the value's type does not have

  type PyResult<T> = Result<T, PyError>

  /** Python truthiness: None, False, 0 and empty containers are false. */
  predicate Truthy(j: Json)
  {
    match j
    case JNull => false
    case JBool(b) => b
    case JNum(n) => n != 0
    case JStr(s) => |s| > 0
    case JArr(items) => |items| > 0
    case JObj(fields) => |fields| > 0
  }

  /** The value that the dict json.loads builds from these members holds for
      key k: when a key is repeated, the last member with that key wins. */
  function Lookup(fields: seq<(string, Json)>, k: string): Option<Json>
    decreases |fields|
  {
    if |fields| == 0 then None
    else
      var n := |fields| - 1;
      if fields[n].0 == k then Some(fields[n].1) else Lookup(fields[..n], k)
  }

  /** `x[k]` read without raising: the member k of an object, if any. */
  function Get(x: Json, k: string): Option<Json>
  {
    if x.JObj? then Lookup(x.fields, k) else None
  }

  /** Nested `x[k1][k2]...` read without raising. */
  function GetPath(x: Json, path: seq<string>): Option<Json>
    decreases |path|
  {
    if path == [] then Some(x)
    else
      match Get(x, path[0])
      case None => None
      case Some(v) => GetPath(v, path[1..])
  }

  /** Python's `sub in s` for two strings. */
  function IsSubstring(sub: string, s: string): bool
    decreases |s|
  {
    sub <= s || (|s| > 0 && IsSubstring(sub, s[1..]))
  }

  /** Python's `k in x` for a str k: a key of a dict, an element of a list,
      a substring of a str; a TypeError for None, bool and numbers. */
  function Contains(x: Json, k: string): (r: PyResult<bool>)
    ensures r.Success? <==> x.JObj? || x.JArr? || x.JStr?
    ensures x.JObj? ==> r == Success(Get(x, k).Some?)
  {
    match x
    case JObj(fields) => Success(Lookup(fields, k).Some?)
    case JArr(items) => Success(JStr(k) in items)
    case JStr(s) => Success(IsSubstring(k, s))
    case _ => Failure(TypeError)
  }

  /** Python's `x[k]` for a str k: a KeyError for a dict without k, a
      TypeError for anything but a dict. */
  function Subscript(x: Json, k: string): (r: PyResult<Json>)
    ensures r.Success? <==> Get(x, k).Some?
    ensures r.Success? ==> Get(x, k) == Some(r.value)
    ensures x.JObj? && r.Failure? ==> r.error == KeyError(JStr(k))
  {
    if x.JObj? then
      match Lookup(x.fields, k)
      case Some(v) => Success(v)
      case None => Failure(KeyError(JStr(k)))
    else Failure(TypeError)
  }

  /** What `for v in x` visits: the items of a list, the keys of a dict, the
      one-character strings of a str; a TypeError for anything else.  An
      object with a repeated key yields that key once per member, where the
      dict json.loads builds yields it once; at both of app.py's loops a str
      item raises at its first occurrence or shows nothing, so the repeats
      change no result. */
  function Iterate(x: Json): (r: PyResult<seq<Json>>)
    ensures r.Success? <==> x.JArr? || x.JObj? || x.JStr?
    ensures x.JArr? ==> r == Success(x.items)
    ensures r.Success? && !x.JArr? ==> forall i :: 0 <= i < |r.value| ==> r.value[i].JStr?
  {
    match x
    case JArr(items) => Success(items)
    case JObj(fields) => Success(seq(|fields|, i requires 0 <= i < |fields| => JStr(fields[i].0)))
    case JStr(s) => Success(seq(|s|, i requires 0 <= i < |s| => JStr([s[i]])))
    case _ => Failure(TypeError)
  }

  /** Python's `len(x) == 0`. */
  function LenIsZero(x: Json): (r: PyResult<bool>)
    ensures r.Success? <==> x.JObj? || x.JArr? || x.JStr?
    ensures r == Success(false) ==> Truthy(x)
    ensures r == Success(true) ==> !Truthy(x)
  {
    match x
    case JArr(items) => Success(|items| == 0)
    case JObj(fields) => Success(|fields| == 0)
    case JStr(s) => Success(|s| == 0)
    case _ => Failure(TypeError)
  }

  /** Python's `x[0]`: the first item of a list or character of a str; a
      dict looks the int 0 up as a key, which a JSON object never has. */
  function First(x: Json): (r: PyResult<Json>)
    ensures x.JArr? && |x.items| > 0 ==> r == Success(x.items[0])
    ensures r.Success? <==> (x.JArr? && |x.items| > 0) || (x.JStr? && |x.s| > 0)
    ensures x.JObj? ==> r == Failure(KeyError(JNum(0)))
  {
    match x
    case JArr(items) => if |items| > 0 then Success(items[0]) else Failure(IndexError)
    case JStr(s) => if |s| > 0 then Success(JStr([s[0]])) else Failure(IndexError)
    case JObj(_) => Failure(KeyError(JNum(0)))
    case _ => Failure(TypeError)
  }
}
