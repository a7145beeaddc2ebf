/** Python values as `json.loads` produces them and as the backend builds
    its documents, with Python truthiness, `dict.get` and the `in`
    operator. */
module PyValues {
  import opened Wrappers
  import opened Text

  datatype PyValue =
    | PNone
    | PBool(b: bool)
    | PInt(i: int)
    | PFloat(f: real)
    | PStr(s: string)
    | PList(items: seq<PyValue>)
    | PDict(entries: map<string, PyValue>)
    /** A BSON ObjectId as the driver returns it, by its hex rendering. */
    | PObjectId(hex: string)
    /** A `datetime`, by its date part and its time part (with any
        fraction and offset) as `isoformat()` renders them. */
    | PDateTime(date: string, time: string)

  /** Python truthiness: None, False, zero and empty containers are false. */
  predicate Truthy(v: PyValue) {
    match v
    case PNone => false
    case PBool(b) => b
    case PInt(i) => i != 0
    case PFloat(f) => f != 0.0
    case PStr(s) => s != ""
    case PList(xs) => xs != []
    case PDict(m) => m != map[]
    case PObjectId(_) => true
    case PDateTime(_, _) => true
  }

  /** Hashable values can be set elements and dict keys. */
  predicate Hashable(v: PyValue) {
    !(v.PList? || v.PDict?)
  }

  /** `str(v)`, which is also what an f-string substitutes. Floats, lists
      and dicts are rendered by `repr`, which the model leaves open. */
  function PyStr(v: PyValue, repr: PyValue -> string): (r: string)
    ensures v.PStr? ==> r == v.s
    ensures v.PInt? && v.i >= 0 ==> r == NatToString(v.i)
    ensures v.PInt? && v.i < 0 ==> r == "-" + NatToString(-v.i)
    ensures v.PNone? ==> r == "None"
    ensures v.PBool? ==> r == (if v.b then "True" else "False")
    ensures v.PObjectId? ==> r == v.hex
    ensures v.PDateTime? ==> r == v.date + " " + v.time
    ensures v.PFloat? || v.PList? || v.PDict? ==> r == repr(v)
  {
    match v
    case PStr(s) => s
    case PInt(i) => if i >= 0 then NatToString(i) else "-" + NatToString(-i)
    case PNone => "None"
    case PBool(b) => if b then "True" else "False"
    case PObjectId(h) => h
    case PDateTime(d, t) => d + " " + t
    case _ => repr(v)
  }

  /** `v.isoformat()`: defined on datetimes only (AttributeError, None,
      on anything else). */
  function IsoFormat(v: PyValue): (r: Option<string>)
    ensures r.Some? <==> v.PDateTime?
    ensures v.PDateTime? ==> r.value == v.date + "T" + v.time
  {
    if v.PDateTime? then Some(v.date + "T" + v.time) else None
  }

  /** `d.get(key, default)` on a dict. */
  function DictGet(m: map<string, PyValue>, key: string, default: PyValue): (r: PyValue)
    ensures key in m ==> r == m[key]
    ensures key !in m ==> r == default
  {
    if key in m then m[key] else default
  }

  /** `pat` is a substring of `s`, as Python's `pat in s` tests it. */
  predicate Contains(s: string, pat: string) {
    exists i :: 0 <= i <= |s| && OccursAt(s, pat, i)
  }

  /** `needle in haystack` for a string `needle`: key membership for a
      dict, element equality for a list, substring for a string; the other
      values are not iterable and the test raises TypeError (None). */
  function StrIn(needle: string, haystack: PyValue): (r: Option<bool>)
    ensures haystack.PDict? ==> r == Some(needle in haystack.entries)
    ensures haystack.PList? ==> r == Some(PStr(needle) in haystack.items)
    ensures haystack.PStr? ==> r == Some(Contains(haystack.s, needle))
    ensures r.None? <==> !(haystack.PDict? || haystack.PList? || haystack.PStr?)
  {
    match haystack
    case PDict(m) => Some(needle in m)
    case PList(xs) => Some(PStr(needle) in xs)
    case PStr(s) => Some(Contains(s, needle))
    case _ => None
  }

  /** `v in keys` for a set or dict whose keys are all strings: an
      unhashable `v` raises TypeError (None), and only a string can be
      equal to a key. */
  function InStringKeys(v: PyValue, keys: set<string>): (r: Option<bool>)
    ensures r.None? <==> !Hashable(v)
    ensures r == Some(true) <==> v.PStr? && v.s in keys
  {
    if !Hashable(v) then None else Some(v.PStr? && v.s in keys)
  }

  /** The characters Python's `str.strip()` removes (`str.isspace`). */
  predicate IsPyWhitespace(c: char) {
    || c == ' ' || ('\t' <= c <= '\r') || ('\U{1C}' <= c <= '\U{1F}')
    || c == '\U{85}' || c == '\U{A0}' || c == '\U{1680}' || ('\U{2000}' <= c <= '\U{200A}')
    || c == '\U{2028}' || c == '\U{2029}' || c == '\U{202F}' || c == '\U{205F}' || c == '\U{3000}'
  }

  /** `s.strip()` is non-empty. */
  predicate NonBlank(s: string) {
    exists i :: 0 <= i < |s| && !IsPyWhitespace(s[i])
  }

  /** `s.strip()`: `s` without its leading and trailing whitespace. */
  function Strip(s: string): (r: string)
    ensures exists i, j :: 0 <= i <= j <= |s| && r == s[i..j] &&
              (forall k :: 0 <= k < i ==> IsPyWhitespace(s[k])) &&
              (forall k :: j <= k < |s| ==> IsPyWhitespace(s[k]))
    ensures r != [] ==> !IsPyWhitespace(r[0]) && !IsPyWhitespace(r[|r| - 1])
    ensures r == [] <==> !NonBlank(s)
  {
    TrimBy(s, IsPyWhitespace)
  }
}
