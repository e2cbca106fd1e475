/**
 * The untyped `Map<String, Object>` criteria the targeting code receives, and the
 * Java casts it applies to their values.
 */
module JavaValues {
  import opened Wrappers
  import Moods

  /** A runtime value stored in a criteria map. */
  datatype Value =
    | VNull                          // an explicit null
    | VInteger(i: int)               // java.lang.Integer
    | VDouble(d: real)               // java.lang.Double
    | VString(s: string)             // java.lang.String
    | VMood(m: Moods.Mood)           // the domain Mood enum
    | VList(items: seq<string>)      // a java.util.List of strings
    | VSet(elements: set<string>)    // a java.util.Set of strings
    | VOther                         // anything else (Boolean, Long, Map, ...)

  /** The exceptions the modelled code can raise. */
  datatype JavaException = NullPointerException | ClassCastException | ArithmeticException

  /** A JSON-like criteria map: absent keys read as null. */
  type Criteria = map<string, Value>

  /** `Map.get`: null for a missing key. */
  function Get(m: Criteria, key: string): Value {
    if key in m then m[key] else VNull
  }

  /** `(Integer) v`. */
  function AsInteger(v: Value): (r: Result<Option<int>, JavaException>)
    ensures r.Ok? <==> v.VNull? || v.VInteger?
    ensures r.Err? ==> r.error == ClassCastException
  {
    match v
    case VNull => Ok(None)
    case VInteger(i) => Ok(Some(i))
    case _ => Err(ClassCastException)
  }

  /** `(Double) v`: an Integer is not a Double and fails the cast. */
  function AsDouble(v: Value): (r: Result<Option<real>, JavaException>)
    ensures r.Ok? <==> v.VNull? || v.VDouble?
    ensures r.Err? ==> r.error == ClassCastException
  {
    match v
    case VNull => Ok(None)
    case VDouble(d) => Ok(Some(d))
    case _ => Err(ClassCastException)
  }

  /** `(String) v`. */
  function AsString(v: Value): (r: Result<Option<string>, JavaException>)
    ensures r.Ok? <==> v.VNull? || v.VString?
    ensures r.Err? ==> r.error == ClassCastException
  {
    match v
    case VNull => Ok(None)
    case VString(s) => Ok(Some(s))
    case _ => Err(ClassCastException)
  }

  /** `(Mood) v`: a mood name given as text fails the cast. */
  function AsMood(v: Value): (r: Result<Option<Moods.Mood>, JavaException>)
    ensures r.Ok? <==> v.VNull? || v.VMood?
    ensures r.Err? ==> r.error == ClassCastException
  {
    match v
    case VNull => Ok(None)
    case VMood(m) => Ok(Some(m))
    case _ => Err(ClassCastException)
  }

  /** A value that the casts above accept for a text field. */
  predicate IsStringOrNull(v: Value) {
    v.VNull? || v.VString?
  }
}
