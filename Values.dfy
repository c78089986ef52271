/**
  The Python values a parameter field can hold, and how Python renders them
  with `str()`. Every Enum in the client is a plain `Enum`, so `str()` of a
  member is `"<Class>.<NAME>"` while its wire string is its `.value`; for
  an int-valued Enum (such as the road types of the vector flow tiles) the
  wire string is `str(value)`, the form the value takes in the URL.
 */
module Values {
  import opened Common

  /** A single (non-list) field value. */
  datatype Scalar =
    | Bool(b: bool)
    | Int(i: int)
    | Str(s: string)
    | Enum(cls: string, name: string, wire: string)
      /** a float or any other object, carried with its `str()` rendering */
    | Other(repr: string)

  /** A field value of a parameter record: None, a single value, or a list. */
  datatype Value = Null | Val(x: Scalar) | List(xs: seq<Scalar>)

  /** Python's `str(x)`. */
  function PyStr(x: Scalar): string
  {
    match x
    case Bool(b) => if b then "True" else "False"
    case Int(i) => IntToDecimal(i)
    case Str(s) => s
    case Enum(cls, name, _) => cls + "." + name
    case Other(repr) => repr
  }

  /** Python's `str(b).lower()`, the wire form of a boolean. */
  function BoolWire(b: bool): (r: string)
    ensures r == (if b then "true" else "false")
  {
    var s := Lower(PyStr(Bool(b)));
    assert s[0] == LowerChar(PyStr(Bool(b))[0]);
    s
  }

  /** A field is sent at all: it is neither None nor an empty list. */
  predicate Present(v: Value)
  {
    v != Null && v != List([])
  }
}
