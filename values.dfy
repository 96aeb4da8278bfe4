/** The Python values the assertions of pikzie operate on, as a tagged
    variant, with the parts of Python 2 semantics the assertions consult:
    truthiness, `==`, `!=`, `callable` and `hasattr`. */
module PyValues {
  import opened Options

  /** A Python value. `ObjV` stands for every other object (class
      instances, functions, bound methods): `id` is its identity,
      `reprText` what its `__repr__` returns, `attrs` its attribute
      names (as `dir` lists them), `callable` whether it can be called, and `ne` the constant
      result of a user-defined `__ne__`, if the class defines one. */
  datatype Value =
    | NoneV
    | BoolV(b: bool)
    | IntV(i: int)
    | StrV(s: string)
    | ObjV(id: nat, reprText: string, attrs: seq<string>, callable: bool, ne: Option<bool>)

  /** Python truthiness (`bool(v)`). */
  function Truthy(v: Value): (r: bool)
    ensures !r <==> v in {NoneV, BoolV(false), IntV(0), StrV("")}
  {
    match v
    case NoneV => false
    case BoolV(b) => b
    case IntV(i) => i != 0
    case StrV(s) => |s| > 0
    case ObjV(_, _, _, _, _) => true
  }

  /** The numeric value of a bool or an int: in Python `bool` is a
      subclass of `int`, so `True == 1` and `False == 0`. */
  function Numeric(v: Value): int
    requires v.BoolV? || v.IntV?
  {
    if v.BoolV? then (if v.b then 1 else 0) else v.i
  }

  /** Python `a == b` for the modelled values. Objects without `__eq__`
      compare by identity; values of unrelated types are unequal. */
  function PyEq(a: Value, b: Value): (r: bool)
    ensures a == b ==> r
    ensures (a.BoolV? || a.IntV?) && (b.BoolV? || b.IntV?) ==> (r <==> Numeric(a) == Numeric(b))
  {
    if a.NoneV? || b.NoneV? then a.NoneV? && b.NoneV?
    else if a.StrV? || b.StrV? then a.StrV? && b.StrV? && a.s == b.s
    else if a.ObjV? || b.ObjV? then a.ObjV? && b.ObjV? && a.id == b.id
    else Numeric(a) == Numeric(b)
  }

  /** `==` is symmetric on the modelled values. */
  lemma PyEqSymmetric(a: Value, b: Value)
    ensures PyEq(a, b) == PyEq(b, a)
  {
  }

  /** Python 2 `a != b`: a user-defined `__ne__` of the left operand
      decides, then the reflected one of the right operand; otherwise the
      built-in comparison, which is the negation of `==`. */
  function PyNe(a: Value, b: Value): (r: bool)
    ensures !(a.ObjV? && a.ne.Some?) && !(b.ObjV? && b.ne.Some?) ==> (r <==> !PyEq(a, b))
    ensures a.ObjV? && a.ne.Some? ==> r == a.ne.value
  {
    if a.ObjV? && a.ne.Some? then a.ne.value
    else if b.ObjV? && b.ne.Some? then b.ne.value
    else !PyEq(a, b)
  }

  /** Python `callable(v)`: none of None, bool, int and str can be called. */
  function IsCallable(v: Value): (r: bool)
    ensures r ==> v.ObjV?
  {
    v.ObjV? && v.callable
  }

  /** The attributes every Python 2 object inherits from `object`. */
  const ObjectAttributes: seq<string> :=
    ["__class__", "__delattr__", "__doc__", "__format__", "__getattribute__",
     "__hash__", "__init__", "__new__", "__reduce__", "__reduce_ex__",
     "__repr__", "__setattr__", "__sizeof__", "__str__", "__subclasshook__"]

  /** The attributes of a Python 2 `str` (the names `dir("")` lists),
      in three groups: its special methods, and its public methods from
      `capitalize` to `join` and from `ljust` to `zfill`. */
  const StrSpecialAttributes: seq<string> :=
    ["__add__", "__contains__", "__eq__", "__ge__", "__getitem__",
     "__getnewargs__", "__getslice__", "__gt__", "__le__", "__len__", "__lt__",
     "__mod__", "__mul__", "__ne__", "__rmod__", "__rmul__",
     "_formatter_field_name_split", "_formatter_parser"]

  const StrMethodsCapitalizeToJoin: seq<string> :=
    ["capitalize", "center", "count", "decode", "encode", "endswith",
     "expandtabs", "find", "format", "index", "isalnum", "isalpha", "isdigit",
     "islower", "isspace", "istitle", "isupper", "join"]

  const StrMethodsLjustToZfill: seq<string> :=
    ["ljust", "lower", "lstrip", "partition", "replace", "rfind", "rindex",
     "rjust", "rpartition", "rsplit", "rstrip", "split", "splitlines",
     "startswith", "strip", "swapcase", "title", "translate", "upper", "zfill"]

  const StrAttributes: seq<string> :=
    ObjectAttributes + StrSpecialAttributes + StrMethodsCapitalizeToJoin + StrMethodsLjustToZfill

  /** The attribute names of a value, as `hasattr` sees them. */
  function Attributes(v: Value): (r: seq<string>)
    ensures v.StrV? ==> r == StrAttributes
    ensures v.ObjV? ==> r == v.attrs
  {
    match v
    case StrV(_) => StrAttributes
    case ObjV(_, _, attrs, _, _) => attrs
    case _ => ObjectAttributes
  }

  /** `name` is one of `names`, looked up one entry at a time. */
  predicate Listed(name: string, names: seq<string>)
  {
    names != [] && (names[0] == name || Listed(name, names[1..]))
  }

  /** The lookup finds exactly the names the table holds. */
  lemma {:induction false} ListedIsIn(name: string, names: seq<string>)
    ensures Listed(name, names) <==> name in names
  {
    if names != [] {
      ListedIsIn(name, names[1..]);
      assert names == [names[0]] + names[1..];
    }
  }
}
