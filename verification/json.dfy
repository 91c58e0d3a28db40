/**
 Resource documents as decoded JSON, and the handful of Python dictionary
 operations the library applies to them: subscripting, `.get`, item
 assignment, iteration, truthiness and `str()`.

 An object is a `map`: key order, which Python dictionaries keep, is not
 represented. Where the library makes key order observable (rendering a
 label selector), the model keeps an ordered entry list instead.
 */
module Json {
  import opened Errors
  import Decimal

  datatype Json =
    | JNull
    | JBool(b: bool)
    | JInt(i: int)
    | JStr(s: string)
    | JList(items: seq<Json>)
    | JObj(fields: map<string, Json>)

  /** Python truthiness: `None`, `False`, `0` and empty containers are false. */
  predicate Truthy(j: Json) {
    match j
    case JNull => false
    case JBool(b) => b
    case JInt(i) => i != 0
    case JStr(s) => |s| > 0
    case JList(xs) => |xs| > 0
    case JObj(m) => |m| > 0
  }

  /** Same Python type; for these values, the same constructor. */
  predicate SameType(a: Json, b: Json) {
    match (a, b)
    case (JNull, JNull) => true
    case (JBool(_), JBool(_)) => true
    case (JInt(_), JInt(_)) => true
    case (JStr(_), JStr(_)) => true
    case (JList(_), JList(_)) => true
    case (JObj(_), JObj(_)) => true
    case _ => false
  }

  /** The integer Python takes a boolean for: `True == 1` and `False == 0`. */
  function BoolValue(b: bool): int {
    if b then 1 else 0
  }

  /**
   Python's `==` on decoded documents: as Dafny's equality, except that a
   boolean equals the integer it stands for, also inside lists and
   dictionaries.
   */
  predicate PyEq(a: Json, b: Json)
    decreases a
  {
    match (a, b)
    case (JBool(x), JInt(i)) => BoolValue(x) == i
    case (JInt(i), JBool(y)) => i == BoolValue(y)
    case (JList(xs), JList(ys)) => |xs| == |ys| && forall i :: 0 <= i < |xs| ==> PyEq(xs[i], ys[i])
    case (JObj(m), JObj(n)) => m.Keys == n.Keys && forall k :: k in m ==> PyEq(m[k], n[k])
    case _ => a == b
  }

  /** The document with every boolean replaced by its integer. */
  function Numeric(j: Json): (r: Json)
    ensures j.JList? <==> r.JList?
    ensures j.JObj? <==> r.JObj?
    decreases j
  {
    match j
    case JBool(b) => JInt(BoolValue(b))
    case JList(xs) => JList(seq(|xs|, i requires 0 <= i < |xs| => Numeric(xs[i])))
    case JObj(m) => JObj(map k | k in m :: Numeric(m[k]))
    case _ => j
  }

  /** `PyEq` is equality once booleans are read as integers. */
  lemma {:induction false} PyEqNumeric(a: Json, b: Json)
    ensures PyEq(a, b) <==> Numeric(a) == Numeric(b)
    decreases a
  {
    match (a, b)
    case (JList(xs), JList(ys)) =>
      if |xs| == |ys| {
        forall i | 0 <= i < |xs|
          ensures PyEq(xs[i], ys[i]) <==> Numeric(xs[i]) == Numeric(ys[i])
        {
          PyEqNumeric(xs[i], ys[i]);
        }
        if Numeric(a) == Numeric(b) {
          forall i | 0 <= i < |xs|
            ensures Numeric(xs[i]) == Numeric(ys[i])
          {
            assert Numeric(a).items[i] == Numeric(b).items[i];
          }
        }
      } else {
        assert |Numeric(a).items| != |Numeric(b).items|;
      }
    case (JObj(m), JObj(n)) =>
      forall k | k in m && k in n
        ensures PyEq(m[k], n[k]) <==> Numeric(m[k]) == Numeric(n[k])
      {
        PyEqNumeric(m[k], n[k]);
      }
      if Numeric(a) == Numeric(b) {
        assert Numeric(a).fields.Keys == m.Keys;
        forall k | k in m
          ensures Numeric(m[k]) == Numeric(n[k])
        {
          assert Numeric(a).fields[k] == Numeric(b).fields[k];
        }
      }
      if PyEq(a, b) {
        assert Numeric(a).fields == Numeric(b).fields;
      }
    case _ =>
  }

  /** Python's `==` is reflexive and symmetric on documents. */
  lemma PyEqReflSymm(a: Json, b: Json)
    ensures PyEq(a, a)
    ensures PyEq(a, b) ==> PyEq(b, a)
  {
    PyEqNumeric(a, a);
    PyEqNumeric(a, b);
    PyEqNumeric(b, a);
  }

  /** Where Python's `==` and Dafny's part: a boolean against its integer, also nested. */
  lemma PyEqBoolsAreInts()
    ensures PyEq(JBool(true), JInt(1)) && JBool(true) != JInt(1)
    ensures PyEq(JList([JBool(false)]), JList([JInt(0)])) && JList([JBool(false)]) != JList([JInt(0)])
  {
    assert PyEq(JBool(false), JInt(0));
  }

  /** `j[key]`: only a dictionary can be subscripted by a string key. */
  function Get(j: Json, key: string): Result<Json> {
    match j
    case JObj(m) => if key in m then Ok(m[key]) else Err(KeyError(key))
    case _ => Err(TypeError("value is not subscriptable by a string key"))
  }

  /** `j.get(key, default)`: only a dictionary has `.get`. */
  function GetOr(j: Json, key: string, default: Json): Result<Json> {
    match j
    case JObj(m) => Ok(if key in m then m[key] else default)
    case _ => Err(AttributeError("value has no attribute 'get'"))
  }

  /** `j[key] = v`, returning the updated dictionary. */
  function Put(j: Json, key: string, v: Json): Result<Json> {
    match j
    case JObj(m) => Ok(JObj(m[key := v]))
    case _ => Err(TypeError("value does not support item assignment"))
  }

  /**
   The elements `for x in j` visits, for a loop whose body subscripts each
   element with a string key. Iterating a non-empty string or dictionary
   yields strings, and subscripting a string with a string key raises
   `TypeError`, so those cases fail here already; empty ones yield nothing.
   */
  function Members(j: Json): Result<seq<Json>> {
    match j
    case JList(xs) => Ok(xs)
    case JStr(s) => if |s| == 0 then Ok([]) else Err(TypeError("string indices must be integers"))
    case JObj(m) => if |m| == 0 then Ok([]) else Err(TypeError("string indices must be integers"))
    case _ => Err(TypeError("value is not iterable"))
  }

  /** `str(j)`. A dictionary renders as a placeholder: the map does not keep key order. */
  function Str(j: Json): string
    decreases j, 0
  {
    match j
    case JNull => "None"
    case JBool(b) => if b then "True" else "False"
    case JInt(i) => Decimal.IntToString(i)
    case JStr(s) => s
    case JList(xs) => "[" + ReprList(xs) + "]"
    case JObj(_) => "{...}"
  }

  /** `repr(j)`: strings are quoted, everything else renders as `str`. */
  function Repr(j: Json): string
    decreases j, 1
  {
    match j
    case JStr(s) => "'" + s + "'"
    case JList(xs) => "[" + ReprList(xs) + "]"
    case _ => Str(j)
  }

  /** `", ".join(repr(x) for x in xs)`. */
  function ReprList(xs: seq<Json>): string
    decreases xs
  {
    if |xs| == 0 then ""
    else if |xs| == 1 then Repr(xs[0])
    else Repr(xs[0]) + ", " + ReprList(xs[1..])
  }
}
