/** The data model the three converters share: a parsed PLY `vertex` element,
    that is an ordered list of rows with one column of values per property name,
    and the small lookups every converter performs on its property names. */
module PointCloud {

  datatype Option<T> = None | Some(value: T)

  datatype Result<T, E> = Ok(value: T) | Err(error: E)

  /** An unsigned 8-bit value, as written by `struct.pack("B")`. */
  newtype byte = b: int | 0 <= b < 256

  /** A parsed PLY `vertex` element: `count` rows, and for each property name the
      column of its values, row by row. Row order is point identity. */
  datatype Vertex = Vertex(count: nat, columns: map<string, seq<real>>)

  /** Every column of a parsed element has one value per row. */
  predicate Valid(v: Vertex)
  {
    forall name | name in v.columns :: |v.columns[name]| == v.count
  }

  /** The property names the element declares (numpy's `dtype.names`). */
  function Names(v: Vertex): set<string>
  {
    v.columns.Keys
  }

  /** The position properties every converter needs, in the order it looks them up. */
  const POSITION_KEYS: seq<string> := ["x", "y", "z"]

  /** The colour value the COLMAP writers fill in when the element has no colour. */
  const WHITE: int := 255

  /** Python's `int()` applied to a float: truncation toward zero. */
  function Trunc(x: real): (n: int)
    ensures 0.0 <= x ==> n as real <= x < n as real + 1.0
    ensures x < 0.0 ==> n as real - 1.0 < x <= n as real
  {
    if 0.0 <= x then x.Floor else -((-x).Floor)
  }

  /** The index of the first key of `keys` that is not in `names`, or `|keys|`
      when every key is present. */
  function FirstAbsent(names: set<string>, keys: seq<string>): (k: nat)
    ensures k <= |keys|
    ensures forall j :: 0 <= j < k ==> keys[j] in names
    ensures k < |keys| ==> keys[k] !in names
  {
    if |keys| == 0 then 0
    else if keys[0] !in names then 0
    else 1 + FirstAbsent(names, keys[1..])
  }

  /** The first key of `keys` missing from `names`: the one a sequence of
      lookups in that order fails on. */
  function MissingKey(names: set<string>, keys: seq<string>): (m: Option<string>)
    ensures m.None? <==> forall j :: 0 <= j < |keys| ==> keys[j] in names
    ensures m.Some? ==> m.value !in names && m.value in keys
    ensures m.Some? ==> exists k :: 0 <= k < |keys| && keys[k] == m.value
                                    && forall j :: 0 <= j < k ==> keys[j] in names
  {
    var k := FirstAbsent(names, keys);
    if k < |keys| then Some(keys[k]) else None
  }

  /** A key that is absent while every key before it is present is the one
      the lookups fail on. */
  lemma MissingKeyAt(names: set<string>, keys: seq<string>, k: nat)
    requires k < |keys| && keys[k] !in names
    requires forall j :: 0 <= j < k ==> keys[j] in names
    ensures MissingKey(names, keys) == Some(keys[k])
  {
  }

  /** No position key is missing exactly when `x`, `y` and `z` are all declared. */
  lemma PositionKeysPresent(names: set<string>)
    ensures MissingKey(names, POSITION_KEYS).None? <==> "x" in names && "y" in names && "z" in names
    ensures Complete(names, POSITION_KEYS) <==> "x" in names && "y" in names && "z" in names
  {
    assert POSITION_KEYS[0] == "x" && POSITION_KEYS[1] == "y" && POSITION_KEYS[2] == "z";
  }

  /** A group of property names is complete when all of its names are present. */
  predicate Complete(names: set<string>, group: seq<string>)
  {
    forall j :: 0 <= j < |group| ==> group[j] in names
  }

  /** Reference definition of a prioritised fallback: the index of the first
      complete group of `groups`, or `|groups|` when none is complete. */
  function FirstCompleteGroup(names: set<string>, groups: seq<seq<string>>): (k: nat)
    ensures k <= |groups|
    ensures forall j :: 0 <= j < k ==> !Complete(names, groups[j])
    ensures k < |groups| ==> Complete(names, groups[k])
  {
    if |groups| == 0 then 0
    else if Complete(names, groups[0]) then 0
    else 1 + FirstCompleteGroup(names, groups[1..])
  }
}
