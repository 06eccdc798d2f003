/**
 A Python `dict` keyed by identifier strings. Python dicts remember insertion
 order, and the find-or-create loops of the entity store depend on it (they
 return the FIRST matching record), so a table is its rows together with its
 keys in insertion order.
 */
module Tables {
  import opened Wrappers

  /** Identifiers are opaque strings; the source makes them with `uuid4`. */
  type Id = string

  datatype Dict<T> = Dict(keys: seq<Id>, rows: map<Id, T>) {

    /** The keys list every row exactly once. */
    ghost predicate Valid() {
      && (forall i, j :: 0 <= i < j < |keys| ==> keys[i] != keys[j])
      && (forall k :: k in rows <==> k in keys)
    }
  }

  /** Every dict the program can build is a valid one. */
  type Table<T> = d: Dict<T> | d.Valid() witness Dict([], map[])

  /** The empty dict `{}`. */
  function Empty<T>(): (t: Table<T>)
    ensures forall k :: Get(t, k) == None
  {
    Dict([], map[])
  }

  /** `d.get(k)`: the row stored under `k`, or `None` when `k` is not a key. */
  function Get<T>(t: Table<T>, k: Id): (r: Option<T>)
    ensures r.Some? <==> k in t.keys
    ensures r.Some? ==> r.value == t.rows[k]
  {
    if k in t.rows then Some(t.rows[k]) else None
  }

  /**
   `d[k] = v`: afterwards `k` holds `v` and every other key holds what it held
   before; a new key goes to the end of the insertion order, an existing key
   keeps its place.
   */
  function Put<T>(t: Table<T>, k: Id, v: T): (r: Table<T>)
    ensures Get(r, k) == Some(v)
    ensures forall j :: j != k ==> Get(r, j) == Get(t, j)
    ensures k in t.rows ==> r.keys == t.keys
    ensures k !in t.rows ==> r.keys == t.keys + [k]
  {
    Dict(if k in t.rows then t.keys else t.keys + [k], t.rows[k := v])
  }

  /** Position `i` holds the first row, in insertion order, that satisfies `p`. */
  ghost predicate IsFirstMatch<T>(t: Table<T>, i: int, p: T -> bool) {
    && 0 <= i < |t.keys|
    && p(t.rows[t.keys[i]])
    && forall j :: 0 <= j < i ==> !p(t.rows[t.keys[j]])
  }

  /**
   The loop `for v in d.values(): if p(v): return v`, falling through to
   `None` when no row satisfies `p`.
   */
  function FindFirst<T>(t: Table<T>, p: T -> bool): (r: Option<T>)
    ensures r.None? <==> forall k :: k in t.rows ==> !p(t.rows[k])
    ensures r.Some? ==> exists i :: IsFirstMatch(t, i, p) && r.value == t.rows[t.keys[i]]
  {
    var r := FindFrom(t, p, 0);
    if r.None? then
      assert forall k :: k in t.rows ==> !p(t.rows[k]) by {
        forall k | k in t.rows
          ensures !p(t.rows[k])
        {
          var i :| 0 <= i < |t.keys| && t.keys[i] == k;
        }
      }
      r
    else
      r
  }

  /** The same loop, resumed at position `i` after rejecting every earlier row. */
  function FindFrom<T>(t: Table<T>, p: T -> bool, i: nat): (r: Option<T>)
    requires i <= |t.keys|
    requires forall j :: 0 <= j < i ==> !p(t.rows[t.keys[j]])
    ensures r.None? <==> forall j :: i <= j < |t.keys| ==> !p(t.rows[t.keys[j]])
    ensures r.Some? ==> exists j :: i <= j < |t.keys| && IsFirstMatch(t, j, p) && r.value == t.rows[t.keys[j]]
    decreases |t.keys| - i
  {
    if i == |t.keys| then None
    else if p(t.rows[t.keys[i]]) then
      assert IsFirstMatch(t, i, p);
      Some(t.rows[t.keys[i]])
    else FindFrom(t, p, i + 1)
  }
}
