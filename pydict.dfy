/** Python's insertion-ordered `dict` from strings to strings, as the
    postprocessing cache uses it: assigning an existing key keeps its place,
    a new key goes last, and `pop` removes the key wherever it is. A
    dictionary is its keys in insertion order and the value of each. */
module PyDict {
  import opened Wrappers

  datatype Dict = Dict(order: seq<string>, values: map<string, string>)

  /** Each key once in the order, and exactly the keys that have a value. */
  ghost predicate Valid(d: Dict)
  {
    NoDup(d.order) && forall k :: k in d.order <==> k in d.values
  }

  predicate NoDup(ks: seq<string>)
  {
    forall i, j :: 0 <= i < j < |ks| ==> ks[i] != ks[j]
  }

  /** `{}`. */
  const Empty: Dict := Dict([], map[])

  /** `d.get(k)`. */
  function Get(d: Dict, k: string): Option<string>
  {
    if k in d.values then Some(d.values[k]) else None
  }

  /** `d[k] = v`: the value of an existing key is replaced where it stands;
      a new key is added at the end. */
  function Put(d: Dict, k: string, v: string): (r: Dict)
    ensures Valid(d) ==> Valid(r)
    ensures Get(r, k) == Some(v)
    ensures forall k' :: k' != k ==> Get(r, k') == Get(d, k')
    ensures r.order == if k in d.values then d.order else d.order + [k]
  {
    if k in d.values then Dict(d.order, d.values[k := v])
    else Dict(d.order + [k], d.values[k := v])
  }

  /** The order without one key. */
  function Without(ks: seq<string>, k: string): (r: seq<string>)
    ensures forall x :: x in r <==> x in ks && x != k
    decreases |ks|
  {
    if ks == [] then []
    else if ks[0] == k then Without(ks[1..], k)
    else [ks[0]] + Without(ks[1..], k)
  }

  lemma {:induction false} WithoutNoDup(ks: seq<string>, k: string)
    requires NoDup(ks)
    ensures NoDup(Without(ks, k))
    decreases |ks|
  {
    if ks != [] {
      WithoutNoDup(ks[1..], k);
      if ks[0] != k {
        var rest := Without(ks[1..], k);
        var r := [ks[0]] + rest;
        forall i, j | 0 <= i < j < |r|
          ensures r[i] != r[j]
        {
          assert r[j] == rest[j - 1] && rest[j - 1] in rest;
          if i > 0 {
            assert r[i] == rest[i - 1];
          } else {
            var m :| 0 <= m < |ks[1..]| && ks[1..][m] == r[j];
            assert ks[m + 1] == r[j];
          }
        }
      }
    }
  }

  /** `d.pop(k, None)`: the key goes, wherever it stands; the others keep
      their order. */
  function Pop(d: Dict, k: string): (r: Dict)
    ensures Valid(d) ==> Valid(r)
    ensures Get(r, k) == None
    ensures forall k' :: k' != k ==> Get(r, k') == Get(d, k')
    ensures k !in d.values ==> r == d
  {
    if k in d.values then
      assert Valid(d) ==> NoDup(Without(d.order, k)) by {
        if Valid(d) {
          WithoutNoDup(d.order, k);
        }
      }
      Dict(Without(d.order, k), d.values - {k})
    else d
  }
}
