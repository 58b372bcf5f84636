/** The HDF5 side of r2d2/misc/trajectory_writer.py: `write_dict_to_hdf5`,
    which appends one row per leaf of a nested dictionary to an HDF5 file,
    and the bookkeeping of `TrajectoryWriter.write_timestep`, which queues
    every camera image for its video and the rest of the timestep for the
    HDF5 file.

    Python values are `Datum`s: numbers, NumPy arrays, lists and
    dictionaries, a dictionary being its entries in insertion order. An HDF5
    file is a tree of groups whose leaves are datasets of equally shaped
    rows; h5py's file handles are not modelled, so writing returns the tree
    it leaves behind, together with the error it raised, if any. The writer threads are collapsed into a step that takes one item
    off a queue. */
module TrajectoryWriter {
  import opened Wrappers

  datatype Datum =
    | Scalar(x: real)
    | Array(shape: seq<nat>, cells: seq<real>)
    | List(items: seq<Datum>)
    | Dict(entries: seq<Entry>)

  /** One key of a dictionary and its value. */
  datatype Entry = Entry(key: string, value: Datum)

  /** A row as NumPy holds it: its shape and its cells in order. */
  datatype Row = Row(shape: seq<nat>, cells: seq<real>)

  /** A group of named children, or a dataset: a shape every row has, and
      the rows written so far (the first axis, which `maxshape=None` leaves
      unbounded). */
  datatype Node = Group(children: map<string, Node>) | Dataset(rowShape: seq<nat>, rows: seq<seq<real>>)

  // ---------------------------------------------------------------- dictionaries

  function Keys(es: seq<Entry>): set<string>
  {
    set i | 0 <= i < |es| :: es[i].key
  }

  /** A Python dict: no key twice. */
  predicate DistinctKeys(es: seq<Entry>)
  {
    forall i, j :: 0 <= i < j < |es| ==> es[i].key != es[j].key
  }

  /** Distinct keys at every level. */
  predicate WellFormed(es: seq<Entry>)
    decreases es
  {
    DistinctKeys(es) && forall i :: 0 <= i < |es| ==> WellFormedValue(es[i].value)
  }

  predicate WellFormedValue(v: Datum)
    decreases v
  {
    match v
    case Dict(sub) => WellFormed(sub)
    case _ => true
  }

  /** `d[key]`. */
  function Lookup(es: seq<Entry>, key: string): (r: Option<Datum>)
    ensures r.Some? <==> key in Keys(es)
    ensures r.Some? ==> exists i :: 0 <= i < |es| && es[i] == Entry(key, r.value)
  {
    if es == [] then None
    else if es[0].key == key then Some(es[0].value)
    else
      var r := Lookup(es[1..], key);
      assert forall i :: 1 <= i < |es| ==> es[i] == es[1..][i - 1];
      r
  }

  lemma KeysCons(e: Entry, rest: seq<Entry>)
    ensures Keys([e] + rest) == {e.key} + Keys(rest)
  {
    var es := [e] + rest;
    assert es[0].key == e.key;
    forall k | k in Keys(es)
      ensures k in {e.key} + Keys(rest)
    {
      var i :| 0 <= i < |es| && es[i].key == k;
      if i > 0 {
        assert rest[i - 1].key == k;
      }
    }
    forall k | k in Keys(rest)
      ensures k in Keys(es)
    {
      var i :| 0 <= i < |rest| && rest[i].key == k;
      assert es[i + 1].key == k;
    }
  }

  /** `del d[key]`. */
  function Remove(es: seq<Entry>, key: string): (r: seq<Entry>)
    ensures Keys(r) == Keys(es) - {key}
    ensures forall p :: p in r <==> p in es && p.key != key
  {
    if es == [] then []
    else
      var rest := Remove(es[1..], key);
      assert forall i :: 1 <= i < |es| ==> es[i] == es[1..][i - 1];
      if es[0].key == key then rest
      else
        KeysCons(es[0], rest);
        [es[0]] + rest
  }

  // ---------------------------------------------------------------- to arrays

  /** What a leaf becomes before it is written: a number is a row of shape
      (), an array stays as it is, and a list becomes `np.array(list)`: the
      items' rows stacked along a new first axis. A list that is not a
      regular numeric array gives `None`. */
  function ToRow(v: Datum): (r: Option<Row>)
    decreases v
  {
    match v
    case Scalar(x) => Some(Row([], [x]))
    case Array(shape, cells) => Some(Row(shape, cells))
    case List(items) => Stack(items)
    case Dict(_) => None
  }

  function Stack(items: seq<Datum>): (r: Option<Row>)
    ensures r.Some? ==> |r.value.shape| >= 1 && r.value.shape[0] == |items|
    decreases items
  {
    if items == [] then Some(Row([0], []))
    else
      var first := ToRow(items[0]);
      var rest := Stack(items[1..]);
      if first.None? || rest.None? then None
      else if |items| > 1 && rest.value.shape[1..] != first.value.shape then None
      else Some(Row([|items|] + first.value.shape, first.value.cells + rest.value.cells))
  }

  /** `np.array([x1, ..., xn])` of numbers: a vector of the numbers. */
  lemma {:induction false} NumbersStackToVector(xs: seq<real>)
    ensures Stack(seq(|xs|, i requires 0 <= i < |xs| => Scalar(xs[i]))) == Some(Row([|xs|], xs))
    decreases |xs|
  {
    var items := seq(|xs|, i requires 0 <= i < |xs| => Scalar(xs[i]));
    if xs != [] {
      NumbersStackToVector(xs[1..]);
      assert items[1..] == seq(|xs[1..]|, i requires 0 <= i < |xs[1..]| => Scalar(xs[1..][i]));
      assert ToRow(items[0]) == Some(Row([], [xs[0]]));
      var rest := Stack(items[1..]);
      assert rest == Some(Row([|xs| - 1], xs[1..]));
      assert rest.value.shape[1..] == [];
      assert [|items|] + [] == [|xs|];
      assert [xs[0]] + xs[1..] == xs;
    }
  }

  // ---------------------------------------------------------------- broadcasting

  /** The number of cells of an array of this shape. */
  function Product(shape: seq<nat>): nat
  {
    if shape == [] then 1 else shape[0] * Product(shape[1..])
  }

  /** The fill value of a row that a dataset has made room for but that has
      not been assigned yet. */
  function Zeros(n: nat): (r: seq<real>)
    ensures |r| == n && forall i :: 0 <= i < n ==> r[i] == 0.0
  {
    seq(n, _ => 0.0)
  }

  /** Whether a value of shape `src` can be assigned to a row of shape
      `dst` (NumPy's broadcasting rule, as h5py applies it to `dset[-1] =
      value`): aligned at the last axis, each axis of the value is 1 or the
      row's own, and the leading axes the row lacks are all 1. */
  predicate Broadcasts(src: seq<nat>, dst: seq<nat>)
    decreases |src|
  {
    if src == [] then true
    else if dst == [] then forall i :: 0 <= i < |src| ==> src[i] == 1
    else (src[|src| - 1] == 1 || src[|src| - 1] == dst[|dst| - 1])
         && Broadcasts(src[..|src| - 1], dst[..|dst| - 1])
  }

  /** `src` brought to rank `n`: missing leading axes become 1, surplus
      leading axes (all 1 when the value broadcasts) are dropped. */
  function Align(src: seq<nat>, n: nat): (r: seq<nat>)
    ensures |r| == n
  {
    if |src| < n then seq(n - |src|, _ => 1) + src else src[|src| - n..]
  }

  /** The `j`-th run of `size` cells, cut short at the end of `cells`. */
  function Block(cells: seq<real>, j: nat, size: nat): seq<real>
  {
    var lo := if j * size <= |cells| then j * size else |cells|;
    var hi := if (j + 1) * size <= |cells| then (j + 1) * size else |cells|;
    if lo <= hi then cells[lo..hi] else []
  }

  function Concat(parts: seq<seq<real>>): seq<real>
  {
    if parts == [] then [] else parts[0] + Concat(parts[1..])
  }

  /** The cells of a value of shape `src` (already of the row's rank),
      repeated along every axis where `src` is 1, in row-major order. */
  function Expand(src: seq<nat>, cells: seq<real>, dst: seq<nat>): seq<real>
    requires |src| == |dst|
    decreases |dst|
  {
    if dst == [] then cells
    else
      var size := Product(src[1..]);
      Concat(seq(dst[0], i requires 0 <= i < dst[0] =>
        Expand(src[1..], Block(cells, Along(src[0], i), size), dst[1..])))
  }

  /** The index into an axis of length `len` that index `i` of the row
      reads: `i` itself, or 0 where the axis is repeated. */
  function Along(len: nat, i: nat): nat
  {
    if len == 1 then 0 else i
  }

  /** What `dset[-1] = value` stores in a row of shape `dst`. */
  function Broadcast(row: Row, dst: seq<nat>): seq<real>
  {
    Expand(Align(row.shape, |dst|), row.cells, dst)
  }

  lemma {:induction false} BroadcastsItself(s: seq<nat>)
    ensures Broadcasts(s, s)
    decreases |s|
  {
    if s != [] {
      BroadcastsItself(s[..|s| - 1]);
    }
  }

  lemma MulLe(a: nat, b: nat, k: nat)
    requires a <= b
    ensures a * k <= b * k
  {
  }

  /** With `n` blocks of `size` in `cells`, the `i`-th is a whole one. */
  lemma FullBlock(cells: seq<real>, n: nat, size: nat, i: nat)
    requires |cells| == n * size && i < n
    ensures (i + 1) * size <= |cells|
    ensures Block(cells, i, size) == cells[i * size..(i + 1) * size]
  {
    MulLe(i + 1, n, size);
    MulLe(i, i + 1, size);
  }

  /** Dropping the first block shifts the others down by one. */
  lemma BlockShift(cells: seq<real>, size: nat, i: nat)
    requires size <= |cells|
    ensures Block(cells, i + 1, size) == Block(cells[size..], i, size)
  {
    assert (i + 1) * size == i * size + size;
    assert (i + 2) * size == (i + 1) * size + size;
  }

  /** Cutting `cells` into its `n` blocks and joining them again gives
      `cells`. */
  lemma {:induction false} BlocksConcat(cells: seq<real>, n: nat, size: nat)
    requires |cells| == n * size
    ensures Concat(seq(n, i requires 0 <= i < n => Block(cells, i, size))) == cells
    decreases n
  {
    var parts := seq(n, i requires 0 <= i < n => Block(cells, i, size));
    if n > 0 {
      MulLe(1, n, size);
      var rest := cells[size..];
      assert (n - 1) * size == n * size - size;
      BlocksConcat(rest, n - 1, size);
      forall i | 0 <= i < n - 1
        ensures parts[1..][i] == Block(rest, i, size)
      {
        BlockShift(cells, size, i);
      }
      assert parts[1..] == seq(n - 1, i requires 0 <= i < n - 1 => Block(rest, i, size));
      assert 0 * size == 0 && 1 * size == size;
      assert parts[0] == cells[..size];
    }
  }

  /** A value already of the row's shape is stored cell for cell. */
  lemma {:induction false} ExpandOwnShape(s: seq<nat>, cells: seq<real>)
    requires |cells| == Product(s)
    ensures Expand(s, cells, s) == cells
    decreases |s|
  {
    if s != [] {
      var size := Product(s[1..]);
      forall i | 0 <= i < s[0]
        ensures Expand(s[1..], Block(cells, Along(s[0], i), size), s[1..]) == Block(cells, i, size)
      {
        FullBlock(cells, s[0], size, i);
        ExpandOwnShape(s[1..], Block(cells, i, size));
      }
      assert seq(s[0], i requires 0 <= i < s[0] =>
               Expand(s[1..], Block(cells, Along(s[0], i), size), s[1..]))
          == seq(s[0], i requires 0 <= i < s[0] => Block(cells, i, size));
      BlocksConcat(cells, s[0], size);
    }
  }

  /** An array whose cells fill its shape, assigned to a row of that very
      shape, is stored unchanged. */
  lemma BroadcastOwnShape(row: Row)
    requires |row.cells| == Product(row.shape)
    ensures Broadcasts(row.shape, row.shape) && Broadcast(row, row.shape) == row.cells
  {
    BroadcastsItself(row.shape);
    assert Align(row.shape, |row.shape|) == row.shape;
    ExpandOwnShape(row.shape, row.cells);
  }

  lemma {:induction false} ConcatCopies(x: real, n: nat)
    ensures Concat(seq(n, _ => [x])) == seq(n, _ => x)
    decreases n
  {
    if n > 0 {
      ConcatCopies(x, n - 1);
      assert seq(n, _ => [x])[1..] == seq(n - 1, _ => [x]);
      assert seq(n, _ => x) == [x] + seq(n - 1, _ => x);
    }
  }

  /** A number assigned to a row of `n` cells fills every cell. */
  lemma ScalarFillsRow(x: real, n: nat)
    ensures Broadcasts([], [n]) && Broadcast(Row([], [x]), [n]) == seq(n, _ => x)
  {
    var one: seq<nat> := [1];
    assert Align([], 1) == one;
    assert one[1..] == [] && [n][1..] == [] && Product([]) == 1;
    assert Block([x], 0, 1) == [x];
    assert Expand([], [x], []) == [x];
    var dst := [n];
    var parts := seq(dst[0], i requires 0 <= i < dst[0] =>
      Expand(one[1..], Block([x], Along(one[0], i), Product(one[1..])), dst[1..]));
    assert Broadcast(Row([], [x]), [n]) == Concat(parts);
    assert parts == seq(n, _ => [x]);
    ConcatCopies(x, n);
  }

  /** Only a value whose cells are all in one axis of length 1 (or none)
      fits a scalar row: a vector of two numbers does not. */
  lemma VectorMissesScalarRow()
    ensures !Broadcasts([2], [])
  {
    var src: seq<nat> := [2];
    assert src[0] != 1;
  }

  // ---------------------------------------------------------------- write_dict_to_hdf5

  /** What writing leaves behind: the tree as it stands when the write
      returns or raises (h5py changes the file in place, so every step taken
      before the error stays), and the error, if any. */
  datatype Written = Written(tree: map<string, Node>, failure: Option<PyError>)

  /** The group holds the same thing under `k` in `a` and `b`: the same
      node, or nothing in either. */
  predicate Same(a: map<string, Node>, b: map<string, Node>, k: string)
  {
    (k in a <==> k in b) && (k in a ==> a[k] == b[k])
  }

  /** One key of `write_dict_to_hdf5`: a dictionary is written into a
      group, anything else into a dataset. Only the node under `key` can
      change. */
  function WriteOne(m: map<string, Node>, key: string, v: Datum): (r: Written)
    ensures r.tree == m || (key in r.tree && r.tree == m[key := r.tree[key]])
    ensures r.failure.None? ==> key in r.tree
    decreases v
  {
    match v
    case Dict(sub) => WriteGroup(m, key, sub)
    case _ => WriteLeaf(m, key, v)
  }

  /** A dictionary is written into the group under `key`, which is created
      first if missing and stays whatever the recursion does; a dataset in
      its place accepts only an empty dictionary. */
  function WriteGroup(m: map<string, Node>, key: string, sub: seq<Entry>): (r: Written)
    ensures r.tree == m || (key in r.tree && r.tree == m[key := r.tree[key]])
    ensures r.failure.None? ==> key in r.tree
    decreases sub, 1
  {
    if key in m && m[key].Dataset? then
      Written(m, if sub == [] then None else Some(AttributeError))
    else
      var w := WriteEntries(if key in m then m[key].children else map[], sub);
      Written(m[key := Group(w.tree)], w.failure)
  }

  /** Any other value is converted to a row. A new key creates a dataset of
      that row's shape and assigns the row; an existing dataset is first
      resized by one row of zeros and then has the value assigned to that
      row, which fails with a `TypeError` when the value does not broadcast,
      leaving the zero row behind; a group in the place of a leaf cannot be
      resized. */
  function WriteLeaf(m: map<string, Node>, key: string, v: Datum): (r: Written)
    ensures r.tree == m || (key in r.tree && r.tree == m[key := r.tree[key]])
    ensures r.failure.None? ==> key in r.tree
  {
    var row := ToRow(v);
    if key !in m then
      if row.None? then Written(m, Some(TypeError))
      else Written(m[key := Dataset(row.value.shape, [Broadcast(row.value, row.value.shape)])], None)
    else if m[key].Group? then Written(m, Some(AttributeError))
    else
      var d := m[key];
      if row.None? || !Broadcasts(row.value.shape, d.rowShape) then
        Written(m[key := Dataset(d.rowShape, d.rows + [Zeros(Product(d.rowShape))])], Some(TypeError))
      else Written(m[key := Dataset(d.rowShape, d.rows + [Broadcast(row.value, d.rowShape)])], None)
  }

  /** `write_dict_to_hdf5(group, data)`: the keys in order, stopping at the
      first error with what has been written so far. */
  function WriteEntries(m: map<string, Node>, es: seq<Entry>): (r: Written)
    decreases es, 0
  {
    if es == [] then Written(m, None)
    else
      var w := WriteOne(m, es[0].key, es[0].value);
      if w.failure.Some? then w else WriteEntries(w.tree, es[1..])
  }

  /** A key's write depends on nothing but what the group holds under that
      key, and changes nothing else. */
  lemma WriteOneIsLocal(m: map<string, Node>, m2: map<string, Node>, key: string, v: Datum)
    requires Same(m, m2, key)
    ensures WriteOne(m, key, v).failure == WriteOne(m2, key, v).failure
    ensures Same(WriteOne(m, key, v).tree, WriteOne(m2, key, v).tree, key)
    ensures forall k :: k != key ==> Same(WriteOne(m, key, v).tree, m, k)
  {
  }

  /** The index of the first key that fails when written on its own into
      `m`, or `|es|`. */
  function FirstFailure(m: map<string, Node>, es: seq<Entry>): (n: nat)
    ensures n <= |es|
    ensures forall i :: 0 <= i < n ==> WriteOne(m, es[i].key, es[i].value).failure.None?
    ensures n < |es| ==> WriteOne(m, es[n].key, es[n].value).failure.Some?
    decreases |es|
  {
    if es == [] then 0
    else if WriteOne(m, es[0].key, es[0].value).failure.Some? then 0
    else 1 + FirstFailure(m, es[1..])
  }

  lemma {:induction false} FirstFailureIsLocal(m: map<string, Node>, m2: map<string, Node>, es: seq<Entry>)
    requires forall i :: 0 <= i < |es| ==> Same(m, m2, es[i].key)
    ensures FirstFailure(m, es) == FirstFailure(m2, es)
    decreases |es|
  {
    if es != [] {
      WriteOneIsLocal(m, m2, es[0].key, es[0].value);
      FirstFailureIsLocal(m, m2, es[1..]);
    }
  }

  /** The keys of a dictionary are written independently, up to the first
      that fails: the write fails with that key's error; every key up to
      and including it holds what writing it alone gives (the failing one
      as far as it got), and the rest of the group is untouched. */
  lemma KeysWrittenIndependently(m: map<string, Node>, es: seq<Entry>)
    requires DistinctKeys(es)
    ensures var w, n := WriteEntries(m, es), FirstFailure(m, es);
      var stop := if n < |es| then n + 1 else |es|;
      w.failure == (if n < |es| then WriteOne(m, es[n].key, es[n].value).failure else None)
      && (forall k :: k !in Keys(es[..stop]) ==> Same(w.tree, m, k))
      && (forall i :: 0 <= i < stop ==> Same(w.tree, WriteOne(m, es[i].key, es[i].value).tree, es[i].key))
  {
    WrittenUpToFirstFailure(m, es);
  }

  /** The write fails exactly when some key, written on its own, would. */
  lemma WriteFailsIffAKeyFails(m: map<string, Node>, es: seq<Entry>)
    requires DistinctKeys(es)
    ensures WriteEntries(m, es).failure.None? <==> forall i :: 0 <= i < |es| ==> WriteOne(m, es[i].key, es[i].value).failure.None?
  {
    WrittenUpToFirstFailure(m, es);
    assert FailsAsAlone(m, es);
    var n := FirstFailure(m, es);
    if n < |es| {
      assert WriteOne(m, es[n].key, es[n].value).failure.Some?;
    }
  }

  /** The keys written by `WriteEntries(m, es)`: those up to and including
      the first that fails. */
  function Stop(m: map<string, Node>, es: seq<Entry>): (n: nat)
    ensures n <= |es|
  {
    if FirstFailure(m, es) < |es| then FirstFailure(m, es) + 1 else |es|
  }

  /** The conclusion of `KeysWrittenIndependently`, in three parts: the
      error, the keys left alone and the keys written. */
  ghost predicate FailsAsAlone(m: map<string, Node>, es: seq<Entry>)
  {
    var n := FirstFailure(m, es);
    WriteEntries(m, es).failure == (if n < |es| then WriteOne(m, es[n].key, es[n].value).failure else None)
  }

  ghost predicate UntouchedBeyond(m: map<string, Node>, es: seq<Entry>)
  {
    forall k :: k !in Keys(es[..Stop(m, es)]) ==> Same(WriteEntries(m, es).tree, m, k)
  }

  ghost predicate WrittenAsAlone(m: map<string, Node>, es: seq<Entry>)
  {
    forall i :: 0 <= i < Stop(m, es) ==> Same(WriteEntries(m, es).tree, WriteOne(m, es[i].key, es[i].value).tree, es[i].key)
  }

  lemma {:induction false} WrittenUpToFirstFailure(m: map<string, Node>, es: seq<Entry>)
    requires DistinctKeys(es)
    ensures FailsAsAlone(m, es) && UntouchedBeyond(m, es) && WrittenAsAlone(m, es)
    decreases es
  {
    if es == [] {
      assert es[..0] == [];
      assert Keys([]) == {};
    } else if WriteOne(m, es[0].key, es[0].value).failure.Some? {
      FirstKeyFails(m, es);
    } else {
      assert DistinctKeys(es[1..]) by {
        assert forall i :: 1 <= i < |es| ==> es[i] == es[1..][i - 1];
      }
      WrittenUpToFirstFailure(WriteOne(m, es[0].key, es[0].value).tree, es[1..]);
      FirstKeyWritten(m, es);
    }
  }

  lemma FirstKeyWritten(m: map<string, Node>, es: seq<Entry>)
    requires es != [] && DistinctKeys(es)
    requires WriteOne(m, es[0].key, es[0].value).failure.None?
    requires var m1 := WriteOne(m, es[0].key, es[0].value).tree;
      FailsAsAlone(m1, es[1..]) && UntouchedBeyond(m1, es[1..]) && WrittenAsAlone(m1, es[1..])
    ensures FailsAsAlone(m, es) && UntouchedBeyond(m, es) && WrittenAsAlone(m, es)
  {
    var m1, tail := WriteOne(m, es[0].key, es[0].value).tree, es[1..];
    StopAfterFirstKey(m, es);
    WriteOneIsLocal(m, m, es[0].key, es[0].value);
    assert WriteEntries(m, es) == WriteEntries(m1, tail);
    FailureAfterFirstKey(m, es);
    UntouchedCombine(m, m1, WriteEntries(m1, tail).tree, es, Stop(m1, tail));
    WrittenAfterFirstKey(m, es);
  }

  lemma FirstKeyFails(m: map<string, Node>, es: seq<Entry>)
    requires es != [] && WriteOne(m, es[0].key, es[0].value).failure.Some?
    ensures FailsAsAlone(m, es) && UntouchedBeyond(m, es) && WrittenAsAlone(m, es)
  {
    var w0 := WriteOne(m, es[0].key, es[0].value);
    assert WriteEntries(m, es) == w0;
    assert FirstFailure(m, es) == 0;
    assert es[..1] == [es[0]];
    KeysCons(es[0], []);
    assert Keys([]) == {};
    WriteOneIsLocal(m, m, es[0].key, es[0].value);
  }

  /** After a first key that is written, the rest of the keys behave in
      the new tree as in the old one. */
  lemma TailIsLocal(m: map<string, Node>, es: seq<Entry>)
    requires es != [] && DistinctKeys(es)
    requires WriteOne(m, es[0].key, es[0].value).failure.None?
    ensures var m1, tail := WriteOne(m, es[0].key, es[0].value).tree, es[1..];
      DistinctKeys(tail)
      && (forall k :: k != es[0].key ==> Same(m1, m, k))
      && FirstFailure(m1, tail) == FirstFailure(m, tail)
      && FirstFailure(m, es) == FirstFailure(m, tail) + 1
      && forall i :: 0 <= i < |tail| ==>
           WriteOne(m1, tail[i].key, tail[i].value).failure == WriteOne(m, tail[i].key, tail[i].value).failure
           && Same(WriteOne(m1, tail[i].key, tail[i].value).tree, WriteOne(m, tail[i].key, tail[i].value).tree, tail[i].key)
  {
    var m1, tail := WriteOne(m, es[0].key, es[0].value).tree, es[1..];
    assert forall i :: 1 <= i < |es| ==> es[i] == tail[i - 1];
    WriteOneIsLocal(m, m, es[0].key, es[0].value);
    forall i | 0 <= i < |tail|
      ensures Same(m1, m, tail[i].key)
      ensures WriteOne(m1, tail[i].key, tail[i].value).failure == WriteOne(m, tail[i].key, tail[i].value).failure
      ensures Same(WriteOne(m1, tail[i].key, tail[i].value).tree, WriteOne(m, tail[i].key, tail[i].value).tree, tail[i].key)
    {
      assert tail[i].key != es[0].key;
      WriteOneIsLocal(m1, m, tail[i].key, tail[i].value);
    }
    FirstFailureIsLocal(m1, m, tail);
  }

  lemma StopAfterFirstKey(m: map<string, Node>, es: seq<Entry>)
    requires es != [] && DistinctKeys(es)
    requires WriteOne(m, es[0].key, es[0].value).failure.None?
    ensures Stop(m, es) == Stop(WriteOne(m, es[0].key, es[0].value).tree, es[1..]) + 1
  {
    TailIsLocal(m, es);
  }

  lemma FailureAfterFirstKey(m: map<string, Node>, es: seq<Entry>)
    requires es != [] && DistinctKeys(es)
    requires WriteOne(m, es[0].key, es[0].value).failure.None?
    requires FailsAsAlone(WriteOne(m, es[0].key, es[0].value).tree, es[1..])
    ensures FailsAsAlone(m, es)
  {
    var m1, tail := WriteOne(m, es[0].key, es[0].value).tree, es[1..];
    assert WriteEntries(m, es) == WriteEntries(m1, tail);
    TailIsLocal(m, es);
    var n1 := FirstFailure(m, tail);
    if n1 < |tail| {
      assert es[n1 + 1] == tail[n1];
    }
  }

  /** Keys outside the first key and the tail's written keys are left
      alone, whatever the trees are. */
  lemma UntouchedCombine(m: map<string, Node>, m1: map<string, Node>, t: map<string, Node>, es: seq<Entry>, stop1: nat)
    requires es != [] && stop1 <= |es| - 1
    requires forall k :: k != es[0].key ==> Same(m1, m, k)
    requires forall k :: k !in Keys(es[1..][..stop1]) ==> Same(t, m1, k)
    ensures forall k :: k !in Keys(es[..stop1 + 1]) ==> Same(t, m, k)
  {
    assert es[..stop1 + 1] == [es[0]] + es[1..][..stop1];
    KeysCons(es[0], es[1..][..stop1]);
    forall k | k !in Keys(es[..stop1 + 1])
      ensures Same(t, m, k)
    {
      assert k != es[0].key && k !in Keys(es[1..][..stop1]);
      assert Same(t, m1, k) && Same(m1, m, k);
    }
  }

  lemma WrittenAfterFirstKey(m: map<string, Node>, es: seq<Entry>)
    requires es != [] && DistinctKeys(es)
    requires WriteOne(m, es[0].key, es[0].value).failure.None?
    requires UntouchedBeyond(WriteOne(m, es[0].key, es[0].value).tree, es[1..])
    requires WrittenAsAlone(WriteOne(m, es[0].key, es[0].value).tree, es[1..])
    ensures WrittenAsAlone(m, es)
  {
    var m1, tail := WriteOne(m, es[0].key, es[0].value).tree, es[1..];
    var t := WriteEntries(m1, tail).tree;
    assert WriteEntries(m, es) == WriteEntries(m1, tail);
    TailIsLocal(m, es);
    var stop1 := Stop(m1, tail);
    assert Stop(m, es) == stop1 + 1;
    assert es[0].key !in Keys(tail) by {
      forall i | 0 <= i < |tail| ensures tail[i].key != es[0].key {
        assert tail[i] == es[i + 1];
      }
    }
    assert Keys(tail[..stop1]) <= Keys(tail) by {
      forall k | k in Keys(tail[..stop1]) ensures k in Keys(tail) {
        var i :| 0 <= i < stop1 && tail[..stop1][i].key == k;
        assert tail[i].key == k;
      }
    }
    assert Same(t, m1, es[0].key);
    forall i | 1 <= i < stop1 + 1
      ensures Same(t, WriteOne(m, es[i].key, es[i].value).tree, es[i].key)
    {
      assert es[i] == tail[i - 1];
      assert Same(t, WriteOne(m1, tail[i - 1].key, tail[i - 1].value).tree, tail[i - 1].key);
    }
  }

  /** A leaf that is written: a new key gets a dataset of the value's own
      shape holding the value; an existing dataset gets exactly one more
      row after the rows it had, the value broadcast to its row shape. */
  lemma LeafAppendsOneRow(m: map<string, Node>, key: string, v: Datum)
    requires !v.Dict? && WriteOne(m, key, v).failure.None?
    ensures var n, row := WriteOne(m, key, v).tree[key], ToRow(v).value;
      ToRow(v).Some? && n.Dataset? && Broadcasts(row.shape, n.rowShape)
      && (key !in m ==> n.rowShape == row.shape && n.rows == [Broadcast(row, row.shape)])
      && (key in m ==> m[key].Dataset? && n.rowShape == m[key].rowShape && |n.rows| == |m[key].rows| + 1
                       && n.rows[..|m[key].rows|] == m[key].rows
                       && n.rows[|m[key].rows|] == Broadcast(row, n.rowShape))
  {
    assert WriteOne(m, key, v) == WriteLeaf(m, key, v);
    var row := ToRow(v);
    if key in m {
      var d := m[key];
      assert d.Dataset? && row.Some? && Broadcasts(row.value.shape, d.rowShape);
      var rows := d.rows + [Broadcast(row.value, d.rowShape)];
      assert WriteLeaf(m, key, v).tree[key] == Dataset(d.rowShape, rows);
      assert rows[..|d.rows|] == d.rows;
    } else {
      assert row.Some?;
      BroadcastsItself(row.value.shape);
      assert WriteLeaf(m, key, v).tree[key] == Dataset(row.value.shape, [Broadcast(row.value, row.value.shape)]);
    }
  }

  /** A leaf that an existing dataset cannot take still grows that dataset
      by a row of zeros, since the resize comes before the assignment. */
  lemma FailedLeafLeavesZeroRow(m: map<string, Node>, key: string, v: Datum)
    requires !v.Dict? && key in m && m[key].Dataset? && WriteOne(m, key, v).failure.Some?
    ensures var d, n := m[key], WriteOne(m, key, v).tree[key];
      WriteOne(m, key, v).failure == Some(TypeError)
      && (ToRow(v).None? || !Broadcasts(ToRow(v).value.shape, d.rowShape))
      && n == Dataset(d.rowShape, d.rows + [Zeros(Product(d.rowShape))])
  {
  }

  /** A nested dictionary lands in the group under its key, a new group
      written from scratch or the existing group written into, and the group
      is there even when writing into it fails. */
  lemma DictWritesIntoGroup(m: map<string, Node>, key: string, sub: seq<Entry>)
    requires key in m ==> m[key].Group?
    ensures var base := if key in m then m[key].children else map[];
      var w := WriteOne(m, key, Dict(sub));
      w.failure == WriteEntries(base, sub).failure
      && key in w.tree && w.tree[key] == Group(WriteEntries(base, sub).tree)
  {
  }

  /** The example of a timestep whose second key does not fit: `b` is
      created and written, and the dataset `a`, whose rows are single
      numbers, has grown by a zero row before refusing a vector. */
  lemma PartialWriteExample()
    ensures var m := map["a" := Dataset([], [[5.0]])];
      var es := [Entry("b", Scalar(1.0)), Entry("a", List([Scalar(1.0), Scalar(2.0)]))];
      WriteEntries(m, es)
        == Written(map["a" := Dataset([], [[5.0], [0.0]]), "b" := Dataset([], [[1.0]])], Some(TypeError))
  {
    var m := map["a" := Dataset([], [[5.0]])];
    var es := [Entry("b", Scalar(1.0)), Entry("a", List([Scalar(1.0), Scalar(2.0)]))];
    assert Broadcast(Row([], [1.0]), []) == [1.0];
    var m1 := m["b" := Dataset([], [[1.0]])];
    assert WriteOne(m, "b", Scalar(1.0)) == Written(m1, None);
    NumbersStackToVector([1.0, 2.0]);
    assert [Scalar(1.0), Scalar(2.0)] == seq(2, i requires 0 <= i < 2 => Scalar([1.0, 2.0][i]));
    assert ToRow(List([Scalar(1.0), Scalar(2.0)])) == Some(Row([2], [1.0, 2.0]));
    VectorMissesScalarRow();
    assert Zeros(Product([])) == [0.0];
    assert es[1..] == [Entry("a", List([Scalar(1.0), Scalar(2.0)]))];
    var grown := m1["a" := Dataset([], [[5.0], [0.0]])];
    assert m1["a"] == Dataset([], [[5.0]]);
    assert [[5.0]] + [Zeros(Product([]))] == [[5.0], [0.0]];
    assert WriteLeaf(m1, "a", List([Scalar(1.0), Scalar(2.0)])) == Written(grown, Some(TypeError));
    assert WriteEntries(m1, es[1..]) == Written(grown, Some(TypeError));
    assert grown == map["a" := Dataset([], [[5.0], [0.0]]), "b" := Dataset([], [[1.0]])];
  }

  // ---------------------------------------------------------------- reading back

  /** Every leaf of the data is the last row of its dataset, at the same
      path, and every nested dictionary is a group. */
  predicate Holds(m: map<string, Node>, es: seq<Entry>)
    decreases es
  {
    forall i :: 0 <= i < |es| ==> HoldsOne(m, es[i].key, es[i].value)
  }

  predicate HoldsOne(m: map<string, Node>, key: string, v: Datum)
    decreases v
  {
    key in m
    && match v
       case Dict(sub) => (m[key].Group? ==> Holds(m[key].children, sub)) && (m[key].Dataset? ==> sub == [])
       case _ => ToRow(v).Some? && m[key].Dataset? && |m[key].rows| > 0
                 && Broadcasts(ToRow(v).value.shape, m[key].rowShape)
                 && m[key].rows[|m[key].rows| - 1] == Broadcast(ToRow(v).value, m[key].rowShape)
  }

  /** Reading the last rows back gives the dictionary that was written: a
      successful write stores every leaf of the data where it belongs. */
  lemma {:induction false} WrittenDataReadsBack(m: map<string, Node>, es: seq<Entry>)
    requires WellFormed(es) && WriteEntries(m, es).failure.None?
    ensures Holds(WriteEntries(m, es).tree, es)
    decreases es, 1
  {
    WrittenUpToFirstFailure(m, es);
    assert FailsAsAlone(m, es);
    assert FirstFailure(m, es) == |es|;
    KeysWritten(m, es, |es|);
    assert es[..|es|] == es;
  }

  /** A failed write still stores every key before the one that failed. */
  lemma {:induction false} FailedWriteKeepsEarlierKeys(m: map<string, Node>, es: seq<Entry>)
    requires WellFormed(es) && WriteEntries(m, es).failure.Some?
    ensures FirstFailure(m, es) < |es| && Holds(WriteEntries(m, es).tree, es[..FirstFailure(m, es)])
  {
    WrittenUpToFirstFailure(m, es);
    assert FailsAsAlone(m, es);
    KeysWritten(m, es, FirstFailure(m, es));
  }

  /** The keys before the first failure read back. */
  lemma {:induction false} KeysWritten(m: map<string, Node>, es: seq<Entry>, n: nat)
    requires WellFormed(es) && n == FirstFailure(m, es)
    ensures Holds(WriteEntries(m, es).tree, es[..n])
    decreases es, 0
  {
    WrittenUpToFirstFailure(m, es);
    var m' := WriteEntries(m, es).tree;
    forall i | 0 <= i < n
      ensures HoldsOne(m', es[i].key, es[i].value)
    {
      var k, v := es[i].key, es[i].value;
      assert WellFormedValue(v);
      OneReadsBack(m, k, v);
      assert Same(WriteOne(m, k, v).tree, m', k);
      HoldsOneLocal(WriteOne(m, k, v).tree, m', k, v);
    }
  }

  /** Whether a key reads back depends only on what is under that key. */
  lemma HoldsOneLocal(a: map<string, Node>, b: map<string, Node>, k: string, v: Datum)
    requires Same(a, b, k) && HoldsOne(a, k, v)
    ensures HoldsOne(b, k, v)
  {
  }

  lemma {:induction false} OneReadsBack(m: map<string, Node>, key: string, v: Datum)
    requires WellFormedValue(v) && WriteOne(m, key, v).failure.None?
    ensures HoldsOne(WriteOne(m, key, v).tree, key, v)
    decreases v
  {
    match v
    case Dict(sub) =>
      assert WriteOne(m, key, v) == WriteGroup(m, key, sub);
      if key in m && m[key].Dataset? {
        assert sub == [];
      } else {
        var base := if key in m then m[key].children else map[];
        WrittenDataReadsBack(base, sub);
        DictWritesIntoGroup(m, key, sub);
      }
    case _ =>
      LeafReadsBack(m, key, v);
  }

  lemma LeafReadsBack(m: map<string, Node>, key: string, v: Datum)
    requires !v.Dict? && WriteOne(m, key, v).failure.None?
    ensures HoldsOne(WriteOne(m, key, v).tree, key, v)
  {
    LeafAppendsOneRow(m, key, v);
    var n := WriteOne(m, key, v).tree[key];
    assert n.rows[|n.rows| - 1] == Broadcast(ToRow(v).value, n.rowShape);
  }

  /** The loop of `write_dict_to_hdf5`, recursing into nested dictionaries
      and changing the group step by step as h5py does: a missing group is
      created before it is written into, and a dataset is resized before
      its new row is assigned. */
  method WriteDictToHdf5(group: map<string, Node>, data: seq<Entry>) returns (w: Written)
    ensures w == WriteEntries(group, data)
    decreases data
  {
    var g := group;
    var i := 0;
    while i < |data|
      invariant 0 <= i <= |data|
      invariant WriteEntries(group, data) == WriteEntries(g, data[i..])
    {
      var key, value := data[i].key, data[i].value;
      assert data[i..][0] == data[i] && data[i..][1..] == data[i + 1..];
      ghost var g0 := g;
      if value.Dict? {
        var sub := value.entries;
        if key !in g {
          g := g[key := Group(map[])];
        }
        if g[key].Dataset? {
          if sub != [] {
            assert WriteOne(g0, key, value) == Written(g, Some(AttributeError));
            return Written(g, Some(AttributeError));
          }
          assert WriteOne(g0, key, value) == Written(g, None);
        } else {
          assert value == data[i].value;
          var inner := WriteDictToHdf5(g[key].children, sub);
          g := g[key := Group(inner.tree)];
          assert g == g0[key := Group(inner.tree)];
          if inner.failure.Some? {
            assert WriteOne(g0, key, value) == Written(g, inner.failure);
            return Written(g, inner.failure);
          }
        }
      } else {
        var failure;
        g, failure := WriteLeafInPlace(g, key, value);
        if failure.Some? {
          return Written(g, failure);
        }
      }
      assert WriteOne(g0, key, value) == Written(g, None);
      i := i + 1;
    }
    return Written(g, None);
  }

  /** One leaf of the loop, as h5py does it: a missing dataset is created
      with one row of zeros, an existing one is resized by a row of zeros,
      and then the value is assigned to that last row. */
  method WriteLeafInPlace(g: map<string, Node>, key: string, value: Datum) returns (g': map<string, Node>, failure: Option<PyError>)
    requires !value.Dict?
    ensures Written(g', failure) == WriteLeaf(g, key, value)
  {
    var row := ToRow(value);
    var d: Node;
    if key !in g {
      if row.None? {
        return g, Some(TypeError);
      }
      d := Dataset(row.value.shape, [Zeros(Product(row.value.shape))]);
      BroadcastsItself(row.value.shape);
    } else {
      if g[key].Group? {
        return g, Some(AttributeError);
      }
      d := Dataset(g[key].rowShape, g[key].rows + [Zeros(Product(g[key].rowShape))]);
    }
    if row.None? || !Broadcasts(row.value.shape, d.rowShape) {
      return g[key := d], Some(TypeError);
    }
    var before := d.rows[..|d.rows| - 1];
    var written := Dataset(d.rowShape, before + [Broadcast(row.value, d.rowShape)]);
    if key in g {
      assert before == g[key].rows;
      assert written == Dataset(g[key].rowShape, g[key].rows + [Broadcast(row.value, g[key].rowShape)]);
    } else {
      assert before + [Broadcast(row.value, d.rowShape)] == [Broadcast(row.value, row.value.shape)];
      assert written == Dataset(row.value.shape, [Broadcast(row.value, row.value.shape)]);
    }
    return g[key := written], None;
  }

  // ---------------------------------------------------------------- write_timestep

  /** The video writers: one queue of images per video id, and the ids in
      the order their writers were created. */
  datatype Videos = Videos(queues: map<string, seq<Datum>>, ids: seq<string>)

  /** Every writer has exactly one queue. */
  ghost predicate VideosValid(v: Videos)
  {
    (forall i, j :: 0 <= i < j < |v.ids| ==> v.ids[i] != v.ids[j])
    && forall id :: id in v.queues <==> id in v.ids
  }

  /** `'{0}_{1}'.format(camera_id, image_id)`. */
  function VideoId(cameraId: string, imageId: string): string
  {
    cameraId + "_" + imageId
  }

  /** Queues one image, creating its writer and queue on first use. */
  function Put(v: Videos, id: string, img: Datum): (r: Videos)
    ensures VideosValid(v) ==> VideosValid(r)
    ensures r.queues.Keys == v.queues.Keys + {id}
    ensures r.queues[id] == (if id in v.queues then v.queues[id] else []) + [img]
    ensures forall k :: k in v.queues && k != id ==> r.queues[k] == v.queues[k]
  {
    if id in v.queues then v.(queues := v.queues[id := v.queues[id] + [img]])
    else Videos(v.queues[id := [img]], v.ids + [id])
  }

  /** The inner loop over one camera's images. */
  function PutImages(v: Videos, cameraId: string, images: seq<Entry>): (r: Videos)
    ensures VideosValid(v) ==> VideosValid(r)
    decreases |images|
  {
    if images == [] then v
    else PutImages(Put(v, VideoId(cameraId, images[0].key), images[0].value), cameraId, images[1..])
  }

  /** The outer loop over the cameras, each of which holds a dictionary. */
  function PutCameras(v: Videos, cameras: seq<Entry>): (r: Videos)
    requires forall i :: 0 <= i < |cameras| ==> cameras[i].value.Dict?
    ensures VideosValid(v) ==> VideosValid(r)
    decreases |cameras|
  {
    if cameras == [] then v
    else PutCameras(PutImages(v, cameras[0].key, cameras[0].value.entries), cameras[1..])
  }

  /** The images of one camera that go to video `id`, in order. */
  function Matching(cameraId: string, images: seq<Entry>, id: string): seq<Datum>
    decreases |images|
  {
    if images == [] then []
    else (if VideoId(cameraId, images[0].key) == id then [images[0].value] else []) + Matching(cameraId, images[1..], id)
  }

  /** Every image reaches the queue of its own video, in order, and no
      other queue: each queue gains exactly the camera's images whose video
      id is its own. */
  lemma {:induction false} EveryImageQueued(v: Videos, cameraId: string, images: seq<Entry>, id: string)
    ensures var r := PutImages(v, cameraId, images);
      (id in r.queues <==> id in v.queues || Matching(cameraId, images, id) != [])
      && (id in r.queues ==>
            r.queues[id] == (if id in v.queues then v.queues[id] else []) + Matching(cameraId, images, id))
    decreases |images|
  {
    if images != [] {
      var vid := VideoId(cameraId, images[0].key);
      var v1 := Put(v, vid, images[0].value);
      EveryImageQueued(v1, cameraId, images[1..], id);
      if vid == id {
        assert (if id in v.queues then v.queues[id] else []) + [images[0].value] + Matching(cameraId, images[1..], id)
            == (if id in v.queues then v.queues[id] else []) + ([images[0].value] + Matching(cameraId, images[1..], id));
      } else {
        assert Matching(cameraId, images, id) == Matching(cameraId, images[1..], id);
      }
    }
  }

  /** The index of the first camera whose entry is not a dictionary (and so
      raises `TypeError` in the loop), or the number of cameras. */
  function FirstNonDict(cameras: seq<Entry>): (n: nat)
    ensures n <= |cameras|
    ensures forall i :: 0 <= i < n ==> cameras[i].value.Dict?
    ensures n < |cameras| ==> !cameras[n].value.Dict?
  {
    if cameras == [] || !cameras[0].value.Dict? then 0 else 1 + FirstNonDict(cameras[1..])
  }

  /** `timestep['observations']['camera_dict']`, each step of which must be a
      dictionary holding the key. */
  function CameraDict(ts: Datum): (r: Result<seq<Entry>>)
    ensures r.Ok? ==>
      (ts.Dict? && Lookup(ts.entries, "observations").Some? && Lookup(ts.entries, "observations").value.Dict?
       && Lookup(Lookup(ts.entries, "observations").value.entries, "camera_dict") == Some(Dict(r.value)))
  {
    if !ts.Dict? then Err(TypeError)
    else
      var obs := Lookup(ts.entries, "observations");
      if obs.None? then Err(KeyError)
      else if !obs.value.Dict? then Err(TypeError)
      else
        var cd := Lookup(obs.value.entries, "camera_dict");
        if cd.None? then Err(KeyError)
        else if !cd.value.Dict? then Err(TypeError)
        else Ok(cd.value.entries)
  }

  /** The timestep the caller holds afterwards: `camera_dict` deleted from
      its observations. */
  function WithoutCameras(ts: Datum): (r: Datum)
    requires CameraDict(ts).Ok?
    ensures r.Dict? && Lookup(r.entries, "observations").Some?
    ensures var obs := Lookup(r.entries, "observations").value;
      obs.Dict? && "camera_dict" !in Keys(obs.entries)
      && forall p :: p in obs.entries <==> p in Lookup(ts.entries, "observations").value.entries && p.key != "camera_dict"
    ensures |r.entries| == |ts.entries|
    ensures forall i :: 0 <= i < |ts.entries| && ts.entries[i].key != "observations" ==> r.entries[i] == ts.entries[i]
  {
    var obs := Lookup(ts.entries, "observations").value;
    var obs' := Dict(Remove(obs.entries, "camera_dict"));
    var es := Replace(ts.entries, "observations", obs');
    assert "observations" in Keys(es) by {
      var i :| 0 <= i < |ts.entries| && ts.entries[i] == Entry("observations", obs);
      assert es[i].key == "observations";
    }
    Dict(es)
  }

  /** A key replaced where it stands reads back as its new value. */
  lemma LookupReplaced(es: seq<Entry>, key: string, v: Datum)
    requires key in Keys(es)
    ensures Lookup(Replace(es, key, v), key) == Some(v)
  {
    var r := Replace(es, key, v);
    var i :| 0 <= i < |es| && es[i].key == key;
    assert r[i].key == key;
    var j :| 0 <= j < |r| && r[j] == Entry(key, Lookup(r, key).value);
    assert es[j].key == key;
  }

  /** The cameras once the images of the first `n` have been deleted one by
      one: those cameras' dictionaries are left empty, the rest untouched. */
  function Emptied(cams: seq<Entry>, n: nat): (r: seq<Entry>)
    requires n <= |cams|
    ensures |r| == |cams|
  {
    seq(|cams|, i requires 0 <= i < |cams| => if i < n then Entry(cams[i].key, Dict([])) else cams[i])
  }

  /** The timestep the caller holds after `_update_video_files` raised at
      camera `n`: `camera_dict` is still there, with the images of the
      cameras before `n` deleted. */
  function WithEmptiedCameras(ts: Datum, n: nat): (r: Datum)
    requires CameraDict(ts).Ok? && n <= |CameraDict(ts).value|
    ensures CameraDict(r) == Ok(Emptied(CameraDict(ts).value, n))
    ensures r.Dict? && |r.entries| == |ts.entries|
    ensures forall i :: 0 <= i < |ts.entries| && ts.entries[i].key != "observations" ==> r.entries[i] == ts.entries[i]
  {
    var obs := Lookup(ts.entries, "observations").value;
    var cd := Dict(Emptied(CameraDict(ts).value, n));
    LookupReplaced(obs.entries, "camera_dict", cd);
    var obs' := Dict(Replace(obs.entries, "camera_dict", cd));
    LookupReplaced(ts.entries, "observations", obs');
    Dict(Replace(ts.entries, "observations", obs'))
  }

  /** The entries with the value under `key` replaced where it stands, as
      a nested `del` leaves the outer dictionary's order alone. */
  function Replace(es: seq<Entry>, key: string, v: Datum): (r: seq<Entry>)
    ensures |r| == |es|
    ensures forall i :: 0 <= i < |es| ==> r[i] == if es[i].key == key then Entry(key, v) else es[i]
  {
    seq(|es|, i requires 0 <= i < |es| => if es[i].key == key then Entry(key, v) else es[i])
  }

  // ---------------------------------------------------------------- the writer

  class TrajectoryWriterState {
    /** The HDF5 file's tree and its attributes. */
    var file: map<string, Node>
    var attrs: map<string, Datum>
    /** The timesteps waiting for the HDF5 writer thread. */
    var hdf5Queue: seq<Datum>
    var videos: Videos
    /** `_count_dict`: items each writer thread has written. */
    var counts: map<string, nat>
    /** Whether the HDF5 writer thread has died of an exception. */
    var hdf5Failed: bool
    /** `_open`: the writer threads run until the writer is closed. */
    var isOpen: bool

    ghost predicate Valid()
      reads this
    {
      VideosValid(videos)
    }

    /** A new writer on an empty file; the metadata, when given, becomes the
        file's attributes. */
    constructor(metadata: Option<seq<Entry>>)
      ensures Valid() && file == map[] && hdf5Queue == [] && videos == Videos(map[], []) && counts == map[]
      ensures !hdf5Failed && isOpen
      ensures attrs == if metadata.Some? then Attributes(metadata.value) else map[]
    {
      file := map[];
      attrs := map[];
      hdf5Queue := [];
      videos := Videos(map[], []);
      counts := map[];
      hdf5Failed := false;
      isOpen := true;
      new;
      if metadata.Some? {
        UpdateMetadata(metadata.value);
      }
    }

    /** `_update_metadata`, writing each entry as an attribute of the file. */
    method UpdateMetadata(metadata: seq<Entry>)
      requires attrs == map[]
      modifies this`attrs
      ensures attrs == Attributes(metadata)
    {
      var i := 0;
      while i < |metadata|
        invariant 0 <= i <= |metadata|
        invariant attrs == Attributes(metadata[..i])
      {
        attrs := attrs[metadata[i].key := metadata[i].value];
        assert metadata[..i + 1][..i] == metadata[..i];
        i := i + 1;
      }
      assert metadata[..i] == metadata;
    }

    /** `write_timestep`: every camera image goes to the queue of its video,
        then `camera_dict` is deleted from the caller's timestep and the
        rest is queued for the HDF5 file. `after` is the caller's timestep
        once the call returns. */
    method WriteTimestep(timestep: Datum) returns (after: Datum, r: Result<()>)
      requires Valid()
      modifies this`videos, this`hdf5Queue
      ensures Valid()
      ensures CameraDict(timestep).Err? ==>
        r == Err(CameraDict(timestep).error) && after == timestep && videos == old(videos) && hdf5Queue == old(hdf5Queue)
      ensures CameraDict(timestep).Ok? ==>
        var cams := CameraDict(timestep).value;
        var n := FirstNonDict(cams);
        videos == PutCameras(old(videos), cams[..n])
        && (n < |cams| ==> r == Err(TypeError) && hdf5Queue == old(hdf5Queue) && after == WithEmptiedCameras(timestep, n))
        && (n == |cams| ==> r == Ok(()) && after == WithoutCameras(timestep)
                            && hdf5Queue == old(hdf5Queue) + [WithoutCameras(timestep)])
    {
      after := timestep;
      r := UpdateVideoFiles(timestep);
      if r.Err? {
        var cd := CameraDict(timestep);
        if cd.Ok? {
          after := WithEmptiedCameras(timestep, FirstNonDict(cd.value));
        }
        return;
      }
      after := WithoutCameras(timestep);
      hdf5Queue := hdf5Queue + [after];
    }

    /** `_update_video_files`: the images of every camera, camera by camera;
        a camera entry that is not a dictionary raises `TypeError` with the
        earlier cameras' images queued. */
    method UpdateVideoFiles(timestep: Datum) returns (r: Result<()>)
      requires Valid()
      modifies this`videos
      ensures Valid()
      ensures CameraDict(timestep).Err? ==> r == Err(CameraDict(timestep).error) && videos == old(videos)
      ensures CameraDict(timestep).Ok? ==>
        var cams := CameraDict(timestep).value;
        var n := FirstNonDict(cams);
        videos == PutCameras(old(videos), cams[..n])
        && r == (if n == |cams| then Ok(()) else Err(TypeError))
    {
      var cd := CameraDict(timestep);
      if cd.Err? {
        return Err(cd.error);
      }
      var cams := cd.value;
      ghost var n := FirstNonDict(cams);
      ghost var v0 := videos;
      var i := 0;
      while i < |cams|
        invariant 0 <= i <= n
        invariant Valid() && videos == PutCameras(v0, cams[..i])
      {
        var cameraId, images := cams[i].key, cams[i].value;
        if !images.Dict? {
          assert i == n;
          return Err(TypeError);
        }
        PutCamerasStep(v0, cams, i);
        QueueImages(cameraId, images.entries);
        i := i + 1;
      }
      assert cams[..i] == cams;
      return Ok(());
    }

    /** The inner loop of `_update_video_files` for one camera. */
    method QueueImages(cameraId: string, images: seq<Entry>)
      requires Valid()
      modifies this`videos
      ensures Valid() && videos == PutImages(old(videos), cameraId, images)
    {
      var i := 0;
      while i < |images|
        invariant 0 <= i <= |images|
        invariant Valid() && PutImages(old(videos), cameraId, images) == PutImages(videos, cameraId, images[i..])
      {
        var imageId, img := images[i].key, images[i].value;
        assert images[i..][0] == images[i] && images[i..][1..] == images[i + 1..];
        var id := VideoId(cameraId, imageId);
        if id in videos.queues {
          videos := videos.(queues := videos.queues[id := videos.queues[id] + [img]]);
        } else {
          videos := Videos(videos.queues[id := [img]], videos.ids + [id]);
        }
        i := i + 1;
      }
    }

    /** One turn of the HDF5 writer thread: the oldest queued timestep is
        written to the file and counted. A write that raises ends the
        thread uncounted, and the file keeps whatever the write had done
        before it raised. */
    method WriteFromHdf5Queue() returns (r: Result<()>)
      requires hdf5Queue != [] && !hdf5Failed && isOpen
      modifies this`hdf5Queue, this`file, this`counts, this`hdf5Failed
      ensures hdf5Queue == old(hdf5Queue[1..])
      ensures var data := old(hdf5Queue[0]);
        var w := if data.Dict? then WriteEntries(old(file), data.entries) else Written(old(file), Some(AttributeError));
        file == w.tree
        && (w.failure.None? ==> r == Ok(()) && counts == old(counts)["hdf5" := Count(old(counts), "hdf5") + 1]
                                && !hdf5Failed)
        && (w.failure.Some? ==> r == Err(w.failure.value) && counts == old(counts) && hdf5Failed)
    {
      var data := hdf5Queue[0];
      hdf5Queue := hdf5Queue[1..];
      if !data.Dict? {
        hdf5Failed := true;
        return Err(AttributeError);
      }
      var w := WriteDictToHdf5(file, data.entries);
      file := w.tree;
      if w.failure.Some? {
        hdf5Failed := true;
        return Err(w.failure.value);
      }
      counts := counts["hdf5" := Count(counts, "hdf5") + 1];
      return Ok(());
    }

    /** `close`, once every queue has been drained: each video's encoding
        (`encode`, standing for the MP4 writer and its buffer) is stored as
        a dataset under `observations/videos`, and the writer is no longer
        open. A failure leaves the file as it was and the writer open. */
    method Close(encode: seq<Datum> -> seq<real>) returns (r: Result<()>)
      requires hdf5Queue == [] && !hdf5Failed
      modifies this`file, this`isOpen
      ensures var c := CloseFile(old(file), videos, encode);
        (c.Ok? ==> r == Ok(()) && file == c.value && !isOpen)
        && (c.Err? ==> r == Err(c.error) && file == old(file) && isOpen == old(isOpen))
    {
      var c := CloseFile(file, videos, encode);
      if c.Err? {
        return Err(c.error);
      }
      file := c.value;
      isOpen := false;
      return Ok(());
    }
  }

  /** One more camera of the outer loop. */
  lemma {:induction false} PutCamerasStep(v: Videos, cams: seq<Entry>, i: int)
    requires 0 <= i < |cams| && forall j :: 0 <= j <= i ==> cams[j].value.Dict?
    ensures PutCameras(v, cams[..i + 1]) == PutImages(PutCameras(v, cams[..i]), cams[i].key, cams[i].value.entries)
    decreases i
  {
    if i > 0 {
      PutCamerasStep(PutImages(v, cams[0].key, cams[0].value.entries), cams[1..], i - 1);
      assert cams[..i + 1][1..] == cams[1..][..i];
      assert cams[..i][1..] == cams[1..][..i - 1];
    }
  }

  /** The file once `close` has stored the videos: `observations` must be a
      group (a missing one is a `KeyError`, a dataset has no
      `create_group`) without a `videos` child yet (h5py refuses to create
      a name twice); then `observations/videos` holds one dataset per video
      id, and nothing else in the file changes. */
  function CloseFile(file: map<string, Node>, v: Videos, encode: seq<Datum> -> seq<real>): (r: Result<map<string, Node>>)
    ensures r.Err? <==> "observations" !in file || file["observations"].Dataset? || "videos" in file["observations"].children
    ensures r.Err? ==> r.error == (if "observations" !in file then KeyError
                                   else if file["observations"].Dataset? then AttributeError else ValueError)
    ensures r.Ok? ==>
      r.value.Keys == file.Keys
      && (forall k :: k in file && k != "observations" ==> r.value[k] == file[k])
      && r.value["observations"].Group?
      && var obs := r.value["observations"].children;
         obs.Keys == file["observations"].children.Keys + {"videos"}
         && (forall k :: k in file["observations"].children ==> obs[k] == file["observations"].children[k])
         && obs["videos"].Group?
         && obs["videos"].children.Keys == v.queues.Keys
         && forall id :: id in v.queues ==> obs["videos"].children[id] == Dataset([], [encode(v.queues[id])])
  {
    if "observations" !in file then Err(KeyError)
    else if file["observations"].Dataset? then Err(AttributeError)
    else
      var obs := file["observations"].children;
      if "videos" in obs then Err(ValueError)
      else
        var folder := map id | id in v.queues :: Dataset([], [encode(v.queues[id])]);
        Ok(file["observations" := Group(obs["videos" := Group(folder)])])
  }

  /** `self._count_dict[id]`: a `defaultdict` of zeros. */
  function Count(counts: map<string, nat>, id: string): nat
  {
    if id in counts then counts[id] else 0
  }

  /** The file attributes after writing the metadata in order; a later
      entry for the same key wins. */
  function Attributes(metadata: seq<Entry>): (r: map<string, Datum>)
    ensures r.Keys == Keys(metadata)
    decreases |metadata|
  {
    if metadata == [] then map[]
    else
      var init := metadata[..|metadata| - 1];
      var last := metadata[|metadata| - 1];
      assert Keys(metadata) == Keys(init) + {last.key} by {
        forall k | k in Keys(metadata)
          ensures k in Keys(init) + {last.key}
        {
          var i :| 0 <= i < |metadata| && metadata[i].key == k;
          if i < |metadata| - 1 {
            assert init[i].key == k;
          }
        }
        forall k | k in Keys(init)
          ensures k in Keys(metadata)
        {
          var i :| 0 <= i < |init| && init[i].key == k;
          assert metadata[i].key == k;
        }
      }
      Attributes(init)[last.key := last.value]
  }

  /** `_update_metadata` as written assigns through `self._hdf5_file.attr`,
      an attribute h5py files do not have (they have `attrs`): any
      non-empty metadata raises `AttributeError`, so a writer created with
      metadata never exists. */
  function UpdateMetadataAsWritten(metadata: seq<Entry>): (r: Result<map<string, Datum>>)
  {
    if metadata == [] then Ok(map[]) else Err(AttributeError)
  }

  /** The metadata the source means to store is lost as written, while the
      corrected writer keeps every key. */
  lemma MetadataLostAsWritten()
    ensures UpdateMetadataAsWritten([Entry("lab", Scalar(1.0))]).Err?
    ensures Attributes([Entry("lab", Scalar(1.0))]) == map["lab" := Scalar(1.0)]
  {
    assert [Entry("lab", Scalar(1.0))][..0] == [];
  }

  /** With distinct keys, each metadata entry is stored under its key. */
  lemma {:induction false} AttributesStoreEveryEntry(metadata: seq<Entry>)
    requires DistinctKeys(metadata)
    ensures forall i :: 0 <= i < |metadata| ==> Attributes(metadata)[metadata[i].key] == metadata[i].value
    decreases |metadata|
  {
    if metadata != [] {
      var init := metadata[..|metadata| - 1];
      AttributesStoreEveryEntry(init);
      forall i | 0 <= i < |metadata|
        ensures Attributes(metadata)[metadata[i].key] == metadata[i].value
      {
        if i < |metadata| - 1 {
          assert init[i] == metadata[i];
        }
      }
    }
  }

  // ---------------------------------------------------------------- thread launches as written

  /** `__init__` as written. The file is opened empty and the metadata is
      handled as `UpdateMetadataAsWritten` says; then the HDF5 thread is
      launched with `run_threaded_command(..., args=...)`, but that helper
      (r2d2/misc/subprocess_utils.py:11) takes the command alone, so the call
      raises `TypeError` before any thread starts. The error is the
      metadata's `AttributeError` when that comes first. */
  function ConstructAsWritten(metadata: Option<seq<Entry>>): (r: Result<()>)
  {
    if metadata.Some? && UpdateMetadataAsWritten(metadata.value).Err? then Err(UpdateMetadataAsWritten(metadata.value).error)
    else Err(TypeError)
  }

  /** As written, no writer is ever constructed: with metadata the
      constructor fails at the attributes, and otherwise at the thread
      launch. */
  lemma WriterNeverConstructed(metadata: Option<seq<Entry>>)
    ensures ConstructAsWritten(metadata).Err?
    ensures ConstructAsWritten(metadata).error == (if metadata.Some? && metadata.value != [] then AttributeError else TypeError)
  {
  }

  /** The inner loop of `_update_video_files` as written, giving the videos
      and the error raised, if any. An image of a known video is queued as
      `Put` queues it. The first image of a new video creates the video's
      writer and, through the `defaultdict` as the call's arguments are
      built, its empty queue; then the same `run_threaded_command(...,
      args=...)` raises `TypeError` before the image is queued. */
  function PutImagesAsWritten(v: Videos, cameraId: string, images: seq<Entry>): (r: (Videos, Option<PyError>))
    decreases |images|
  {
    if images == [] then (v, None)
    else
      var id := VideoId(cameraId, images[0].key);
      if id !in v.queues then (Videos(v.queues[id := []], v.ids + [id]), Some(TypeError))
      else PutImagesAsWritten(Put(v, id, images[0].value), cameraId, images[1..])
  }

  /** As written, a camera's images raise exactly when one of them belongs
      to a video not seen before; the video of the first such image is left
      with an empty queue. When every video is known, the images are queued
      as the corrected loop queues them. */
  lemma {:induction false} NewVideoRaisesAsWritten(v: Videos, cameraId: string, images: seq<Entry>)
    ensures var r := PutImagesAsWritten(v, cameraId, images);
      (r.1.Some? <==> exists i :: 0 <= i < |images| && VideoId(cameraId, images[i].key) !in v.queues)
      && (r.1.Some? ==> r.1 == Some(TypeError))
      && (r.1.None? ==> r.0 == PutImages(v, cameraId, images))
    decreases |images|
  {
    if images != [] {
      var id := VideoId(cameraId, images[0].key);
      if id in v.queues {
        var v1 := Put(v, id, images[0].value);
        NewVideoRaisesAsWritten(v1, cameraId, images[1..]);
        forall i | 1 <= i < |images|
          ensures VideoId(cameraId, images[i].key) in v.queues <==> VideoId(cameraId, images[1..][i - 1].key) in v1.queues
        {
          assert images[1..][i - 1] == images[i];
        }
        if PutImagesAsWritten(v, cameraId, images).1.Some? {
          var j :| 0 <= j < |images[1..]| && VideoId(cameraId, images[1..][j].key) !in v1.queues;
          assert VideoId(cameraId, images[j + 1].key) !in v.queues;
        }
      }
    }
  }

  /** The first frame of the first camera: as written it never reaches its
      video's queue and the write raises, while the corrected writer queues
      it. */
  lemma FirstFrameLostAsWritten(img: Datum)
    ensures PutImagesAsWritten(Videos(map[], []), "cam", [Entry("left", img)])
            == (Videos(map["cam_left" := []], ["cam_left"]), Some(TypeError))
    ensures PutImages(Videos(map[], []), "cam", [Entry("left", img)]).queues == map["cam_left" := [img]]
  {
    var id := VideoId("cam", "left");
    assert id == "cam_left";
    var v: Videos := Videos(map[], []);
    assert id !in v.queues;
    assert PutImagesAsWritten(v, "cam", [Entry("left", img)]) == (Videos(v.queues[id := []], v.ids + [id]), Some(TypeError));
    assert v.queues[id := []] == map["cam_left" := []];
    assert v.ids + [id] == ["cam_left"];
  }
}
