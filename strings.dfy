/** The Python string operations the modelled code relies on: substring
    tests (`a in b`), `startswith`, `endswith`, `split` on one separator character,
    `replace`, whitespace tests and the lexicographic order `sorted` uses. */
module PyStrings {

  /** `sub in s`: `sub` starts at some position of `s`. */
  predicate Contains(s: string, sub: string)
  {
    exists i :: 0 <= i <= |s| - |sub| && OccursAt(s, sub, i)
  }

  predicate OccursAt(s: string, sub: string, i: int)
  {
    0 <= i <= |s| - |sub| && s[i..i + |sub|] == sub
  }

  /** The left-to-right scan CPython's `in` performs: a match at the front,
      or a match in the rest. */
  predicate ContainsScan(s: string, sub: string)
    decreases |s|
  {
    StartsWith(s, sub) || (|s| > 0 && ContainsScan(s[1..], sub))
  }

  /** The scan finds `sub` exactly when it occurs somewhere. */
  lemma {:induction false} ContainsMatchesScan(s: string, sub: string)
    ensures Contains(s, sub) <==> ContainsScan(s, sub)
    decreases |s|
  {
    if StartsWith(s, sub) {
      assert OccursAt(s, sub, 0);
    } else if |s| > 0 {
      ContainsMatchesScan(s[1..], sub);
      if Contains(s, sub) {
        var i :| 0 <= i <= |s| - |sub| && OccursAt(s, sub, i);
        assert i != 0;
        assert OccursAt(s[1..], sub, i - 1);
      }
      if Contains(s[1..], sub) {
        var i :| 0 <= i <= |s| - 1 - |sub| && OccursAt(s[1..], sub, i);
        assert OccursAt(s, sub, i + 1);
      }
    }
  }

  /** `s.startswith(p)`. */
  predicate StartsWith(s: string, p: string)
  {
    |p| <= |s| && s[..|p|] == p
  }

  /** `s.endswith(p)`. */
  predicate EndsWith(s: string, p: string)
  {
    |p| <= |s| && s[|s| - |p|..] == p
  }

  // ---------------------------------------------------------------- find and split

  /** `s.find(sub)`: the first position where `sub` occurs, or -1. */
  function Find(s: string, sub: string): (r: int)
    ensures r == -1 || 0 <= r <= |s| - |sub|
    ensures r >= 0 ==> OccursAt(s, sub, r)
    ensures forall j :: 0 <= j && (j < r || r == -1) ==> !OccursAt(s, sub, j)
    decreases |s|
  {
    if StartsWith(s, sub) then 0
    else if |s| == 0 then -1
    else
      var j := Find(s[1..], sub);
      assert forall i :: 1 <= i ==> OccursAt(s, sub, i) == OccursAt(s[1..], sub, i - 1);
      if j < 0 then -1 else j + 1
  }

  /** The text before the first occurrence of `sub` does not contain it. */
  lemma BeforeFirst(s: string, sub: string)
    requires sub != [] && Find(s, sub) >= 0
    ensures Find(s[..Find(s, sub)], sub) == -1
  {
    var i := Find(s, sub);
    forall j | 0 <= j
      ensures !OccursAt(s[..i], sub, j)
    {
      if OccursAt(s[..i], sub, j) {
        assert s[..i][j..j + |sub|] == s[j..j + |sub|];
        assert OccursAt(s, sub, j);
      }
    }
  }

  /** `s.split(sep)` for a non-empty separator: the pieces between
      successive left-to-right occurrences of `sep`. */
  function Split(s: string, sep: string): (r: seq<string>)
    requires sep != []
    ensures |r| >= 1
    decreases |s|
  {
    var i := Find(s, sep);
    if i < 0 then [s] else [s[..i]] + Split(s[i + |sep|..], sep)
  }

  /** `sep.join(pieces)`. */
  function Join(pieces: seq<string>, sep: string): (r: string)
    requires |pieces| >= 1
  {
    if |pieces| == 1 then pieces[0] else pieces[0] + sep + Join(pieces[1..], sep)
  }

  /** Splitting loses nothing: joining the pieces with the separator gives
      the string back, and no piece contains the separator. */
  lemma JoinSplit(s: string, sep: string)
    requires sep != []
    ensures Join(Split(s, sep), sep) == s
    ensures forall p :: p in Split(s, sep) ==> Find(p, sep) == -1
  {
    JoinSplitRestores(s, sep);
    SplitPiecesLackSeparator(s, sep);
  }

  lemma {:induction false} JoinSplitRestores(s: string, sep: string)
    requires sep != []
    ensures Join(Split(s, sep), sep) == s
    decreases |s|
  {
    var i := Find(s, sep);
    if i >= 0 {
      var rest := s[i + |sep|..];
      JoinSplitRestores(rest, sep);
      assert Split(s, sep) == [s[..i]] + Split(rest, sep);
      JoinCons(s[..i], Split(rest, sep), sep);
      ThreeParts(s, i, i + |sep|);
    }
  }

  lemma {:induction false} SplitPiecesLackSeparator(s: string, sep: string)
    requires sep != []
    ensures forall p :: p in Split(s, sep) ==> Find(p, sep) == -1
    decreases |s|
  {
    var i := Find(s, sep);
    if i >= 0 {
      var rest := s[i + |sep|..];
      SplitPiecesLackSeparator(rest, sep);
      BeforeFirst(s, sep);
      var r := Split(rest, sep);
      assert Split(s, sep) == [s[..i]] + r;
      forall p | p in Split(s, sep)
        ensures Find(p, sep) == -1
      {
        if p != s[..i] {
          assert p in r;
        }
      }
    }
  }

  lemma JoinCons(x: string, r: seq<string>, sep: string)
    requires |r| >= 1
    ensures Join([x] + r, sep) == x + sep + Join(r, sep)
  {
    assert ([x] + r)[1..] == r;
  }

  lemma ThreeParts(s: string, i: int, j: int)
    requires 0 <= i <= j <= |s|
    ensures s == s[..i] + s[i..j] + s[j..]
  {
  }

  /** `s.split(sep)[0]`: what comes before the first separator. */
  function Head(s: string, sep: string): (r: string)
    requires sep != []
    ensures StartsWith(s, r)
    ensures Find(r, sep) == -1
    ensures Find(s, sep) >= 0 ==> StartsWith(s, r + sep)
  {
    var i := Find(s, sep);
    if i < 0 then s
    else
      BeforeFirst(s, sep);
      assert s[..i + |sep|] == s[..i] + sep;
      s[..i]
  }

  // ---------------------------------------------------------------- order and sorting

  /** Python's `a < b` on strings: lexicographic by code point, a proper
      prefix first. */
  predicate Less(a: string, b: string)
    decreases |a|
  {
    if a == [] then b != []
    else if b == [] then false
    else a[0] < b[0] || (a[0] == b[0] && Less(a[1..], b[1..]))
  }

  predicate LessEq(a: string, b: string)
  {
    a == b || Less(a, b)
  }

  lemma {:induction false} LessIrreflexive(a: string)
    ensures !Less(a, a)
    decreases |a|
  {
    if a != [] {
      LessIrreflexive(a[1..]);
    }
  }

  lemma {:induction false} LessTransitive(a: string, b: string, c: string)
    requires Less(a, b) && Less(b, c)
    ensures Less(a, c)
    decreases |a|
  {
    if a != [] && b != [] && c != [] && a[0] == b[0] && b[0] == c[0] {
      LessTransitive(a[1..], b[1..], c[1..]);
    }
  }

  /** Any two different strings are ordered one way or the other. */
  lemma {:induction false} LessTotal(a: string, b: string)
    ensures a == b || Less(a, b) || Less(b, a)
    decreases |a|
  {
    if a != [] && b != [] && a[0] == b[0] {
      LessTotal(a[1..], b[1..]);
      if a[1..] == b[1..] {
        assert a == [a[0]] + a[1..] && b == [b[0]] + b[1..];
      }
    }
  }

  lemma {:induction false} LessAsymmetric(a: string, b: string)
    requires Less(a, b)
    ensures !Less(b, a)
  {
    if Less(b, a) {
      LessTransitive(a, b, a);
      LessIrreflexive(a);
    }
  }

  predicate IsMin(m: string, s: set<string>)
  {
    forall y :: y in s ==> LessEq(m, y)
  }

  lemma {:induction false} MinExists(s: set<string>)
    requires s != {}
    ensures exists m :: m in s && IsMin(m, s)
    decreases |s|
  {
    var x :| x in s;
    if s != {x} {
      MinExists(s - {x});
      var m :| m in s - {x} && IsMin(m, s - {x});
      LessTotal(x, m);
      if Less(x, m) {
        forall y | y in s
          ensures LessEq(x, y)
        {
          if y != x && y != m {
            assert y in s - {x};
            LessTransitive(x, m, y);
          }
        }
        assert IsMin(x, s);
      } else {
        assert IsMin(m, s);
      }
    } else {
      assert IsMin(x, s);
    }
  }

  lemma MinUnique(s: set<string>)
    ensures forall m1, m2 :: m1 in s && IsMin(m1, s) && m2 in s && IsMin(m2, s) ==> m1 == m2
  {
    forall m1, m2 | m1 in s && IsMin(m1, s) && m2 in s && IsMin(m2, s)
      ensures m1 == m2
    {
      assert LessEq(m1, m2) && LessEq(m2, m1);
      if m1 != m2 {
        LessAsymmetric(m1, m2);
      }
    }
  }

  /** The least string of a non-empty set. */
  function SetMin(s: set<string>): (m: string)
    requires s != {}
    ensures m in s && IsMin(m, s)
  {
    MinExists(s);
    MinUnique(s);
    var m :| m in s && IsMin(m, s);
    m
  }

  /** The strings in strictly increasing order. */
  predicate StrictlySorted(xs: seq<string>)
  {
    forall i, j :: 0 <= i < j < |xs| ==> Less(xs[i], xs[j])
  }

  /** `sorted(d.keys())`: the keys of a dict in increasing order. */
  function SortedSet(s: set<string>): (r: seq<string>)
    ensures |r| == |s| && (forall x :: x in r <==> x in s)
    ensures StrictlySorted(r)
    decreases |s|
  {
    if s == {} then []
    else
      var m := SetMin(s);
      var rest := SortedSet(s - {m});
      assert forall j :: 0 <= j < |rest| ==> Less(m, rest[j]) by {
        forall j | 0 <= j < |rest|
          ensures Less(m, rest[j])
        {
          assert rest[j] in s - {m};
        }
      }
      [m] + rest
  }

  predicate Sorted(xs: seq<string>)
  {
    forall i, j :: 0 <= i < j < |xs| ==> LessEq(xs[i], xs[j])
  }

  function Insert(x: string, xs: seq<string>): (r: seq<string>)
    requires Sorted(xs)
    ensures multiset(r) == multiset(xs) + multiset{x}
    ensures Sorted(r)
  {
    if xs == [] then [x]
    else if LessEq(x, xs[0]) then
      assert forall j :: 0 <= j < |xs| ==> LessEq(x, xs[j]) by {
        forall j | 0 <= j < |xs|
          ensures LessEq(x, xs[j])
        {
          if x != xs[0] && xs[0] != xs[j] {
            LessTransitive(x, xs[0], xs[j]);
          }
        }
      }
      [x] + xs
    else
      LessTotal(x, xs[0]);
      var rest := Insert(x, xs[1..]);
      assert xs == [xs[0]] + xs[1..];
      assert forall y :: y in multiset(rest) ==> LessEq(xs[0], y) by {
        forall y | y in multiset(rest)
          ensures LessEq(xs[0], y)
        {
          if y != x {
            assert y in multiset(xs[1..]);
            assert y in xs[1..];
          }
        }
      }
      assert forall j :: 0 <= j < |rest| ==> LessEq(xs[0], rest[j]) by {
        forall j | 0 <= j < |rest|
          ensures LessEq(xs[0], rest[j])
        {
          assert rest[j] in multiset(rest);
        }
      }
      [xs[0]] + rest
  }

  /** `sorted(xs)` for a list of strings. */
  function SortSeq(xs: seq<string>): (r: seq<string>)
    ensures multiset(r) == multiset(xs)
    ensures Sorted(r)
  {
    if xs == [] then []
    else
      assert xs == [xs[0]] + xs[1..];
      Insert(xs[0], SortSeq(xs[1..]))
  }

  // ---------------------------------------------------------------- replace and whitespace

  /** `s.replace(sub, '')`: the left-to-right, non-overlapping occurrences
      of `sub` deleted. Deleting the empty string leaves `s` as it is. */
  function Remove(s: string, sub: string): (r: string)
    ensures forall c :: c in r ==> c in s
    decreases |s|
  {
    if sub == [] then s
    else
      var i := Find(s, sub);
      if i < 0 then s else s[..i] + Remove(s[i + |sub|..], sub)
  }

  /** Deleting a character leaves none of it behind. */
  lemma {:induction false} RemoveChar(s: string, c: char)
    ensures c !in Remove(s, [c])
    decreases |s|
  {
    var i := Find(s, [c]);
    if i >= 0 {
      RemoveChar(s[i + 1..], c);
      assert c !in s[..i] by {
        forall j | 0 <= j < i
          ensures s[j] != c
        {
          assert !OccursAt(s, [c], j);
          assert s[j..j + 1] == [s[j]];
        }
      }
    } else {
      forall j | 0 <= j < |s|
        ensures s[j] != c
      {
        assert !OccursAt(s, [c], j);
        assert s[j..j + 1] == [s[j]];
      }
    }
  }

  /** A string without `sub` comes through the deletion unchanged. */
  lemma RemoveAbsent(s: string, sub: string)
    requires Find(s, sub) < 0
    ensures Remove(s, sub) == s
  {
  }

  /** Deleting a string from itself leaves nothing. */
  lemma RemoveItself(s: string)
    requires s != []
    ensures Remove(s, s) == []
  {
    assert OccursAt(s, s, 0);
    assert Find(s, s) == 0;
    assert s[|s|..] == [];
  }

  /** A whitespace character in Python's sense (`c.isspace()`): the ASCII
      tab, line feed, vertical tab, form feed, carriage return, the four
      information separators, space, and the Unicode spaces and separators. */
  predicate IsWhitespace(c: char)
  {
    var n := c as int;
    n == 0x20 || 0x09 <= n <= 0x0d || 0x1c <= n <= 0x1f || n == 0x85 || n == 0xa0
    || n == 0x1680 || 0x2000 <= n <= 0x200a || n == 0x2028 || n == 0x2029
    || n == 0x202f || n == 0x205f || n == 0x3000
  }

  /** `s.isspace()`: at least one character, and whitespace throughout. */
  predicate IsSpace(s: string)
  {
    |s| > 0 && forall i :: 0 <= i < |s| ==> IsWhitespace(s[i])
  }
}
