// Canonical paths, their parent, their `Display` text, the order `PathBuf` sorts by,
// and the sort `image_files.sort()` performs.
module Paths {
  import opened Common

  /** A canonical absolute path, as the sequence of its normal components
      (`/home/a.png` is `Path(["home", "a.png"])`; the root `/` is `Path([])`). */
  datatype Path = Path(components: seq<string>) {

    /** `Path::parent`: the root has none; otherwise drop the last component. */
    function Parent(): (r: Option<Path>)
      ensures r.None? <==> components == []
      ensures r.Some? ==> |r.value.components| + 1 == |components|
      ensures r.Some? ==> r.value.components + [components[|components| - 1]] == components
    {
      if components == [] then None else Some(Path(components[..|components| - 1]))
    }
  }

  /** `path.display().to_string()`: components joined by `/` behind a leading `/`. */
  function Display(p: Path): string {
    if p.components == [] then "/" else JoinAbsolute(p.components)
  }

  function JoinAbsolute(cs: seq<string>): string {
    if cs == [] then "" else "/" + cs[0] + JoinAbsolute(cs[1..])
  }

  // ---------------------------------------------------------------------------
  // The order of `PathBuf`: lexicographic over components, and each component
  // compared character by character (`OsStr` compares bytes; UTF-8 keeps the
  // order of code points, so comparing chars gives the same answer).
  // ---------------------------------------------------------------------------

  predicate ComponentLe(a: string, b: string)
    decreases |a|
  {
    a == [] || (b != [] && (a[0] < b[0] || (a[0] == b[0] && ComponentLe(a[1..], b[1..]))))
  }

  predicate PathLe(a: Path, b: Path)
    decreases |a.components|
  {
    var x, y := a.components, b.components;
    x == [] ||
    (y != [] &&
     ((ComponentLe(x[0], y[0]) && x[0] != y[0]) ||
      (x[0] == y[0] && PathLe(Path(x[1..]), Path(y[1..])))))
  }

  lemma {:induction false} ComponentLeRefl(a: string)
    ensures ComponentLe(a, a)
  {
    if a != [] {
      ComponentLeRefl(a[1..]);
    }
  }

  lemma {:induction false} ComponentLeTotal(a: string, b: string)
    ensures ComponentLe(a, b) || ComponentLe(b, a)
  {
    if a != [] && b != [] && a[0] == b[0] {
      ComponentLeTotal(a[1..], b[1..]);
    }
  }

  lemma {:induction false} ComponentLeAntisym(a: string, b: string)
    requires ComponentLe(a, b) && ComponentLe(b, a)
    ensures a == b
  {
    if a != [] && b != [] {
      ComponentLeAntisym(a[1..], b[1..]);
      assert a == [a[0]] + a[1..] && b == [b[0]] + b[1..];
    }
  }

  lemma {:induction false} ComponentLeTrans(a: string, b: string, c: string)
    requires ComponentLe(a, b) && ComponentLe(b, c)
    ensures ComponentLe(a, c)
  {
    if a != [] && b != [] && c != [] && a[0] == b[0] && b[0] == c[0] {
      ComponentLeTrans(a[1..], b[1..], c[1..]);
    }
  }

  lemma {:induction false} PathLeRefl(a: Path)
    ensures PathLe(a, a)
    decreases |a.components|
  {
    if a.components != [] {
      PathLeRefl(Path(a.components[1..]));
    }
  }

  lemma {:induction false} PathLeTotal(a: Path, b: Path)
    ensures PathLe(a, b) || PathLe(b, a)
    decreases |a.components|
  {
    var x, y := a.components, b.components;
    if x != [] && y != [] {
      ComponentLeTotal(x[0], y[0]);
      if x[0] == y[0] {
        PathLeTotal(Path(x[1..]), Path(y[1..]));
      }
    }
  }

  lemma {:induction false} PathLeAntisym(a: Path, b: Path)
    requires PathLe(a, b) && PathLe(b, a)
    ensures a == b
    decreases |a.components|
  {
    var x, y := a.components, b.components;
    if x != [] && y != [] {
      if x[0] != y[0] {
        ComponentLeAntisym(x[0], y[0]);
      }
      PathLeAntisym(Path(x[1..]), Path(y[1..]));
      assert x == [x[0]] + x[1..] && y == [y[0]] + y[1..];
    }
  }

  lemma {:induction false} PathLeTrans(a: Path, b: Path, c: Path)
    requires PathLe(a, b) && PathLe(b, c)
    ensures PathLe(a, c)
    decreases |a.components|
  {
    var x, y, z := a.components, b.components, c.components;
    if x != [] && y != [] && z != [] {
      if x[0] == y[0] && y[0] == z[0] {
        PathLeTrans(Path(x[1..]), Path(y[1..]), Path(z[1..]));
      } else {
        ComponentLeRefl(x[0]);
        ComponentLeRefl(y[0]);
        ComponentLeTrans(x[0], y[0], z[0]);
        if x[0] == z[0] {
          ComponentLeAntisym(y[0], z[0]);
        }
      }
    }
  }

  // ---------------------------------------------------------------------------
  // Sorting. `Vec::sort` is the standard library's stable merge sort; any
  // algorithm that returns a sorted permutation returns the same sequence
  // (SortedUnique), so insertion sort stands in for it.
  // ---------------------------------------------------------------------------

  predicate Sorted(s: seq<Path>) {
    forall i, j :: 0 <= i < j < |s| ==> PathLe(s[i], s[j])
  }

  function Insert(p: Path, s: seq<Path>): (r: seq<Path>)
    ensures multiset(r) == multiset(s) + multiset{p}
  {
    if s == [] then [p]
    else if PathLe(p, s[0]) then [p] + s
    else
      assert s == [s[0]] + s[1..];
      [s[0]] + Insert(p, s[1..])
  }

  lemma {:induction false} InsertSorted(p: Path, s: seq<Path>)
    requires Sorted(s)
    ensures Sorted(Insert(p, s))
  {
    if s == [] {
    } else if PathLe(p, s[0]) {
      var r := [p] + s;
      forall i, j | 0 <= i < j < |r| ensures PathLe(r[i], r[j]) {
        if i == 0 {
          if j > 1 {
            PathLeTrans(p, s[0], s[j - 1]);
          }
        }
      }
    } else {
      PathLeTotal(p, s[0]);
      InsertSorted(p, s[1..]);
      var rest := Insert(p, s[1..]);
      var r := [s[0]] + rest;
      forall k | 0 <= k < |rest| ensures PathLe(s[0], rest[k]) {
        assert rest[k] in multiset(rest);
        assert rest[k] in multiset(s[1..]) || rest[k] == p;
        if rest[k] != p {
          var m :| 0 <= m < |s[1..]| && s[1..][m] == rest[k];
          assert s[m + 1] == rest[k];
        }
      }
      forall i, j | 0 <= i < j < |r| ensures PathLe(r[i], r[j]) {
        if i > 0 {
          assert r[i] == rest[i - 1] && r[j] == rest[j - 1];
        } else {
          assert r[j] == rest[j - 1];
        }
      }
    }
  }

  /** The result of `image_files.sort()`. */
  function SortPaths(s: seq<Path>): (r: seq<Path>)
    ensures Sorted(r)
    ensures multiset(r) == multiset(s)
  {
    if s == [] then []
    else
      var rest := SortPaths(s[1..]);
      InsertSorted(s[0], rest);
      assert s == [s[0]] + s[1..];
      Insert(s[0], rest)
  }

  /** The first element of a sorted non-empty sequence is its least element. */
  lemma SortedFirstIsLeast(s: seq<Path>)
    requires Sorted(s) && s != []
    ensures forall x | x in s :: PathLe(s[0], x)
  {
    PathLeRefl(s[0]);
  }

  /** Two sorted arrangements of one multiset start with the same path. */
  lemma SortedSameHead(a: seq<Path>, b: seq<Path>)
    requires Sorted(a) && Sorted(b) && a != []
    requires multiset(a) == multiset(b)
    ensures b != [] && a[0] == b[0]
  {
    assert a[0] in multiset(b);
    assert b != [];
    assert b[0] in multiset(a);
    var k :| 0 <= k < |b| && b[k] == a[0];
    var m :| 0 <= m < |a| && a[m] == b[0];
    if k > 0 { assert PathLe(b[0], b[k]); } else { PathLeRefl(b[0]); }
    if m > 0 { assert PathLe(a[0], a[m]); } else { PathLeRefl(a[0]); }
    PathLeAntisym(a[0], b[0]);
  }

  lemma SortedTail(s: seq<Path>)
    requires Sorted(s) && s != []
    ensures Sorted(s[1..])
  {
    forall i, j | 0 <= i < j < |s[1..]| ensures PathLe(s[1..][i], s[1..][j]) {
      assert s[1..][i] == s[i + 1] && s[1..][j] == s[j + 1];
    }
  }

  lemma SameHeadSameTail(a: seq<Path>, b: seq<Path>)
    requires a != [] && b != [] && a[0] == b[0]
    requires multiset(a) == multiset(b)
    ensures multiset(a[1..]) == multiset(b[1..])
  {
    assert a == [a[0]] + a[1..] && b == [b[0]] + b[1..];
    assert multiset(a[1..]) == multiset(a) - multiset{a[0]};
    assert multiset(b[1..]) == multiset(b) - multiset{b[0]};
  }

  /** A sorted arrangement of a multiset of paths is unique: whatever algorithm
      the standard library uses, `sort` yields exactly SortPaths. */
  lemma {:induction false} SortedUnique(a: seq<Path>, b: seq<Path>)
    requires Sorted(a) && Sorted(b)
    requires multiset(a) == multiset(b)
    ensures a == b
    decreases |a|
  {
    if a == [] {
      assert |b| == |multiset(b)| == 0;
    } else {
      SortedSameHead(a, b);
      SameHeadSameTail(a, b);
      SortedTail(a);
      SortedTail(b);
      SortedUnique(a[1..], b[1..]);
      assert a == [a[0]] + a[1..] && b == [b[0]] + b[1..];
    }
  }
}
