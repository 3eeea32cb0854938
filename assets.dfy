/** Files as the asset framework passes them around, and the ordering
    `asset.SortFiles` puts them in. */
module Assets {

  /** Go byte slices and strings are both byte sequences: one `char` per
      byte. */
  type Bytes = string

  /** `asset.File`: a path relative to the install directory, and its
      contents. */
  datatype File = File(filename: string, data: Bytes)

  /** Go's `a <= b` on strings: byte-wise lexicographic order. */
  predicate LessEq(a: string, b: string)
    decreases |a|
  {
    a == [] || (b != [] && (a[0] < b[0] || (a[0] == b[0] && LessEq(a[1..], b[1..]))))
  }

  lemma {:induction false} LessEqReflexive(a: string)
    ensures LessEq(a, a)
  {
    if a != [] {
      LessEqReflexive(a[1..]);
    }
  }

  lemma {:induction false} LessEqTotal(a: string, b: string)
    ensures LessEq(a, b) || LessEq(b, a)
  {
    if a != [] && b != [] && a[0] == b[0] {
      LessEqTotal(a[1..], b[1..]);
    }
  }

  lemma {:induction false} LessEqTransitive(a: string, b: string, c: string)
    requires LessEq(a, b) && LessEq(b, c)
    ensures LessEq(a, c)
  {
    if a != [] && b != [] && c != [] && a[0] == b[0] == c[0] {
      LessEqTransitive(a[1..], b[1..], c[1..]);
    }
  }

  lemma {:induction false} LessEqAntisymmetric(a: string, b: string)
    requires LessEq(a, b) && LessEq(b, a)
    ensures a == b
  {
    if a != [] {
      LessEqAntisymmetric(a[1..], b[1..]);
      assert a == [a[0]] + a[1..];
      assert b == [b[0]] + b[1..];
    }
  }

  predicate SortedByFilename(files: seq<File>)
  {
    forall i, j :: 0 <= i < j < |files| ==> LessEq(files[i].filename, files[j].filename)
  }

  predicate DistinctFilenames(files: seq<File>)
  {
    forall i, j :: 0 <= i < j < |files| ==> files[i].filename != files[j].filename
  }

  function InsertFile(f: File, sorted: seq<File>): seq<File>
  {
    if sorted == [] then [f]
    else if LessEq(f.filename, sorted[0].filename) then [f] + sorted
    else [sorted[0]] + InsertFile(f, sorted[1..])
  }

  /** A file no later than any of a sorted list may go in front of it. */
  lemma PrependSorted(g: File, rest: seq<File>)
    requires SortedByFilename(rest)
    requires forall j :: 0 <= j < |rest| ==> LessEq(g.filename, rest[j].filename)
    ensures SortedByFilename([g] + rest)
  {
    var all := [g] + rest;
    forall i, j | 0 <= i < j < |all|
      ensures LessEq(all[i].filename, all[j].filename)
    {
      if i > 0 {
        assert all[i] == rest[i - 1] && all[j] == rest[j - 1];
      }
    }
  }

  /** A lower bound of `f` and of every file of `tail` bounds every file
      of their insertion. */
  lemma InsertFileBound(x: string, f: File, tail: seq<File>)
    requires LessEq(x, f.filename)
    requires forall j :: 0 <= j < |tail| ==> LessEq(x, tail[j].filename)
    requires multiset(InsertFile(f, tail)) == multiset(tail) + multiset{f}
    ensures forall j :: 0 <= j < |InsertFile(f, tail)| ==> LessEq(x, InsertFile(f, tail)[j].filename)
  {
    var rest := InsertFile(f, tail);
    forall j | 0 <= j < |rest|
      ensures LessEq(x, rest[j].filename)
    {
      assert rest[j] in multiset(rest);
      if rest[j] != f {
        assert rest[j] in multiset(tail);
        var k :| 0 <= k < |tail| && tail[k] == rest[j];
      }
    }
  }

  lemma {:induction false} InsertFileSorted(f: File, sorted: seq<File>)
    requires SortedByFilename(sorted)
    ensures SortedByFilename(InsertFile(f, sorted))
    ensures multiset(InsertFile(f, sorted)) == multiset(sorted) + multiset{f}
  {
    if sorted == [] {
    } else if LessEq(f.filename, sorted[0].filename) {
      forall j | 0 <= j < |sorted|
        ensures LessEq(f.filename, sorted[j].filename)
      {
        if j > 0 {
          LessEqTransitive(f.filename, sorted[0].filename, sorted[j].filename);
        }
      }
      PrependSorted(f, sorted);
    } else {
      LessEqTotal(f.filename, sorted[0].filename);
      var tail := sorted[1..];
      InsertFileSorted(f, tail);
      assert forall j :: 0 <= j < |tail| ==> tail[j] == sorted[j + 1];
      InsertFileBound(sorted[0].filename, f, tail);
      PrependSorted(sorted[0], InsertFile(f, tail));
      assert sorted == [sorted[0]] + tail;
    }
  }

  /** `asset.SortFiles`: the files ordered by name. The model sorts by
      insertion; its contract is all that the callers rely on. */
  function SortFiles(files: seq<File>): (r: seq<File>)
    ensures SortedByFilename(r)
    ensures multiset(r) == multiset(files)
  {
    if files == [] then []
    else
      var rest := SortFiles(files[1..]);
      SortStep(files, rest);
      InsertFile(files[0], rest)
  }

  /** One step of `SortFiles`: inserting the head into the sorted tail. */
  lemma SortStep(files: seq<File>, rest: seq<File>)
    requires files != [] && SortedByFilename(rest) && multiset(rest) == multiset(files[1..])
    ensures SortedByFilename(InsertFile(files[0], rest))
    ensures multiset(InsertFile(files[0], rest)) == multiset(files)
  {
    InsertFileSorted(files[0], rest);
    assert files == [files[0]] + files[1..];
  }

  /** Files already in order are left as they are. */
  lemma {:induction false} SortFilesKeepsSorted(files: seq<File>)
    requires SortedByFilename(files)
    ensures SortFiles(files) == files
  {
    if files != [] {
      SortFilesKeepsSorted(files[1..]);
      assert files == [files[0]] + files[1..];
    }
  }

  /** The first file of a sorted list sorts no later than any file in it. */
  lemma HeadIsLeast(files: seq<File>, f: File)
    requires SortedByFilename(files) && f in files
    ensures LessEq(files[0].filename, f.filename)
  {
    var k :| 0 <= k < |files| && files[k] == f;
    if k == 0 {
      LessEqReflexive(f.filename);
    }
  }

  lemma SameHeadSameTail(a: seq<File>, b: seq<File>)
    requires a != [] && b != [] && a[0] == b[0]
    requires multiset(a) == multiset(b)
    ensures multiset(a[1..]) == multiset(b[1..])
  {
    assert a == [a[0]] + a[1..];
    assert b == [b[0]] + b[1..];
    assert multiset(a) == multiset{a[0]} + multiset(a[1..]);
    assert multiset(b) == multiset{b[0]} + multiset(b[1..]);
    assert multiset(a[1..]) == multiset(a) - multiset{a[0]};
    assert multiset(b[1..]) == multiset(b) - multiset{b[0]};
  }

  /** When no two files share a name, there is only one sorted permutation of
      them: any sort that meets the contract of `SortFiles` gives the same
      list. */
  lemma {:induction false} SortedPermutationUnique(a: seq<File>, b: seq<File>)
    requires SortedByFilename(a) && SortedByFilename(b)
    requires multiset(a) == multiset(b)
    requires DistinctFilenames(a)
    ensures a == b
  {
    assert |a| == |multiset(a)| == |multiset(b)| == |b|;
    if a != [] {
      assert a[0] in multiset(b);
      assert b[0] in multiset(a);
      HeadIsLeast(b, a[0]);
      HeadIsLeast(a, b[0]);
      LessEqAntisymmetric(a[0].filename, b[0].filename);
      var m :| 0 <= m < |a| && a[m] == b[0];
      assert m == 0;
      SameHeadSameTail(a, b);
      SortedPermutationUnique(a[1..], b[1..]);
      assert a == [a[0]] + a[1..];
      assert b == [b[0]] + b[1..];
    }
  }
}
