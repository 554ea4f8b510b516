/** Raw frames, their header values, and `split_files`: sort by EXPSTART and
    deal the result alternately into two lists. */
module Frames {
  import opened Text
  import opened Paths

  /** The header values of one raw frame that the pipeline reads. */
  datatype Frame = Frame(
    expstart: real,      // EXPSTART of extension 1, in MJD
    targname: string,    // TARGNAME: "BIAS" or "DARK"
    ccdgain: int,        // CCDGAIN
    binaxis1: int,       // BINAXIS1
    binaxis2: int,       // BINAXIS2
    imsets: nat)         // number of image sets in the file

  /** Header values by file name (the part after the last '/'): the frame is
      the same file wherever it is moved or copied. */
  type Catalog = string -> Frame

  function HeaderOf(cat: Catalog, path: string): Frame {
    cat(Tail(path))
  }

  function ExpStart(cat: Catalog, path: string): real {
    HeaderOf(cat, path).expstart
  }

  /** Python's ordering of strings (character by character, a prefix first). */
  predicate StrLe(a: string, b: string) {
    a == [] || (b != [] && (a[0] < b[0] || (a[0] == b[0] && StrLe(a[1..], b[1..]))))
  }

  lemma {:induction false} StrLeTotal(a: string, b: string)
    ensures StrLe(a, b) || StrLe(b, a)
  {
    if a != [] && b != [] && a[0] == b[0] {
      StrLeTotal(a[1..], b[1..]);
    }
  }

  lemma {:induction false} StrLeAntisym(a: string, b: string)
    requires StrLe(a, b) && StrLe(b, a)
    ensures a == b
  {
    if a != [] {
      StrLeAntisym(a[1..], b[1..]);
      assert a == [a[0]] + a[1..];
      assert b == [b[0]] + b[1..];
    }
  }

  lemma {:induction false} StrLeTrans(a: string, b: string, c: string)
    requires StrLe(a, b) && StrLe(b, c)
    ensures StrLe(a, c)
  {
    if a != [] && b != [] && c != [] && a[0] == b[0] && b[0] == c[0] {
      StrLeTrans(a[1..], b[1..], c[1..]);
    }
  }

  /** Python's tuple order on `(EXPSTART, filename)`, the key `split_files`
      sorts by. */
  predicate FileLe(cat: Catalog, x: string, y: string) {
    ExpStart(cat, x) < ExpStart(cat, y) || (ExpStart(cat, x) == ExpStart(cat, y) && StrLe(x, y))
  }

  lemma FileLeTotal(cat: Catalog, x: string, y: string)
    ensures FileLe(cat, x, y) || FileLe(cat, y, x)
  {
    StrLeTotal(x, y);
  }

  lemma FileLeTrans(cat: Catalog, x: string, y: string, z: string)
    requires FileLe(cat, x, y) && FileLe(cat, y, z)
    ensures FileLe(cat, x, z)
  {
    if ExpStart(cat, x) == ExpStart(cat, y) && ExpStart(cat, y) == ExpStart(cat, z) {
      StrLeTrans(x, y, z);
    }
  }

  lemma FileLeAntisym(cat: Catalog, x: string, y: string)
    requires FileLe(cat, x, y) && FileLe(cat, y, x)
    ensures x == y
  {
    StrLeAntisym(x, y);
  }

  predicate Sorted(cat: Catalog, s: seq<string>) {
    forall i, j | 0 <= i < j < |s| :: FileLe(cat, s[i], s[j])
  }

  lemma ConsSorted(cat: Catalog, h: string, t: seq<string>)
    requires Sorted(cat, t) && forall j | 0 <= j < |t| :: FileLe(cat, h, t[j])
    ensures Sorted(cat, [h] + t)
  {
    var r := [h] + t;
    forall i, j | 0 <= i < j < |r|
      ensures FileLe(cat, r[i], r[j])
    {
      assert r[j] == t[j - 1];
      if i > 0 {
        assert r[i] == t[i - 1];
      }
    }
  }

  lemma InsertFront(cat: Catalog, x: string, s: seq<string>)
    requires Sorted(cat, s) && s != [] && FileLe(cat, x, s[0])
    ensures Sorted(cat, [x] + s)
  {
    forall j | 0 <= j < |s|
      ensures FileLe(cat, x, s[j])
    {
      if j > 0 {
        FileLeTrans(cat, x, s[0], s[j]);
      }
    }
    ConsSorted(cat, x, s);
  }

  lemma InsertBehind(cat: Catalog, x: string, s: seq<string>, rest: seq<string>)
    requires Sorted(cat, s) && s != [] && !FileLe(cat, x, s[0])
    requires Sorted(cat, rest) && multiset(rest) == multiset(s[1..]) + multiset{x}
    ensures Sorted(cat, [s[0]] + rest)
    ensures multiset([s[0]] + rest) == multiset(s) + multiset{x}
  {
    FileLeTotal(cat, x, s[0]);
    forall j | 0 <= j < |rest|
      ensures FileLe(cat, s[0], rest[j])
    {
      assert rest[j] in multiset(rest);
      if rest[j] != x {
        assert rest[j] in multiset(s[1..]);
        var k :| 0 <= k < |s[1..]| && s[1..][k] == rest[j];
        assert s[k + 1] == rest[j];
      }
    }
    ConsSorted(cat, s[0], rest);
    assert s == [s[0]] + s[1..];
  }

  lemma SortedRest(cat: Catalog, s: seq<string>)
    requires Sorted(cat, s) && s != []
    ensures Sorted(cat, s[1..])
  {
    forall i, j | 0 <= i < j < |s| - 1
      ensures FileLe(cat, s[1..][i], s[1..][j])
    {
      assert s[1..][i] == s[i + 1] && s[1..][j] == s[j + 1];
    }
  }

  function Insert(cat: Catalog, x: string, s: seq<string>): (r: seq<string>)
    requires Sorted(cat, s)
    ensures Sorted(cat, r) && multiset(r) == multiset(s) + multiset{x}
  {
    if s == [] then [x]
    else if FileLe(cat, x, s[0]) then
      InsertFront(cat, x, s);
      [x] + s
    else
      SortedRest(cat, s);
      var rest := Insert(cat, x, s[1..]);
      InsertBehind(cat, x, s, rest);
      [s[0]] + rest
  }

  /** `all_info.sort()` on `(EXPSTART, filename)` tuples, keeping the names:
      the files in ascending order of that key. */
  function SortedFiles(cat: Catalog, s: seq<string>): (r: seq<string>)
    ensures Sorted(cat, r) && multiset(r) == multiset(s)
  {
    if s == [] then []
    else
      assert s == [s[0]] + s[1..];
      Insert(cat, s[0], SortedFiles(cat, s[1..]))
  }

  lemma {:induction false} SortedHeadIsMin(cat: Catalog, s: seq<string>, x: string)
    requires Sorted(cat, s) && s != [] && x in multiset(s)
    ensures FileLe(cat, s[0], x)
  {
    var k :| 0 <= k < |s| && s[k] == x;
    if k == 0 {
      StrLeTotal(x, x);
    }
  }

  /** Sorting is canonical: two sorted sequences with the same elements are
      equal, so `split_files` does not depend on the order of its input. */
  lemma {:induction false} SortedUnique(cat: Catalog, a: seq<string>, b: seq<string>)
    requires Sorted(cat, a) && Sorted(cat, b) && multiset(a) == multiset(b)
    ensures a == b
    decreases |a|
  {
    assert |a| == |multiset(a)| == |b|;
    if a != [] {
      assert a[0] in multiset(b) && b[0] in multiset(a);
      SortedHeadIsMin(cat, b, a[0]);
      SortedHeadIsMin(cat, a, b[0]);
      FileLeAntisym(cat, a[0], b[0]);
      assert a == [a[0]] + a[1..];
      assert b == [b[0]] + b[1..];
      assert multiset(a[1..]) == multiset(a) - multiset{a[0]};
      assert multiset(b[1..]) == multiset(b) - multiset{b[0]};
      SortedUnique(cat, a[1..], b[1..]);
    }
  }

  /** `all_files[0::2]` */
  function Evens<T>(s: seq<T>): seq<T> {
    seq((|s| + 1) / 2, i requires 0 <= i < (|s| + 1) / 2 => s[2 * i])
  }

  /** `all_files[1::2]` */
  function Odds<T>(s: seq<T>): seq<T> {
    seq(|s| / 2, i requires 0 <= i < |s| / 2 => s[2 * i + 1])
  }

  /** `split_files(all_files)`: the sorted list dealt into two lists. */
  function SplitFiles(files: seq<string>, cat: Catalog): (seq<string>, seq<string>) {
    var sorted := SortedFiles(cat, files);
    (Evens(sorted), Odds(sorted))
  }

  lemma EvensCons<T>(s: seq<T>)
    requires |s| >= 2
    ensures Evens(s) == [s[0]] + Evens(s[2..])
  {
    var a := Evens(s);
    var b := [s[0]] + Evens(s[2..]);
    assert |a| == |b|;
    forall i | 0 <= i < |a|
      ensures a[i] == b[i]
    {
      if i > 0 {
        assert b[i] == Evens(s[2..])[i - 1] == s[2..][2 * (i - 1)];
      }
    }
  }

  lemma OddsCons<T>(s: seq<T>)
    requires |s| >= 2
    ensures Odds(s) == [s[1]] + Odds(s[2..])
  {
    var a := Odds(s);
    var b := [s[1]] + Odds(s[2..]);
    assert |a| == |b|;
    forall i | 0 <= i < |a|
      ensures a[i] == b[i]
    {
      if i > 0 {
        assert b[i] == Odds(s[2..])[i - 1] == s[2..][2 * (i - 1) + 1];
      }
    }
  }

  lemma {:induction false} EvensOddsPartition<T>(s: seq<T>)
    ensures multiset(Evens(s)) + multiset(Odds(s)) == multiset(s)
    decreases |s|
  {
    if |s| >= 2 {
      var t := s[2..];
      EvensOddsPartition(t);
      EvensCons(s);
      OddsCons(s);
      assert multiset(Evens(s)) == multiset{s[0]} + multiset(Evens(t));
      assert multiset(Odds(s)) == multiset{s[1]} + multiset(Odds(t));
      assert s == [s[0]] + [s[1]] + t;
      assert multiset(s) == multiset{s[0]} + multiset{s[1]} + multiset(t);
    } else if |s| == 1 {
      assert Evens(s) == s;
      assert Odds(s) == [];
    }
  }

  /** `split_files` returns two lists that together hold exactly the input
      files, of sizes ceil(n/2) and floor(n/2). */
  lemma SplitFilesPartition(files: seq<string>, cat: Catalog)
    ensures |SplitFiles(files, cat).0| == (|files| + 1) / 2
    ensures |SplitFiles(files, cat).1| == |files| / 2
    ensures multiset(SplitFiles(files, cat).0) + multiset(SplitFiles(files, cat).1) == multiset(files)
  {
    var sorted := SortedFiles(cat, files);
    assert |sorted| == |multiset(sorted)| == |files|;
    EvensOddsPartition(sorted);
  }

  /** In a dealt sequence, the element of rank k sits in list k % 2 at position k / 2. */
  lemma DealRanks<T>(s: seq<T>)
    ensures |Evens(s)| + |Odds(s)| == |s|
    ensures forall k | 0 <= k < |s| && k % 2 == 0 :: k / 2 < |Evens(s)| && Evens(s)[k / 2] == s[k]
    ensures forall k | 0 <= k < |s| && k % 2 == 1 :: k / 2 < |Odds(s)| && Odds(s)[k / 2] == s[k]
  {
  }

  /** List 0 holds the even-ranked and list 1 the odd-ranked files of the
      ascending `(EXPSTART, filename)` order. */
  lemma SplitFilesRanks(files: seq<string>, cat: Catalog, sorted: seq<string>)
    requires sorted == SortedFiles(cat, files)
    ensures Sorted(cat, sorted) && |sorted| == |files|
    ensures forall k | 0 <= k < |files| && k % 2 == 0 :: k / 2 < |SplitFiles(files, cat).0| && SplitFiles(files, cat).0[k / 2] == sorted[k]
    ensures forall k | 0 <= k < |files| && k % 2 == 1 :: k / 2 < |SplitFiles(files, cat).1| && SplitFiles(files, cat).1[k / 2] == sorted[k]
  {
    assert |sorted| == |multiset(sorted)| == |files|;
    assert SplitFiles(files, cat) == (Evens(sorted), Odds(sorted));
    DealRanks(sorted);
  }

  /** The split depends only on which files are given, not on their order. */
  lemma SplitFilesOrderFree(a: seq<string>, b: seq<string>, cat: Catalog)
    requires multiset(a) == multiset(b)
    ensures SplitFiles(a, cat) == SplitFiles(b, cat)
  {
    SortedUnique(cat, SortedFiles(cat, a), SortedFiles(cat, b));
  }

  /** The suffix `.replace('.fits', '_grp0' + str(i + 1) + '.fits')` writes. */
  function GroupSuffix(i: nat): string {
    "_grp0" + NatToString(i + 1) + Fits
  }

  /** The name of the i-th (0-based) partial product built from one half. */
  function SubName(name: string, i: nat): string {
    ReplaceAll(name, Fits, GroupSuffix(i))
  }

  /** A partial product's name ends in "_grp0<i+1>.fits"; when ".fits" occurs
      only as the extension, that suffix replaces the extension and nothing else. */
  lemma SubNameShape(stem: string, i: nat)
    ensures EndsWith(SubName(stem + Fits, i), GroupSuffix(i))
    ensures !Contains(stem, Fits) ==> SubName(stem + Fits, i) == stem + GroupSuffix(i)
  {
    var s := stem + Fits;
    assert s[|s| - 5..] == Fits;
    ReplaceFitsEndsWith(s, GroupSuffix(i));
    if !Contains(stem, Fits) {
      ReplaceFitsSuffix(stem, GroupSuffix(i));
    }
  }
}
