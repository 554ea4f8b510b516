/** Strings as the pipeline uses them: prefix/suffix/substring tests,
    Python's `str.replace`, and decimal rendering of naturals (`str(n)`). */
module Text {

  datatype Option<T> = None | Some(value: T)

  predicate StartsWith(s: string, p: string) {
    |p| <= |s| && s[..|p|] == p
  }

  predicate EndsWith(s: string, p: string) {
    |p| <= |s| && s[|s| - |p|..] == p
  }

  /** `p` occurs in `s` starting at index `i`. */
  predicate OccursAt(s: string, p: string, i: int) {
    0 <= i && i + |p| <= |s| && s[i..i + |p|] == p
  }

  /** Python's `p in s`. */
  predicate Contains(s: string, p: string) {
    exists i | 0 <= i <= |s| - |p| :: OccursAt(s, p, i)
  }

  predicate IsDigit(c: char) {
    '0' <= c <= '9'
  }

  predicate AllDigits(s: string) {
    forall i | 0 <= i < |s| :: IsDigit(s[i])
  }

  /** `s.replace('', rep)`: `rep` before, between and after every character. */
  function InsertEverywhere(s: string, rep: string): string {
    if s == [] then rep else rep + [s[0]] + InsertEverywhere(s[1..], rep)
  }

  /** Python's `s.replace(old, new)`: every non-overlapping occurrence of
      `pat`, scanning from the left, becomes `rep`. */
  function ReplaceAll(s: string, pat: string, rep: string): string
    decreases |s|
  {
    if pat == [] then InsertEverywhere(s, rep)
    else if |s| < |pat| then s
    else if s[..|pat|] == pat then rep + ReplaceAll(s[|pat|..], pat, rep)
    else [s[0]] + ReplaceAll(s[1..], pat, rep)
  }

  const Fits := ".fits"

  lemma EndsWithAppend(a: string, t: string, w: string)
    requires EndsWith(t, w)
    ensures EndsWith(a + t, w)
  {
    assert (a + t)[|a + t| - |w|..] == t[|t| - |w|..];
  }

  /** A string that ends in ".fits" keeps the replacement text at its end:
      the final ".fits" cannot overlap an earlier occurrence. */
  lemma {:induction false} ReplaceFitsEndsWith(s: string, w: string)
    requires EndsWith(s, Fits)
    ensures EndsWith(ReplaceAll(s, Fits, w), w)
    decreases |s|
  {
    assert s[|s| - 5] == '.';
    if s[..5] == Fits {
      assert forall k | 1 <= k < 5 :: s[k] != '.';
      if |s| == 5 {
        assert ReplaceAll(s[5..], Fits, w) == [];
      } else {
        if |s| < 10 { assert false; }
        var t := s[5..];
        assert t[|t| - 5..] == s[|s| - 5..];
        ReplaceFitsEndsWith(t, w);
        EndsWithAppend(w, ReplaceAll(t, Fits, w), w);
      }
    } else {
      assert |s| > 5;
      var t := s[1..];
      assert t[|t| - 5..] == s[|s| - 5..];
      ReplaceFitsEndsWith(t, w);
      EndsWithAppend([s[0]], ReplaceAll(t, Fits, w), w);
    }
  }

  /** For a name `x + ".fits"` whose stem holds no ".fits", the replacement
      touches only the extension. */
  lemma {:induction false} ReplaceFitsSuffix(x: string, w: string)
    requires !Contains(x, Fits)
    ensures ReplaceAll(x + Fits, Fits, w) == x + w
    decreases |x|
  {
    var s := x + Fits;
    if x == [] {
      assert s == Fits;
      assert ReplaceAll(s[5..], Fits, w) == [];
    } else {
      if |x| >= 5 {
        assert s[..5] == x[..5];
        if x[..5] == Fits { assert OccursAt(x, Fits, 0); }
      } else {
        assert s[|x|] == '.';
      }
      assert s[..5] != Fits;
      var t := x[1..];
      assert s[1..] == t + Fits;
      if Contains(t, Fits) {
        var i :| 0 <= i <= |t| - |Fits| && OccursAt(t, Fits, i);
        assert x[i + 1..i + 1 + 5] == t[i..i + 5];
        assert OccursAt(x, Fits, i + 1);
      }
      ReplaceFitsSuffix(t, w);
      assert [x[0]] + (t + w) == x + w;
    }
  }

  function DigitChar(d: nat): char
    requires d < 10
  {
    "0123456789"[d]
  }

  function DigitValue(c: char): nat
    requires IsDigit(c)
  {
    (c as int - '0' as int) as nat
  }

  /** Python's `str(n)` for a natural number. */
  function NatToString(n: nat): string
  {
    if n < 10 then [DigitChar(n)] else NatToString(n / 10) + [DigitChar(n % 10)]
  }

  /** The value of a string of decimal digits (Python's `int(s)`). */
  function ParseNat(s: string): nat
    requires AllDigits(s)
  {
    if s == [] then 0 else ParseNat(s[..|s| - 1]) * 10 + DigitValue(s[|s| - 1])
  }

  /** `str(n)` is a non-empty run of digits and reads back as `n`. */
  lemma {:induction false} NatToStringRoundTrip(n: nat)
    ensures |NatToString(n)| >= 1 && AllDigits(NatToString(n))
    ensures ParseNat(NatToString(n)) == n
  {
    var s := NatToString(n);
    if n < 10 {
      assert s[..|s| - 1] == [];
    } else {
      NatToStringRoundTrip(n / 10);
      assert s[..|s| - 1] == NatToString(n / 10);
    }
  }

  /** Leading zeros do not change the value of a digit string. */
  lemma {:induction false} ParseLeadingZero(s: string)
    requires AllDigits(s)
    ensures AllDigits("0" + s) && ParseNat("0" + s) == ParseNat(s)
    decreases |s|
  {
    if s != [] {
      var t := "0" + s;
      assert t[..|t| - 1] == "0" + s[..|s| - 1];
      ParseLeadingZero(s[..|s| - 1]);
    } else {
      assert ("0" + s)[..0] == [];
    }
  }
}

/** Paths as `os.path` builds and splits them. */
module Paths {
  import opened Text

  /** What `os.path.join(a, b)` puts before a relative `b`. */
  function JoinPrefix(a: string): string {
    if a == [] || a[|a| - 1] == '/' then a else a + "/"
  }

  /** `os.path.join(a, b)`. */
  function Join(a: string, b: string): string {
    if |b| > 0 && b[0] == '/' then b else JoinPrefix(a) + b
  }

  /** Where the last component of `p` starts: just after its last '/'. */
  function NameStart(p: string): (r: nat)
    ensures r <= |p|
  {
    if p == [] || p[|p| - 1] == '/' then |p| else NameStart(p[..|p| - 1])
  }

  /** The last component: `os.path.split(p)[-1]`, `os.path.basename(p)`. */
  function Tail(p: string): string {
    p[NameStart(p)..]
  }

  /** The last component grows by the last character unless that is a '/'. */
  lemma TailStep(p: string)
    ensures p == [] || p[|p| - 1] == '/' ==> Tail(p) == []
    ensures p != [] && p[|p| - 1] != '/' ==> Tail(p) == Tail(p[..|p| - 1]) + [p[|p| - 1]]
  {
    if p != [] && p[|p| - 1] != '/' {
      var q := p[..|p| - 1];
      assert NameStart(p) == NameStart(q);
      assert p[NameStart(p)..] == q[NameStart(q)..] + [p[|p| - 1]];
    }
  }

  predicate NoSlash(n: string) {
    forall i | 0 <= i < |n| :: n[i] != '/'
  }

  /** `x` is a file directly inside directory `dir` (what `glob(join(dir, '*'))`
      would list, before the name pattern is applied). */
  predicate InDir(x: string, dir: string) {
    var p := JoinPrefix(dir);
    |p| < |x| && x[..|p|] == p && NoSlash(x[|p|..])
  }

  lemma JoinPrefixShape(a: string)
    ensures JoinPrefix(a) == [] || JoinPrefix(a)[|JoinPrefix(a)| - 1] == '/'
  {
  }

  /** The last component of a prefix ending in '/' followed by a slash-free name
      is that name. */
  lemma {:induction false} TailAfterSlash(p: string, n: string)
    requires p == [] || p[|p| - 1] == '/'
    requires NoSlash(n)
    ensures Tail(p + n) == n
    decreases |n|
  {
    if n == [] {
      assert p + n == p;
    } else {
      var s := p + n;
      assert s[..|s| - 1] == p + n[..|n| - 1];
      TailAfterSlash(p, n[..|n| - 1]);
      assert n[..|n| - 1] + [n[|n| - 1]] == n;
    }
  }

  lemma TailOfJoin(a: string, n: string)
    requires NoSlash(n)
    ensures Tail(Join(a, n)) == n
  {
    JoinPrefixShape(a);
    TailAfterSlash(JoinPrefix(a), n);
  }

  lemma {:induction false} TailNoSlash(p: string)
    ensures NoSlash(Tail(p))
    decreases |p|
  {
    if p != [] && p[|p| - 1] != '/' {
      TailNoSlash(p[..|p| - 1]);
    }
  }

  lemma {:induction false} TailIsSuffix(p: string)
    ensures |Tail(p)| <= |p| && p[|p| - |Tail(p)|..] == Tail(p)
    decreases |p|
  {
    if p != [] && p[|p| - 1] != '/' {
      TailIsSuffix(p[..|p| - 1]);
    }
  }

  /** A slash-free suffix of a path is a suffix of its last component. */
  lemma {:induction false} EndsWithTail(p: string, w: string)
    requires EndsWith(p, w) && NoSlash(w)
    ensures EndsWith(Tail(p), w)
    decreases |p|
  {
    if w != [] {
      assert p[|p| - 1] == w[|w| - 1];
      var q := p[..|p| - 1];
      var v := w[..|w| - 1];
      assert q[|q| - |v|..] == v;
      EndsWithTail(q, v);
      TailStep(p);
      var t := Tail(q);
      assert (t + [p[|p| - 1]])[|t| + 1 - |w|..] == t[|t| - |v|..] + [p[|p| - 1]];
    }
  }

  /** Splitting a string at its last '/' is unique: two "directory + name"
      decompositions of one path have the same directory part. */
  lemma PrefixUnique(p1: string, n1: string, p2: string, n2: string)
    requires p1 == [] || p1[|p1| - 1] == '/'
    requires p2 == [] || p2[|p2| - 1] == '/'
    requires NoSlash(n1) && NoSlash(n2)
    requires p1 + n1 == p2 + n2
    ensures p1 == p2
  {
    var s := p1 + n1;
    assert forall k | |p1| <= k < |s| :: s[k] == n1[k - |p1|];
    assert forall k | |p2| <= k < |s| :: s[k] == n2[k - |p2|];
    assert p1 != [] ==> s[|p1| - 1] == '/';
    assert p2 != [] ==> s[|p2| - 1] == '/';
    if |p1| < |p2| { assert false; }
    if |p2| < |p1| { assert false; }
    assert p1 == s[..|p1|] == p2;
  }

  /** A file directly inside `dir` decomposes as `JoinPrefix(dir)` plus a name. */
  lemma InDirShape(x: string, dir: string)
    requires InDir(x, dir)
    ensures x == JoinPrefix(dir) + x[|JoinPrefix(dir)|..]
  {
  }

  /** The directory a file `P + n` lies directly in has JoinPrefix `P`. */
  lemma InDirPrefix(p: string, n: string, dir: string)
    requires p == [] || p[|p| - 1] == '/'
    requires NoSlash(n)
    requires InDir(p + n, dir)
    ensures JoinPrefix(dir) == p
  {
    var x := p + n;
    JoinPrefixShape(dir);
    PrefixUnique(JoinPrefix(dir), x[|JoinPrefix(dir)|..], p, n);
  }

  /** The directories whose JoinPrefix is `P + "all/"` have last component
      "" or "all": neither names a week folder. */
  lemma JoinPrefixAllTail(q: string, dir: string)
    requires q == [] || q[|q| - 1] == '/'
    requires JoinPrefix(dir) == q + "all/"
    ensures Tail(dir) == [] || Tail(dir) == "all"
  {
    if dir == [] || dir[|dir| - 1] == '/' {
    } else {
      assert dir + "/" == q + "all/";
      assert (dir + "/")[..|dir|] == dir;
      assert (q + "all/")[..|q| + 3] == q + "all";
      TailAfterSlash(q, "all");
    }
  }
}
