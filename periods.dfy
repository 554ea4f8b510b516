/** The anneal-period arithmetic of `separate_period` and `separate_obs`:
    day lengths turned into time windows, frames assigned to the first
    window that contains them, and the folder each period's frames go to. */
module Periods {
  import opened Text
  import opened Paths
  import opened Frames

  /** The three passes: (BIAS, WK), (DARK, WK), (BIAS, BIWK). */
  datatype Target = BIAS | DARK
  datatype Mode = WK | BIWK

  const Passes: seq<(Target, Mode)> := [(BIAS, WK), (DARK, WK), (BIAS, BIWK)]

  /** `select_gain`: weekly data is taken at gain 1, biweekly at gain 4. */
  function Gain(m: Mode): int {
    match m
    case WK => 1
    case BIWK => 4
  }

  /** `mode.lower()` */
  function ModeName(m: Mode): string {
    match m
    case WK => "wk"
    case BIWK => "biwk"
  }

  function TargetName(t: Target): string {
    match t
    case BIAS => "BIAS"
    case DARK => "DARK"
  }

  /** A frame belongs to a pass when its TARGNAME and CCDGAIN both match. */
  predicate InPass(cat: Catalog, x: string, t: Target, m: Mode) {
    HeaderOf(cat, x).targname == TargetName(t) && HeaderOf(cat, x).ccdgain == Gain(m)
  }

  /** No frame belongs to two passes. */
  lemma PassesDisjoint(cat: Catalog, x: string, i: nat, j: nat)
    requires i < j < |Passes|
    ensures !(InPass(cat, x, Passes[i].0, Passes[i].1) && InPass(cat, x, Passes[j].0, Passes[j].1))
  {
  }

  datatype Window = Window(begin: real, end: real)

  function Sum(s: seq<real>): real {
    if s == [] then 0.0 else Sum(s[..|s| - 1]) + s[|s| - 1]
  }

  lemma SumSnoc(s: seq<real>, i: nat)
    requires i < |s|
    ensures Sum(s[..i + 1]) == Sum(s[..i]) + s[i]
  {
    assert s[..i + 1][..i] == s[..i];
  }

  function ToReals(s: seq<int>): (r: seq<real>)
    ensures |r| == |s| && forall i | 0 <= i < |s| :: r[i] == s[i] as real
  {
    seq(|s|, i requires 0 <= i < |s| => s[i] as real)
  }

  /** Windows laid end to end from `start`, window i spanning lengths[i]:
      the reference the running `start`/`end` loop is checked against. */
  function Chained(start: real, lengths: seq<real>): (r: seq<Window>)
    ensures |r| == |lengths|
  {
    seq(|lengths|, i requires 0 <= i < |lengths| => Window(start + Sum(lengths[..i]), start + Sum(lengths[..i + 1])))
  }

  lemma ChainedAt(start: real, lengths: seq<real>, i: nat)
    requires i < |lengths|
    ensures Chained(start, lengths)[i].end - Chained(start, lengths)[i].begin == lengths[i]
    ensures i > 0 ==> Chained(start, lengths)[i].begin == Chained(start, lengths)[i - 1].end
  {
    SumSnoc(lengths, i);
  }

  /** Chained windows are contiguous: the first starts at `start`, each
      starts where the previous ends, each is as long as its length, and the
      last ends at `start` plus the total. */
  lemma ChainedShape(start: real, lengths: seq<real>)
    requires |lengths| >= 1
    ensures Chained(start, lengths)[0].begin == start
    ensures forall i | 0 < i < |lengths| :: Chained(start, lengths)[i].begin == Chained(start, lengths)[i - 1].end
    ensures forall i | 0 <= i < |lengths| :: Chained(start, lengths)[i].end - Chained(start, lengths)[i].begin == lengths[i]
    ensures Chained(start, lengths)[|lengths| - 1].end == start + Sum(lengths)
  {
    assert lengths[..0] == [];
    forall i | 0 <= i < |lengths|
      ensures Chained(start, lengths)[i].end - Chained(start, lengths)[i].begin == lengths[i]
      ensures i > 0 ==> Chained(start, lengths)[i].begin == Chained(start, lengths)[i - 1].end
    {
      ChainedAt(start, lengths, i);
    }
    assert lengths[..|lengths|] == lengths;
  }

  /** Extending the lengths by one adds one window at the end. */
  lemma ChainedSnoc(start: real, lengths: seq<real>, i: nat)
    requires i < |lengths|
    ensures Chained(start, lengths[..i + 1])
      == Chained(start, lengths[..i]) + [Window(start + Sum(lengths[..i]), start + Sum(lengths[..i + 1]))]
  {
    var a := Chained(start, lengths[..i + 1]);
    var b := Chained(start, lengths[..i]) + [Window(start + Sum(lengths[..i]), start + Sum(lengths[..i + 1]))];
    forall j | 0 <= j <= i
      ensures a[j] == b[j]
    {
      assert lengths[..i + 1][..j] == lengths[..j];
      assert lengths[..i + 1][..j + 1] == lengths[..j + 1];
      if j < i {
        assert lengths[..i][..j] == lengths[..j];
        assert lengths[..i][..j + 1] == lengths[..j + 1];
      }
    }
  }

  /** Translating the week lengths to MJD (lines 723-730): a running `start`
      and `end`, each window starting where the previous one ended. */
  method ChainWindows(start: real, lengths: seq<real>) returns (ws: seq<Window>)
    requires |lengths| >= 1
    ensures ws == Chained(start, lengths)
  {
    var s := start;
    var e := s + lengths[0];
    ws := [Window(s, e)];
    ChainedSnoc(start, lengths, 0);
    assert lengths[..0] == [];
    var i := 1;
    while i < |lengths|
      invariant 1 <= i <= |lengths|
      invariant ws == Chained(start, lengths[..i])
      invariant e == start + Sum(lengths[..i])
    {
      s := e;
      e := e + lengths[i];
      SumSnoc(lengths, i);
      ChainedSnoc(start, lengths, i);
      ws := ws + [Window(s, e)];
      i := i + 1;
    }
    assert lengths[..i] == lengths;
  }

  /** `int(month_end - month_begin)` for the nonnegative span of the data. */
  function WholeDays(span: real): int {
    span.Floor
  }

  /** `week_lengths[-1] += span - N_days`: the fraction of a day left over
      goes to the last period only. */
  function WithRemainder(lengths: seq<int>, span: real): (r: seq<real>)
    requires |lengths| >= 1
    ensures |r| == |lengths|
  {
    var base := ToReals(lengths);
    base[|base| - 1 := base[|base| - 1] + (span - WholeDays(span) as real)]
  }

  lemma {:induction false} SumAppend(a: seq<real>, b: seq<real>)
    ensures Sum(a + b) == Sum(a) + Sum(b)
    decreases |b|
  {
    if b == [] {
      assert a + b == a;
    } else {
      var c := a + b;
      assert c[..|c| - 1] == a + b[..|b| - 1];
      SumAppend(a, b[..|b| - 1]);
    }
  }

  /** The remainder makes the lengths add up to the whole span exactly when
      the day lengths add up to the whole number of days. */
  lemma WithRemainderSum(lengths: seq<int>, span: real)
    requires |lengths| >= 1
    ensures Sum(WithRemainder(lengths, span)) == Sum(ToReals(lengths)) + (span - WholeDays(span) as real)
  {
    var r := WithRemainder(lengths, span);
    var n := |lengths| - 1;
    assert r[..n] == ToReals(lengths)[..n];
    assert r == r[..n] + [r[n]];
    assert ToReals(lengths) == ToReals(lengths)[..n] + [ToReals(lengths)[n]];
    SumAppend(r[..n], [r[n]]);
    SumAppend(ToReals(lengths)[..n], [ToReals(lengths)[n]]);
    assert Sum([r[n]]) == r[n] by { assert [r[n]][..0] == []; }
    assert Sum([ToReals(lengths)[n]]) == ToReals(lengths)[n] by { assert [ToReals(lengths)[n]][..0] == []; }
  }

  /** `separate_period`'s windows: contiguous from the earliest EXPSTART, and
      when the day lengths sum to `int(span)` the last one ends at the latest
      EXPSTART. */
  function PeriodWindows(first: real, last: real, lengths: seq<int>): seq<Window>
    requires |lengths| >= 1
  {
    Chained(first, WithRemainder(lengths, last - first))
  }

  lemma PeriodWindowsSpan(first: real, last: real, lengths: seq<int>)
    requires |lengths| >= 1
    requires Sum(ToReals(lengths)) == WholeDays(last - first) as real
    ensures PeriodWindows(first, last, lengths)[0].begin == first
    ensures PeriodWindows(first, last, lengths)[|lengths| - 1].end == last
    ensures forall i | 0 < i < |lengths| ::
      PeriodWindows(first, last, lengths)[i].begin == PeriodWindows(first, last, lengths)[i - 1].end
  {
    ChainedShape(first, WithRemainder(lengths, last - first));
    WithRemainderSum(lengths, last - first);
  }

  /** Python 2 `round`: halves go away from zero. */
  function RoundHalfAway(x: real): int {
    if x >= 0.0 then (x + 0.5).Floor else -((-x + 0.5).Floor)
  }

  /** `round` picks an integer at most one half away, and on a half it
      picks the one farther from zero. */
  lemma RoundHalfAwaySpec(x: real)
    ensures -0.5 <= RoundHalfAway(x) as real - x <= 0.5
  {
  }

  lemma RoundHalfAwayOnHalves(n: int)
    ensures n >= 0 ==> RoundHalfAway(n as real + 0.5) == n + 1
    ensures n <= 0 ==> RoundHalfAway(n as real - 0.5) == n - 1
  {
  }

  /** `separate_obs`'s windows from `np.cumsum`: window i ends at `begin`
      plus the first i+1 lengths and starts the *first* length earlier. */
  function CumsumWindows(begin: real, lengths: seq<real>): (r: seq<Window>)
    ensures |r| == |lengths|
  {
    seq(|lengths|, i requires 0 <= i < |lengths| => Window(begin + Sum(lengths[..i + 1]) - lengths[0], begin + Sum(lengths[..i + 1])))
  }

  /** Every cumsum window is as wide as the first length; the first starts
      at `begin`; the last ends at `begin` plus the total; and window i starts
      where window i-1 ends exactly when lengths[i] equals lengths[0]. */
  lemma CumsumShape(begin: real, lengths: seq<real>)
    requires |lengths| >= 1
    ensures forall i | 0 <= i < |lengths| :: CumsumWindows(begin, lengths)[i].end - CumsumWindows(begin, lengths)[i].begin == lengths[0]
    ensures CumsumWindows(begin, lengths)[0].begin == begin
    ensures CumsumWindows(begin, lengths)[|lengths| - 1].end == begin + Sum(lengths)
    ensures forall i | 0 < i < |lengths| ::
      (CumsumWindows(begin, lengths)[i].begin == CumsumWindows(begin, lengths)[i - 1].end <==> lengths[i] == lengths[0])
  {
    var ws := CumsumWindows(begin, lengths);
    assert lengths[..1][..0] == [];
    assert lengths[..|lengths|] == lengths;
    forall i | 0 < i < |lengths|
      ensures ws[i].begin == ws[i - 1].end <==> lengths[i] == lengths[0]
    {
      SumSnoc(lengths, i);
    }
  }

  /** Which window edges a frame's EXPSTART may touch. */
  datatype Rule = Closed | HalfOpen

  predicate Inside(rule: Rule, t: real, w: Window) {
    match rule
    case Closed => w.begin <= t <= w.end
    case HalfOpen => w.begin <= t < w.end
  }

  /** `obs_to_move`: the remaining frames whose EXPSTART is in the window, in order. */
  function Select(xs: seq<string>, cat: Catalog, w: Window, rule: Rule): seq<string> {
    if xs == [] then []
    else if Inside(rule, ExpStart(cat, xs[0]), w) then [xs[0]] + Select(xs[1..], cat, w, rule)
    else Select(xs[1..], cat, w, rule)
  }

  /** The selection holds exactly the listed frames inside the window. */
  lemma {:induction false} SelectSpec(xs: seq<string>, cat: Catalog, w: Window, rule: Rule)
    ensures forall x :: x in Select(xs, cat, w, rule) <==> x in xs && Inside(rule, ExpStart(cat, x), w)
    ensures |Select(xs, cat, w, rule)| <= |xs|
  {
    if xs != [] {
      SelectSpec(xs[1..], cat, w, rule);
      assert forall x :: x in xs <==> x == xs[0] || x in xs[1..];
    }
  }

  predicate Distinct(xs: seq<string>) {
    forall i, j | 0 <= i < j < |xs| :: xs[i] != xs[j]
  }

  lemma DistinctCons(a: string, s: seq<string>)
    ensures Distinct([a] + s) <==> a !in s && Distinct(s)
  {
    var c := [a] + s;
    assert c[0] == a;
    assert forall i | 0 <= i < |s| :: c[i + 1] == s[i];
    if Distinct(c) {
      assert Distinct(s) by {
        forall i, j | 0 <= i < j < |s| ensures s[i] != s[j] { assert c[i + 1] != c[j + 1]; }
      }
      assert forall k | 0 <= k < |s| :: s[k] == c[k + 1] != c[0];
    }
    if a !in s && Distinct(s) {
      forall i, j | 0 <= i < j < |c| ensures c[i] != c[j] {
        assert c[j] == s[j - 1];
        if i == 0 {
          assert s[j - 1] in s;
        } else {
          assert c[i] == s[i - 1];
        }
      }
    }
  }

  /** Appending a new member keeps a list free of repeats. */
  lemma DistinctSnoc(s: seq<string>, x: string)
    requires Distinct(s) && x !in s
    ensures Distinct(s + [x])
  {
    var c := s + [x];
    forall i, j | 0 <= i < j < |c| ensures c[i] != c[j] {
      assert c[i] == s[i];
      if j < |s| { assert c[j] == s[j]; }
    }
  }

  /** `list.remove(x)`: drop the first occurrence, if any. */
  function RemoveFirst(xs: seq<string>, x: string): seq<string> {
    if xs == [] then []
    else if xs[0] == x then xs[1..]
    else [xs[0]] + RemoveFirst(xs[1..], x)
  }

  /** Removing `x` leaves an absent `x` alone, shortens the list by one
      otherwise, keeps every other member, and keeps a list without repeats
      so, with `x` gone. */
  lemma {:induction false} RemoveFirstSpec(xs: seq<string>, x: string)
    ensures x !in xs ==> RemoveFirst(xs, x) == xs
    ensures x in xs ==> |RemoveFirst(xs, x)| == |xs| - 1
    ensures forall y :: y in RemoveFirst(xs, x) ==> y in xs
    ensures forall y | y != x :: y in xs ==> y in RemoveFirst(xs, x)
    ensures Distinct(xs) ==> Distinct(RemoveFirst(xs, x)) && x !in RemoveFirst(xs, x)
  {
    if xs != [] {
      DistinctCons(xs[0], xs[1..]);
      assert xs == [xs[0]] + xs[1..];
      if xs[0] != x {
        RemoveFirstSpec(xs[1..], x);
        DistinctCons(xs[0], RemoveFirst(xs[1..], x));
      }
    }
  }

  /** `remove` applied to each element of `g` in turn. */
  function RemoveEach(xs: seq<string>, g: seq<string>): (r: seq<string>)
    decreases |g|
  {
    if g == [] then xs else RemoveEach(RemoveFirst(xs, g[0]), g[1..])
  }

  /** Removing members of `g` one by one from a list without repeats leaves
      exactly the members not in `g`, still without repeats. */
  lemma {:induction false} RemoveEachSpec(xs: seq<string>, g: seq<string>)
    requires Distinct(xs)
    ensures Distinct(RemoveEach(xs, g))
    ensures forall x :: x in RemoveEach(xs, g) <==> x in xs && x !in g
    decreases |g|
  {
    if g != [] {
      RemoveFirstSpec(xs, g[0]);
      RemoveEachSpec(RemoveFirst(xs, g[0]), g[1..]);
      assert forall x :: x in g <==> x == g[0] || x in g[1..];
    }
  }

  /** `obs_list` after the first `k` periods have taken their frames. */
  function Remaining(obs: seq<string>, cat: Catalog, ws: seq<Window>, rule: Rule, k: nat): seq<string>
    requires k <= |ws|
  {
    if k == 0 then obs
    else
      var r := Remaining(obs, cat, ws, rule, k - 1);
      RemoveEach(r, Select(r, cat, ws[k - 1], rule))
  }

  /** The frames period `k` moves. */
  function Group(obs: seq<string>, cat: Catalog, ws: seq<Window>, rule: Rule, k: nat): seq<string>
    requires k < |ws|
  {
    Select(Remaining(obs, cat, ws, rule, k), cat, ws[k], rule)
  }

  /** `obs_list` after periods `k..` have each taken their frames from it,
      starting from `obsList`. */
  function LeftAfter(obsList: seq<string>, cat: Catalog, ws: seq<Window>, rule: Rule, k: nat): seq<string>
    requires k <= |ws|
    decreases |ws| - k
  {
    if k == |ws| then obsList
    else LeftAfter(RemoveEach(obsList, Select(obsList, cat, ws[k], rule)), cat, ws, rule, k + 1)
  }

  /** The frames periods `k..` take, in period order, starting from `obsList`. */
  function GroupsFrom(obsList: seq<string>, cat: Catalog, ws: seq<Window>, rule: Rule, k: nat): seq<seq<string>>
    requires k <= |ws|
    decreases |ws| - k
  {
    if k == |ws| then []
    else
      var g := Select(obsList, cat, ws[k], rule);
      [g] + GroupsFrom(RemoveEach(obsList, g), cat, ws, rule, k + 1)
  }

  /** Taking period by period from what the first `k` periods left ends
      with what all periods leave, and takes `Group(i)` at each period `i`. */
  lemma {:induction false} GroupsFromRemaining(obs: seq<string>, cat: Catalog, ws: seq<Window>, rule: Rule, k: nat)
    requires k <= |ws|
    ensures LeftAfter(Remaining(obs, cat, ws, rule, k), cat, ws, rule, k) == Remaining(obs, cat, ws, rule, |ws|)
    ensures |GroupsFrom(Remaining(obs, cat, ws, rule, k), cat, ws, rule, k)| == |ws| - k
    ensures forall i | k <= i < |ws| ::
              GroupsFrom(Remaining(obs, cat, ws, rule, k), cat, ws, rule, k)[i - k] == Group(obs, cat, ws, rule, i)
    decreases |ws| - k
  {
    if k < |ws| {
      GroupsFromRemaining(obs, cat, ws, rule, k + 1);
      var r := Remaining(obs, cat, ws, rule, k);
      var gs := GroupsFrom(Remaining(obs, cat, ws, rule, k + 1), cat, ws, rule, k + 1);
      assert Remaining(obs, cat, ws, rule, k + 1) == RemoveEach(r, Select(r, cat, ws[k], rule));
      assert GroupsFrom(r, cat, ws, rule, k) == [Group(obs, cat, ws, rule, k)] + gs;
      forall i | k < i < |ws|
        ensures GroupsFrom(r, cat, ws, rule, k)[i - k] == Group(obs, cat, ws, rule, i)
      {
        assert GroupsFrom(r, cat, ws, rule, k)[i - k] == gs[i - (k + 1)];
      }
    }
  }

  /** `t` lies in none of the first `k` windows. */
  predicate Missed(rule: Rule, t: real, ws: seq<Window>, k: nat)
    requires k <= |ws|
  {
    forall j | 0 <= j < k :: !Inside(rule, t, ws[j])
  }

  predicate FirstInside(rule: Rule, t: real, ws: seq<Window>, k: nat)
    requires k < |ws|
  {
    Inside(rule, t, ws[k]) && Missed(rule, t, ws, k)
  }

  lemma MissedStep(rule: Rule, t: real, ws: seq<Window>, k: nat)
    requires 0 < k <= |ws|
    ensures Missed(rule, t, ws, k) <==> Missed(rule, t, ws, k - 1) && !Inside(rule, t, ws[k - 1])
  {
  }

  /** What is left after `k` periods is what lies in none of their windows. */
  lemma {:induction false} RemainingSpec(obs: seq<string>, cat: Catalog, ws: seq<Window>, rule: Rule, k: nat)
    requires Distinct(obs) && k <= |ws|
    ensures Distinct(Remaining(obs, cat, ws, rule, k))
    ensures forall x :: x in Remaining(obs, cat, ws, rule, k) <==> x in obs && Missed(rule, ExpStart(cat, x), ws, k)
  {
    if k > 0 {
      RemainingSpec(obs, cat, ws, rule, k - 1);
      RemainingStep(obs, cat, ws, rule, k);
    }
  }

  lemma RemainingStep(obs: seq<string>, cat: Catalog, ws: seq<Window>, rule: Rule, k: nat)
    requires 0 < k <= |ws|
    requires Distinct(Remaining(obs, cat, ws, rule, k - 1))
    requires forall x :: x in Remaining(obs, cat, ws, rule, k - 1) <==> x in obs && Missed(rule, ExpStart(cat, x), ws, k - 1)
    ensures Distinct(Remaining(obs, cat, ws, rule, k))
    ensures forall x :: x in Remaining(obs, cat, ws, rule, k) <==> x in obs && Missed(rule, ExpStart(cat, x), ws, k)
  {
    var r := Remaining(obs, cat, ws, rule, k - 1);
    var g := Select(r, cat, ws[k - 1], rule);
    SelectSpec(r, cat, ws[k - 1], rule);
    RemoveEachSpec(r, g);
    forall x
      ensures x in RemoveEach(r, g) <==> x in obs && Missed(rule, ExpStart(cat, x), ws, k)
    {
      MissedStep(rule, ExpStart(cat, x), ws, k);
    }
  }

  /** A frame goes to the first window that contains it, so a frame on the
      shared edge of two closed windows goes to the earlier one. */
  lemma GroupSpec(obs: seq<string>, cat: Catalog, ws: seq<Window>, rule: Rule, k: nat)
    requires Distinct(obs) && k < |ws|
    ensures forall x :: x in Group(obs, cat, ws, rule, k) <==> x in obs && FirstInside(rule, ExpStart(cat, x), ws, k)
  {
    RemainingSpec(obs, cat, ws, rule, k);
    SelectSpec(Remaining(obs, cat, ws, rule, k), cat, ws[k], rule);
  }

  /** Each frame is moved at most once: no frame is in two groups. */
  lemma GroupsDisjoint(obs: seq<string>, cat: Catalog, ws: seq<Window>, rule: Rule, j: nat, k: nat, x: string)
    requires Distinct(obs) && j < k < |ws|
    ensures !(x in Group(obs, cat, ws, rule, j) && x in Group(obs, cat, ws, rule, k))
  {
    GroupSpec(obs, cat, ws, rule, j);
    GroupSpec(obs, cat, ws, rule, k);
  }

  /** In contiguous windows that together reach from `ws[0].begin` to the
      last end, a time in that range lies in a closed window. */
  lemma {:induction false} ContiguousCover(ws: seq<Window>, t: real) returns (i: nat)
    requires |ws| >= 1
    requires forall i | 0 < i < |ws| :: ws[i].begin == ws[i - 1].end
    requires ws[0].begin <= t <= ws[|ws| - 1].end
    ensures i < |ws| && Inside(Closed, t, ws[i])
  {
    i := 0;
    while ws[i].end < t
      invariant i < |ws| && ws[i].begin <= t
      decreases |ws| - i
    {
      i := i + 1;
    }
  }

  /** When the day lengths sum to the whole days of the span, every frame of
      the pass finds its period in `separate_period`. */
  lemma PeriodCoverage(obs: seq<string>, cat: Catalog, first: real, last: real, lengths: seq<int>, x: string)
    returns (k: nat)
    requires Distinct(obs) && |lengths| >= 1 && x in obs
    requires Sum(ToReals(lengths)) == WholeDays(last - first) as real
    requires first <= ExpStart(cat, x) <= last
    ensures k < |lengths| && x in Group(obs, cat, PeriodWindows(first, last, lengths), Closed, k)
  {
    var ws := PeriodWindows(first, last, lengths);
    var t := ExpStart(cat, x);
    PeriodWindowsSpan(first, last, lengths);
    var i := ContiguousCover(ws, t);
    k := FirstWindow(ws, t, i);
    GroupSpec(obs, cat, ws, Closed, k);
  }

  /** Some window holds `t`, so a first one does. */
  lemma FirstWindow(ws: seq<Window>, t: real, i: nat) returns (k: nat)
    requires i < |ws| && Inside(Closed, t, ws[i])
    ensures k <= i && FirstInside(Closed, t, ws, k)
  {
    k := 0;
    while !Inside(Closed, t, ws[k])
      invariant k <= i && Missed(Closed, t, ws, k)
      decreases i - k
    {
      MissedStep(Closed, t, ws, k + 1);
      k := k + 1;
    }
  }

  /** `str(period + 1)` left-padded with '0' to two characters. */
  function WeekLabel(period: nat): string {
    Pad(NatToString(period + 1))
  }

  function Pad(s: string): (r: string)
    decreases 2 - |s|
  {
    if |s| < 2 then Pad("0" + s) else s
  }

  lemma {:induction false} PadSpec(s: string)
    requires |s| >= 1 && AllDigits(s)
    ensures AllDigits(Pad(s)) && ParseNat(Pad(s)) == ParseNat(s)
    ensures |Pad(s)| == if |s| < 2 then 2 else |s|
    ensures EndsWith(Pad(s), s)
    decreases 2 - |s|
  {
    if |s| < 2 {
      ParseLeadingZero(s);
      PadSpec("0" + s);
      assert ("0" + s)[1..] == s;
    }
  }

  /** The label of a period reads back as its 1-based number and has two
      characters while there are fewer than 100 periods. */
  lemma WeekLabelSpec(period: nat)
    ensures AllDigits(WeekLabel(period)) && ParseNat(WeekLabel(period)) == period + 1
    ensures period < 99 ==> |WeekLabel(period)| == 2
  {
    NatToStringRoundTrip(period + 1);
    PadSpec(NatToString(period + 1));
    if period < 9 {
      assert |NatToString(period + 1)| == 1;
    } else if period < 99 {
      assert |NatToString((period + 1) / 10)| == 1;
    }
  }

  /** Different periods get different labels. */
  lemma WeekLabelInjective(p: nat, q: nat)
    requires WeekLabel(p) == WeekLabel(q)
    ensures p == q
  {
    WeekLabelSpec(p);
    WeekLabelSpec(q);
  }

  /** The padding loop at lines 742-744. */
  method PadIndex(period: nat) returns (week: string)
    ensures week == WeekLabel(period)
  {
    week := NatToString(period + 1);
    while |week| < 2
      invariant Pad(week) == WeekLabel(period)
      decreases 2 - |week|
    {
      week := "0" + week;
    }
  }

  /** The folder a period's frames go to, below the base directory:
      `biases/<gain>-1x1/<mode><NN>/` or `darks/<mode><NN>/`. */
  function FolderName(t: Target, m: Mode, period: nat): string {
    match t
    case BIAS => "biases/" + NatToString(Gain(m) as nat) + "-1x1/" + ModeName(m) + WeekLabel(period) + "/"
    case DARK => "darks/" + ModeName(m) + WeekLabel(period) + "/"
  }

  function PeriodFolder(base: string, t: Target, m: Mode, period: nat): string {
    Join(base, FolderName(t, m, period))
  }

  /** Within one pass the folders of different periods differ. */
  lemma PeriodFolderDistinct(t: Target, m: Mode, p: nat, q: nat)
    requires p != q
    ensures FolderName(t, m, p) != FolderName(t, m, q)
  {
    var pre := match t
      case BIAS => "biases/" + NatToString(Gain(m) as nat) + "-1x1/" + ModeName(m)
      case DARK => "darks/" + ModeName(m);
    var a := FolderName(t, m, p);
    var b := FolderName(t, m, q);
    assert a == pre + WeekLabel(p) + "/";
    assert b == pre + WeekLabel(q) + "/";
    if a == b {
      assert |WeekLabel(p)| == |WeekLabel(q)|;
      assert a[|pre|..|pre| + |WeekLabel(p)|] == WeekLabel(p);
      assert b[|pre|..|pre| + |WeekLabel(q)|] == WeekLabel(q);
      WeekLabelInjective(p, q);
    }
  }

  /** Bias folders and dark folders never coincide, whatever their modes
      and periods: one tree starts `biases/`, the other `darks/`. */
  lemma BiasDarkApart(m: Mode, m': Mode, p: nat, q: nat)
    ensures FolderName(BIAS, m, p) != FolderName(DARK, m', q)
  {
    assert FolderName(BIAS, m, p)[0] == 'b';
    assert FolderName(DARK, m', q)[0] == 'd';
  }

  /** The example of the naming scheme: period 0 of the biweekly biases is
      `biases/4-1x1/biwk01/`. */
  lemma FolderNameExample()
    ensures FolderName(BIAS, BIWK, 0) == "biases/4-1x1/biwk01/"
    ensures FolderName(DARK, WK, 10) == "darks/wk11/"
  {
    assert NatToString(4) == "4";
    assert NatToString(1) == "1";
    assert Pad("1") == "01";
    assert NatToString(11) == "11";
  }
}
