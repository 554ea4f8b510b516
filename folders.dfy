/** `pull_out_subfolders`: the folders below a root whose last component
    names a gain/binning (`1-1x1`, `4-1x1`, ...) and those that name an
    anneal week (anything containing "wk"). */
module Folders {
  import opened Text
  import opened Paths
  import opened Periods
  import opened Disk

  /** `[0-4]-[0-4]x[0-4]` matches `s` at index `i`. */
  predicate GainAt(s: string, i: int) {
    0 <= i && i + 5 <= |s|
    && '0' <= s[i] <= '4' && s[i + 1] == '-' && '0' <= s[i + 2] <= '4' && s[i + 3] == 'x' && '0' <= s[i + 4] <= '4'
  }

  /** `re.search('([0-4]-[0-4]x[0-4])', tail)` */
  predicate HasGain(s: string) {
    exists i | 0 <= i <= |s| - 5 :: GainAt(s, i)
  }

  predicate IsGainFolder(root: string) {
    HasGain(Tail(root))
  }

  /** `'wk' in tail` */
  predicate IsWeekFolder(root: string) {
    Contains(Tail(root), "wk")
  }

  /** The roots kept as gain folders, in walk order. */
  function GainsOf(roots: seq<string>): (r: seq<string>)
    ensures forall x :: x in r <==> x in roots && IsGainFolder(x)
  {
    if roots == [] then []
    else
      var last := roots[|roots| - 1];
      assert roots == roots[..|roots| - 1] + [last];
      GainsOf(roots[..|roots| - 1]) + (if IsGainFolder(last) then [last] else [])
  }

  /** The roots kept as week folders, in walk order. */
  function WeeksOf(roots: seq<string>): (r: seq<string>)
    ensures forall x :: x in r <==> x in roots && IsWeekFolder(x)
  {
    if roots == [] then []
    else
      var last := roots[|roots| - 1];
      assert roots == roots[..|roots| - 1] + [last];
      WeeksOf(roots[..|roots| - 1]) + (if IsWeekFolder(last) then [last] else [])
  }

  /** What `pull_out_subfolders(root)` returns on disk `d`. */
  function Subfolders(d: Disk, env: Env, root: string): (seq<string>, seq<string>) {
    var roots := Walk(d, env, root);
    (GainsOf(roots), WeeksOf(roots))
  }

  lemma {:induction false} KeepDistinct(roots: seq<string>)
    requires Distinct(roots)
    ensures Distinct(GainsOf(roots)) && Distinct(WeeksOf(roots))
    decreases |roots|
  {
    if roots != [] {
      var init := roots[..|roots| - 1];
      var last := roots[|roots| - 1];
      assert Distinct(init);
      KeepDistinct(init);
      assert last !in init;
      var g := GainsOf(init);
      var w := WeeksOf(init);
      assert Distinct(g + (if IsGainFolder(last) then [last] else [])) by {
        if IsGainFolder(last) { DistinctSnoc(g, last); }
      }
      assert Distinct(w + (if IsWeekFolder(last) then [last] else [])) by {
        if IsWeekFolder(last) { DistinctSnoc(w, last); }
      }
    }
  }

  /** The two tests are made separately on every walked folder: a folder is
      a gain folder exactly when its last component holds a gain pattern, a
      week folder exactly when it holds "wk", whatever the other test says;
      neither list repeats a folder. */
  lemma SubfoldersSpec(d: Disk, env: Env, root: string)
    requires ValidEnv(env)
    ensures forall x :: x in Subfolders(d, env, root).0 <==>
      IsDir(d, root) && (x == root || x in Below(d, root)) && IsGainFolder(x)
    ensures forall x :: x in Subfolders(d, env, root).1 <==>
      IsDir(d, root) && (x == root || x in Below(d, root)) && IsWeekFolder(x)
    ensures Distinct(Subfolders(d, env, root).0) && Distinct(Subfolders(d, env, root).1)
  {
    WalkSpec(d, env, root);
    var roots := Walk(d, env, root);
    if IsDir(d, root) {
      var below := env.list(Below(d, root));
      assert Enumerates(below, Below(d, root));
      assert root !in below by {
        if root in below {
          assert root in Below(d, root);
          JoinPrefixCanon(root);
          assert false;
        }
      }
      DistinctCons(root, below);
    }
    KeepDistinct(roots);
  }

  /** `root` is never strictly below itself. */
  lemma JoinPrefixCanon(root: string)
    ensures |JoinPrefix(root)| >= |root|
  {
  }

  /** The folders named "all" that the builds create are neither kind. */
  lemma AllIsNeither(p: string)
    requires Tail(p) == "all"
    ensures !IsGainFolder(p) && !IsWeekFolder(p)
  {
    assert "all"[0..2] == "al" && "all"[1..3] == "ll";
  }

  /** The tests are independent: a week folder need not be a gain folder
      and vice versa, and one name can be both. */
  lemma ClassificationExamples()
    ensures IsGainFolder("r/biases/1-1x1") && !IsWeekFolder("r/biases/1-1x1")
    ensures IsWeekFolder("r/biases/1-1x1/wk01") && !IsGainFolder("r/biases/1-1x1/wk01")
    ensures IsGainFolder("r/4-1x1wk") && IsWeekFolder("r/4-1x1wk")
  {
    GainNotWeek();
    WeekNotGain();
    GainAndWeek();
  }

  lemma GainNotWeek()
    ensures IsGainFolder("r/biases/1-1x1") && !IsWeekFolder("r/biases/1-1x1")
  {
    TailAfterSlash("r/biases/", "1-1x1");
    assert "r/biases/1-1x1" == "r/biases/" + "1-1x1";
    assert GainAt("1-1x1", 0);
    forall i | 0 <= i <= 3
      ensures !OccursAt("1-1x1", "wk", i)
    {
      assert "1-1x1"[i..i + 2][0] == "1-1x1"[i] != 'w';
    }
  }

  lemma WeekNotGain()
    ensures IsWeekFolder("r/biases/1-1x1/wk01") && !IsGainFolder("r/biases/1-1x1/wk01")
  {
    TailAfterSlash("r/biases/1-1x1/", "wk01");
    assert "r/biases/1-1x1/wk01" == "r/biases/1-1x1/" + "wk01";
    assert OccursAt("wk01", "wk", 0);
  }

  lemma GainAndWeek()
    ensures IsGainFolder("r/4-1x1wk") && IsWeekFolder("r/4-1x1wk")
  {
    TailAfterSlash("r/", "4-1x1wk");
    assert "r/4-1x1wk" == "r/" + "4-1x1wk";
    assert GainAt("4-1x1wk", 0);
    assert "4-1x1wk"[5..7] == "wk";
    assert OccursAt("4-1x1wk", "wk", 5);
  }

  lemma KeepSnoc(roots: seq<string>, i: nat)
    requires i < |roots|
    ensures GainsOf(roots[..i + 1]) == GainsOf(roots[..i]) + (if IsGainFolder(roots[i]) then [roots[i]] else [])
    ensures WeeksOf(roots[..i + 1]) == WeeksOf(roots[..i]) + (if IsWeekFolder(roots[i]) then [roots[i]] else [])
  {
    assert roots[..i + 1][..i] == roots[..i];
  }

  /** `pull_out_subfolders(root_folder)`: one pass over the walk, appending
      to each list as its test succeeds. */
  method PullOutSubfolders(st: Store, env: Env, rootFolder: string) returns (gains: seq<string>, weeks: seq<string>)
    ensures (gains, weeks) == Subfolders(st.View(), env, rootFolder)
  {
    var roots := Walk(st.View(), env, rootFolder);
    gains := [];
    weeks := [];
    var i := 0;
    while i < |roots|
      invariant 0 <= i <= |roots|
      invariant gains == GainsOf(roots[..i]) && weeks == WeeksOf(roots[..i])
    {
      var root := roots[i];
      var tail := Tail(root);
      KeepSnoc(roots, i);
      if Contains(tail, "wk") {
        weeks := weeks + [root];
      }
      if HasGain(tail) {
        gains := gains + [root];
      }
      i := i + 1;
    }
    assert roots[..i] == roots;
  }
}
