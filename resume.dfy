/** Running `make_ref_files` again over the tree a successful run left:
    every build is gated on its output, the folders it creates are all named
    "all", and what it adds is either a product or a copy inside such a
    folder, so no folder changes kind, no week's frame listing changes, and
    nothing is built again -- except the weekdarks that were removed in
    between, which are exactly what is rebuilt. */
module Resume {
  import opened Text
  import opened Paths
  import opened Frames
  import opened Identity
  import opened Disk
  import opened Folders
  import opened Strategy
  import opened RefFiles

  /** `x` lies directly inside a folder named "all". */
  predicate InAllDir(x: string) {
    var t := Tail(x);
    |t| <= |x| && (var p := x[..|x| - |t|]; |p| >= 4 && p[|p| - 4..] == "all/" && (|p| == 4 || p[|p| - 5] == '/'))
  }

  /** `e` is `d` after the gathering and building steps: files, folders and
      calls are only added; each added folder is named "all"; each added file
      is a ".fits" file that is either no raw frame or a copy inside an
      "all" folder. */
  predicate Grows(d: Disk, e: Disk) {
    && d.files <= e.files && d.dirs <= e.dirs && d.log <= e.log
    && (forall x | x in e.dirs && x !in d.dirs :: Tail(x) == "all")
    && (forall x | x in e.files && x !in d.files :: EndsWith(x, Fits) && (!EndsWith(Tail(x), "raw.fits") || InAllDir(x)))
  }

  lemma GrowsTrans(a: Disk, b: Disk, c: Disk)
    requires Grows(a, b) && Grows(b, c)
    ensures Grows(a, c)
  {
  }

  /** A product step is a growth. */
  lemma AddsGrows(d: Disk, e: Disk)
    requires AddsProducts(d, e)
    ensures Grows(d, e)
  {
  }

  /** A path that is no ".fits" file and not named "all" exists after a
      growth exactly when it existed before. */
  lemma ExistsStable(d: Disk, e: Disk, p: string)
    requires Grows(d, e)
    requires p != [] && p[|p| - 1] != '/' && Tail(p) != "all" && !EndsWith(p, Fits)
    ensures PathExists(e, p) == PathExists(d, p)
  {
    assert Canon(p) == p;
  }

  /** What exists stays. */
  lemma ExistsKept(d: Disk, e: Disk, p: string)
    requires d.files <= e.files && d.dirs <= e.dirs
    ensures PathExists(d, p) ==> PathExists(e, p)
  {
  }

  /** `root/biases` and `root/darks` keep their existence. */
  lemma TopFoldersStable(d: Disk, e: Disk, root: string)
    requires Grows(d, e)
    ensures PathExists(e, Join(root, "biases")) == PathExists(d, Join(root, "biases"))
    ensures PathExists(e, Join(root, "darks")) == PathExists(d, Join(root, "darks"))
  {
    assert NoSlash("biases") && NoSlash("darks");
    assert "biases"[1..] == "iases" && "darks" != Fits;
    JoinNamedStable(d, e, root, "biases");
    JoinNamedStable(d, e, root, "darks");
  }

  /** A name other than "all" and not ending in ".fits", joined to a
      directory, keeps its existence. */
  lemma JoinNamedStable(d: Disk, e: Disk, root: string, n: string)
    requires Grows(d, e)
    requires NoSlash(n) && |n| >= |Fits| && n != "all" && !EndsWith(n, Fits)
    ensures PathExists(e, Join(root, n)) == PathExists(d, Join(root, n))
  {
    var p := Join(root, n);
    assert n[0] != '/';
    assert p == JoinPrefix(root) + n;
    TailOfJoin(root, n);
    assert p[|p| - |Fits|..] == n[|n| - |Fits|..];
    ExistsStable(d, e, p);
  }

  /** An added file inside an "all" folder is not inside a week folder. */
  lemma AllDirNotWeek(x: string, w: string)
    requires InAllDir(x) && InDir(x, w)
    ensures Tail(w) == [] || Tail(w) == "all"
  {
    var t := Tail(x);
    TailIsSuffix(x);
    TailNoSlash(x);
    var p := x[..|x| - |t|];
    SplitAtTail(x, t);
    var q := p[..|p| - 4];
    AllSuffix(p, q);
    InDirPrefix(p, t, w);
    JoinPrefixAllTail(q, w);
  }

  lemma SplitAtTail(x: string, t: string)
    requires |t| <= |x| && x[|x| - |t|..] == t
    ensures x == x[..|x| - |t|] + t
  {
  }

  lemma AllSuffix(p: string, q: string)
    requires |p| >= 4 && p[|p| - 4..] == "all/" && (|p| == 4 || p[|p| - 5] == '/') && q == p[..|p| - 4]
    ensures p == q + "all/" && (q == [] || q[|q| - 1] == '/')
  {
    assert p == p[..|p| - 4] + p[|p| - 4..];
  }

  /** A week folder's frame listing is the same after a growth. */
  lemma GlobStable(d: Disk, e: Disk, env: Env, w: string, pat: Pattern)
    requires Grows(d, e) && IsWeekFolder(w)
    ensures Glob(e, env, w, pat) == Glob(d, env, w, pat)
  {
    forall x | x in e.files && InDir(x, w) && Matches(pat, Tail(x))
      ensures x in d.files
    {
      OldInWeek(d, e, w, pat, x);
    }
    GlobSame(d, e, env, w, pat);
  }

  /** A listed file of a week folder after growth was there before. */
  lemma OldInWeek(d: Disk, e: Disk, w: string, pat: Pattern, x: string)
    requires Grows(d, e) && IsWeekFolder(w)
    requires x in e.files && InDir(x, w) && Matches(pat, Tail(x))
    ensures x in d.files
  {
    if x !in d.files {
      MatchesRaw(pat, Tail(x));
      AllDirNotWeek(x, w);
      if Tail(w) == "all" {
        AllIsNeither(w);
      }
      assert false;
    }
  }

  /** A finished week stays finished. */
  lemma DoneStable(d: Disk, e: Disk, env: Env, w: string)
    requires Grows(d, e) && IsWeekFolder(w) && Done(d, env, w)
    ensures Done(e, env, w)
  {
    GlobStable(d, e, env, w, AnyRaw);
  }

  /** Growth keeps the gain folders and the week folders below a root. */
  lemma SubfoldersStable(d: Disk, e: Disk, env: Env, root: string)
    requires ValidEnv(env) && Grows(d, e) && IsDir(d, root)
    ensures forall x :: x in Subfolders(e, env, root).0 <==> x in Subfolders(d, env, root).0
    ensures forall x :: x in Subfolders(e, env, root).1 <==> x in Subfolders(d, env, root).1
  {
    SubfoldersSpec(d, env, root);
    SubfoldersSpec(e, env, root);
    forall x | x in Below(e, root) && x !in Below(d, root)
      ensures !IsGainFolder(x) && !IsWeekFolder(x)
    {
      AllIsNeither(x);
    }
  }

  /** A copy into `<folder>/all` lands inside an "all" folder. */
  lemma DestInAll(x: string, folder: string)
    requires EndsWith(Tail(x), Fits)
    ensures EndsWith(Dest(x, Join(folder, "all")), Fits) && InAllDir(Dest(x, Join(folder, "all")))
  {
    var t := Tail(x);
    TailNoSlash(x);
    assert t[0] != '/';
    AllDirPrefix(folder);
    AllDirFile(JoinPrefix(folder), t);
  }

  lemma AllDirPrefix(folder: string)
    ensures JoinPrefix(Join(folder, "all")) == JoinPrefix(folder) + "all/"
    ensures JoinPrefix(folder) == [] || JoinPrefix(folder)[|JoinPrefix(folder)| - 1] == '/'
  {
    JoinPrefixShape(folder);
    var a := Join(folder, "all");
    assert a == JoinPrefix(folder) + "all";
    assert a[|a| - 1] == 'l';
  }

  lemma AllDirFile(q: string, t: string)
    requires q == [] || q[|q| - 1] == '/'
    requires NoSlash(t) && EndsWith(t, Fits)
    ensures EndsWith(q + "all/" + t, Fits) && InAllDir(q + "all/" + t)
  {
    var p := q + "all/";
    var y := p + t;
    TailAfterSlash(p, t);
    assert y[..|y| - |t|] == p;
    EndsWithAppend(p, t, Fits);
  }

  lemma {:induction false} CopyEachGrows(d: Disk, xs: seq<string>, folder: string)
    requires forall x | x in xs :: EndsWith(Tail(x), Fits)
    ensures Grows(d, CopyEach(d, xs, Join(folder, "all")))
  {
    forall x | x in xs
      ensures EndsWith(Dest(x, Join(folder, "all")), Fits) && InAllDir(Dest(x, Join(folder, "all")))
    {
      DestInAll(x, folder);
    }
  }

  lemma {:induction false} CopyRootsGrowth(d: Disk, env: Env, roots: seq<string>, folder: string)
    requires ValidEnv(env)
    ensures Grows(d, CopyRoots(d, env, roots, Join(folder, "all")))
    decreases |roots|
  {
    var allDir := Join(folder, "all");
    if roots != [] {
      if EndsWith(roots[0], "all") {
        CopyRootsGrowth(d, env, roots[1..], folder);
      } else {
        var d1 := CopyEach(d, Glob(d, env, roots[0], RawSuffix), allDir);
        CopyRootGrows(d, env, roots[0], folder);
        CopyRootsGrowth(d1, env, roots[1..], folder);
        GrowsTrans(d, d1, CopyRoots(d1, env, roots[1..], allDir));
      }
    }
  }

  /** Copying one directory's raw frames into the "all" folder grows the disk. */
  lemma CopyRootGrows(d: Disk, env: Env, root: string, folder: string)
    requires ValidEnv(env)
    ensures Grows(d, CopyEach(d, Glob(d, env, root, RawSuffix), Join(folder, "all")))
  {
    var xs := Glob(d, env, root, RawSuffix);
    GlobSpec(d, env, root, RawSuffix);
    forall x | x in xs
      ensures EndsWith(Tail(x), Fits)
    {
      RawIsFits(Tail(x));
    }
    CopyEachGrows(d, xs, folder);
  }

  lemma RawIsFits(t: string)
    requires EndsWith(t, "_raw.fits")
    ensures EndsWith(t, Fits)
  {
    assert t[|t| - |Fits|..] == t[|t| - 9..][4..];
  }

  /** Gathering grows the disk and logs nothing. */
  lemma GatherGrows(d: Disk, env: Env, folder: string)
    requires ValidEnv(env)
    ensures Grows(d, Gather(d, env, folder))
    ensures Gather(d, env, folder).log == d.log
  {
    var allDir := Join(folder, "all");
    var d1 := if PathExists(d, allDir) then d else WithDir(d, allDir);
    assert Grows(d, d1) by {
      assert NoSlash("all");
      TailOfJoin(folder, "all");
      JoinPrefixShape(folder);
      assert Canon(allDir) == allDir;
    }
    CopyRootsGrowth(d1, env, Walk(d1, env, folder), folder);
    CopyRootsGrows(d1, env, Walk(d1, env, folder), allDir);
    GrowsTrans(d, d1, Gather(d, env, folder));
  }

  /** A builder output that is a ".fits" file and no raw frame. */
  predicate ProductOut(c: Call) {
    EndsWith(c.out, Fits) && !EndsWith(Tail(c.out), "raw.fits")
  }

  lemma BuiltGrows(d: Disk, c: Call)
    requires ProductOut(c)
    ensures Grows(d, Built(d, c))
  {
  }

  /** A file called `<name>.fits`, the character before ".fits" being `c`. */
  lemma BasebiasIsProduct(gain: string)
    ensures EndsWith(BasebiasOf(gain), Fits) && !EndsWith(Tail(BasebiasOf(gain)), "raw.fits")
  {
    var n := "basebias.fits";
    assert n[|n| - 6..] == "s.fits";
    NamedProduct(Join(gain, "all"), n, 's');
  }

  /** Where the basedark goes (line 500). */
  function DarkBasedark(root: string): string {
    Join(Join(Join(root, "darks"), "all"), "basedark.fits")
  }

  lemma BasedarkIsProduct(root: string)
    ensures EndsWith(DarkBasedark(root), Fits) && !EndsWith(Tail(DarkBasedark(root)), "raw.fits")
  {
    var n := "basedark.fits";
    assert n[|n| - 6..] == "k.fits";
    NamedProduct(Join(Join(root, "darks"), "all"), n, 'k');
  }

  /** One gain folder's step grows the disk, leaves its basebias in place,
      and builds nothing when the basebias was there already. */
  lemma BaseBiasGrows(d: Disk, env: Env, gain: string)
    requires ValidEnv(env)
    ensures var e := BaseBias(d, env, gain);
      Grows(d, e) && PathExists(e, BasebiasOf(gain)) && (PathExists(d, BasebiasOf(gain)) ==> e.log == d.log)
  {
    var d1 := Gather(d, env, gain);
    GatherGrows(d, env, gain);
    ExistsKept(d, d1, BasebiasOf(gain));
    if !PathExists(d1, BasebiasOf(gain)) {
      var c := MakeBasebias(Glob(d1, env, Join(gain, "all"), UnderRaw), BasebiasOf(gain));
      BasebiasIsProduct(gain);
      BuiltGrows(d1, c);
      GrowsTrans(d, d1, Built(d1, c));
    }
  }

  lemma {:induction false} BaseBiasesGrows(d: Disk, env: Env, gains: seq<string>, i: nat, bb: Option<string>)
    requires ValidEnv(env)
    ensures var e := BaseBiases(d, env, gains, i, bb).0;
      Grows(d, e) && ((forall j | i <= j < |gains| :: PathExists(d, BasebiasOf(gains[j]))) ==> e.log == d.log)
    decreases |gains| - i
  {
    if i < |gains| {
      var d1 := BaseBias(d, env, gains[i]);
      BaseBiasGrows(d, env, gains[i]);
      BaseBiasesGrows(d1, env, gains, i + 1, Some(BasebiasOf(gains[i])));
      GrowsTrans(d, d1, BaseBiases(d1, env, gains, i + 1, Some(BasebiasOf(gains[i]))).0);
      forall j | i + 1 <= j < |gains|
        ensures PathExists(d, BasebiasOf(gains[j])) ==> PathExists(d1, BasebiasOf(gains[j]))
      {
        ExistsKept(d, d1, BasebiasOf(gains[j]));
      }
    }
  }

  /** After the gain folders' step, each of them has its basebias. */
  lemma {:induction false} BaseBiasesBuilt(d: Disk, env: Env, gains: seq<string>, i: nat, bb: Option<string>, j: nat)
    requires ValidEnv(env) && i <= j < |gains|
    ensures PathExists(BaseBiases(d, env, gains, i, bb).0, BasebiasOf(gains[j]))
    decreases |gains| - i
  {
    var d1 := BaseBias(d, env, gains[i]);
    var e := BaseBiases(d1, env, gains, i + 1, Some(BasebiasOf(gains[i])));
    if j == i {
      BaseBiasGrows(d, env, gains[i]);
      BaseBiasesGrows(d1, env, gains, i + 1, Some(BasebiasOf(gains[i])));
      ExistsKept(d1, e.0, BasebiasOf(gains[i]));
    } else {
      BaseBiasesBuilt(d1, env, gains, i + 1, Some(BasebiasOf(gains[i])), j);
    }
  }

  /** The darks' step grows the disk, leaves the basedark in place, and
      builds nothing when it was there already. */
  lemma BaseDarkGrows(d: Disk, env: Env, root: string)
    requires ValidEnv(env)
    ensures var e := BaseDark(d, env, root);
      Grows(d, e) && PathExists(e, DarkBasedark(root)) && (PathExists(d, DarkBasedark(root)) ==> e.log == d.log)
  {
    var darkFolder := Join(root, "darks");
    var d1 := Gather(d, env, darkFolder);
    GatherGrows(d, env, darkFolder);
    ExistsKept(d, d1, DarkBasedark(root));
    if !PathExists(d1, DarkBasedark(root)) {
      var c := MakeBasedark(Glob(d1, env, Join(darkFolder, "all"), UnderRaw), DarkBasedark(root), DarkBasebias(root));
      BasedarkIsProduct(root);
      BuiltGrows(d1, c);
      GrowsTrans(d, d1, Built(d1, c));
    }
  }

  /** The base stage grows the disk; each gain folder (when `biases/`
      exists) has its basebias and the darks (when `darks/` exists) their
      basedark afterwards; and it builds nothing when all of those were in
      place before. */
  lemma RefBasesGrows(d: Disk, env: Env, root: string)
    requires ValidEnv(env)
    ensures Grows(d, RefBases(d, env, root).0)
    ensures PathExists(d, Join(root, "darks")) ==> PathExists(RefBases(d, env, root).0, DarkBasedark(root))
    ensures
      && (PathExists(d, Join(root, "biases")) ==> forall g | g in Subfolders(d, env, root).0 :: PathExists(d, BasebiasOf(g)))
      && (PathExists(d, Join(root, "darks")) ==> PathExists(d, DarkBasedark(root)))
      ==> RefBases(d, env, root).0.log == d.log
  {
    var gains := Subfolders(d, env, root).0;
    var b := BiasStage(d, env, root);
    if PathExists(d, Join(root, "biases")) {
      BaseBiasesGrows(d, env, gains, 0, None);
    }
    assert Grows(d, b.0);
    TopFoldersStable(d, b.0, root);
    if PathExists(b.0, Join(root, "darks")) {
      BaseDarkGrows(b.0, env, root);
      GrowsTrans(d, b.0, BaseDark(b.0, env, root));
      ExistsKept(d, b.0, DarkBasedark(root));
    }
  }

  lemma RefBasesBuilt(d: Disk, env: Env, root: string, g: string)
    requires ValidEnv(env)
    requires PathExists(d, Join(root, "biases")) && g in Subfolders(d, env, root).0
    ensures PathExists(RefBases(d, env, root).0, BasebiasOf(g))
  {
    var gains := Subfolders(d, env, root).0;
    var j :| 0 <= j < |gains| && gains[j] == g;
    BaseBiasesBuilt(d, env, gains, 0, None, j);
    var b := BiasStage(d, env, root);
    if PathExists(b.0, Join(root, "darks")) {
      BaseDarkGrows(b.0, env, root);
      ExistsKept(b.0, BaseDark(b.0, env, root), BasebiasOf(g));
    }
  }

  /** Every call made between `d` and `e` builds a weekdark listed in `removed`. */
  predicate OnlyRebuilds(d: Disk, e: Disk, removed: set<string>) {
    |d.log| <= |e.log| && forall k | |d.log| <= k < |e.log| :: e.log[k].MakeWeekdark? && e.log[k].out in removed
  }

  lemma OnlyRebuildsTrans(a: Disk, b: Disk, c: Disk, removed: set<string>)
    requires b.log <= c.log && OnlyRebuilds(a, b, removed) && OnlyRebuilds(b, c, removed)
    ensures OnlyRebuilds(a, c, removed)
  {
    forall k | |a.log| <= k < |b.log|
      ensures c.log[k] == b.log[k]
    {
    }
  }

  /** What a week needs on the next run: either it is finished, or it is a
      dark week whose frames are there and whose weekdark was removed. */
  predicate Pending(d: Disk, env: Env, w: string, removed: set<string>) {
    IsWeekFolder(w)
    && (Done(d, env, w)
        || (!Contains(w, "/biases/") && Contains(w, "/darks/")
            && Keys(Glob(d, env, w, AnyRaw), env.cat).Some? && WeekdarkOf(w) in removed))
  }

  lemma PendingStable(d: Disk, e: Disk, env: Env, w: string, removed: set<string>)
    requires Grows(d, e) && Pending(d, env, w, removed)
    ensures Pending(e, env, w, removed)
  {
    GlobStable(d, e, env, w, AnyRaw);
    if Done(d, env, w) {
      DoneStable(d, e, env, w);
    }
  }

  /** One week on the next run: no error, the week finished afterwards, and
      at most its removed weekdark rebuilt. */
  lemma RefWeekRedo(d: Disk, env: Env, root: string, bb: Option<string>, w: string, removed: set<string>)
    requires Pending(d, env, w, removed)
    ensures var r := RefWeek(d, env, root, bb, w);
      r.1.None? && Grows(d, r.0) && Done(r.0, env, w) && OnlyRebuilds(d, r.0, removed)
      && (removed == {} ==> r.0 == d)
  {
    RefWeekGates(d, env, root, bb, w);
    RefWeekRawSame(d, env, root, bb, w);
    var r := RefWeek(d, env, root, bb, w);
    AddsGrows(d, r.0);
    if !Done(d, env, w) {
      var raw := Glob(d, env, w, AnyRaw);
      assert r.0 == DarkWeek(d, root, w, raw);
      assert !PathExists(d, WeekdarkOf(w));
    }
  }

  /** The week steps only grow the disk. */
  lemma {:induction false} RefWeeksGrows(d: Disk, env: Env, root: string, bb: Option<string>, weeks: seq<string>, i: nat)
    ensures Grows(d, RefWeeksFrom(d, env, root, bb, weeks, i).0)
    decreases |weeks| - i
  {
    if i < |weeks| {
      var r := RefWeek(d, env, root, bb, weeks[i]);
      RefWeekRawSame(d, env, root, bb, weeks[i]);
      AddsGrows(d, r.0);
      if r.1.None? {
        RefWeeksGrows(r.0, env, root, bb, weeks, i + 1);
        GrowsTrans(d, r.0, RefWeeksFrom(r.0, env, root, bb, weeks, i + 1).0);
      }
    }
  }

  /** After a successful week stage every week folder from `i` on is
      finished. */
  lemma {:induction false} RefWeeksDone(d: Disk, env: Env, root: string, bb: Option<string>, weeks: seq<string>, i: nat, j: nat)
    requires i <= j < |weeks| && IsWeekFolder(weeks[j])
    requires RefWeeksFrom(d, env, root, bb, weeks, i).1.None?
    ensures Done(RefWeeksFrom(d, env, root, bb, weeks, i).0, env, weeks[j])
    decreases |weeks| - i
  {
    var r := RefWeek(d, env, root, bb, weeks[i]);
    RefWeekGates(d, env, root, bb, weeks[i]);
    if j == i {
      RefWeeksGrows(r.0, env, root, bb, weeks, i + 1);
      DoneStable(r.0, RefWeeksFrom(r.0, env, root, bb, weeks, i + 1).0, env, weeks[i]);
    } else {
      RefWeeksDone(r.0, env, root, bb, weeks, i + 1, j);
    }
  }

  /** The week stage over weeks that are all finished or awaiting their
      removed weekdark: no error, and only those weekdarks are built. */
  lemma {:induction false} RefWeeksRedo(d: Disk, env: Env, root: string, bb: Option<string>, weeks: seq<string>, i: nat, removed: set<string>)
    requires forall j | i <= j < |weeks| :: Pending(d, env, weeks[j], removed)
    ensures var r := RefWeeksFrom(d, env, root, bb, weeks, i);
      r.1.None? && Grows(d, r.0) && OnlyRebuilds(d, r.0, removed)
      && (removed == {} ==> r.0 == d)
    decreases |weeks| - i
  {
    if i < |weeks| {
      var r := RefWeek(d, env, root, bb, weeks[i]);
      RefWeekRedo(d, env, root, bb, weeks[i], removed);
      forall j | i + 1 <= j < |weeks|
        ensures Pending(r.0, env, weeks[j], removed)
      {
        PendingStable(d, r.0, env, weeks[j], removed);
      }
      RefWeeksRedo(r.0, env, root, bb, weeks, i + 1, removed);
      var e := RefWeeksFrom(r.0, env, root, bb, weeks, i + 1);
      GrowsTrans(d, r.0, e.0);
      OnlyRebuildsTrans(d, r.0, e.0, removed);
    }
  }

  /** The proposal and the week read from a folder name hold no '/'. */
  lemma InfoNoSlash(folder: string)
    ensures NoSlash(PullInfo(folder).proposal) && NoSlash(PullInfo(folder).week)
  {
    ProposalDigits(folder);
    DigitsNoSlash(PullInfo(folder).proposal);
    if PullInfo(folder).week != "" {
      PullInfoWeekShape(folder);
      WeekShapeNoSlash(PullInfo(folder).week);
    }
  }

  /** A string of the week's shape holds no '/'. */
  lemma WeekShapeNoSlash(w: string)
    requires WeekShape(w)
    ensures NoSlash(w)
  {
    forall k | 0 <= k < |w|
      ensures w[k] != '/'
    {
      if |w| - 4 <= k < |w| - 1 {
        assert w[k] == w[|w| - 4..|w| - 1][k - (|w| - 4)];
      }
    }
  }

  lemma DigitsNoSlash(s: string)
    requires AllDigits(s)
    ensures NoSlash(s)
  {
    forall i | 0 <= i < |s|
      ensures s[i] != '/'
    {
      assert IsDigit(s[i]);
    }
  }

  /** A product's last component is its own name. */
  lemma ProductTail(kind: string, folder: string)
    requires kind != [] && kind[0] != '/' && NoSlash(kind)
    ensures Tail(Join(folder, RefName(kind, PullInfo(folder)))) == RefName(kind, PullInfo(folder))
    ensures |RefName(kind, PullInfo(folder))| > |kind| && RefName(kind, PullInfo(folder))[..|kind|] == kind
  {
    InfoNoSlash(folder);
    RefNameNoSlash(kind, PullInfo(folder));
    TailOfJoin(folder, RefName(kind, PullInfo(folder)));
  }

  lemma RefNameNoSlash(kind: string, info: Info)
    requires NoSlash(kind) && NoSlash(info.proposal) && NoSlash(info.week)
    ensures NoSlash(RefName(kind, info))
    ensures |RefName(kind, info)| > |kind| && RefName(kind, info)[..|kind|] == kind
  {
    var rest := "_" + info.proposal + "_" + info.week + Fits;
    assert NoSlash(rest);
    assert RefName(kind, info) == kind + rest;
  }

  /** The weekdarks of the folders in `w`. */
  function Removed(w: set<string>): set<string> {
    set f | f in w :: WeekdarkOf(f)
  }

  /** `d` with the weekdarks of the folders in `w` deleted. */
  function Remove(d: Disk, w: set<string>): Disk {
    d.(files := d.files - Removed(w))
  }

  /** A weekdark is a ".fits" file named "weekdark...", no raw frame. */
  lemma WeekdarkShape(f: string)
    ensures EndsWith(WeekdarkOf(f), Fits) && !EndsWith(Tail(WeekdarkOf(f)), "raw.fits")
    ensures |Tail(WeekdarkOf(f))| > 8 && Tail(WeekdarkOf(f))[..8] == "weekdark"
  {
    ProductNotRaw("weekdark", f);
    assert NoSlash("weekdark");
    ProductTail("weekdark", f);
  }

  lemma RemovedShape(x: string, w: set<string>)
    requires x in Removed(w)
    ensures EndsWith(x, Fits) && !EndsWith(Tail(x), "raw.fits")
    ensures |Tail(x)| > 8 && Tail(x)[..8] == "weekdark"
  {
    var f :| f in w && x == WeekdarkOf(f);
    WeekdarkShape(f);
  }

  /** A path whose last component is not named "weekdark..." is never removed. */
  lemma NotRemoved(p: string, w: set<string>)
    requires |Tail(p)| <= 8 || Tail(p)[..8] != "weekdark"
    ensures p !in Removed(w)
  {
    if p in Removed(w) {
      RemovedShape(p, w);
    }
  }

  /** A file named other than "weekdark..." is never removed. */
  lemma NamedKept(dir: string, n: string, w: set<string>)
    requires NoSlash(n) && |n| > 8 && n[..8] != "weekdark"
    ensures Join(dir, n) !in Removed(w)
  {
    TailOfJoin(dir, n);
    NotRemoved(Join(dir, n), w);
  }

  /** The gates of the base stage and of bias weeks are never removed. */
  lemma BasesKept(w: set<string>, root: string, g: string)
    ensures BasebiasOf(g) !in Removed(w) && DarkBasedark(root) !in Removed(w)
  {
    var b := "basebias.fits";
    var k := "basedark.fits";
    assert NoSlash(b) && b[..8] == "basebias";
    assert NoSlash(k) && k[..8] == "basedark";
    NamedKept(Join(g, "all"), b, w);
    NamedKept(Join(Join(root, "darks"), "all"), k, w);
  }

  lemma BiasProductsKept(w: set<string>, f: string)
    ensures RefbiasOf(f) !in Removed(w) && WeekbiasOf(f) !in Removed(w)
  {
    RefbiasKept(w, f);
    WeekbiasKept(w, f);
  }

  lemma RefbiasKept(w: set<string>, f: string)
    ensures RefbiasOf(f) !in Removed(w)
  {
    assert NoSlash("refbias");
    ProductTail("refbias", f);
    var r := Tail(RefbiasOf(f));
    assert r[..7] == "refbias";
    assert r[0] == 'r';
    NotRemoved(RefbiasOf(f), w);
  }

  lemma WeekbiasKept(w: set<string>, f: string)
    ensures WeekbiasOf(f) !in Removed(w)
  {
    assert NoSlash("weekbias");
    ProductTail("weekbias", f);
    var b := Tail(WeekbiasOf(f));
    assert b[..8] == "weekbias";
    NotRemoved(WeekbiasOf(f), w);
  }

  /** A removed file is a ".fits" file; the top folders are not. */
  lemma TopFoldersKept(w: set<string>, root: string)
    ensures Join(root, "biases") !in Removed(w) && Join(root, "darks") !in Removed(w)
  {
    var b := Join(root, "biases");
    var k := Join(root, "darks");
    assert b[|b| - 5..] == "iases";
    assert k[|k| - 5..] == "darks";
    if b in Removed(w) { RemovedShape(b, w); }
    if k in Removed(w) { RemovedShape(k, w); }
  }

  /** Deleting weekdarks changes no folder and no frame listing. */
  lemma RemoveKeeps(d: Disk, env: Env, w: set<string>, root: string, f: string)
    ensures Subfolders(Remove(d, w), env, root) == Subfolders(d, env, root)
    ensures Glob(Remove(d, w), env, f, AnyRaw) == Glob(d, env, f, AnyRaw)
    ensures Remove(d, w).log == d.log && Remove(d, w).dirs == d.dirs
  {
    var e := Remove(d, w);
    assert Below(e, root) == Below(d, root);
    var a := set x | x in d.files && InDir(x, f) && Matches(AnyRaw, Tail(x));
    var b := set x | x in e.files && InDir(x, f) && Matches(AnyRaw, Tail(x));
    forall x | x in a
      ensures x in b
    {
      if x in Removed(w) {
        RemovedShape(x, w);
        MatchesRaw(AnyRaw, Tail(x));
      }
    }
    assert a == b;
  }

  /** A week finished before the deletion is pending after it: finished
      still, unless it is a dark week whose weekdark was deleted. */
  lemma PendingAfterRemove(d: Disk, env: Env, f: string, w: set<string>)
    requires IsWeekFolder(f) && Done(d, env, f)
    ensures Pending(Remove(d, w), env, f, Removed(w))
  {
    var e := Remove(d, w);
    RemoveKeeps(d, env, w, "", f);
    BiasProductsKept(w, f);
  }

  /** What a successful first run leaves behind, relative to the disk `s`
      after its first stage. */
  predicate AfterFirstRun(s: Disk, r: Disk, env: Env, root: string) {
    && Subfolders(s, env, root).0 != [] && Subfolders(s, env, root).1 != []
    && Grows(s, r) && IsDir(s, root)
    && (forall f | f in Subfolders(s, env, root).1 :: IsWeekFolder(f) && Done(r, env, f))
    && (PathExists(s, Join(root, "biases")) ==> forall g | g in Subfolders(s, env, root).0 :: PathExists(r, BasebiasOf(g)))
    && (PathExists(s, Join(root, "darks")) ==> PathExists(r, DarkBasedark(root)))
  }

  /** A successful run whose folder lists were not empty after the first
      stage leaves every week folder finished and every base product in
      place, having only grown the disk since that stage. */
  lemma FirstRun(d: Disk, env: Env, root: string)
    requires ValidEnv(env)
    requires RefStageOne(d, env, root).1.None?
    requires var s := RefStageOne(d, env, root).0; Subfolders(s, env, root).0 != [] && Subfolders(s, env, root).1 != []
    requires RefFilesSpec(d, env, root).1.None?
    ensures AfterFirstRun(RefStageOne(d, env, root).0, RefFilesSpec(d, env, root).0, env, root)
  {
    var s := RefStageOne(d, env, root).0;
    var weeks := Subfolders(s, env, root).1;
    var b := RefBases(s, env, root);
    var r := RefWeeksFrom(b.0, env, root, b.1, weeks, 0);
    assert RefFilesSpec(d, env, root) == r;
    RefBasesGrows(s, env, root);
    RefWeeksGrows(b.0, env, root, b.1, weeks, 0);
    GrowsTrans(s, b.0, r.0);
    SubfoldersSpec(s, env, root);
    assert weeks[0] in weeks;
    WeeksAllDone(b.0, env, root, b.1, weeks);
    forall g | PathExists(s, Join(root, "biases")) && g in Subfolders(s, env, root).0
      ensures PathExists(r.0, BasebiasOf(g))
    {
      RefBasesBuilt(s, env, root, g);
      ExistsKept(b.0, r.0, BasebiasOf(g));
    }
    ExistsKept(b.0, r.0, DarkBasedark(root));
  }

  /** The next run's first stage finds the folders and separates nothing;
      it sees the same gain and week folders as the first run did. */
  lemma RerunStageOne(s: Disk, r: Disk, env: Env, root: string, w: set<string>)
    requires ValidEnv(env) && AfterFirstRun(s, r, env, root)
    ensures RefStageOne(Remove(r, w), env, root) == (Remove(r, w), None)
    ensures forall x :: x in Subfolders(Remove(r, w), env, root).0 <==> x in Subfolders(s, env, root).0
    ensures forall x :: x in Subfolders(Remove(r, w), env, root).1 <==> x in Subfolders(s, env, root).1
  {
    var e := Remove(r, w);
    RemoveKeeps(r, env, w, root, root);
    SubfoldersStable(s, r, env, root);
    var lists := Subfolders(e, env, root);
    assert Subfolders(s, env, root).0[0] in lists.0;
    assert Subfolders(s, env, root).1[0] in lists.1;
  }

  /** The next run's base stage builds nothing. */
  lemma RerunBases(s: Disk, r: Disk, env: Env, root: string, w: set<string>)
    requires ValidEnv(env) && AfterFirstRun(s, r, env, root)
    ensures Grows(Remove(r, w), RefBases(Remove(r, w), env, root).0)
    ensures RefBases(Remove(r, w), env, root).0.log == r.log
  {
    var e := Remove(r, w);
    RerunStageOne(s, r, env, root, w);
    RemoveKeeps(r, env, w, root, root);
    TopFoldersStable(s, r, root);
    TopFoldersKept(w, root);
    BasesKept(w, root, "");
    forall g | PathExists(e, Join(root, "biases")) && g in Subfolders(e, env, root).0
      ensures PathExists(e, BasebiasOf(g))
    {
      BasesKept(w, root, g);
    }
    RefBasesGrows(e, env, root);
  }

  /** The next run as a whole, from what the first run left. */
  lemma RerunFrom(s: Disk, r: Disk, env: Env, root: string, w: set<string>)
    requires ValidEnv(env) && AfterFirstRun(s, r, env, root)
    ensures var e := Remove(r, w);
      var r2 := RefFilesSpec(e, env, root);
      && r2.1.None? && e.log <= r2.0.log && OnlyRebuilds(e, r2.0, Removed(w))
      && (w == {} ==> r2.0.log == e.log)
      && forall f | f in Subfolders(s, env, root).1 :: Done(r2.0, env, f)
  {
    if w == {} {
      assert Removed(w) == {};
    }
    var e := Remove(r, w);
    RerunStageOne(s, r, env, root, w);
    RerunBases(s, r, env, root, w);
    RemoveKeeps(r, env, w, root, root);
    var weeks := Subfolders(e, env, root).1;
    var b := RefBases(e, env, root);
    RerunPending(s, r, env, root, w);
    RefWeeksRedo(b.0, env, root, b.1, weeks, 0, Removed(w));
    var r2 := RefWeeksFrom(b.0, env, root, b.1, weeks, 0);
    assert RefFilesSpec(e, env, root) == r2;
    OnlyRebuildsTrans(e, b.0, r2.0, Removed(w));
    RerunDone(s, r, env, root, w);
  }

  /** After the removal and the base stage, every week folder is pending. */
  lemma RerunPending(s: Disk, r: Disk, env: Env, root: string, w: set<string>)
    requires ValidEnv(env) && AfterFirstRun(s, r, env, root)
    ensures var e := Remove(r, w);
      var weeks := Subfolders(e, env, root).1;
      forall j | 0 <= j < |weeks| :: Pending(RefBases(e, env, root).0, env, weeks[j], Removed(w))
  {
    var e := Remove(r, w);
    RerunStageOne(s, r, env, root, w);
    RerunBases(s, r, env, root, w);
    var weeks := Subfolders(e, env, root).1;
    var b := RefBases(e, env, root);
    forall j | 0 <= j < |weeks|
      ensures Pending(b.0, env, weeks[j], Removed(w))
    {
      PendingAfterRemove(r, env, weeks[j], w);
      PendingStable(e, b.0, env, weeks[j], Removed(w));
    }
  }

  /** A week stage that succeeds after the removal leaves every week folder
      finished. */
  lemma RerunDone(s: Disk, r: Disk, env: Env, root: string, w: set<string>)
    requires ValidEnv(env) && AfterFirstRun(s, r, env, root)
    requires var e := Remove(r, w); var b := RefBases(e, env, root);
      RefWeeksFrom(b.0, env, root, b.1, Subfolders(e, env, root).1, 0).1.None?
    ensures var e := Remove(r, w); var b := RefBases(e, env, root);
      forall f | f in Subfolders(s, env, root).1 ::
        Done(RefWeeksFrom(b.0, env, root, b.1, Subfolders(e, env, root).1, 0).0, env, f)
  {
    var e := Remove(r, w);
    RerunStageOne(s, r, env, root, w);
    var weeks := Subfolders(e, env, root).1;
    var b := RefBases(e, env, root);
    forall f | f in Subfolders(s, env, root).1
      ensures Done(RefWeeksFrom(b.0, env, root, b.1, weeks, 0).0, env, f)
    {
      var j :| 0 <= j < |weeks| && weeks[j] == f;
      RefWeeksDone(b.0, env, root, b.1, weeks, 0, j);
    }
  }

  /** Lines 418-592 run twice: after a successful run (whose folder lists
      were not empty once separated), deleting the weekdarks of any folders
      and running again raises nothing, builds nothing but weekdarks among
      those deleted, and leaves every week folder finished -- so each
      deleted weekdark of a dark week is built again. */
  lemma RerunAfterRemovingWeekdarks(d: Disk, env: Env, root: string, w: set<string>)
    requires ValidEnv(env)
    requires RefStageOne(d, env, root).1.None?
    requires var s := RefStageOne(d, env, root).0; Subfolders(s, env, root).0 != [] && Subfolders(s, env, root).1 != []
    requires RefFilesSpec(d, env, root).1.None?
    ensures var e := Remove(RefFilesSpec(d, env, root).0, w);
      var r := RefFilesSpec(e, env, root);
      && r.1.None? && e.log <= r.0.log && OnlyRebuilds(e, r.0, Removed(w))
      && forall f | f in Subfolders(RefStageOne(d, env, root).0, env, root).1 :: Done(r.0, env, f)
  {
    FirstRun(d, env, root);
    RerunFrom(RefStageOne(d, env, root).0, RefFilesSpec(d, env, root).0, env, root, w);
  }

  /** A week stage that succeeds leaves each of its week folders finished. */
  lemma WeeksAllDone(d: Disk, env: Env, root: string, bb: Option<string>, weeks: seq<string>)
    requires forall f | f in weeks :: IsWeekFolder(f)
    requires RefWeeksFrom(d, env, root, bb, weeks, 0).1.None?
    ensures forall f | f in weeks :: Done(RefWeeksFrom(d, env, root, bb, weeks, 0).0, env, f)
  {
    forall f | f in weeks
      ensures Done(RefWeeksFrom(d, env, root, bb, weeks, 0).0, env, f)
    {
      var j :| 0 <= j < |weeks| && weeks[j] == f;
      RefWeeksDone(d, env, root, bb, weeks, 0, j);
    }
  }

  /** Deleting nothing changes nothing. */
  lemma RemoveNothing(d: Disk)
    ensures Removed({}) == {} && Remove(d, {}) == d
  {
    assert Removed({}) == {};
  }

  /** A second run over the tree a successful first run left makes no
      builder call at all and raises nothing. */
  lemma SecondRunBuildsNothing(d: Disk, env: Env, root: string)
    requires ValidEnv(env)
    requires RefStageOne(d, env, root).1.None?
    requires var s := RefStageOne(d, env, root).0; Subfolders(s, env, root).0 != [] && Subfolders(s, env, root).1 != []
    requires RefFilesSpec(d, env, root).1.None?
    ensures var r1 := RefFilesSpec(d, env, root).0;
      RefFilesSpec(r1, env, root).1.None? && RefFilesSpec(r1, env, root).0.log == r1.log
  {
    var s := RefStageOne(d, env, root).0;
    var r1 := RefFilesSpec(d, env, root).0;
    FirstRun(d, env, root);
    RemoveNothing(r1);
    RerunFrom(s, r1, env, root, {});
  }
}
