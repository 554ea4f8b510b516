/** `make_ref_files(root_folder)`: separate the frames of an anneal month
    if the week folders are not there yet, gather each gain folder's and the
    darks' raw files into `all/` for the base products, then build each
    week's refbias, weekbias and weekdark unless they exist. */
module RefFiles {
  import opened Text
  import opened Paths
  import opened Frames
  import opened Identity
  import opened Periods
  import opened Disk
  import opened Folders
  import opened Separate
  import opened Strategy

  /** `'<kind>_%s_%s.fits' % (proposal, wk)` */
  function RefName(kind: string, info: Info): string {
    kind + "_" + info.proposal + "_" + info.week + Fits
  }

  /** Python's `s.split(c)`: the pieces between occurrences of `c`. */
  function SplitOn(s: string, c: char): (r: seq<string>)
    ensures |r| >= 1
  {
    if s == [] then [""]
    else
      var rest := SplitOn(s[1..], c);
      if s[0] == c then [""] + rest else [[s[0]] + rest[0]] + rest[1..]
  }

  /** `c.join(parts)` */
  function JoinOn(parts: seq<string>, c: char): string
    requires |parts| >= 1
  {
    if |parts| == 1 then parts[0] else parts[0] + [c] + JoinOn(parts[1..], c)
  }

  /** Splitting loses nothing: joining the pieces again gives the string. */
  lemma {:induction false} SplitJoin(s: string, c: char)
    ensures JoinOn(SplitOn(s, c), c) == s
  {
    if s != [] {
      SplitJoin(s[1..], c);
      var rest := SplitOn(s[1..], c);
      if s[0] != c {
        var r := [[s[0]] + rest[0]] + rest[1..];
        if |rest| == 1 {
          assert r == [[s[0]] + rest[0]];
        } else {
          assert r[1..] == rest[1..];
        }
      }
    }
  }

  predicate NoChar(s: string, c: char) {
    forall j | 0 <= j < |s| :: s[j] != c
  }

  /** A character other than the separator joins the first piece. */
  lemma SplitOnCons(x: char, s: string, c: char)
    requires x != c
    ensures SplitOn([x] + s, c) == [[x] + SplitOn(s, c)[0]] + SplitOn(s, c)[1..]
  {
    assert ([x] + s)[1..] == s;
  }

  /** The piece counts that `proposal_id, anneal_id = ...split('_')` accepts:
      exactly one '_'. */
  lemma {:induction false} SplitOnTwo(a: string, b: string)
    requires NoChar(a, '_') && NoChar(b, '_')
    ensures SplitOn(a + "_" + b, '_') == [a, b]
    decreases |a|
  {
    if a == [] {
      assert a + "_" + b == ['_'] + b;
      assert (['_'] + b)[1..] == b;
      NoSplit(b);
    } else {
      assert NoChar(a[1..], '_') by {
        forall j | 0 <= j < |a| - 1 ensures a[1..][j] != '_' { assert a[1..][j] == a[j + 1]; }
      }
      SplitOnTwo(a[1..], b);
      assert a + "_" + b == [a[0]] + (a[1..] + "_" + b);
      SplitOnCons(a[0], a[1..] + "_" + b, '_');
      assert [a[0]] + a[1..] == a;
    }
  }

  lemma {:induction false} NoSplit(b: string)
    requires NoChar(b, '_')
    ensures SplitOn(b, '_') == [b]
    decreases |b|
  {
    if b != [] {
      assert NoChar(b[1..], '_') by {
        forall j | 0 <= j < |b| - 1 ensures b[1..][j] != '_' { assert b[1..][j] == b[j + 1]; }
      }
      NoSplit(b[1..]);
      assert b == [b[0]] + b[1..];
    }
  }

  /** Lines 448-452: the anneal month named by the root folder's
      "<proposal>_<visit>", and the frames directly in the root sorted into
      week folders by `separate_obs`. */
  function Reseparate(d: Disk, env: Env, root: string): (Disk, Option<Error>)
    requires ValidEnv(env)
  {
    var parts := SplitOn(Tail(env.realpath(root)), '_');
    if |parts| != 2 then (d, Some(BadRootName))
    else match env.anneal(parts[0], parts[1])
      case None => (d, Some(NoAnneal))
      case Some(month) => SeparateObsSpec(d, env, root, month.0, month.1, Glob(d, env, root, UnderRaw))
  }

  /** `shutil.copy` of each file into `dir`, in order. */
  function CopyEach(d: Disk, xs: seq<string>, dir: string): (r: Disk)
    ensures r.files == d.files + (set x | x in xs :: Dest(x, dir))
    ensures r.dirs == d.dirs && r.log == d.log
    decreases |xs|
  {
    if xs == [] then d
    else
      assert forall x :: x in xs <==> x == xs[0] || x in xs[1..];
      CopyEach(Copied(d, xs[0], dir), xs[1..], dir)
  }

  /** Each walked root not ending in "all" has its `_raw.fits` files copied
      into `allDir`, the listing taken when the root is reached. */
  function CopyRoots(d: Disk, env: Env, roots: seq<string>, allDir: string): Disk
    decreases |roots|
  {
    if roots == [] then d
    else if EndsWith(roots[0], "all") then CopyRoots(d, env, roots[1..], allDir)
    else CopyRoots(CopyEach(d, Glob(d, env, roots[0], RawSuffix), allDir), env, roots[1..], allDir)
  }

  /** Lines 462-470 (and 484-493): `all/` made if missing, then filled. */
  function Gather(d: Disk, env: Env, folder: string): Disk {
    var allDir := Join(folder, "all");
    var d1 := if PathExists(d, allDir) then d else WithDir(d, allDir);
    CopyRoots(d1, env, Walk(d1, env, folder), allDir)
  }

  /** Lines 460-477: a basebias per gain folder from its `all/` files, each
      in turn becoming `basebias_name`. */
  function BaseBiases(d: Disk, env: Env, gains: seq<string>, i: nat, bb: Option<string>): (Disk, Option<string>)
    decreases |gains| - i
  {
    if i >= |gains| then (d, bb)
    else
      BaseBiases(BaseBias(d, env, gains[i]), env, gains, i + 1, Some(BasebiasOf(gains[i])))
  }

  /** Where a gain folder's basebias goes (line 473). */
  function BasebiasOf(gain: string): string {
    Join(Join(gain, "all"), "basebias.fits")
  }

  /** Lines 461-477 for one gain folder: gather, then build unless present. */
  function BaseBias(d: Disk, env: Env, gain: string): Disk {
    var d1 := Gather(d, env, gain);
    var name := BasebiasOf(gain);
    if PathExists(d1, name) then d1 else Built(d1, MakeBasebias(Glob(d1, env, Join(gain, "all"), UnderRaw), name))
  }

  /** The basebias the darks are made against (lines 497-499). */
  function DarkBasebias(root: string): string {
    Join(Join(root, "biases/1-1x1/all/"), "basebias.fits")
  }

  /** Lines 484-506: the basedark from the darks' `all/` files. */
  function BaseDark(d: Disk, env: Env, root: string): Disk {
    var darkFolder := Join(root, "darks");
    var allDir := Join(darkFolder, "all");
    var d1 := Gather(d, env, darkFolder);
    var name := Join(allDir, "basedark.fits");
    if PathExists(d1, name) then d1 else Built(d1, MakeBasedark(Glob(d1, env, allDir, UnderRaw), name, DarkBasebias(root)))
  }

  /** The refbias a weekdark is made against (lines 583-586). */
  function WeekdarkBias(root: string, info: Info): string {
    Join(Join(Join(root, "biases/1-1x1"), info.week), RefName("refbias", info))
  }

  /** The basedark a weekdark is made against (lines 587-588). */
  function WeekdarkBasedark(folder: string, info: Info): string {
    Join(ReplaceAll(folder, info.week, "all"), "basedark.fits")
  }

  /** The products `make_ref_files` gates a week folder's work on. */
  function RefbiasOf(folder: string): string {
    Join(folder, RefName("refbias", PullInfo(folder)))
  }

  function WeekbiasOf(folder: string): string {
    Join(folder, RefName("weekbias", PullInfo(folder)))
  }

  function WeekdarkOf(folder: string): string {
    Join(folder, RefName("weekdark", PullInfo(folder)))
  }

  /** Lines 548-574: a bias week's refbias, then its weekbias when below
      the threshold, each unless it exists. */
  function BiasWeek(d: Disk, env: Env, bb: Option<string>, folder: string, raw: seq<string>, thr: nat): (Disk, Option<Error>) {
    var d1 := RefbiasStep(d, env, folder, raw);
    if !WantsWeekbias(Imsets(raw, env.cat), thr) then (d1, None) else WeekbiasStep(d1, bb, folder, raw)
  }

  /** Lines 548-566: the refbias unless it exists, split above 120 imsets. */
  function RefbiasStep(d: Disk, env: Env, folder: string, raw: seq<string>): Disk {
    var rb := RefbiasOf(folder);
    if PathExists(d, rb) then d else BuiltAll(d, RefbiasCalls(raw, env.cat, Imsets(raw, env.cat), rb))
  }

  /** Lines 568-574: the weekbias unless it exists; it needs a basebias name. */
  function WeekbiasStep(d: Disk, bb: Option<string>, folder: string, raw: seq<string>): (Disk, Option<Error>) {
    var wb := WeekbiasOf(folder);
    if PathExists(d, wb) then (d, None)
    else if bb.None? then (d, Some(NoBasebiasName))
    else (Built(d, MakeRefbias(raw, wb, bb)), None)
  }

  /** Lines 576-592: a dark week's weekdark unless it exists. */
  function DarkWeek(d: Disk, root: string, folder: string, raw: seq<string>): Disk {
    var info := PullInfo(folder);
    var wd := WeekdarkOf(folder);
    if PathExists(d, wd) then d
    else Built(d, MakeWeekdark(raw, wd, WeekdarkBasedark(folder, info), WeekdarkBias(root, info)))
  }

  /** Lines 511-592 for one week folder: the raw frames and their keywords
      are read first, then the folder's kind decides. */
  function RefWeek(d: Disk, env: Env, root: string, bb: Option<string>, folder: string): (Disk, Option<Error>) {
    var raw := Glob(d, env, folder, AnyRaw);
    match Keys(raw, env.cat)
    case None => (d, Some(NoKeyword))
    case Some(k) =>
      if Contains(folder, "/biases/") then
        match Threshold(k.0, k.1, k.2)
        case None => (d, Some(UnknownMode))
        case Some(thr) => BiasWeek(d, env, bb, folder, raw, thr)
      else if Contains(folder, "/darks/") then (DarkWeek(d, root, folder, raw), None)
      else (d, Some(NonConforming(folder)))
  }

  /** The week folders from `i` on, stopping at the first error. */
  function RefWeeksFrom(d: Disk, env: Env, root: string, bb: Option<string>, weeks: seq<string>, i: nat): (Disk, Option<Error>)
    decreases |weeks| - i
  {
    if i >= |weeks| then (d, None)
    else
      var r := RefWeek(d, env, root, bb, weeks[i]);
      if r.1.Some? then r else RefWeeksFrom(r.0, env, root, bb, weeks, i + 1)
  }

  /** The disk before the base products: the root checked, and separated
      first when either folder list is empty. */
  function RefStageOne(d: Disk, env: Env, root: string): (Disk, Option<Error>)
    requires ValidEnv(env)
  {
    if !PathExists(d, root) then (d, Some(RootMissing))
    else
      var lists := Subfolders(d, env, root);
      if lists.0 == [] || lists.1 == [] then Reseparate(d, env, root) else (d, None)
  }

  /** Lines 457-479: the basebiases, when `biases/` exists. */
  function BiasStage(d: Disk, env: Env, root: string): (Disk, Option<string>) {
    if PathExists(d, Join(root, "biases")) then BaseBiases(d, env, Subfolders(d, env, root).0, 0, None) else (d, None)
  }

  /** The base products, and the `basebias_name` the weeks then see. */
  function RefBases(d: Disk, env: Env, root: string): (Disk, Option<string>) {
    var b := BiasStage(d, env, root);
    if PathExists(b.0, Join(root, "darks")) then (BaseDark(b.0, env, root), Some(DarkBasebias(root))) else b
  }

  /** `make_ref_files(root_folder)` */
  function RefFilesSpec(d: Disk, env: Env, root: string): (Disk, Option<Error>)
    requires ValidEnv(env)
  {
    var s := RefStageOne(d, env, root);
    if s.1.Some? then s
    else
      var b := RefBases(s.0, env, root);
      RefWeeksFrom(b.0, env, root, b.1, Subfolders(s.0, env, root).1, 0)
  }

  // ---------------------------------------------------------------------
  // Properties

  /** `basebias_name` at the weeks is whichever value was assigned last: the
      darks' fixed path when `darks/` exists, else the last gain folder's
      basebias, else none at all (when there is no `biases/` folder or no
      gain folder). */
  lemma {:induction false} BaseBiasesLast(d: Disk, env: Env, gains: seq<string>, i: nat, bb: Option<string>)
    ensures BaseBiases(d, env, gains, i, bb).1 ==
      if i < |gains| then Some(Join(Join(gains[|gains| - 1], "all"), "basebias.fits")) else bb
    decreases |gains| - i
  {
    if i < |gains| {
      BaseBiasesLast(BaseBias(d, env, gains[i]), env, gains, i + 1, Some(BasebiasOf(gains[i])));
    }
  }

  lemma RefBasesBasebias(d: Disk, env: Env, root: string)
    ensures var gains := Subfolders(d, env, root).0;
      RefBases(d, env, root).1 ==
        if PathExists(BiasStage(d, env, root).0, Join(root, "darks")) then Some(DarkBasebias(root))
        else if PathExists(d, Join(root, "biases")) && gains != [] then Some(Join(Join(gains[|gains| - 1], "all"), "basebias.fits"))
        else None
  {
    BaseBiasesLast(d, env, Subfolders(d, env, root).0, 0, None);
  }

  /** Copying and making directories only add, and log nothing. */
  lemma {:induction false} CopyRootsGrows(d: Disk, env: Env, roots: seq<string>, allDir: string)
    ensures d.files <= CopyRoots(d, env, roots, allDir).files
    ensures CopyRoots(d, env, roots, allDir).dirs == d.dirs
    ensures CopyRoots(d, env, roots, allDir).log == d.log
    decreases |roots|
  {
    if roots != [] {
      if EndsWith(roots[0], "all") {
        CopyRootsGrows(d, env, roots[1..], allDir);
      } else {
        CopyRootsGrows(CopyEach(d, Glob(d, env, roots[0], RawSuffix), allDir), env, roots[1..], allDir);
      }
    }
  }

  /** A `_raw.fits` file directly in a walked root not ending in "all" has
      its copy in `allDir` once the roots are done. */
  lemma {:induction false} CopyRootsFills(d: Disk, env: Env, roots: seq<string>, allDir: string, r: string, x: string)
    requires ValidEnv(env)
    requires r in roots && !EndsWith(r, "all")
    requires x in d.files && InDir(x, r) && Matches(RawSuffix, Tail(x))
    ensures Dest(x, allDir) in CopyRoots(d, env, roots, allDir).files
    decreases |roots|
  {
    if EndsWith(roots[0], "all") {
      CopyRootsFills(d, env, roots[1..], allDir, r, x);
    } else {
      var d1 := CopyEach(d, Glob(d, env, roots[0], RawSuffix), allDir);
      if roots[0] == r {
        GlobSpec(d, env, r, RawSuffix);
        CopyRootsGrows(d1, env, roots[1..], allDir);
      } else {
        CopyRootsFills(d1, env, roots[1..], allDir, r, x);
      }
    }
  }

  /** Lines 466-470: after gathering, `all/` holds a copy of every
      `_raw.fits` file that lay directly in the folder or in a directory
      below it not ending in "all". */
  lemma GatherFills(d: Disk, env: Env, folder: string, r: string, x: string)
    requires ValidEnv(env) && IsDir(d, folder)
    requires r == folder || r in Below(d, folder)
    requires !EndsWith(r, "all")
    requires x in d.files && InDir(x, r) && EndsWith(Tail(x), "_raw.fits")
    ensures Dest(x, Join(folder, "all")) in Gather(d, env, folder).files
  {
    var allDir := Join(folder, "all");
    var d1 := if PathExists(d, allDir) then d else WithDir(d, allDir);
    var below := Below(d1, folder);
    assert Enumerates(env.list(below), below);
    assert r in Walk(d1, env, folder);
    CopyRootsFills(d1, env, Walk(d1, env, folder), allDir, r, x);
  }

  lemma BaseDarkKeeps(d: Disk, env: Env, root: string)
    ensures d.files <= BaseDark(d, env, root).files && d.dirs <= BaseDark(d, env, root).dirs
  {
    var darkFolder := Join(root, "darks");
    var allDir := Join(darkFolder, "all");
    var d1 := if PathExists(d, allDir) then d else WithDir(d, allDir);
    CopyRootsGrows(d1, env, Walk(d1, env, darkFolder), allDir);
  }

  /** Every build of one week is gated on its output: when the week's
      products already exist it changes nothing, and when it succeeds they
      exist afterwards (the refbias and, when below the threshold, the
      weekbias of a bias week; the weekdark of a dark week). */
  lemma RefWeekGates(d: Disk, env: Env, root: string, bb: Option<string>, folder: string)
    ensures var r := RefWeek(d, env, root, bb, folder);
      r.1.None? ==> d.files <= r.0.files && d.dirs == r.0.dirs && Done(r.0, env, folder)
    ensures Done(d, env, folder) ==> RefWeek(d, env, root, bb, folder) == (d, None)
  {
    var raw := Glob(d, env, folder, AnyRaw);
    RefWeekRawSame(d, env, root, bb, folder);
    match Keys(raw, env.cat)
    case None =>
    case Some(k) =>
      if Contains(folder, "/biases/") {
        match Threshold(k.0, k.1, k.2)
        case None =>
        case Some(thr) => BiasWeekGates(d, env, bb, folder, raw, thr);
      } else if Contains(folder, "/darks/") {
        DarkWeekGates(d, root, folder, raw);
      }
  }

  /** A bias week builds only what is missing, and afterwards its refbias
      (and its weekbias, when one is wanted) exists. */
  lemma BiasWeekGates(d: Disk, env: Env, bb: Option<string>, folder: string, raw: seq<string>, thr: nat)
    ensures var r := BiasWeek(d, env, bb, folder, raw, thr);
      r.1.None? ==>
        && d.files <= r.0.files && d.dirs == r.0.dirs && PathExists(r.0, RefbiasOf(folder))
        && (WantsWeekbias(Imsets(raw, env.cat), thr) ==> PathExists(r.0, WeekbiasOf(folder)))
    ensures PathExists(d, RefbiasOf(folder)) && (WantsWeekbias(Imsets(raw, env.cat), thr) ==> PathExists(d, WeekbiasOf(folder)))
      ==> BiasWeek(d, env, bb, folder, raw, thr) == (d, None)
  {
    var rb := RefbiasOf(folder);
    if !PathExists(d, rb) {
      var calls := RefbiasCalls(raw, env.cat, Imsets(raw, env.cat), rb);
      assert rb == calls[|calls| - 1].out;
      assert rb in BuiltAll(d, calls).files;
    }
  }

  /** A dark week builds only a missing weekdark, and afterwards it exists. */
  lemma DarkWeekGates(d: Disk, root: string, folder: string, raw: seq<string>)
    ensures d.files <= DarkWeek(d, root, folder, raw).files && d.dirs == DarkWeek(d, root, folder, raw).dirs
    ensures PathExists(DarkWeek(d, root, folder, raw), WeekdarkOf(folder))
    ensures PathExists(d, WeekdarkOf(folder)) ==> DarkWeek(d, root, folder, raw) == d
  {
  }

  /** A week folder's products are in place: the raw frames are there, the
      mode is in the table for a bias week, and every product the week gates
      on exists. */
  predicate Done(d: Disk, env: Env, folder: string) {
    var raw := Glob(d, env, folder, AnyRaw);
    match Keys(raw, env.cat)
    case None => false
    case Some(k) =>
      if Contains(folder, "/biases/") then
        match Threshold(k.0, k.1, k.2)
        case None => false
        case Some(thr) =>
          PathExists(d, RefbiasOf(folder))
          && (WantsWeekbias(Imsets(raw, env.cat), thr) ==> PathExists(d, WeekbiasOf(folder)))
      else Contains(folder, "/darks/") && PathExists(d, WeekdarkOf(folder))
  }

  /** `os.path.join(a, n)` ends in `n`, whether `n` is relative or absolute. */
  lemma JoinEnds(a: string, n: string)
    ensures EndsWith(Join(a, n), n)
  {
    var j := Join(a, n);
    assert j[|j| - |n|..] == n;
  }

  lemma EndsWithTrans(x: string, y: string, w: string)
    requires EndsWith(x, y) && EndsWith(y, w)
    ensures EndsWith(x, w)
  {
    assert x[|x| - |w|..] == x[|x| - |y|..][|y| - |w|..];
  }

  /** A name ending in a character other than 'w' or '/' and ".fits", put
      in any directory, is a ".fits" file and no raw frame. */
  lemma NamedProduct(a: string, n: string, c: char)
    requires EndsWith(n, [c] + Fits) && c != 'w' && c != '/'
    ensures EndsWith(Join(a, n), Fits) && !EndsWith(Tail(Join(a, n)), "raw.fits")
  {
    JoinEnds(a, n);
    var j := Join(a, n);
    EndsWithTrans(j, n, [c] + Fits);
    EndsWithTrans(j, [c] + Fits, Fits);
    NotRaw(j, c);
  }

  lemma LastThenFits(p: string, c: char)
    requires p != [] && p[|p| - 1] == c
    ensures EndsWith(p + Fits, [c] + Fits)
  {
    var s := p + Fits;
    assert s[|s| - 6..] == [p[|p| - 1]] + Fits;
  }

  /** The character before ".fits" in a product name: the week's last
      digit, or '_' when there is no week. */
  lemma RefNameEnd(kind: string, info: Info) returns (c: char)
    requires info.week != "" ==> IsDigit(info.week[|info.week| - 1])
    ensures EndsWith(RefName(kind, info), [c] + Fits) && c != 'w' && c != '/'
  {
    var w := info.week;
    var stem := kind + "_" + info.proposal + "_" + w;
    assert RefName(kind, info) == stem + Fits;
    c := if w == "" then '_' else w[|w| - 1];
    assert stem[|stem| - 1] == c;
    LastThenFits(stem, c);
  }

  /** A product name never matches `*raw.fits`: the character before
      ".fits" is the week's last digit, or '_' when there is no week. */
  lemma ProductNotRaw(kind: string, folder: string)
    ensures EndsWith(Join(folder, RefName(kind, PullInfo(folder))), Fits)
    ensures !EndsWith(Tail(Join(folder, RefName(kind, PullInfo(folder)))), "raw.fits")
  {
    if PullInfo(folder).week != "" {
      PullInfoWeekShape(folder);
    }
    var c := RefNameEnd(kind, PullInfo(folder));
    NamedProduct(folder, RefName(kind, PullInfo(folder)), c);
  }

  /** Nor do the partial products of a split build. */
  lemma SubNameNotRaw(name: string, i: nat)
    requires EndsWith(name, Fits) && i < 2
    ensures EndsWith(SubName(name, i), Fits) && !EndsWith(Tail(SubName(name, i)), "raw.fits")
  {
    SubNamesEnd(name);
    var s := SubName(name, i);
    var w := if i == 0 then "_grp01.fits" else "_grp02.fits";
    var c := if i == 0 then '1' else '2';
    assert w[|w| - 6..] == [c] + Fits;
    EndsWithTrans(s, w, [c] + Fits);
    EndsWithTrans(s, [c] + Fits, Fits);
    NotRaw(s, c);
  }

  /** The products of a refbias build are no raw frames. */
  lemma RefbiasCallsNotRaw(raw: seq<string>, cat: Catalog, n: nat, folder: string)
    ensures forall c | c in RefbiasCalls(raw, cat, n, RefbiasOf(folder)) ::
      EndsWith(c.out, Fits) && !EndsWith(Tail(c.out), "raw.fits")
  {
    ProductNotRaw("refbias", folder);
    RefbiasCallsProducts(raw, cat, n, RefbiasOf(folder));
  }

  /** A refbias build named as a product makes only products. */
  lemma RefbiasCallsProducts(raw: seq<string>, cat: Catalog, n: nat, rb: string)
    requires EndsWith(rb, Fits) && !EndsWith(Tail(rb), "raw.fits")
    ensures forall c | c in RefbiasCalls(raw, cat, n, rb) ::
      EndsWith(c.out, Fits) && !EndsWith(Tail(c.out), "raw.fits")
  {
    var calls := RefbiasCalls(raw, cat, n, rb);
    if WantsSplit(n) {
      SubNameNotRaw(rb, 0);
      SubNameNotRaw(rb, 1);
      var h := SplitFiles(raw, cat);
      assert calls == [MakeRefbias(h.0, SubName(rb, 0), None), MakeRefbias(h.1, SubName(rb, 1), None),
                       Refaver([SubName(rb, 0), SubName(rb, 1)], rb)];
    } else {
      assert calls == [MakeRefbias(raw, rb, None)];
    }
  }

  /** `e` extends `d` by builds only: files are added, none of them a raw
      frame, directories stay, calls are appended. */
  predicate AddsProducts(d: Disk, e: Disk) {
    && d.files <= e.files && e.dirs == d.dirs && d.log <= e.log
    && forall x | x in e.files && x !in d.files :: EndsWith(x, Fits) && !EndsWith(Tail(x), "raw.fits")
  }

  lemma AddsProductsTrans(d: Disk, e: Disk, f: Disk)
    requires AddsProducts(d, e) && AddsProducts(e, f)
    ensures AddsProducts(d, f)
  {
  }

  lemma RefbiasStepAdds(d: Disk, env: Env, folder: string, raw: seq<string>)
    ensures AddsProducts(d, RefbiasStep(d, env, folder, raw))
  {
    RefbiasCallsNotRaw(raw, env.cat, Imsets(raw, env.cat), folder);
  }

  lemma WeekbiasStepAdds(d: Disk, bb: Option<string>, folder: string, raw: seq<string>)
    ensures AddsProducts(d, WeekbiasStep(d, bb, folder, raw).0)
  {
    ProductNotRaw("weekbias", folder);
  }

  lemma BiasWeekAdds(d: Disk, env: Env, bb: Option<string>, folder: string, raw: seq<string>, thr: nat)
    ensures AddsProducts(d, BiasWeek(d, env, bb, folder, raw, thr).0)
  {
    var d1 := RefbiasStep(d, env, folder, raw);
    RefbiasStepAdds(d, env, folder, raw);
    if WantsWeekbias(Imsets(raw, env.cat), thr) {
      WeekbiasStepAdds(d1, bb, folder, raw);
      AddsProductsTrans(d, d1, WeekbiasStep(d1, bb, folder, raw).0);
    }
  }

  lemma DarkWeekAdds(d: Disk, root: string, folder: string, raw: seq<string>)
    ensures AddsProducts(d, DarkWeek(d, root, folder, raw))
  {
    ProductNotRaw("weekdark", folder);
  }

  /** A week's own step leaves its raw frames as they were: it only adds
      products, which are not raw frames. */
  lemma RefWeekRawSame(d: Disk, env: Env, root: string, bb: Option<string>, folder: string)
    ensures AddsProducts(d, RefWeek(d, env, root, bb, folder).0)
    ensures Glob(RefWeek(d, env, root, bb, folder).0, env, folder, AnyRaw) == Glob(d, env, folder, AnyRaw)
  {
    var raw := Glob(d, env, folder, AnyRaw);
    var r := RefWeek(d, env, root, bb, folder);
    match Keys(raw, env.cat)
    case None =>
    case Some(k) =>
      if Contains(folder, "/biases/") {
        match Threshold(k.0, k.1, k.2)
        case None =>
        case Some(thr) => BiasWeekAdds(d, env, bb, folder, raw, thr);
      } else if Contains(folder, "/darks/") {
        DarkWeekAdds(d, root, folder, raw);
      }
    GlobIgnores(d, r.0, env, folder, AnyRaw);
  }

  /** The weekdark is made against the refbias of the bias week with the
      same label under `biases/1-1x1`, whenever that folder reads as the same
      proposal and week. */
  lemma WeekdarkUsesRefbias(root: string, darkFolder: string)
    requires var b := Join(Join(root, "biases/1-1x1"), PullInfo(darkFolder).week);
      PullInfo(b).proposal == PullInfo(darkFolder).proposal && PullInfo(b).week == PullInfo(darkFolder).week
    ensures WeekdarkBias(root, PullInfo(darkFolder)) == RefbiasOf(Join(Join(root, "biases/1-1x1"), PullInfo(darkFolder).week))
  {
  }

  /** `folder.replace(wk, 'all')` turns the week folder into its sibling
      `all/` when the week label occurs only as the folder's last part. */
  lemma {:induction false} ReplaceLast(p: string, w: string, r: string)
    requires w != []
    requires forall i | 0 <= i < |p| :: !OccursAt(p + w, w, i)
    ensures ReplaceAll(p + w, w, r) == p + r
    decreases |p|
  {
    if p == [] {
      assert (p + w)[..|w|] == w;
      assert (p + w)[|w|..] == [];
    } else {
      var t := p[1..];
      NoOccurShift(p, w);
      ReplaceLast(t, w, r);
      ReplaceNoMatch(p + w, w, r);
      assert (p + w)[1..] == t + w;
      ConsRegroup(p[0], t, r);
      assert [p[0]] + t == p;
    }
  }

  /** A string that does not start with the pattern keeps its first character. */
  lemma ReplaceNoMatch(s: string, w: string, r: string)
    requires w != [] && s != [] && !OccursAt(s, w, 0)
    ensures ReplaceAll(s, w, r) == [s[0]] + ReplaceAll(s[1..], w, r)
  {
    if |s| < |w| {
      assert ReplaceAll(s[1..], w, r) == s[1..];
      assert s == [s[0]] + s[1..];
    }
  }

  lemma NoOccurShift(p: string, w: string)
    requires p != [] && forall i | 0 <= i < |p| :: !OccursAt(p + w, w, i)
    ensures forall i | 0 <= i < |p| - 1 :: !OccursAt(p[1..] + w, w, i)
  {
    var s := p + w;
    forall i | 0 <= i < |p| - 1
      ensures !OccursAt(p[1..] + w, w, i)
    {
      assert !OccursAt(s, w, i + 1);
      assert (p[1..] + w)[i..i + |w|] == s[i + 1..i + 1 + |w|];
    }
  }

  lemma ConsRegroup(x: char, t: string, r: string)
    ensures [x] + (t + r) == ([x] + t) + r
  {
  }

  /** With the week label appearing nowhere else in the path, the basedark a
      weekdark is made against is the one built in the darks' `all/`. */
  lemma WeekdarkUsesBasedark(darks: string, week: string)
    requires week != [] && NoSlash(week)
    requires forall i | 0 <= i < |JoinPrefix(darks)| :: !OccursAt(JoinPrefix(darks) + week, week, i)
    requires PullInfo(Join(darks, week)).week == week
    ensures WeekdarkBasedark(Join(darks, week), PullInfo(Join(darks, week))) == Join(Join(darks, "all"), "basedark.fits")
  {
    assert week[0] != '/' by {
      assert NoSlash(week);
    }
    ReplaceLast(JoinPrefix(darks), week, "all");
  }

  /** A prefix without the pattern's first character is kept as it is. */
  lemma {:induction false} ReplaceKeeps(p: string, s: string, w: string, r: string)
    requires w != [] && forall i | 0 <= i < |p| :: p[i] != w[0]
    ensures ReplaceAll(p + s, w, r) == p + ReplaceAll(s, w, r)
    decreases |p|
  {
    if p != [] {
      var x := p + s;
      assert x[0] == p[0] && x[1..] == p[1..] + s;
      ReplaceKeeps(p[1..], s, w, r);
      ReplaceStep(x, w, r);
      calc {
        ReplaceAll(x, w, r);
        [p[0]] + ReplaceAll(p[1..] + s, w, r);
        [p[0]] + (p[1..] + ReplaceAll(s, w, r));
        ([p[0]] + p[1..]) + ReplaceAll(s, w, r);
        { assert [p[0]] + p[1..] == p; }
        p + ReplaceAll(s, w, r);
      }
    } else {
      assert p + s == s;
    }
  }

  /** A first character that cannot start the pattern is kept. */
  lemma ReplaceStep(x: string, w: string, r: string)
    requires w != [] && x != [] && x[0] != w[0]
    ensures ReplaceAll(x, w, r) == [x[0]] + ReplaceAll(x[1..], w, r)
  {
    if |x| >= |w| {
      assert x[..|w|][0] == x[0];
    } else {
      assert ReplaceAll(x[1..], w, r) == x[1..];
    }
  }

  /** An occurrence at the front is replaced. */
  lemma ReplaceFront(s: string, w: string, r: string)
    requires w != []
    ensures ReplaceAll(w + s, w, r) == r + ReplaceAll(s, w, r)
  {
    var x := w + s;
    assert x[..|w|] == w && x[|w|..] == s;
  }

  /** When the week label also appears higher up, every copy of it is
      replaced: in "<top><wk>/darks/<wk>" both become "all", so the weekdark
      looks for a basedark under "<top>all/darks/all/" instead. */
  lemma WeekdarkBasedarkElsewhere(top: string, w: string)
    requires w != [] && (w[0] == 'w' || IsBi(w[0]))
    requires forall i | 0 <= i < |top| :: top[i] != w[0]
    ensures ReplaceAll(top + w + "/darks/" + w, w, "all") == top + "all/darks/all"
  {
    var b := "/darks/";
    assert forall i | 0 <= i < |b| :: b[i] in {'/', 'd', 'a', 'r', 'k', 's'};
    ReplaceTwice(top, w, b, "all");
    Regroup(top, w, b, w);
    Regroup(top, "all", b, "all");
  }

  lemma Regroup(a: string, b: string, c: string, d: string)
    ensures a + b + c + d == a + (b + (c + d))
  {
  }

  /** Both copies of `w` in "<top><w><b><w>" are replaced when neither
      `top` nor `b` holds `w`'s first character. */
  lemma ReplaceTwice(top: string, w: string, b: string, r: string)
    requires w != []
    requires forall i | 0 <= i < |top| :: top[i] != w[0]
    requires forall i | 0 <= i < |b| :: b[i] != w[0]
    ensures ReplaceAll(top + (w + (b + w)), w, r) == top + (r + (b + r))
  {
    ReplaceAfter(b, w, r);
    ReplaceFront(b + w, w, r);
    ReplaceKeeps(top, w + (b + w), w, r);
  }

  /** The copy of `w` after a prefix that does not hold its first character. */
  lemma ReplaceAfter(b: string, w: string, r: string)
    requires w != []
    requires forall i | 0 <= i < |b| :: b[i] != w[0]
    ensures ReplaceAll(b + w, w, r) == b + r
  {
    ReplaceFront([], w, r);
    assert w + [] == w;
    ReplaceKeeps(b, w, w, r);
  }

  // ---------------------------------------------------------------------
  // The routine as the source writes it

  /** Lines 469-470: copy each listed file into `dir`. */
  method CopyFiles(st: Store, xs: seq<string>, dir: string)
    modifies st
    ensures st.View() == CopyEach(old(st.View()), xs, dir)
  {
    var i := 0;
    while i < |xs|
      invariant 0 <= i <= |xs|
      invariant CopyEach(st.View(), xs[i..], dir) == CopyEach(old(st.View()), xs, dir)
    {
      assert xs[i..][0] == xs[i] && xs[i..][1..] == xs[i + 1..];
      st.Copy(xs[i], dir);
      i := i + 1;
    }
  }

  /** Lines 462-470 (and 486-493): make `all/` if missing, then copy the
      `_raw.fits` files of every walked root not ending in "all". */
  method GatherAll(st: Store, env: Env, folder: string) returns (allDir: string)
    modifies st
    ensures allDir == Join(folder, "all")
    ensures st.View() == Gather(old(st.View()), env, folder)
  {
    allDir := Join(folder, "all");
    if !st.Exists(allDir) {
      st.Mkdir(allDir);
    }
    var roots := Walk(st.View(), env, folder);
    ghost var goal := CopyRoots(st.View(), env, roots, allDir);
    var i := 0;
    while i < |roots|
      invariant 0 <= i <= |roots|
      invariant CopyRoots(st.View(), env, roots[i..], allDir) == goal
    {
      assert roots[i..][0] == roots[i] && roots[i..][1..] == roots[i + 1..];
      var root := roots[i];
      if !EndsWith(root, "all") {
        var files := Glob(st.View(), env, root, RawSuffix);
        CopyFiles(st, files, allDir);
      }
      i := i + 1;
    }
  }

  /** Lines 461-477 for one gain folder. */
  method MakeBaseBias(st: Store, env: Env, gain: string) returns (name: string)
    modifies st
    ensures name == BasebiasOf(gain)
    ensures st.View() == BaseBias(old(st.View()), env, gain)
  {
    var allDir := GatherAll(st, env, gain);
    var allFiles := Glob(st.View(), env, allDir, UnderRaw);
    name := Join(allDir, "basebias.fits");
    if !st.Exists(name) {
      st.Build(MakeBasebias(allFiles, name));
    }
  }

  /** Lines 460-477: a basebias per gain folder; returns the last name. */
  method MakeBaseBiases(st: Store, env: Env, gains: seq<string>) returns (basebiasName: Option<string>)
    modifies st
    ensures (st.View(), basebiasName) == BaseBiases(old(st.View()), env, gains, 0, None)
  {
    basebiasName := None;
    var i := 0;
    while i < |gains|
      invariant 0 <= i <= |gains|
      invariant BaseBiases(st.View(), env, gains, i, basebiasName) == BaseBiases(old(st.View()), env, gains, 0, None)
    {
      var name := MakeBaseBias(st, env, gains[i]);
      basebiasName := Some(name);
      i := i + 1;
    }
  }

  /** Lines 484-506. */
  method MakeBaseDark(st: Store, env: Env, root: string)
    modifies st
    ensures st.View() == BaseDark(old(st.View()), env, root)
  {
    var darkFolder := Join(root, "darks");
    var allDir := GatherAll(st, env, darkFolder);
    var allFiles := Glob(st.View(), env, allDir, UnderRaw);
    var basebiasName := DarkBasebias(root);
    var basedarkName := Join(allDir, "basedark.fits");
    if !st.Exists(basedarkName) {
      st.Build(MakeBasedark(allFiles, basedarkName, basebiasName));
    }
  }

  /** Lines 548-566. */
  method MakeRefbiasStep(st: Store, env: Env, folder: string, raw: seq<string>)
    modifies st
    ensures st.View() == RefbiasStep(old(st.View()), env, folder, raw)
  {
    var refbiasName := Join(folder, RefName("refbias", PullInfo(folder)));
    if !st.Exists(refbiasName) {
      if Imsets(raw, env.cat) > SplitAbove {
        BuildSplit(st, env.cat, raw, refbiasName);
      } else {
        st.Build(MakeRefbias(raw, refbiasName, None));
        assert [MakeRefbias(raw, refbiasName, None)][..0] == [];
      }
    }
  }

  /** Lines 568-574. */
  method MakeWeekbiasStep(st: Store, basebiasName: Option<string>, folder: string, raw: seq<string>)
    returns (err: Option<Error>)
    modifies st
    ensures (st.View(), err) == WeekbiasStep(old(st.View()), basebiasName, folder, raw)
  {
    var weekbiasName := Join(folder, RefName("weekbias", PullInfo(folder)));
    if !st.Exists(weekbiasName) {
      if basebiasName.None? {
        return Some(NoBasebiasName);
      }
      st.Build(MakeRefbias(raw, weekbiasName, basebiasName));
    }
    err := None;
  }

  /** Lines 576-592. */
  method MakeWeekdarkStep(st: Store, root: string, folder: string, raw: seq<string>)
    modifies st
    ensures st.View() == DarkWeek(old(st.View()), root, folder, raw)
  {
    var info := PullInfo(folder);
    var weekdarkName := Join(folder, RefName("weekdark", info));
    if !st.Exists(weekdarkName) {
      var weekbiasName := Join(Join(Join(root, "biases/1-1x1"), info.week), RefName("refbias", info));
      var basedarkName := Join(ReplaceAll(folder, info.week, "all"), "basedark.fits");
      st.Build(MakeWeekdark(raw, weekdarkName, basedarkName, weekbiasName));
    }
  }

  /** Lines 511-592 for one folder: the kind of folder sets the REFBIAS,
      WEEKBIAS and WEEKDARK flags, which then decide what is built. */
  method MakeWeek(st: Store, env: Env, root: string, basebiasName: Option<string>, folder: string)
    returns (err: Option<Error>)
    modifies st
    ensures (st.View(), err) == RefWeek(old(st.View()), env, root, basebiasName, folder)
  {
    var refbias, weekbias, weekdark := false, false, false;
    var raw := Glob(st.View(), env, folder, AnyRaw);
    var n := Imsets(raw, env.cat);
    var keys := Keys(raw, env.cat);
    if keys.None? {
      return Some(NoKeyword);
    }
    var (gain, xbin, ybin) := keys.value;
    if Contains(folder, "/biases/") {
      refbias := true;
      var thr := Threshold(gain, xbin, ybin);
      if thr.None? {
        return Some(UnknownMode);
      }
      if n < thr.value {
        weekbias := true;
      }
    } else if Contains(folder, "/darks/") {
      weekdark := true;
    } else {
      return Some(NonConforming(folder));
    }
    if refbias {
      MakeRefbiasStep(st, env, folder, raw);
    }
    if weekbias {
      err := MakeWeekbiasStep(st, basebiasName, folder, raw);
      if err.Some? {
        return;
      }
    }
    if weekdark {
      MakeWeekdarkStep(st, root, folder, raw);
    }
    err := None;
  }

  /** Lines 511-592: the week folders in turn. */
  method MakeWeeks(st: Store, env: Env, root: string, basebiasName: Option<string>, weeks: seq<string>)
    returns (err: Option<Error>)
    modifies st
    ensures (st.View(), err) == RefWeeksFrom(old(st.View()), env, root, basebiasName, weeks, 0)
  {
    var i := 0;
    while i < |weeks|
      invariant 0 <= i <= |weeks|
      invariant RefWeeksFrom(st.View(), env, root, basebiasName, weeks, i)
             == RefWeeksFrom(old(st.View()), env, root, basebiasName, weeks, 0)
    {
      err := MakeWeek(st, env, root, basebiasName, weeks[i]);
      if err.Some? {
        return;
      }
      i := i + 1;
    }
    err := None;
  }

  /** `make_ref_files(root_folder)` */
  method MakeRefFiles(st: Store, env: Env, root: string) returns (err: Option<Error>)
    requires ValidEnv(env)
    modifies st
    ensures (st.View(), err) == RefFilesSpec(old(st.View()), env, root)
  {
    var gains, weeks;
    err, gains, weeks := RefFolders(st, env, root);
    if err.Some? {
      return;
    }
    var basebiasName := MakeBases(st, env, root, gains);
    err := MakeWeeks(st, env, root, basebiasName, weeks);
  }

  /** Lines 431-455: the root checked, separated when either list is empty,
      and the two folder lists. */
  method RefFolders(st: Store, env: Env, root: string) returns (err: Option<Error>, gains: seq<string>, weeks: seq<string>)
    requires ValidEnv(env)
    modifies st
    ensures (st.View(), err) == RefStageOne(old(st.View()), env, root)
    ensures err.None? ==> (gains, weeks) == Subfolders(st.View(), env, root)
  {
    if !st.Exists(root) {
      return Some(RootMissing), [], [];
    }
    gains, weeks := PullOutSubfolders(st, env, root);
    if |gains| == 0 || |weeks| == 0 {
      var parts := SplitOn(Tail(env.realpath(root)), '_');
      if |parts| != 2 {
        return Some(BadRootName), gains, weeks;
      }
      var month := env.anneal(parts[0], parts[1]);
      if month.None? {
        return Some(NoAnneal), gains, weeks;
      }
      var datasets := Glob(st.View(), env, root, UnderRaw);
      err := SeparateObs(st, env, root, month.value.0, month.value.1, datasets);
      if err.Some? {
        return;
      }
      gains, weeks := PullOutSubfolders(st, env, root);
    }
    err := None;
  }

  /** Lines 457-506: the base products, and the `basebias_name` left for the weeks. */
  method MakeBases(st: Store, env: Env, root: string, gains: seq<string>) returns (basebiasName: Option<string>)
    requires gains == Subfolders(st.View(), env, root).0
    modifies st
    ensures (st.View(), basebiasName) == RefBases(old(st.View()), env, root)
  {
    basebiasName := None;
    if st.Exists(Join(root, "biases")) {
      basebiasName := MakeBaseBiases(st, env, gains);
    }
    if st.Exists(Join(root, "darks")) {
      MakeBaseDark(st, env, root);
      basebiasName := Some(DarkBasebias(root));
    }
  }
}
