/** `make_pipeline_reffiles(root_folder, last_basedark, last_basebias)`:
    separate the root's frames into period folders, build one basebias and
    one basedark for the whole root, then one weekbias (or a refbias under
    that name) per bias week and one weekdark per dark week, each unless it
    exists. */
module Pipeline {
  import opened Text
  import opened Paths
  import opened Frames
  import opened Identity
  import opened Disk
  import opened Folders
  import opened Separate
  import opened Strategy

  /** `'<kind>_%s_%s_%s.fits' % (proposal, visit, wk)` */
  function PipeName(kind: string, info: Info): string {
    kind + "_" + info.proposal + "_" + info.visit + "_" + info.week + Fits
  }

  /** Python's `x or y` for an optional string: `y` when `x` is None or ''. */
  function Or(x: Option<string>, y: string): (r: string)
    ensures x.Some? && x.value != "" ==> r == x.value
    ensures x.None? || x.value == "" ==> r == y
  {
    if x.Some? && x.value != "" then x.value else y
  }

  /** The roots a collection keeps: those with "1-1x1" in their path for the
      basebias (line 316), every one for the basedark. */
  predicate Keeps(gainOnly: bool, root: string) {
    !gainOnly || Contains(root, "1-1x1")
  }

  /** Lines 315-321 and 335-338: the `o*_raw.fits` files of the kept roots,
      root after root. */
  function Collect(d: Disk, env: Env, roots: seq<string>, gainOnly: bool): seq<string> {
    if roots == [] then []
    else
      var last := roots[|roots| - 1];
      Collect(d, env, roots[..|roots| - 1], gainOnly) + (if Keeps(gainOnly, last) then Glob(d, env, last, ORaw) else [])
  }

  /** The frames under `top` that the base products are made from. */
  function BaseRaws(d: Disk, env: Env, top: string, gainOnly: bool): seq<string> {
    Collect(d, env, Walk(d, env, top), gainOnly)
  }

  function RootBasebias(root: string): string {
    Join(root, "basebias.fits")
  }

  function RootBasedark(root: string): string {
    Join(root, "basedark.fits")
  }

  /** The weekbias a dark week is made against (lines 402-405). */
  function PipeWeekdarkBias(root: string, info: Info): string {
    Join(Join(Join(root, "biases/1-1x1"), info.week), PipeName("weekbias", info))
  }

  function PipeWeekbiasOf(folder: string): string {
    Join(folder, PipeName("weekbias", PullInfo(folder)))
  }

  function PipeWeekdarkOf(folder: string): string {
    Join(folder, PipeName("weekdark", PullInfo(folder)))
  }

  /** Lines 375-389: the calls of the chosen plan, all under one name. */
  function PlanCalls(raw: seq<string>, cat: Catalog, n: nat, thr: nat, wb: string, bb: string): seq<Call> {
    match PipelinePlan(n, thr)
    case WeekbiasPlan => [MakeWeekbias(raw, wb, bb)]
    case SplitPlan => SplitCalls(raw, cat, wb)
    case SinglePlan => [MakeRefbias(raw, wb, None)]
  }

  /** Lines 353-414 for one week folder. */
  function PipeWeek(d: Disk, env: Env, root: string, bb: string, folder: string): (Disk, Option<Error>) {
    var info := PullInfo(folder);
    var raw := Glob(d, env, folder, AnyRaw);
    var n := Imsets(raw, env.cat);
    match Keys(raw, env.cat)
    case None => (d, Some(NoKeyword))
    case Some(k) =>
      if Contains(folder, "/biases/") then
        var wb := PipeWeekbiasOf(folder);
        if PathExists(d, wb) then (d, None)
        else
          match Threshold(k.0, k.1, k.2)
          case None => (d, Some(UnknownMode))
          case Some(thr) => (BuiltAll(d, PlanCalls(raw, env.cat, n, thr, wb, bb)), None)
      else if Contains(folder, "/darks/") then
        var wd := PipeWeekdarkOf(folder);
        if PathExists(d, wd) then (d, None)
        else (Built(d, MakeWeekdark(raw, wd, RootBasedark(root), PipeWeekdarkBias(root, info))), None)
      else (d, Some(NonConforming(folder)))
  }

  /** The week folders from `i` on, stopping at the first error. */
  function PipeWeeksFrom(d: Disk, env: Env, root: string, bb: string, weeks: seq<string>, i: nat): (Disk, Option<Error>)
    decreases |weeks| - i
  {
    if i >= |weeks| then (d, None)
    else
      var r := PipeWeek(d, env, root, bb, weeks[i]);
      if r.1.Some? then r else PipeWeeksFrom(r.0, env, root, bb, weeks, i + 1)
  }

  /** Lines 312-325: the root's basebias unless it exists. */
  function PipeBasebias(d: Disk, env: Env, root: string): Disk {
    var name := RootBasebias(root);
    if PathExists(d, name) then d
    else Built(d, MakeBasebias(BaseRaws(d, env, Join(root, "biases"), true), name))
  }

  /** Lines 330-340: the root's basedark unless it exists, made against the
      root's basebias. */
  function PipeBasedark(d: Disk, env: Env, root: string): Disk {
    var name := RootBasedark(root);
    if PathExists(d, name) then d
    else Built(d, MakeBasedark(BaseRaws(d, env, Join(root, "darks"), false), name, RootBasebias(root)))
  }

  /** `make_pipeline_reffiles(root_folder, last_basedark, last_basebias)`;
      `last_basedark` is assigned to `basedark_name` (line 351) but every
      dark week assigns it again (line 407) before use. */
  function PipelineSpec(d: Disk, env: Env, root: string, lastBasedark: Option<string>, lastBasebias: Option<string>): (Disk, Option<Error>)
    requires ValidEnv(env)
  {
    if !PathExists(d, root) then (d, Some(RootMissing))
    else
      var s := SeparatePeriodSpec(d, env, root);
      if s.1.Some? then s
      else
        var d1 := PipeBasedark(PipeBasebias(s.0, env, root), env, root);
        PipeWeeksFrom(d1, env, root, Or(lastBasebias, RootBasebias(root)), Subfolders(d1, env, root).1, 0)
  }

  // ---------------------------------------------------------------------
  // Properties

  /** `x` lies directly in one of the kept roots. */
  predicate InKept(x: string, roots: seq<string>, gainOnly: bool) {
    exists i | 0 <= i < |roots| :: Keeps(gainOnly, roots[i]) && InDir(x, roots[i])
  }

  lemma InKeptSnoc(x: string, roots: seq<string>, gainOnly: bool)
    requires roots != []
    ensures var last := roots[|roots| - 1];
      InKept(x, roots, gainOnly) <==> InKept(x, roots[..|roots| - 1], gainOnly) || (Keeps(gainOnly, last) && InDir(x, last))
  {
    var init := roots[..|roots| - 1];
    if InKept(x, roots, gainOnly) {
      var i :| 0 <= i < |roots| && Keeps(gainOnly, roots[i]) && InDir(x, roots[i]);
      if i < |init| {
        assert init[i] == roots[i];
      }
    }
    if InKept(x, init, gainOnly) {
      var i :| 0 <= i < |init| && Keeps(gainOnly, init[i]) && InDir(x, init[i]);
      assert roots[i] == init[i];
    }
  }

  /** The kept roots by membership rather than by index. */
  lemma InKeptMember(x: string, roots: seq<string>, gainOnly: bool)
    ensures InKept(x, roots, gainOnly) <==> exists r | r in roots :: Keeps(gainOnly, r) && InDir(x, r)
  {
    if exists r | r in roots :: Keeps(gainOnly, r) && InDir(x, r) {
      var r :| r in roots && Keeps(gainOnly, r) && InDir(x, r);
      var i :| 0 <= i < |roots| && roots[i] == r;
      assert Keeps(gainOnly, roots[i]) && InDir(x, roots[i]);
    }
  }

  /** A collection holds the `o*_raw.fits` files lying directly in a kept
      root, and each once. */
  lemma {:induction false} CollectSpec(d: Disk, env: Env, roots: seq<string>, gainOnly: bool, x: string)
    requires ValidEnv(env)
    ensures x in Collect(d, env, roots, gainOnly) <==> x in d.files && Matches(ORaw, Tail(x)) && InKept(x, roots, gainOnly)
    decreases |roots|
  {
    if roots != [] {
      var init := roots[..|roots| - 1];
      var last := roots[|roots| - 1];
      CollectSpec(d, env, init, gainOnly, x);
      GlobSpec(d, env, last, ORaw);
      InKeptSnoc(x, roots, gainOnly);
    }
  }

  /** The basebias is made from every `o*_raw.fits` file directly in a
      directory at or below `<root>/biases` whose path holds "1-1x1", the
      basedark from every such file at or below `<root>/darks`. */
  lemma BaseRawsSpec(d: Disk, env: Env, root: string, x: string)
    requires ValidEnv(env)
    ensures x in BaseRaws(d, env, Join(root, "biases"), true) <==>
      x in d.files && Matches(ORaw, Tail(x))
      && exists r | r in Walk(d, env, Join(root, "biases")) :: Contains(r, "1-1x1") && InDir(x, r)
    ensures x in BaseRaws(d, env, Join(root, "darks"), false) <==>
      x in d.files && Matches(ORaw, Tail(x))
      && exists r | r in Walk(d, env, Join(root, "darks")) :: InDir(x, r)
  {
    BaseRawsIn(d, env, Join(root, "biases"), true, x);
    BaseRawsIn(d, env, Join(root, "darks"), false, x);
  }

  lemma BaseRawsIn(d: Disk, env: Env, top: string, gainOnly: bool, x: string)
    requires ValidEnv(env)
    ensures x in BaseRaws(d, env, top, gainOnly) <==>
      x in d.files && Matches(ORaw, Tail(x)) && exists r | r in Walk(d, env, top) :: Keeps(gainOnly, r) && InDir(x, r)
  {
    CollectSpec(d, env, Walk(d, env, top), gainOnly, x);
    InKeptMember(x, Walk(d, env, top), gainOnly);
  }

  /** Exactly one plan makes a bias week's product, chosen by the count: a
      weekbias on all frames against the basebias below the threshold; at or
      above it, the average of two refbiases on the two halves of the frames
      above 120 imsets, one refbias on all frames otherwise. Every plan ends
      with the call that makes the weekbias name. */
  lemma PlanCallsSpec(raw: seq<string>, cat: Catalog, n: nat, thr: nat, wb: string, bb: string)
    ensures var c := PlanCalls(raw, cat, n, thr, wb, bb);
      && |c| >= 1 && c[|c| - 1].out == wb
      && (c[|c| - 1].MakeWeekbias? <==> n < thr)
      && (c[|c| - 1].Refaver? <==> thr <= n && n > SplitAbove)
      && (c[|c| - 1].MakeRefbias? <==> thr <= n <= SplitAbove)
      && (n < thr ==> c == [MakeWeekbias(raw, wb, bb)])
      && (thr <= n <= SplitAbove ==> c == [MakeRefbias(raw, wb, None)])
      && (thr <= n && n > SplitAbove ==>
            |c| == 3 && c[0].MakeRefbias? && c[1].MakeRefbias? && c[0].bias.None? && c[1].bias.None?
            && multiset(c[0].inputs) + multiset(c[1].inputs) == multiset(raw)
            && c[2].inputs == [c[0].out, c[1].out])
  {
    SplitCallsSpec(raw, cat, wb);
  }

  /** The gates of one week: a bias week whose weekbias exists, or a dark
      week whose weekdark exists, is skipped -- a bias week before its mode
      is looked up, so even a mode missing from the table raises nothing --
      and a week step that succeeds leaves its product in place, only adding
      files and calls. */
  lemma PipeWeekGates(d: Disk, env: Env, root: string, bb: string, folder: string)
    ensures var r := PipeWeek(d, env, root, bb, folder);
      r.1.None? ==>
        && d.files <= r.0.files && r.0.dirs == d.dirs && d.log <= r.0.log
        && (Contains(folder, "/biases/") ==> PathExists(r.0, PipeWeekbiasOf(folder)))
        && (!Contains(folder, "/biases/") ==> Contains(folder, "/darks/") && PathExists(r.0, PipeWeekdarkOf(folder)))
    ensures
      && Keys(Glob(d, env, folder, AnyRaw), env.cat).Some?
      && (if Contains(folder, "/biases/") then PathExists(d, PipeWeekbiasOf(folder))
          else Contains(folder, "/darks/") && PathExists(d, PipeWeekdarkOf(folder)))
      ==> PipeWeek(d, env, root, bb, folder) == (d, None)
  {
    var raw := Glob(d, env, folder, AnyRaw);
    var r := PipeWeek(d, env, root, bb, folder);
    if r.1.None? && Contains(folder, "/biases/") && !PathExists(d, PipeWeekbiasOf(folder)) {
      var k := Keys(raw, env.cat).value;
      var thr := Threshold(k.0, k.1, k.2).value;
      PlanCallsSpec(raw, env.cat, Imsets(raw, env.cat), thr, PipeWeekbiasOf(folder), bb);
    }
  }

  /** What a bias week builds when its weekbias is missing and its mode is
      in the table: the calls of the plan its count selects, appended to the
      log. */
  lemma PipeWeekBuilds(d: Disk, env: Env, root: string, bb: string, folder: string)
    requires var raw := Glob(d, env, folder, AnyRaw);
      && Keys(raw, env.cat).Some? && Contains(folder, "/biases/") && !PathExists(d, PipeWeekbiasOf(folder))
      && var k := Keys(raw, env.cat).value; Threshold(k.0, k.1, k.2).Some?
    ensures var raw := Glob(d, env, folder, AnyRaw);
      var k := Keys(raw, env.cat).value;
      var r := PipeWeek(d, env, root, bb, folder);
      && r.1.None? && r.0.files == d.files + (set c | c in PlanCalls(raw, env.cat, Imsets(raw, env.cat), Threshold(k.0, k.1, k.2).value, PipeWeekbiasOf(folder), bb) :: c.out)
      && r.0.log == d.log + PlanCalls(raw, env.cat, Imsets(raw, env.cat), Threshold(k.0, k.1, k.2).value, PipeWeekbiasOf(folder), bb)
  {
  }

  /** The weekdark is made against the weekbias of the bias week with the
      same label under `biases/1-1x1`, whenever that folder reads as the same
      proposal, visit and week. */
  lemma PipeWeekdarkUsesWeekbias(root: string, darkFolder: string)
    requires var info := PullInfo(darkFolder);
      PullInfo(Join(Join(root, "biases/1-1x1"), info.week)) == info
    ensures PipeWeekdarkBias(root, PullInfo(darkFolder)) == PipeWeekbiasOf(Join(Join(root, "biases/1-1x1"), PullInfo(darkFolder).week))
  {
  }

  /** Each call a week step adds that takes a base product takes the one the
      run chose: weekbiases the basebias name `bb`, weekdarks the root's
      basedark. */
  predicate UsesBases(d: Disk, e: Disk, root: string, bb: string) {
    d.log <= e.log
    && forall k | |d.log| <= k < |e.log| ::
         (e.log[k].MakeWeekbias? ==> e.log[k].basebias == bb)
         && (e.log[k].MakeWeekdark? ==> e.log[k].basedark == RootBasedark(root))
  }

  lemma UsesBasesTrans(a: Disk, b: Disk, c: Disk, root: string, bb: string)
    requires UsesBases(a, b, root, bb) && UsesBases(b, c, root, bb)
    ensures UsesBases(a, c, root, bb)
  {
    forall k | |a.log| <= k < |b.log|
      ensures c.log[k] == b.log[k]
    {
    }
  }

  /** A call that takes a base product takes the run's one. */
  predicate UsesBase(c: Call, root: string, bb: string) {
    (c.MakeWeekbias? ==> c.basebias == bb) && (c.MakeWeekdark? ==> c.basedark == RootBasedark(root))
  }

  lemma BuiltAllUses(d: Disk, cs: seq<Call>, root: string, bb: string)
    requires forall c | c in cs :: UsesBase(c, root, bb)
    ensures UsesBases(d, BuiltAll(d, cs), root, bb)
  {
    var e := BuiltAll(d, cs);
    forall k | |d.log| <= k < |e.log|
      ensures UsesBase(e.log[k], root, bb)
    {
      assert e.log[k] == cs[k - |d.log|];
    }
  }

  lemma PlanCallsUse(raw: seq<string>, cat: Catalog, n: nat, thr: nat, wb: string, bb: string, root: string)
    ensures forall c | c in PlanCalls(raw, cat, n, thr, wb, bb) :: UsesBase(c, root, bb)
  {
  }

  lemma PipeWeekUsesBases(d: Disk, env: Env, root: string, bb: string, folder: string)
    ensures UsesBases(d, PipeWeek(d, env, root, bb, folder).0, root, bb)
  {
    var info := PullInfo(folder);
    var raw := Glob(d, env, folder, AnyRaw);
    var n := Imsets(raw, env.cat);
    match Keys(raw, env.cat)
    case None =>
    case Some(k) =>
      if Contains(folder, "/biases/") {
        var wb := PipeWeekbiasOf(folder);
        if !PathExists(d, wb) {
          match Threshold(k.0, k.1, k.2)
          case None =>
          case Some(thr) =>
            PlanCallsUse(raw, env.cat, n, thr, wb, bb, root);
            BuiltAllUses(d, PlanCalls(raw, env.cat, n, thr, wb, bb), root, bb);
        }
      } else if Contains(folder, "/darks/") {
        var wd := PipeWeekdarkOf(folder);
        if !PathExists(d, wd) {
          var c := MakeWeekdark(raw, wd, RootBasedark(root), PipeWeekdarkBias(root, info));
          assert BuiltAll(d, [c]) == Built(d, c) by {
            assert [c][..0] == [];
          }
          BuiltAllUses(d, [c], root, bb);
        }
      }
  }

  lemma {:induction false} PipeWeeksUseBases(d: Disk, env: Env, root: string, bb: string, weeks: seq<string>, i: nat)
    ensures UsesBases(d, PipeWeeksFrom(d, env, root, bb, weeks, i).0, root, bb)
    decreases |weeks| - i
  {
    if i < |weeks| {
      var r := PipeWeek(d, env, root, bb, weeks[i]);
      PipeWeekUsesBases(d, env, root, bb, weeks[i]);
      if r.1.None? {
        PipeWeeksUseBases(r.0, env, root, bb, weeks, i + 1);
        UsesBasesTrans(d, r.0, PipeWeeksFrom(r.0, env, root, bb, weeks, i + 1).0, root, bb);
      }
    }
  }

  /** The base stage takes no week product's base. */
  lemma BaseStageUses(d: Disk, env: Env, root: string, bb: string)
    ensures UsesBases(d, PipeBasedark(PipeBasebias(d, env, root), env, root), root, bb)
  {
    var d1 := PipeBasebias(d, env, root);
    var d2 := PipeBasedark(d1, env, root);
    assert UsesBases(d, d1, root, bb);
    assert UsesBases(d1, d2, root, bb);
    UsesBasesTrans(d, d1, d2, root, bb);
  }

  /** Lines 350-351 with 402-411: every weekbias of a run is made against
      `last_basebias` when one is given (and not ''), else against the
      root's basebias; every weekdark against the root's basedark, whatever
      `last_basedark` says. */
  lemma PipelineBases(d: Disk, env: Env, root: string, lastBasedark: Option<string>, lastBasebias: Option<string>)
    requires ValidEnv(env)
    ensures UsesBases(d, PipelineSpec(d, env, root, lastBasedark, lastBasebias).0, root,
                      if lastBasebias.Some? && lastBasebias.value != "" then lastBasebias.value else RootBasebias(root))
  {
    var bb := Or(lastBasebias, RootBasebias(root));
    if PathExists(d, root) {
      var s := SeparatePeriodSpec(d, env, root);
      SeparateKeeps(d, env, root, 0.0, 0.0, []);
      if s.1.None? {
        var d1 := PipeBasedark(PipeBasebias(s.0, env, root), env, root);
        BaseStageUses(s.0, env, root, bb);
        PipeWeeksUseBases(d1, env, root, bb, Subfolders(d1, env, root).1, 0);
        UsesBasesTrans(s.0, d1, PipelineSpec(d, env, root, lastBasedark, lastBasebias).0, root, bb);
      }
    }
  }

  /** The run does not depend on `last_basedark` at all. */
  lemma LastBasedarkIgnored(d: Disk, env: Env, root: string, lastBasedark: Option<string>, lastBasebias: Option<string>)
    requires ValidEnv(env)
    ensures PipelineSpec(d, env, root, lastBasedark, lastBasebias) == PipelineSpec(d, env, root, None, lastBasebias)
  {
  }

  // ---------------------------------------------------------------------
  // The routine as the source writes it

  /** Lines 315-321 (`gainOnly`) and 335-338: walk `top`, collecting each
      kept root's `o*_raw.fits` files. */
  method CollectRaws(st: Store, env: Env, top: string, gainOnly: bool) returns (raws: seq<string>)
    ensures raws == BaseRaws(st.View(), env, top, gainOnly)
  {
    var roots := Walk(st.View(), env, top);
    raws := [];
    var i := 0;
    while i < |roots|
      invariant 0 <= i <= |roots|
      invariant raws == Collect(st.View(), env, roots[..i], gainOnly)
    {
      assert roots[..i + 1][..i] == roots[..i];
      var root := roots[i];
      if gainOnly && !Contains(root, "1-1x1") {
        i := i + 1;
        continue;
      }
      raws := raws + Glob(st.View(), env, root, ORaw);
      i := i + 1;
    }
    assert roots[..i] == roots;
  }

  /** Lines 355-389 for a bias week. */
  method MakePipelineWeekbias(st: Store, env: Env, basebiasName: string, folder: string, raw: seq<string>, k: (int, int, int))
    returns (err: Option<Error>)
    modifies st
    ensures var n := Imsets(raw, env.cat);
      var wb := PipeWeekbiasOf(folder);
      (st.View(), err) ==
        if PathExists(old(st.View()), wb) then (old(st.View()), None)
        else match Threshold(k.0, k.1, k.2)
          case None => (old(st.View()), Some(UnknownMode))
          case Some(thr) => (BuiltAll(old(st.View()), PlanCalls(raw, env.cat, n, thr, wb, basebiasName)), None)
  {
    var info := PullInfo(folder);
    var n := Imsets(raw, env.cat);
    var (gain, xbin, ybin) := k;
    var weekbiasName := Join(folder, PipeName("weekbias", info));
    if st.Exists(weekbiasName) {
      return None;
    }
    var thr := Threshold(gain, xbin, ybin);
    if thr.None? {
      return Some(UnknownMode);
    }
    if n < thr.value {
      st.Build(MakeWeekbias(raw, weekbiasName, basebiasName));
      assert [MakeWeekbias(raw, weekbiasName, basebiasName)][..0] == [];
    } else if n > SplitAbove {
      BuildSplit(st, env.cat, raw, weekbiasName);
    } else {
      st.Build(MakeRefbias(raw, weekbiasName, None));
      assert [MakeRefbias(raw, weekbiasName, None)][..0] == [];
    }
    err := None;
  }

  /** Lines 392-411 for a dark week. */
  method MakePipelineWeekdark(st: Store, root: string, folder: string, raw: seq<string>)
    modifies st
    ensures var wd := PipeWeekdarkOf(folder);
      st.View() ==
        if PathExists(old(st.View()), wd) then old(st.View())
        else Built(old(st.View()), MakeWeekdark(raw, wd, RootBasedark(root), PipeWeekdarkBias(root, PullInfo(folder))))
  {
    var info := PullInfo(folder);
    var weekdarkName := Join(folder, PipeName("weekdark", info));
    if st.Exists(weekdarkName) {
      return;
    }
    var weekbiasName := Join(Join(Join(root, "biases/1-1x1"), info.week), PipeName("weekbias", info));
    var basedarkName := Join(root, "basedark.fits");
    st.Build(MakeWeekdark(raw, weekdarkName, basedarkName, weekbiasName));
  }

  /** Lines 353-414 for one week folder. */
  method MakePipelineWeek(st: Store, env: Env, root: string, basebiasName: string, folder: string)
    returns (err: Option<Error>)
    modifies st
    ensures (st.View(), err) == PipeWeek(old(st.View()), env, root, basebiasName, folder)
  {
    var raw := Glob(st.View(), env, folder, AnyRaw);
    var keys := Keys(raw, env.cat);
    if keys.None? {
      return Some(NoKeyword);
    }
    if Contains(folder, "/biases/") {
      err := MakePipelineWeekbias(st, env, basebiasName, folder, raw, keys.value);
    } else if Contains(folder, "/darks/") {
      MakePipelineWeekdark(st, root, folder, raw);
      err := None;
    } else {
      err := Some(NonConforming(folder));
    }
  }

  /** Lines 353-414: the week folders in turn. */
  method MakePipelineWeeks(st: Store, env: Env, root: string, basebiasName: string, weeks: seq<string>)
    returns (err: Option<Error>)
    modifies st
    ensures (st.View(), err) == PipeWeeksFrom(old(st.View()), env, root, basebiasName, weeks, 0)
  {
    var i := 0;
    while i < |weeks|
      invariant 0 <= i <= |weeks|
      invariant PipeWeeksFrom(st.View(), env, root, basebiasName, weeks, i)
             == PipeWeeksFrom(old(st.View()), env, root, basebiasName, weeks, 0)
    {
      err := MakePipelineWeek(st, env, root, basebiasName, weeks[i]);
      if err.Some? {
        return;
      }
      i := i + 1;
    }
    err := None;
  }

  /** `make_pipeline_reffiles(root_folder, last_basedark, last_basebias)` */
  method MakePipelineReffiles(st: Store, env: Env, root: string, lastBasedark: Option<string>, lastBasebias: Option<string>)
    returns (err: Option<Error>)
    requires ValidEnv(env)
    modifies st
    ensures (st.View(), err) == PipelineSpec(old(st.View()), env, root, lastBasedark, lastBasebias)
  {
    if !st.Exists(root) {
      return Some(RootMissing);
    }
    err := SeparatePeriod(st, env, root);
    if err.Some? {
      return;
    }
    var rawFiles := CollectRaws(st, env, Join(root, "biases"), true);
    var basebiasName := Join(root, "basebias.fits");
    if !st.Exists(basebiasName) {
      st.Build(MakeBasebias(rawFiles, basebiasName));
    }
    rawFiles := CollectRaws(st, env, Join(root, "darks"), false);
    var basedarkName := Join(root, "basedark.fits");
    if !st.Exists(basedarkName) {
      st.Build(MakeBasedark(rawFiles, basedarkName, basebiasName));
    }
    var gainFolders, weekFolders := PullOutSubfolders(st, env, root);
    basebiasName := Or(lastBasebias, basebiasName);
    basedarkName := Or(lastBasedark, basedarkName);
    err := MakePipelineWeeks(st, env, root, basebiasName, weekFolders);
  }
}
