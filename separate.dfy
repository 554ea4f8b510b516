/** `separate_period` and `separate_obs`: raw frames sorted into one folder
    per anneal period, for each of the three (TARGNAME, mode) passes. */
module Separate {
  import opened Text
  import opened Paths
  import opened Frames
  import opened Periods
  import opened Disk

  /** Where `separate_obs` looks when it is given no files. */
  const RetrieveDirectory := "/grp/hst/stis/darks_biases/refstis_test/data/"

  /** The two routines share their pass and period loops; they differ in the
      windows, the boundary rule and what an empty period does. */
  datatype Variant = ByPeriod | ByObs

  function RuleOf(v: Variant): Rule {
    match v
    case ByPeriod => Closed
    case ByObs => HalfOpen
  }

  /** `mjd_times.min()` over a non-empty list. */
  function MinTime(xs: seq<string>, cat: Catalog): (r: real)
    requires xs != []
    ensures forall i | 0 <= i < |xs| :: r <= ExpStart(cat, xs[i])
    ensures exists i | 0 <= i < |xs| :: r == ExpStart(cat, xs[i])
  {
    if |xs| == 1 then ExpStart(cat, xs[0])
    else
      var m := MinTime(xs[1..], cat);
      assert forall i | 1 <= i < |xs| :: xs[i] == xs[1..][i - 1];
      if ExpStart(cat, xs[0]) <= m then ExpStart(cat, xs[0]) else m
  }

  /** `mjd_times.max()` over a non-empty list. */
  function MaxTime(xs: seq<string>, cat: Catalog): (r: real)
    requires xs != []
    ensures forall i | 0 <= i < |xs| :: ExpStart(cat, xs[i]) <= r
    ensures exists i | 0 <= i < |xs| :: r == ExpStart(cat, xs[i])
  {
    if |xs| == 1 then ExpStart(cat, xs[0])
    else
      var m := MaxTime(xs[1..], cat);
      assert forall i | 1 <= i < |xs| :: xs[i] == xs[1..][i - 1];
      if ExpStart(cat, xs[0]) >= m then ExpStart(cat, xs[0]) else m
  }

  /** The number of whole days a routine divides into periods. */
  function DayCount(v: Variant, begin: real, end: real): int {
    match v
    case ByPeriod => WholeDays(end - begin)
    case ByObs => RoundHalfAway(end - begin)
  }

  /** The windows of one pass. */
  function PassWindows(v: Variant, env: Env, begin: real, end: real, m: Mode): (r: seq<Window>)
    requires ValidEnv(env)
    ensures |r| == env.periods(DayCount(v, begin, end), m) >= 1
  {
    var n := DayCount(v, begin, end);
    var lengths := env.days(env.periods(n, m), n);
    match v
    case ByPeriod => PeriodWindows(begin, end, lengths)
    case ByObs => CumsumWindows(begin, ToReals(lengths))
  }

  /** `obs_list`: the frames of `all` in the pass, in order. */
  function InPassOf(all: seq<string>, cat: Catalog, t: Target, m: Mode): (r: seq<string>)
    ensures forall x :: x in r <==> x in all && InPass(cat, x, t, m)
  {
    if all == [] then []
    else
      var last := all[|all| - 1];
      assert all == all[..|all| - 1] + [last];
      InPassOf(all[..|all| - 1], cat, t, m) + (if InPass(cat, last, t, m) then [last] else [])
  }

  /** The moves of one period, in order; the first move onto an existing
      name stops everything. */
  function MoveAll(d: Disk, g: seq<string>, dir: string): (Disk, Option<Error>)
    decreases |g|
  {
    if g == [] then (d, None)
    else if PathExists(d, Dest(g[0], dir)) then (d, Some(DestinationExists(Dest(g[0], dir))))
    else MoveAll(Moved(d, g[0], dir), g[1..], dir)
  }

  /** The state after the periods from `k` on, with `obs_list` and
      `all_files` then. */
  datatype Outcome = Outcome(disk: Disk, err: Option<Error>, left: seq<string>, rest: seq<string>)

  /** Period `k` of one pass: make the folder if missing, take the frames of
      `obs_list` in the window, stop on an empty period in
      `separate_period`, move them and drop them from both lists. */
  function PeriodStep(d: Disk, env: Env, v: Variant, dirs: seq<string>,
                      ws: seq<Window>, obsList: seq<string>, all: seq<string>, k: nat): Outcome
    requires k < |ws| == |dirs|
  {
    var dir := dirs[k];
    var d1 := if PathExists(d, dir) then d else WithDirs(d, dir);
    var g := Select(obsList, env.cat, ws[k], RuleOf(v));
    if g == [] && v == ByPeriod then Outcome(d1, Some(EmptyPeriod), obsList, all)
    else
      var r := MoveAll(d1, g, dir);
      if r.1.Some? then Outcome(r.0, r.1, obsList, all)
      else Outcome(r.0, None, RemoveEach(obsList, g), RemoveEach(all, g))
  }

  /** Periods `k..` of one pass, stopping at the first error. */
  function PeriodsFrom(d: Disk, env: Env, v: Variant, dirs: seq<string>,
                       ws: seq<Window>, obsList: seq<string>, all: seq<string>, k: nat): Outcome
    requires |dirs| == |ws|
    decreases |ws| - k
  {
    if k >= |ws| then Outcome(d, None, obsList, all)
    else
      var o := PeriodStep(d, env, v, dirs, ws, obsList, all, k);
      if o.err.Some? then o
      else PeriodsFrom(o.disk, env, v, dirs, ws, o.left, o.rest, k + 1)
  }

  /** One more period: its step, then the periods after it unless it failed. */
  lemma PeriodsFromNext(d: Disk, env: Env, v: Variant, dirs: seq<string>,
                        ws: seq<Window>, obsList: seq<string>, all: seq<string>, k: nat)
    requires k < |ws| == |dirs|
    ensures var o := PeriodStep(d, env, v, dirs, ws, obsList, all, k);
      PeriodsFrom(d, env, v, dirs, ws, obsList, all, k)
        == if o.err.Some? then o else PeriodsFrom(o.disk, env, v, dirs, ws, o.left, o.rest, k + 1)
  {
  }

  /** The folders of a pass's `n` periods, in period order. */
  function PassFolders(base: string, t: Target, m: Mode, n: nat): (r: seq<string>)
    ensures |r| == n
  {
    if n == 0 then [] else PassFolders(base, t, m, n - 1) + [PeriodFolder(base, t, m, n - 1)]
  }

  /** Period `k`'s frames go to the folder named for period `k`. */
  lemma {:induction false} PassFoldersAt(base: string, t: Target, m: Mode, n: nat, k: nat)
    requires k < n
    ensures PassFolders(base, t, m, n)[k] == PeriodFolder(base, t, m, k)
  {
    var before, last := PassFolders(base, t, m, n - 1), PeriodFolder(base, t, m, n - 1);
    assert PassFolders(base, t, m, n) == before + [last];
    if k < n - 1 {
      PassFoldersAt(base, t, m, n - 1, k);
      LastAppended(before, last, k);
    }
  }

  lemma LastAppended(xs: seq<string>, x: string, k: nat)
    requires k < |xs|
    ensures (xs + [x])[k] == xs[k]
  {
  }

  /** Passes `i..` of the three, with `all_files` shrinking as frames leave. */
  function PassesFrom(d: Disk, env: Env, base: string, v: Variant, begin: real, end: real,
                      all: seq<string>, i: nat): (Disk, Option<Error>)
    requires ValidEnv(env)
    decreases |Passes| - i
  {
    if i >= |Passes| then (d, None)
    else
      var (t, m) := Passes[i];
      var obs := InPassOf(all, env.cat, t, m);
      if obs == [] then PassesFrom(d, env, base, v, begin, end, all, i + 1)
      else
        var ws := PassWindows(v, env, begin, end, m);
        var o := PeriodsFrom(d, env, v, PassFolders(base, t, m, |ws|), ws, obs, all, 0);
        if o.err.Some? then (o.disk, o.err)
        else PassesFrom(o.disk, env, base, v, begin, end, o.rest, i + 1)
  }

  /** `separate_period(base_dir)`: the `o*_raw.fits` files directly in the
      base directory, split over windows spanning their own EXPSTARTs. */
  function SeparatePeriodSpec(d: Disk, env: Env, base: string): (Disk, Option<Error>)
    requires ValidEnv(env)
  {
    var all := Glob(d, env, base, ORaw);
    if all == [] then (d, None)
    else PassesFrom(d, env, base, ByPeriod, MinTime(all, env.cat), MaxTime(all, env.cat), all, 0)
  }

  /** `separate_obs(base_dir, month_begin, month_end, all_files)`: the given
      files (or, when none are given, the `*raw.fits` of the retrieve
      directory) split over windows of the given month. */
  function SeparateObsSpec(d: Disk, env: Env, base: string, begin: real, end: real, files: seq<string>): (Disk, Option<Error>)
    requires ValidEnv(env)
  {
    var all := if files == [] then Glob(d, env, RetrieveDirectory, AnyRaw) else files;
    if all == [] then (d, Some(NoData))
    else PassesFrom(d, env, base, ByObs, begin, end, all, 0)
  }

  /** Moving never builds anything or creates a directory. */
  lemma {:induction false} MoveAllKeeps(d: Disk, g: seq<string>, dir: string)
    ensures MoveAll(d, g, dir).0.log == d.log && MoveAll(d, g, dir).0.dirs == d.dirs
    ensures MoveAll(d, g, dir).1.Some? ==> MoveAll(d, g, dir).1.value.DestinationExists?
    decreases |g|
  {
    if g != [] && !PathExists(d, Dest(g[0], dir)) {
      MoveAllKeeps(Moved(d, g[0], dir), g[1..], dir);
    }
  }

  /** A period's moves that all succeed take exactly the group out of the
      files and put each one, under its own name, into the folder. */
  lemma {:induction false} MoveAllEffect(d: Disk, g: seq<string>, dir: string)
    requires Distinct(g)
    requires forall x, y | x in g && y in g :: Dest(x, dir) != y
    ensures MoveAll(d, g, dir).1.None? ==>
      MoveAll(d, g, dir).0.files == d.files - (set x | x in g) + (set x | x in g :: Dest(x, dir))
    decreases |g|
  {
    if g != [] && !PathExists(d, Dest(g[0], dir)) {
      var t := g[1..];
      DistinctCons(g[0], t);
      assert g == [g[0]] + t;
      assert forall x :: x in t ==> x in g;
      MoveAllEffect(Moved(d, g[0], dir), t, dir);
      MembersCons(g, dir);
    }
  }

  /** The members of a list, and their destinations, split at its head. */
  lemma MembersCons(g: seq<string>, dir: string)
    requires g != []
    ensures (set x | x in g) == {g[0]} + (set x | x in g[1..])
    ensures (set x | x in g :: Dest(x, dir)) == {Dest(g[0], dir)} + (set x | x in g[1..] :: Dest(x, dir))
  {
    assert forall x :: x in g <==> x == g[0] || x in g[1..];
  }

  /** One pass builds nothing, and the only errors of its periods are an
      empty period (in `separate_period` only) and an occupied destination. */
  lemma PeriodStepKeeps(d: Disk, env: Env, v: Variant, dirs: seq<string>,
                        ws: seq<Window>, obs: seq<string>, all: seq<string>, k: nat)
    requires k < |ws| == |dirs|
    ensures PeriodStep(d, env, v, dirs, ws, obs, all, k).disk.log == d.log
    ensures var e := PeriodStep(d, env, v, dirs, ws, obs, all, k).err;
      e.Some? ==> (e.value == EmptyPeriod && v == ByPeriod) || e.value.DestinationExists?
  {
    var dir := dirs[k];
    var d1 := if PathExists(d, dir) then d else WithDirs(d, dir);
    MoveAllKeeps(d1, Select(obs, env.cat, ws[k], RuleOf(v)), dir);
  }

  /** An outcome that called no builder since `d` and failed, if at all,
      only on an empty period (in `separate_period` only) or an occupied
      destination. */
  predicate Harmless(o: Outcome, d: Disk, v: Variant) {
    && o.disk.log == d.log
    && (o.err.Some? ==> (o.err.value == EmptyPeriod && v == ByPeriod) || o.err.value.DestinationExists?)
  }

  /** A harmless step followed, when it succeeded, by harmless periods. */
  lemma HarmlessThen(d: Disk, v: Variant, o: Outcome, r: Outcome)
    requires Harmless(o, d, v)
    requires o.err.None? ==> Harmless(r, o.disk, v)
    ensures Harmless(if o.err.Some? then o else r, d, v)
  {
  }

  /** One pass builds nothing, and the only errors of its periods are an
      empty period (in `separate_period` only) and an occupied destination. */
  lemma {:induction false} PeriodsFromKeeps(d: Disk, env: Env, v: Variant, dirs: seq<string>,
                                            ws: seq<Window>, obs: seq<string>, all: seq<string>, k: nat)
    requires |dirs| == |ws|
    ensures Harmless(PeriodsFrom(d, env, v, dirs, ws, obs, all, k), d, v)
    decreases |ws| - k
  {
    if k < |ws| {
      var o := PeriodStep(d, env, v, dirs, ws, obs, all, k);
      PeriodsFromNext(d, env, v, dirs, ws, obs, all, k);
      PeriodStepKeeps(d, env, v, dirs, ws, obs, all, k);
      if o.err.None? {
        PeriodsFromKeeps(o.disk, env, v, dirs, ws, o.left, o.rest, k + 1);
      }
      HarmlessThen(d, v, o, PeriodsFrom(o.disk, env, v, dirs, ws, o.left, o.rest, k + 1));
    }
  }

  /** `obs_list` at period `k` holds the pass's frames that no earlier
      window took. */
  lemma PeriodStepLeft(d: Disk, env: Env, v: Variant, dirs: seq<string>,
                       ws: seq<Window>, obs: seq<string>, all: seq<string>, k: nat)
    requires k < |ws| == |dirs|
    ensures var o := PeriodStep(d, env, v, dirs, ws, Remaining(obs, env.cat, ws, RuleOf(v), k), all, k);
      o.err.None? ==> o.left == Remaining(obs, env.cat, ws, RuleOf(v), k + 1)
  {
  }

  /** A pass that gets through period `k` and beyond got through its step
      at `k` and then through the periods after it. */
  lemma PeriodsFromSplit(d: Disk, env: Env, v: Variant, dirs: seq<string>,
                         ws: seq<Window>, obsList: seq<string>, all: seq<string>, k: nat)
    requires k < |ws| == |dirs|
    requires PeriodsFrom(d, env, v, dirs, ws, obsList, all, k).err.None?
    ensures var o := PeriodStep(d, env, v, dirs, ws, obsList, all, k);
      o.err.None? && PeriodsFrom(o.disk, env, v, dirs, ws, o.left, o.rest, k + 1).err.None?
  {
    PeriodsFromNext(d, env, v, dirs, ws, obsList, all, k);
  }

  /** In `separate_period` a period with nothing to move is an error: a step
      that succeeds had frames to move. In `separate_obs` an empty period is
      no error. */
  lemma PeriodStepFound(d: Disk, env: Env, dirs: seq<string>,
                        ws: seq<Window>, obs: seq<string>, all: seq<string>, k: nat)
    requires k < |ws| == |dirs|
    ensures PeriodStep(d, env, ByPeriod, dirs, ws, Remaining(obs, env.cat, ws, Closed, k), all, k).err.None?
      ==> Group(obs, env.cat, ws, Closed, k) != []
    ensures Group(obs, env.cat, ws, HalfOpen, k) == [] ==>
      PeriodStep(d, env, ByObs, dirs, ws, Remaining(obs, env.cat, ws, HalfOpen, k), all, k).err.None?
  {
  }

  lemma {:induction false} PassesFromKeeps(d: Disk, env: Env, base: string, v: Variant, begin: real, end: real,
                                           all: seq<string>, i: nat)
    requires ValidEnv(env)
    ensures PassesFrom(d, env, base, v, begin, end, all, i).0.log == d.log
    ensures var e := PassesFrom(d, env, base, v, begin, end, all, i).1;
      e.Some? ==> (e.value == EmptyPeriod && v == ByPeriod) || e.value.DestinationExists?
    decreases |Passes| - i
  {
    if i < |Passes| {
      var (t, m) := Passes[i];
      var obs := InPassOf(all, env.cat, t, m);
      if obs == [] {
        PassesFromKeeps(d, env, base, v, begin, end, all, i + 1);
      } else {
        var ws := PassWindows(v, env, begin, end, m);
        var dirs := PassFolders(base, t, m, |ws|);
        PeriodsFromKeeps(d, env, v, dirs, ws, obs, all, 0);
        var o := PeriodsFrom(d, env, v, dirs, ws, obs, all, 0);
        if o.err.None? {
          PassesFromKeeps(o.disk, env, base, v, begin, end, o.rest, i + 1);
        }
      }
    }
  }

  /** Both routines only make directories and move files: no builder is
      called. `separate_period` fails only on an empty period or an occupied
      destination; `separate_obs` never reports an empty period (it prints
      and goes on), only missing input or an occupied destination. */
  lemma SeparateKeeps(d: Disk, env: Env, base: string, begin: real, end: real, files: seq<string>)
    requires ValidEnv(env)
    ensures SeparatePeriodSpec(d, env, base).0.log == d.log
    ensures SeparateObsSpec(d, env, base, begin, end, files).0.log == d.log
    ensures var e := SeparatePeriodSpec(d, env, base).1;
      e.Some? ==> e.value == EmptyPeriod || e.value.DestinationExists?
    ensures var e := SeparateObsSpec(d, env, base, begin, end, files).1;
      e.Some? ==> e.value == NoData || e.value.DestinationExists?
  {
    var all := Glob(d, env, base, ORaw);
    if all != [] {
      PassesFromKeeps(d, env, base, ByPeriod, MinTime(all, env.cat), MaxTime(all, env.cat), all, 0);
    }
    var all' := if files == [] then Glob(d, env, RetrieveDirectory, AnyRaw) else files;
    if all' != [] {
      PassesFromKeeps(d, env, base, ByObs, begin, end, all', 0);
    }
  }

  /** In `separate_period`, when the day lengths add up to the whole days of
      the span, every frame of a pass whose EXPSTART lies between the first
      and last EXPSTART falls into some period: none is left behind. */
  lemma ByPeriodCovers(env: Env, first: real, last: real, m: Mode, obs: seq<string>, x: string)
    returns (k: nat)
    requires ValidEnv(env) && Distinct(obs) && x in obs
    requires first <= ExpStart(env.cat, x) <= last
    requires var n := DayCount(ByPeriod, first, last);
      Sum(ToReals(env.days(env.periods(n, m), n))) == n as real
    ensures k < |PassWindows(ByPeriod, env, first, last, m)|
    ensures x in Group(obs, env.cat, PassWindows(ByPeriod, env, first, last, m), Closed, k)
  {
    var n := DayCount(ByPeriod, first, last);
    var lengths := env.days(env.periods(n, m), n);
    k := PeriodCoverage(obs, env.cat, first, last, lengths, x);
  }

  /** The frames each period from `k` on moves, in period order, up to the
      first error. */
  function MovedFrom(d: Disk, env: Env, v: Variant, dirs: seq<string>,
                     ws: seq<Window>, obsList: seq<string>, all: seq<string>, k: nat): seq<seq<string>>
    requires |dirs| == |ws|
    decreases |ws| - k
  {
    if k >= |ws| then []
    else
      var o := PeriodStep(d, env, v, dirs, ws, obsList, all, k);
      if o.err.Some? then []
      else [Select(obsList, env.cat, ws[k], RuleOf(v))] + MovedFrom(o.disk, env, v, dirs, ws, o.left, o.rest, k + 1)
  }

  /** A run that got through periods `k..` left `left` in `obs_list` and
      moved `groups`, none of them empty when `nonEmpty` holds. */
  predicate Follows(o: Outcome, moved: seq<seq<string>>, left: seq<string>, groups: seq<seq<string>>, nonEmpty: bool) {
    o.err.None? ==> o.left == left && moved == groups && (nonEmpty ==> [] !in moved)
  }

  /** A step at `k` that moves `g`, followed, when it succeeds, by periods
      that follow the reference. */
  lemma FollowsThen(o: Outcome, g: seq<string>, r: Outcome, moved: seq<seq<string>>, run: Outcome, all: seq<seq<string>>,
                    left: seq<string>, groups: seq<seq<string>>, later: seq<seq<string>>, nonEmpty: bool)
    requires run == (if o.err.Some? then o else r)
    requires all == (if o.err.Some? then [] else [g] + moved)
    requires groups == [g] + later
    requires o.err.None? ==> Follows(r, moved, left, later, nonEmpty) && (nonEmpty ==> g != [])
    ensures Follows(run, all, left, groups, nonEmpty)
  {
  }

  /** Periods from `k` on that succeed leave in `obs_list` and move what the
      reference `LeftAfter` and `GroupsFrom` say, and in `separate_period`
      every one of them had frames to move. */
  lemma {:induction false} PeriodsFromFollow(d: Disk, env: Env, v: Variant, dirs: seq<string>,
                                             ws: seq<Window>, obsList: seq<string>, all: seq<string>, k: nat)
    requires k <= |ws| == |dirs|
    ensures Follows(PeriodsFrom(d, env, v, dirs, ws, obsList, all, k), MovedFrom(d, env, v, dirs, ws, obsList, all, k),
                    LeftAfter(obsList, env.cat, ws, RuleOf(v), k), GroupsFrom(obsList, env.cat, ws, RuleOf(v), k),
                    v == ByPeriod)
    decreases |ws| - k
  {
    if k < |ws| {
      var o := PeriodStep(d, env, v, dirs, ws, obsList, all, k);
      var g := Select(obsList, env.cat, ws[k], RuleOf(v));
      PeriodsFromNext(d, env, v, dirs, ws, obsList, all, k);
      if o.err.None? {
        PeriodsFromFollow(o.disk, env, v, dirs, ws, o.left, o.rest, k + 1);
      }
      FollowsThen(o, g, PeriodsFrom(o.disk, env, v, dirs, ws, o.left, o.rest, k + 1),
                  MovedFrom(o.disk, env, v, dirs, ws, o.left, o.rest, k + 1),
                  PeriodsFrom(d, env, v, dirs, ws, obsList, all, k), MovedFrom(d, env, v, dirs, ws, obsList, all, k),
                  LeftAfter(obsList, env.cat, ws, RuleOf(v), k),
                  GroupsFrom(obsList, env.cat, ws, RuleOf(v), k),
                  GroupsFrom(RemoveEach(obsList, g), env.cat, ws, RuleOf(v), k + 1), v == ByPeriod);
    }
  }

  /** In a pass that succeeds, period `k` moves exactly `Group(k)`, and
      `obs_list` ends as the frames no window took. */
  lemma PassMovesGroups(d: Disk, env: Env, v: Variant, dirs: seq<string>,
                        ws: seq<Window>, obs: seq<string>, all: seq<string>, k: nat)
    requires k < |ws| == |dirs|
    requires PeriodsFrom(d, env, v, dirs, ws, obs, all, 0).err.None?
    ensures |MovedFrom(d, env, v, dirs, ws, obs, all, 0)| == |ws|
    ensures MovedFrom(d, env, v, dirs, ws, obs, all, 0)[k] == Group(obs, env.cat, ws, RuleOf(v), k)
    ensures PeriodsFrom(d, env, v, dirs, ws, obs, all, 0).left == Remaining(obs, env.cat, ws, RuleOf(v), |ws|)
  {
    assert Remaining(obs, env.cat, ws, RuleOf(v), 0) == obs;
    PeriodsFromFollow(d, env, v, dirs, ws, obs, all, 0);
    GroupsFromRemaining(obs, env.cat, ws, RuleOf(v), 0);
  }

  /** In a pass that succeeds no frame is moved by two periods. */
  lemma PassMovesOnce(d: Disk, env: Env, v: Variant, dirs: seq<string>,
                      ws: seq<Window>, obs: seq<string>, all: seq<string>, j: nat, k: nat, x: string)
    requires Distinct(obs) && j < k < |ws| == |dirs|
    requires PeriodsFrom(d, env, v, dirs, ws, obs, all, 0).err.None?
    ensures |MovedFrom(d, env, v, dirs, ws, obs, all, 0)| == |ws|
    ensures !(x in MovedFrom(d, env, v, dirs, ws, obs, all, 0)[j] && x in MovedFrom(d, env, v, dirs, ws, obs, all, 0)[k])
  {
    PassMovesGroups(d, env, v, dirs, ws, obs, all, j);
    PassMovesGroups(d, env, v, dirs, ws, obs, all, k);
    GroupsDisjoint(obs, env.cat, ws, RuleOf(v), j, k, x);
  }

  /** A pass that succeeds leaves in `obs_list` exactly the frames that lie
      in none of its windows. */
  lemma PassLeft(d: Disk, env: Env, v: Variant, dirs: seq<string>,
                 ws: seq<Window>, obs: seq<string>, all: seq<string>)
    requires Distinct(obs) && |ws| == |dirs|
    requires PeriodsFrom(d, env, v, dirs, ws, obs, all, 0).err.None?
    ensures forall x ::
              x in PeriodsFrom(d, env, v, dirs, ws, obs, all, 0).left
              <==> x in obs && Missed(RuleOf(v), ExpStart(env.cat, x), ws, |ws|)
  {
    assert Remaining(obs, env.cat, ws, RuleOf(v), 0) == obs;
    PeriodsFromFollow(d, env, v, dirs, ws, obs, all, 0);
    GroupsFromRemaining(obs, env.cat, ws, RuleOf(v), 0);
    RemainingSpec(obs, env.cat, ws, RuleOf(v), |ws|);
  }

  /** A `separate_period` pass that succeeds had frames to move in every
      period. */
  lemma PassNoEmptyPeriod(d: Disk, env: Env, dirs: seq<string>,
                          ws: seq<Window>, obs: seq<string>, all: seq<string>, k: nat)
    requires k < |ws| == |dirs|
    requires PeriodsFrom(d, env, ByPeriod, dirs, ws, obs, all, 0).err.None?
    ensures Group(obs, env.cat, ws, Closed, k) != []
  {
    PeriodsFromFollow(d, env, ByPeriod, dirs, ws, obs, all, 0);
    PassMovesGroups(d, env, ByPeriod, dirs, ws, obs, all, k);
  }

  /** A pass's `obs_list` repeats no frame when `all_files` repeats none. */
  lemma {:induction false} InPassOfDistinct(all: seq<string>, cat: Catalog, t: Target, m: Mode)
    requires Distinct(all)
    ensures Distinct(InPassOf(all, cat, t, m))
    decreases |all|
  {
    if all != [] {
      var init, last := all[..|all| - 1], all[|all| - 1];
      assert Distinct(init) by {
        forall i, j | 0 <= i < j < |init| ensures init[i] != init[j] {
          assert init[i] == all[i] && init[j] == all[j];
        }
      }
      InPassOfDistinct(init, cat, t, m);
      if InPass(cat, last, t, m) {
        var a := InPassOf(init, cat, t, m);
        assert last !in init by {
          forall i | 0 <= i < |init| ensures init[i] != last {
            assert init[i] == all[i];
          }
        }
        DistinctSnoc(a, last);
      }
    }
  }

  /** The periods of a pass keep `all_files` free of repeats. */
  lemma {:induction false} PeriodsFromRestDistinct(d: Disk, env: Env, v: Variant, dirs: seq<string>,
                                                   ws: seq<Window>, obsList: seq<string>, all: seq<string>, k: nat)
    requires |ws| == |dirs| && Distinct(all)
    ensures Distinct(PeriodsFrom(d, env, v, dirs, ws, obsList, all, k).rest)
    decreases |ws| - k
  {
    if k < |ws| {
      PeriodsFromNext(d, env, v, dirs, ws, obsList, all, k);
      var o := PeriodStep(d, env, v, dirs, ws, obsList, all, k);
      RemoveEachSpec(all, Select(obsList, env.cat, ws[k], RuleOf(v)));
      if o.err.None? {
        PeriodsFromRestDistinct(o.disk, env, v, dirs, ws, o.left, o.rest, k + 1);
      }
    }
  }

  /** The `obs_list` of each pass from `i` on that has frames, as the run
      reaches it. */
  function PassLists(d: Disk, env: Env, base: string, v: Variant, begin: real, end: real,
                     all: seq<string>, i: nat): seq<seq<string>>
    requires ValidEnv(env)
    decreases |Passes| - i
  {
    if i >= |Passes| then []
    else
      var (t, m) := Passes[i];
      var obs := InPassOf(all, env.cat, t, m);
      if obs == [] then PassLists(d, env, base, v, begin, end, all, i + 1)
      else
        var ws := PassWindows(v, env, begin, end, m);
        var o := PeriodsFrom(d, env, v, PassFolders(base, t, m, |ws|), ws, obs, all, 0);
        if o.err.Some? then [obs]
        else [obs] + PassLists(o.disk, env, base, v, begin, end, o.rest, i + 1)
  }

  /** When `all_files` starts without repeats, every pass's `obs_list`
      has none, so `PassMovesOnce` and `PassLeft` apply to each pass. */
  lemma {:induction false} PassListsDistinct(d: Disk, env: Env, base: string, v: Variant, begin: real, end: real,
                                             all: seq<string>, i: nat)
    requires ValidEnv(env) && Distinct(all)
    ensures forall j | 0 <= j < |PassLists(d, env, base, v, begin, end, all, i)| ::
              Distinct(PassLists(d, env, base, v, begin, end, all, i)[j])
    decreases |Passes| - i
  {
    if i < |Passes| {
      var (t, m) := Passes[i];
      var obs := InPassOf(all, env.cat, t, m);
      if obs == [] {
        PassListsDistinct(d, env, base, v, begin, end, all, i + 1);
      } else {
        InPassOfDistinct(all, env.cat, t, m);
        var ws := PassWindows(v, env, begin, end, m);
        var o := PeriodsFrom(d, env, v, PassFolders(base, t, m, |ws|), ws, obs, all, 0);
        if o.err.None? {
          PeriodsFromRestDistinct(d, env, v, PassFolders(base, t, m, |ws|), ws, obs, all, 0);
          PassListsDistinct(o.disk, env, base, v, begin, end, o.rest, i + 1);
        }
      }
    }
  }

  /** In `separate_period`, whose frames come from one glob, no pass's
      `obs_list` repeats a frame. */
  lemma ByPeriodListsDistinct(d: Disk, env: Env, base: string)
    requires ValidEnv(env)
    ensures var all := Glob(d, env, base, ORaw);
      all != [] ==>
        forall j | 0 <= j < |PassLists(d, env, base, ByPeriod, MinTime(all, env.cat), MaxTime(all, env.cat), all, 0)| ::
          Distinct(PassLists(d, env, base, ByPeriod, MinTime(all, env.cat), MaxTime(all, env.cat), all, 0)[j])
  {
    var all := Glob(d, env, base, ORaw);
    GlobSpec(d, env, base, ORaw);
    if all != [] {
      PassListsDistinct(d, env, base, ByPeriod, MinTime(all, env.cat), MaxTime(all, env.cat), all, 0);
    }
  }

  /** When the day lengths sum to the whole days of the span, a
      `separate_period` pass that succeeds leaves behind none of its frames
      between the first and last EXPSTART. */
  lemma ByPeriodLeavesNone(d: Disk, env: Env, first: real, last: real, m: Mode, dirs: seq<string>,
                           obs: seq<string>, all: seq<string>, x: string)
    requires ValidEnv(env) && Distinct(obs) && x in obs
    requires first <= ExpStart(env.cat, x) <= last
    requires var n := DayCount(ByPeriod, first, last);
      Sum(ToReals(env.days(env.periods(n, m), n))) == n as real
    requires |dirs| == |PassWindows(ByPeriod, env, first, last, m)|
    requires PeriodsFrom(d, env, ByPeriod, dirs, PassWindows(ByPeriod, env, first, last, m), obs, all, 0).err.None?
    ensures x !in PeriodsFrom(d, env, ByPeriod, dirs, PassWindows(ByPeriod, env, first, last, m), obs, all, 0).left
  {
    var ws := PassWindows(ByPeriod, env, first, last, m);
    var k := ByPeriodCovers(env, first, last, m, obs, x);
    GroupSpec(obs, env.cat, ws, Closed, k);
    PassLeft(d, env, ByPeriod, dirs, ws, obs, all);
  }

  /** Lines 703-707: the pass's frames, collected in one loop. */
  method SelectPass(all: seq<string>, cat: Catalog, t: Target, m: Mode) returns (obs: seq<string>)
    ensures obs == InPassOf(all, cat, t, m)
  {
    obs := [];
    var i := 0;
    while i < |all|
      invariant 0 <= i <= |all|
      invariant obs == InPassOf(all[..i], cat, t, m)
    {
      assert all[..i + 1][..i] == all[..i];
      var h := HeaderOf(cat, all[i]);
      if h.targname == TargetName(t) && h.ccdgain == Gain(m) {
        obs := obs + [all[i]];
      }
      i := i + 1;
    }
    assert all[..i] == all;
  }

  /** Lines 715-730 (`separate_period`) and 818-822 (`separate_obs`). */
  method WindowsFor(v: Variant, env: Env, begin: real, end: real, m: Mode) returns (ws: seq<Window>)
    requires ValidEnv(env)
    ensures ws == PassWindows(v, env, begin, end, m)
  {
    var n := DayCount(v, begin, end);
    var periods := env.periods(n, m);
    var days := env.days(periods, n);
    match v {
      case ByPeriod =>
        var lengths := ToReals(days);
        lengths := lengths[|lengths| - 1 := lengths[|lengths| - 1] + ((end - begin) - n as real)];
        assert lengths == WithRemainder(days, end - begin);
        ws := ChainWindows(begin, lengths);
      case ByObs =>
        ws := CumsumWindows(begin, ToReals(days));
    }
  }

  /** Lines 769-771, with the `remove`s of lines 780-781: move each frame,
      dropping it from `obs_list` and `all_files`. */
  method MoveGroup(st: Store, g: seq<string>, dir: string, obs: seq<string>, all: seq<string>)
    returns (err: Option<Error>, obs': seq<string>, all': seq<string>)
    modifies st
    ensures (st.View(), err) == MoveAll(old(st.View()), g, dir)
    ensures err.None? ==> obs' == RemoveEach(obs, g) && all' == RemoveEach(all, g)
  {
    obs', all' := obs, all;
    var i := 0;
    while i < |g|
      invariant 0 <= i <= |g|
      invariant MoveAll(st.View(), g[i..], dir) == MoveAll(old(st.View()), g, dir)
      invariant RemoveEach(obs', g[i..]) == RemoveEach(obs, g)
      invariant RemoveEach(all', g[i..]) == RemoveEach(all, g)
    {
      assert g[i..][0] == g[i] && g[i..][1..] == g[i + 1..];
      err := st.Move(g[i], dir);
      if err.Some? {
        return;
      }
      obs' := RemoveFirst(obs', g[i]);
      all' := RemoveFirst(all', g[i]);
      i := i + 1;
    }
    err := None;
  }

  /** Lines 742-756 (and 834-848): the output folder of each period. */
  method FolderPaths(base: string, t: Target, m: Mode, n: nat) returns (dirs: seq<string>)
    ensures dirs == PassFolders(base, t, m, n)
  {
    dirs := [];
    var k := 0;
    while k < n
      invariant 0 <= k <= n
      invariant dirs == PassFolders(base, t, m, k)
    {
      var outputPath := FolderPath(base, t, m, k);
      dirs := dirs + [outputPath];
      k := k + 1;
    }
  }

  /** Lines 742-756: the folder of one period, from its padded label. */
  method FolderPath(base: string, t: Target, m: Mode, period: nat) returns (outputPath: string)
    ensures outputPath == PeriodFolder(base, t, m, period)
  {
    var week := PadIndex(period);
    outputPath := match t
      case BIAS => Join(base, "biases/" + NatToString(Gain(m) as nat) + "-1x1/" + ModeName(m) + week + "/")
      case DARK => Join(base, "darks/" + ModeName(m) + week + "/");
  }

  /** Lines 740-781 (and 832-871) for period `k`: the folder, the
      period's frames, the moves. */
  method RunPeriod(st: Store, env: Env, v: Variant, dirs: seq<string>,
                   ws: seq<Window>, obsList: seq<string>, all: seq<string>, k: nat)
    returns (err: Option<Error>, obsList': seq<string>, all': seq<string>)
    requires k < |ws| == |dirs|
    modifies st
    ensures var o := PeriodsFrom(old(st.View()), env, v, dirs, ws, obsList, all, k);
      err.Some? ==> st.View() == o.disk && err == o.err
    ensures err.None? ==>
      PeriodsFrom(st.View(), env, v, dirs, ws, obsList', all', k + 1)
        == PeriodsFrom(old(st.View()), env, v, dirs, ws, obsList, all, k)
  {
    PeriodsFromNext(st.View(), env, v, dirs, ws, obsList, all, k);
    var outputPath := dirs[k];
    if !st.Exists(outputPath) {
      st.Makedirs(outputPath);
    }
    var toMove := Select(obsList, env.cat, ws[k], RuleOf(v));
    if toMove == [] && v == ByPeriod {
      return Some(EmptyPeriod), obsList, all;
    }
    err, obsList', all' := MoveGroup(st, toMove, outputPath, obsList, all);
  }

  /** Lines 739-781 (and 831-871): one pass's periods in order. */
  method RunPeriods(st: Store, env: Env, v: Variant, dirs: seq<string>,
                    ws: seq<Window>, obs: seq<string>, all: seq<string>)
    returns (err: Option<Error>, rest: seq<string>)
    requires |dirs| == |ws|
    modifies st
    ensures var o := PeriodsFrom(old(st.View()), env, v, dirs, ws, obs, all, 0);
      st.View() == o.disk && err == o.err && (err.None? ==> rest == o.rest)
  {
    ghost var goal := PeriodsFrom(st.View(), env, v, dirs, ws, obs, all, 0);
    var obsList := obs;
    rest := all;
    var k := 0;
    while k < |ws|
      invariant 0 <= k <= |ws|
      invariant PeriodsFrom(st.View(), env, v, dirs, ws, obsList, rest, k) == goal
    {
      err, obsList, rest := RunPeriod(st, env, v, dirs, ws, obsList, rest, k);
      if err.Some? {
        return;
      }
      k := k + 1;
    }
    err := None;
  }

  /** Lines 698-781 (and 801-871): the three passes in order. */
  method RunPasses(st: Store, env: Env, base: string, v: Variant, begin: real, end: real, all: seq<string>)
    returns (err: Option<Error>)
    requires ValidEnv(env)
    modifies st
    ensures (st.View(), err) == PassesFrom(old(st.View()), env, base, v, begin, end, all, 0)
  {
    var allFiles := all;
    var i := 0;
    while i < |Passes|
      invariant 0 <= i <= |Passes|
      invariant PassesFrom(st.View(), env, base, v, begin, end, allFiles, i)
             == PassesFrom(old(st.View()), env, base, v, begin, end, all, 0)
    {
      var (t, m) := Passes[i];
      var obs := SelectPass(allFiles, env.cat, t, m);
      if obs != [] {
        var ws := WindowsFor(v, env, begin, end, m);
        var dirs := FolderPaths(base, t, m, |ws|);
        err, allFiles := RunPeriods(st, env, v, dirs, ws, obs, allFiles);
        if err.Some? {
          return;
        }
      }
      i := i + 1;
    }
    err := None;
  }

  /** `separate_period(base_dir)` */
  method SeparatePeriod(st: Store, env: Env, base: string) returns (err: Option<Error>)
    requires ValidEnv(env)
    modifies st
    ensures (st.View(), err) == SeparatePeriodSpec(old(st.View()), env, base)
  {
    var all := Glob(st.View(), env, base, ORaw);
    if all == [] {
      return None;
    }
    err := RunPasses(st, env, base, ByPeriod, MinTime(all, env.cat), MaxTime(all, env.cat), all);
  }

  /** `separate_obs(base_dir, month_begin, month_end, all_files)` */
  method SeparateObs(st: Store, env: Env, base: string, begin: real, end: real, files: seq<string>)
    returns (err: Option<Error>)
    requires ValidEnv(env)
    modifies st
    ensures (st.View(), err) == SeparateObsSpec(old(st.View()), env, base, begin, end, files)
  {
    var all := files;
    if all == [] {
      all := Glob(st.View(), env, RetrieveDirectory, AnyRaw);
    }
    if all == [] {
      return Some(NoData);
    }
    err := RunPasses(st, env, base, ByObs, begin, end, all);
  }
}
