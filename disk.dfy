/** The filesystem the pipeline works on, the builders it calls, and the
    collaborators it consults (FITS headers, directory listings, the period
    policy, the anneal database, `os.path.realpath`). */
module Disk {
  import opened Text
  import opened Paths
  import opened Frames
  import opened Periods

  /** One call of a numerical builder; each creates its `out` file. */
  datatype Call =
    | MakeBasebias(inputs: seq<string>, out: string)                    // basejoint.make_basebias
    | MakeBasedark(inputs: seq<string>, out: string, basebias: string)  // basedark.make_basedark
    | MakeRefbias(inputs: seq<string>, out: string, bias: Option<string>) // refbias.make_refbias
    | MakeWeekbias(inputs: seq<string>, out: string, basebias: string)  // weekbias.make_weekbias
    | MakeWeekdark(inputs: seq<string>, out: string, basedark: string, weekbias: string) // weekdark.make_weekdark
    | Refaver(inputs: seq<string>, out: string)                         // functions.refaver

  /** Existing files and directories (directories without a trailing '/'),
      and the builder calls made so far, oldest first. */
  datatype Disk = Disk(files: set<string>, dirs: set<string>, log: seq<Call>)

  /** Why a run stops, one per exception the source can raise. */
  datatype Error =
    | RootMissing                     // IOError('Root folder does not exist')
    | NoData                          // min() of an empty array in separate_obs
    | EmptyPeriod                     // ValueError('error, empty list to move')
    | DestinationExists(path: string) // shutil.move onto an existing name
    | BadRootName                     // the root's name does not split into two at '_'
    | NoAnneal                        // get_anneal_month finds no anneal
    | NoKeyword                       // get_keyword on an empty file list
    | UnknownMode                     // KeyError in bias_threshold
    | NonConforming(folder: string)   // ValueError: neither /biases/ nor /darks/
    | NoBasebiasName                  // basebias_name used before any assignment

  /** The collaborators that are not part of the model. */
  datatype Env = Env(
    cat: Catalog,                               // header values by file name
    list: set<string> -> seq<string>,           // the order os.listdir/walk/glob give
    periods: (int, Mode) -> int,                // figure_number_of_periods
    days: (int, int) -> seq<int>,               // functions.figure_days_in_period
    anneal: (string, string) -> Option<(real, real)>, // get_anneal_month
    realpath: string -> string)                 // os.path.realpath

  ghost predicate Enumerates(l: seq<string>, s: set<string>) {
    Distinct(l) && forall x :: x in l <==> x in s
  }

  /** A listing lists each member once; there is at least one period, and
      one day length per period. */
  ghost predicate ValidEnv(env: Env) {
    && (forall s :: Enumerates(env.list(s), s))
    && (forall n, m :: env.periods(n, m) >= 1)
    && (forall n, d | n >= 1 :: |env.days(n, d)| == n)
  }

  /** A directory path as stored: one trailing '/' dropped. */
  function Canon(p: string): string {
    if |p| > 0 && p[|p| - 1] == '/' then p[..|p| - 1] else p
  }

  /** `os.path.exists` */
  predicate PathExists(d: Disk, p: string) {
    p in d.files || Canon(p) in d.dirs
  }

  /** `os.path.isdir` */
  predicate IsDir(d: Disk, p: string) {
    Canon(p) in d.dirs
  }

  /** The directories `os.makedirs(p)` creates: every prefix of `p` that ends
      just before a '/' or at the end, except empty ones and ones ending in '/'. */
  function Ancestors(p: string): set<string> {
    PrefixDirs(p, |p|)
  }

  /** Whether `p[..i]` is a directory `os.makedirs(p)` creates. */
  predicate CutsAt(p: string, i: nat)
    requires i <= |p|
  {
    0 < i && (i == |p| || p[i] == '/') && p[i - 1] != '/'
  }

  /** The directories among `p[..1]` .. `p[..n]`. */
  function PrefixDirs(p: string, n: nat): set<string>
    requires n <= |p|
  {
    if n == 0 then {}
    else PrefixDirs(p, n - 1) + (if CutsAt(p, n) then {p[..n]} else {})
  }

  /** `os.makedirs(p)` creates exactly the cut prefixes of `p`. */
  lemma {:induction false} PrefixDirsSpec(p: string, n: nat)
    requires n <= |p|
    ensures forall x :: x in PrefixDirs(p, n) <==> exists i | 0 < i <= n :: CutsAt(p, i) && x == p[..i]
  {
    if n > 0 {
      PrefixDirsSpec(p, n - 1);
    }
  }

  /** After `os.makedirs(p)`, `p` is a directory (unless it ends in "//"). */
  lemma AncestorsHoldCanon(p: string)
    requires Canon(p) != [] && Canon(p)[|Canon(p)| - 1] != '/'
    ensures Canon(p) in Ancestors(p)
  {
    if |p| > 0 && p[|p| - 1] == '/' {
      assert CutsAt(p, |p| - 1);
      assert Canon(p) in PrefixDirs(p, |p| - 1);
    } else {
      assert CutsAt(p, |p|) && p[..|p|] == p;
    }
  }

  /** `os.makedirs(p)` */
  function WithDirs(d: Disk, p: string): Disk {
    d.(dirs := d.dirs + Ancestors(p))
  }

  /** `os.mkdir(p)` */
  function WithDir(d: Disk, p: string): Disk {
    d.(dirs := d.dirs + {Canon(p)})
  }

  /** Where `shutil.move(src, dir)` and `shutil.copy(src, dir)` put the file. */
  function Dest(src: string, dir: string): string {
    Join(dir, Tail(src))
  }

  /** `shutil.copy(src, dir)`: a copy under the same name, replacing any. */
  function Copied(d: Disk, src: string, dir: string): Disk {
    d.(files := d.files + {Dest(src, dir)})
  }

  /** `shutil.move(src, dir)` when the destination is free. */
  function Moved(d: Disk, src: string, dir: string): Disk {
    d.(files := d.files - {src} + {Dest(src, dir)})
  }

  /** A builder call: logged, and its output now exists. */
  function Built(d: Disk, c: Call): Disk {
    d.(files := d.files + {c.out}, log := d.log + [c])
  }

  /** The directories strictly below `top`. */
  function Below(d: Disk, top: string): set<string> {
    var p := JoinPrefix(top);
    set x | x in d.dirs && |p| < |x| && x[..|p|] == p
  }

  /** The `root` values `os.walk(top)` produces: `top` itself, then every
      directory below it, in listing order. */
  function Walk(d: Disk, env: Env, top: string): seq<string> {
    if IsDir(d, top) then [top] + env.list(Below(d, top)) else []
  }

  /** The files directly inside `dir` (the `files` of an `os.walk` step). */
  function FilesIn(d: Disk, dir: string): set<string> {
    set x | x in d.files && InDir(x, dir)
  }

  /** The `glob` patterns and `os.walk` file filters the core uses on a file name. */
  datatype Pattern = ORaw | AnyRaw | UnderRaw | RawSuffix

  predicate Matches(pat: Pattern, n: string) {
    match pat
    case ORaw => StartsWith(n, "o") && EndsWith(n, "_raw.fits")                 // o*_raw.fits
    case AnyRaw => |n| > 0 && n[0] != '.' && EndsWith(n, "raw.fits")            // *raw.fits
    case UnderRaw => |n| > 0 && n[0] != '.' && EndsWith(n, "_raw.fits")         // *_raw.fits
    case RawSuffix => EndsWith(n, "_raw.fits")                                  // filename.endswith('_raw.fits')
  }

  /** `glob.glob(os.path.join(dir, pattern))`, and the filtered `files` of
      an `os.walk` step. */
  function Glob(d: Disk, env: Env, dir: string, pat: Pattern): seq<string> {
    env.list(set x | x in d.files && InDir(x, dir) && Matches(pat, Tail(x)))
  }

  /** A glob lists each matching file directly in `dir` exactly once. */
  lemma GlobSpec(d: Disk, env: Env, dir: string, pat: Pattern)
    requires ValidEnv(env)
    ensures Distinct(Glob(d, env, dir, pat))
    ensures forall x :: x in Glob(d, env, dir, pat) <==> x in d.files && InDir(x, dir) && Matches(pat, Tail(x))
  {
    var s := set x | x in d.files && InDir(x, dir) && Matches(pat, Tail(x));
    assert Enumerates(env.list(s), s);
  }

  /** Every pattern the core uses ends in "raw.fits". */
  lemma MatchesRaw(pat: Pattern, n: string)
    requires Matches(pat, n)
    ensures EndsWith(n, "raw.fits")
  {
    if pat != AnyRaw {
      assert n[|n| - 8..] == n[|n| - 9..][1..];
    }
  }

  /** A path whose name ends in a character other than 'w' (or '/') and
      ".fits" is no raw frame. */
  lemma NotRaw(x: string, c: char)
    requires EndsWith(x, [c] + ".fits") && c != 'w' && c != '/'
    ensures !EndsWith(Tail(x), "raw.fits")
  {
    assert NoSlash([c] + ".fits");
    EndsWithTail(x, [c] + ".fits");
    var t := Tail(x);
    assert t[|t| - 6..][0] == c;
    if |t| >= 8 {
      assert t[|t| - 8..][2] == t[|t| - 6] == c;
      assert "raw.fits"[2] == 'w';
      assert t[|t| - 8..] != "raw.fits";
    }
  }

  /** Adding files that are no raw frames changes no listing of raw frames. */
  lemma GlobIgnores(d: Disk, e: Disk, env: Env, dir: string, pat: Pattern)
    requires d.files <= e.files
    requires forall x | x in e.files && x !in d.files :: !EndsWith(Tail(x), "raw.fits")
    ensures Glob(e, env, dir, pat) == Glob(d, env, dir, pat)
  {
    forall x | x in e.files && InDir(x, dir) && Matches(pat, Tail(x))
      ensures x in d.files
    {
      MatchedOld(d, e, pat, x);
    }
    GlobSame(d, e, env, dir, pat);
  }

  /** A listing is unchanged when the larger disk has no further matching file. */
  lemma GlobSame(d: Disk, e: Disk, env: Env, dir: string, pat: Pattern)
    requires d.files <= e.files
    requires forall x | x in e.files && InDir(x, dir) && Matches(pat, Tail(x)) :: x in d.files
    ensures Glob(e, env, dir, pat) == Glob(d, env, dir, pat)
  {
    var a := set x | x in d.files && InDir(x, dir) && Matches(pat, Tail(x));
    var b := set x | x in e.files && InDir(x, dir) && Matches(pat, Tail(x));
    assert a == b;
  }

  /** A file of the larger listing that the pattern matches was there before. */
  lemma MatchedOld(d: Disk, e: Disk, pat: Pattern, x: string)
    requires forall x | x in e.files && x !in d.files :: !EndsWith(Tail(x), "raw.fits")
    requires x in e.files && Matches(pat, Tail(x))
    ensures x in d.files
  {
    MatchesRaw(pat, Tail(x));
  }

  /** A walk visits `top` (when it is a directory) and each directory below
      it, each once. */
  lemma WalkSpec(d: Disk, env: Env, top: string)
    requires ValidEnv(env)
    ensures forall x :: x in Walk(d, env, top) <==> IsDir(d, top) && (x == top || x in Below(d, top))
  {
    assert Enumerates(env.list(Below(d, top)), Below(d, top));
  }

  /** The file system as the process sees it. */
  class Store {
    var files: set<string>
    var dirs: set<string>
    var log: seq<Call>

    constructor (d: Disk)
      ensures View() == d
    {
      files := d.files;
      dirs := d.dirs;
      log := d.log;
    }

    function View(): Disk
      reads this
    {
      Disk(files, dirs, log)
    }

    function Exists(p: string): bool
      reads this
    {
      PathExists(View(), p)
    }

    method Makedirs(p: string)
      modifies this
      ensures View() == WithDirs(old(View()), p)
    {
      dirs := dirs + Ancestors(p);
    }

    method Mkdir(p: string)
      modifies this
      ensures View() == WithDir(old(View()), p)
    {
      dirs := dirs + {Canon(p)};
    }

    method Copy(src: string, dir: string)
      modifies this
      ensures View() == Copied(old(View()), src, dir)
    {
      files := files + {Dest(src, dir)};
    }

    /** `shutil.move`, which refuses to replace an existing destination. */
    method Move(src: string, dir: string) returns (err: Option<Error>)
      modifies this
      ensures PathExists(old(View()), Dest(src, dir)) ==> err == Some(DestinationExists(Dest(src, dir))) && View() == old(View())
      ensures !PathExists(old(View()), Dest(src, dir)) ==> err == None && View() == Moved(old(View()), src, dir)
    {
      var to := Dest(src, dir);
      if Exists(to) {
        return Some(DestinationExists(to));
      }
      files := files - {src} + {to};
      return None;
    }

    method Build(c: Call)
      modifies this
      ensures View() == Built(old(View()), c)
    {
      files := files + {c.out};
      log := log + [c];
    }
  }
}
