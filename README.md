# refstis pipeline core, modelled in Dafny

refstis builds STIS bias and dark reference files from raw CCD frames.
This project models the orchestration core of `refstis/pipeline.py`:

- how raw frames are sorted into one folder per anneal period, in the
  three passes (BIAS wk, DARK wk, BIAS biwk): `separate_period` and
  `separate_obs`;
- how the gain folders and week folders of a tree are found:
  `pull_out_subfolders`;
- how a folder name is read for proposal, visit and week: `pull_info`;
- how a week's frames are dealt into two halves: `split_files`;
- the two drivers that build the base products (basebias, basedark) and
  each week's products: `make_pipeline_reffiles` and `make_ref_files`.
  Each product is built unless it already exists.

The file system is a value `Disk`. It holds the set of files, the set of
directories, and the log of builder calls made so far. A `Store` class
holds the same three fields. Its methods (`Makedirs`, `Mkdir`, `Copy`,
`Move`, `Build`) update them in place. Each routine has two forms:

- a pure function over `Disk`, stating what the routine does;
- a method over `Store`, written with the source's loops, whose `ensures`
  ties the new state to that function.

The properties are lemmas about the functions. They cover:

- partition and order of the split;
- the regular-expression semantics of `pull_info`;
- contiguity of the period windows;
- closed versus half-open assignment of frames to periods;
- the period loop as run: it moves each period's group exactly, so each frame
  at most once, and in `separate_period` it leaves none of a pass's frames
  behind; `separate_period` takes its frames from one glob, so no pass's
  `obs_list` repeats a frame and these facts hold in every pass;
- what gathering puts into `all/`: a copy of every `_raw.fits` frame of the
  folder and of the folders below it, except those ending in "all";
- fatal versus advisory empty periods;
- the threshold table;
- the one build plan a pipeline bias week takes;
- gating every build on its output;
- resumption: a second run builds nothing, and deleting weekdarks rebuilds
  only those weekdarks.

Everything the core consults but does not compute is a field of `Env`:

- FITS header values, by file name;
- the order of directory listings;
- `figure_number_of_periods` and `functions.figure_days_in_period`;
- `get_anneal_month`;
- `os.path.realpath`.

Modules: `Text` and `Paths` (strings, `os.path.join`, basenames), `Frames`, `Identity`, `Folders`,
`Periods`, `Disk`, `Separate`, `Strategy`, `RefFiles`, `Pipeline`, `Resume`.

Where the repository's prose and its code differ, the model follows the code:

- `separate_period` puts a frame into a period when `begin <= EXPSTART <= end`, a closed
  window (lines 763-764). So a frame on the boundary of two periods goes to the earlier one.
  Only `separate_obs` uses the half-open `begin <= EXPSTART < end` (lines 855-857).
- Both routines create a period's folder before they look at its frames (lines 759-760 and
  851-852). So empty periods get folders too.
- The `pull_info` docstring speaks of a week as "wk" and two digits. The pattern is
  `[bi]*wk0[0-9]`, so "wk10" and later are not recognised (`Identity.WeekTenIsMissed`).

## Model

| member | source | states |
|---|---|---|
| Frames.SortedFiles | refstis/pipeline.py:157-160 | the files come out in ascending (EXPSTART, file name) order and as a permutation of the input |
| Frames.SortedUnique | refstis/pipeline.py:157-160 | two sorted permutations of one multiset of files are equal, so the sort is canonical |
| Frames.SplitFiles | refstis/pipeline.py:150-165 | definition: the files sorted by EXPSTART, then dealt alternately into two lists |
| Frames.SplitFilesPartition | refstis/pipeline.py:150-165 | the two lists together hold exactly the input files, with sizes ceil(n/2) and floor(n/2) |
| Frames.SplitFilesRanks | refstis/pipeline.py:159-163 | list 0 holds the even-ranked files and list 1 the odd-ranked files of the time order, each at position rank/2 |
| Frames.SplitFilesOrderFree | refstis/pipeline.py:150-165 | the split depends only on which files are given, not on their order |
| Frames.SubNameShape | refstis/pipeline.py:382 | a sub-file name ends in "_grp0<i+1>.fits"; when ".fits" is only the extension, nothing else changes |
| Text.NatToStringRoundTrip | refstis/pipeline.py:742 | `str(n)` is a non-empty digit string that reads back as n |
| Text.ReplaceFitsSuffix | refstis/pipeline.py:558-559 | `.replace('.fits', w)` on a name whose stem holds no ".fits" changes only the extension |
| Paths.TailOfJoin | refstis/pipeline.py:190 | the last component of `os.path.join(a, n)` is n when n holds no '/' |
| Identity.PullInfo | refstis/pipeline.py:215-246 | definition: proposal and visit from the leftmost `([0-9]{5})_([0-9]{2})`, week from the leftmost `[bi]*wk0[0-9]`, '' where nothing matches |
| Identity.FirstProposal | refstis/pipeline.py:237 | the search returns the leftmost index where `([0-9]{5})_([0-9]{2})` matches, or none exists |
| Identity.FirstWeek | refstis/pipeline.py:242 | the search returns the leftmost index where `[bi]*wk0[0-9]` matches, or none exists |
| Identity.WeekMatchIsGreedy | refstis/pipeline.py:242 | `[bi]*wk0[0-9]` matches at p with its star ending at q iff the greedy run from p ends at q and "wk0<digit>" follows |
| Identity.PullInfoProposal | refstis/pipeline.py:236-239 | at the leftmost match, proposal is its five digits and visit its two digits |
| Identity.PullInfoNoProposal | refstis/pipeline.py:236-239 | proposal is '' iff the pattern matches nowhere, and proposal and visit are '' together |
| Identity.PullInfoWeek | refstis/pipeline.py:241-244 | the week is the whole leftmost match, its `[bi]*` prefix included |
| Identity.PullInfoNoWeek | refstis/pipeline.py:241-244 | the week is '' iff the week pattern matches nowhere |
| Identity.PullInfoWeekShape | refstis/pipeline.py:242 | a found week is a run of 'b'/'i', then "wk0" and a digit |
| Identity.ProposalDigits | refstis/pipeline.py:237 | the proposal is all digits (or empty) |
| Identity.WeekTenIsMissed | refstis/pipeline.py:242 | "wk10" yields no week, while "wk09" yields "wk09" |
| Identity.BiweekWithoutProposal | refstis/pipeline.py:236-246 | the two patterns are independent: "biwk03" yields week "biwk03" and empty proposal and visit |
| Identity.ProposalWithoutWeek | refstis/pipeline.py:236-246 | "12345_01" yields proposal "12345", visit "01" and no week |
| Folders.GainsOf | refstis/pipeline.py:196-197 | the kept roots are exactly those whose last component holds `[0-4]-[0-4]x[0-4]` |
| Folders.WeeksOf | refstis/pipeline.py:192-193 | the kept roots are exactly those whose last component holds "wk" |
| Folders.Subfolders | refstis/pipeline.py:169-199 | definition: the gain and week lists of the walked roots, in walk order |
| Folders.SubfoldersSpec | refstis/pipeline.py:187-199 | each list holds the walked folders passing its own test, whatever the other test says, and neither repeats a folder |
| Folders.AllIsNeither | refstis/pipeline.py:190-197 | a folder named "all" is neither a gain folder nor a week folder |
| Folders.ClassificationExamples | refstis/pipeline.py:192-197 | the two tests are independent: a gain folder need not be a week folder, nor the reverse, and one name can be both |
| Folders.PullOutSubfolders | refstis/pipeline.py:187-199 | the loop over the walk returns exactly the gain and week lists of the specification |
| Periods.PassesDisjoint | refstis/pipeline.py:698-707 | no frame belongs to two of the three (TARGNAME, CCDGAIN) passes |
| Periods.PeriodWindows | refstis/pipeline.py:714-730 | definition: `separate_period`'s windows, laid end to end from the first EXPSTART, with the remainder added to the last length |
| Periods.CumsumWindows | refstis/pipeline.py:818-822 | definition: `separate_obs`'s windows, window i ending at month_begin plus the first i+1 lengths and starting the first length earlier |
| Periods.ChainWindows | refstis/pipeline.py:723-730 | the running start/end loop produces the windows laid end to end from the first EXPSTART |
| Periods.ChainedShape | refstis/pipeline.py:723-730 | the first window starts at the start, each starts where the previous one ends, each is as long as its length, and the last ends at start plus the total |
| Periods.WithRemainderSum | refstis/pipeline.py:715-720 | adding the remainder to the last length makes the lengths sum to the whole span exactly when the day lengths sum to the whole days |
| Periods.PeriodWindowsSpan | refstis/pipeline.py:715-730 | the `separate_period` windows reach from the first to the last EXPSTART without gaps, given day lengths that sum to N_days |
| Periods.RoundHalfAwaySpec | refstis/pipeline.py:818 | Python 2 `round` picks an integer at most one half away |
| Periods.RoundHalfAwayOnHalves | refstis/pipeline.py:818 | on a half, Python 2 `round` goes away from zero |
| Periods.CumsumShape | refstis/pipeline.py:822 | every `separate_obs` window is as wide as the first length, the first starts at month_begin, the last ends at month_begin plus the total, and window i starts where i-1 ends iff lengths[i] equals lengths[0] |
| Periods.SelectSpec | refstis/pipeline.py:763-764 | `obs_to_move` holds exactly the remaining frames whose EXPSTART is in the window under the routine's rule |
| Periods.RemoveFirstSpec | refstis/pipeline.py:780-781 | `list.remove` drops one occurrence, keeps every other member, and keeps a list with no repeats that way |
| Periods.RemoveEachSpec | refstis/pipeline.py:780-781 | removing a group leaves exactly the members outside it, with no repeats |
| Periods.RemainingSpec | refstis/pipeline.py:739-781 | after k periods of the reference, the list holds exactly the pass's frames that fell in none of the first k windows; `Separate.PassLeft` carries this to the run's `obs_list` |
| Periods.GroupSpec | refstis/pipeline.py:763-764 | reference group k holds exactly the frames whose first containing window is k, so a frame on a shared closed edge goes to the earlier period; `Separate.PassMovesGroups` shows the run moves that group |
| Periods.GroupsDisjoint | refstis/pipeline.py:739-781 | no frame is in two reference groups; `Separate.PassMovesOnce` carries this to the run |
| Periods.GroupsFromRemaining | refstis/pipeline.py:739-781 | taking period by period from what the first k periods left ends with what all periods leave, and takes `Group(i)` at each period i |
| Periods.ContiguousCover | refstis/pipeline.py:723-730 | in contiguous windows, every time between the first start and the last end lies in a closed window |
| Periods.PeriodCoverage | refstis/pipeline.py:715-781 | with day lengths that sum to N_days, every frame of a `separate_period` pass lies in some reference group; `Separate.ByPeriodLeavesNone` carries this to the run |
| Periods.PadIndex | refstis/pipeline.py:742-744 | the padding loop yields the period's label |
| Periods.WeekLabelSpec | refstis/pipeline.py:742-744 | the label is digits reading back as the 1-based period number, two characters below 99 periods |
| Periods.WeekLabelInjective | refstis/pipeline.py:742-744 | different periods get different labels |
| Periods.PeriodFolderDistinct | refstis/pipeline.py:746-756 | within a pass, different periods get different folders |
| Periods.BiasDarkApart | refstis/pipeline.py:746-756 | a bias folder and a dark folder never coincide, whatever their modes and periods |
| Periods.FolderNameExample | refstis/pipeline.py:746-754 | period 0 of the biweekly biases is "biases/4-1x1/biwk01/" and period 10 of the darks is "darks/wk11/" |
| Disk.PrefixDirsSpec | refstis/pipeline.py:760 | `os.makedirs(p)` creates exactly the non-empty prefixes of p that end just before a '/' or at its end, none ending in '/' |
| Disk.AncestorsHoldCanon | refstis/pipeline.py:759-760 | after `os.makedirs(p)`, p is a directory |
| Disk.GlobSpec | refstis/pipeline.py:684 | a glob lists each matching file directly in the directory, and each once |
| Disk.WalkSpec | refstis/pipeline.py:189 | `os.walk` visits the top folder (when it is a directory) and each directory below it, each once |
| Disk.GlobIgnores | refstis/pipeline.py:521 | adding files that are not raw frames changes no listing of raw frames |
| Disk.Store.Move | refstis/pipeline.py:771 | `shutil.move` onto an existing name fails and changes nothing; otherwise the file leaves its place for the folder |
| Separate.MinTime | refstis/pipeline.py:689-691 | `mjd_times.min()` is the EXPSTART of some file and no larger than any |
| Separate.MaxTime | refstis/pipeline.py:689-692 | `mjd_times.max()` is the EXPSTART of some file and no smaller than any |
| Separate.PassWindows | refstis/pipeline.py:715-730 | a pass has one window per period of `figure_number_of_periods`, and at least one |
| Separate.InPassOf | refstis/pipeline.py:703-707 | `obs_list` holds exactly the frames of `all_files` in the pass's TARGNAME and gain |
| Separate.SelectPass | refstis/pipeline.py:703-707 | the collecting loop yields that `obs_list` |
| Separate.WindowsFor | refstis/pipeline.py:715-730 | the window computation of either routine yields the pass's windows |
| Separate.FolderPaths | refstis/pipeline.py:742-756 | the folders computed for periods 0..n-1 are exactly the pass's folders, in period order |
| Separate.FolderPath | refstis/pipeline.py:742-756 | the padded label and the mode give the period's folder |
| Separate.PassFoldersAt | refstis/pipeline.py:742-756 | period k's frames go to the folder named for period k |
| Separate.MoveAllKeeps | refstis/pipeline.py:769-771 | moving builds nothing and makes no directory; its only failure is an occupied destination |
| Separate.MoveAllEffect | refstis/pipeline.py:769-781 | when every move succeeds, exactly the group leaves its place and each file appears, under its own name, in the folder |
| Separate.MoveGroup | refstis/pipeline.py:769-781 | the move loop moves the group and drops it from `obs_list` and `all_files` |
| Separate.PeriodStepKeeps | refstis/pipeline.py:759-781 | a period builds nothing; its only errors are an empty period (in `separate_period`) and an occupied destination |
| Separate.PeriodsFromKeeps | refstis/pipeline.py:739-781 | the same holds for all of a pass's periods: no builder call, and only those two errors, the first only in `separate_period` |
| Separate.PeriodStepLeft | refstis/pipeline.py:780 | after a successful period k, `obs_list` is what the first k+1 windows left |
| Separate.PeriodsFromSplit | refstis/pipeline.py:739-781 | a pass that succeeds from period k succeeded at k and then from k+1 |
| Separate.PeriodStepFound | refstis/pipeline.py:766-767 | in `separate_period` a successful period moved frames; in `separate_obs` an empty period is no error (lines 859-860) |
| Separate.PassesFromKeeps | refstis/pipeline.py:698-781 | the three passes build nothing, and fail only on an empty period or an occupied destination |
| Separate.SeparateKeeps | refstis/pipeline.py:672-871 | neither routine calls a builder; `separate_period` fails only on an empty period or an occupied destination, `separate_obs` only on missing data or an occupied destination |
| Separate.ByPeriodCovers | refstis/pipeline.py:715-781 | in `separate_period`, every frame of a pass between the first and last EXPSTART finds a period |
| Separate.PeriodsFromFollow | refstis/pipeline.py:739-781 | periods from k on that succeed leave in `obs_list` and move, period by period, what the reference says, and in `separate_period` none of them had nothing to move |
| Separate.PassMovesGroups | refstis/pipeline.py:739-781 | in a pass that succeeds, period k moves exactly `Group(k)`, and `obs_list` ends as what no window took |
| Separate.PassMovesOnce | refstis/pipeline.py:739-781 | in a pass that succeeds, no frame is moved by two periods |
| Separate.PassLeft | refstis/pipeline.py:739-781 | a pass that succeeds leaves in `obs_list` exactly the frames lying in none of its windows |
| Separate.InPassOfDistinct | refstis/pipeline.py:703-707 | a pass's `obs_list` holds no frame twice when `all_files` holds none twice |
| Separate.PeriodsFromRestDistinct | refstis/pipeline.py:780-781 | removing the moved frames from `all_files`, period after period, keeps it free of repeats |
| Separate.PassLists | refstis/pipeline.py:698-781 | definition: the `obs_list` of each pass that has frames, in pass order, as the run reaches it |
| Separate.PassListsDistinct | refstis/pipeline.py:698-781 | when `all_files` starts without repeats, no pass's `obs_list` repeats a frame, so `PassMovesOnce` and `PassLeft` hold for every pass of the run |
| Separate.ByPeriodListsDistinct | refstis/pipeline.py:684-707 | in `separate_period`, whose `all_files` is one glob, no pass's `obs_list` repeats a frame |
| Separate.PassNoEmptyPeriod | refstis/pipeline.py:763-767 | a `separate_period` pass that succeeds found frames in every period |
| Separate.ByPeriodLeavesNone | refstis/pipeline.py:715-781 | with day lengths that sum to N_days, a `separate_period` pass that succeeds leaves none of its frames between the first and last EXPSTART unmoved |
| Separate.RunPeriod | refstis/pipeline.py:740-781 | one iteration of the period loop is one step of the period specification |
| Separate.RunPeriods | refstis/pipeline.py:739-781 | the period loop computes the pass specification, stopping at the first error |
| Separate.RunPasses | refstis/pipeline.py:698-781 | the pass loop computes the three-pass specification over a shrinking `all_files` |
| Separate.SeparatePeriodSpec | refstis/pipeline.py:672-781 | definition: the `o*_raw.fits` frames of the base directory, passed through the three passes over windows spanning their own EXPSTARTs |
| Separate.SeparateObsSpec | refstis/pipeline.py:786-871 | definition: the given frames, or the retrieve directory's `*raw.fits`, passed through the three passes over windows of the given month |
| Separate.SeparatePeriod | refstis/pipeline.py:672-781 | `separate_period` does what its specification says |
| Separate.SeparateObs | refstis/pipeline.py:786-871 | `separate_obs` does what its specification says |
| Strategy.ThresholdTable | refstis/pipeline.py:290-296 | the table has exactly its seven keys, each threshold between 1 and 98; any other key is a `KeyError` |
| Strategy.PlansAgree | refstis/pipeline.py:375-389 | under any threshold of the table: a weekbias exactly below it, a split exactly above 120 imsets, never both, and the two drivers agree |
| Strategy.SplitCallsSpec | refstis/pipeline.py:378-387 | a split build uses each frame in exactly one half, makes two distinct "_grp01"/"_grp02" products, and averages exactly those under the requested name |
| Strategy.SubNamesDiffer | refstis/pipeline.py:382 | the two sub-file names differ whenever ".fits" occurs in the name |
| Strategy.BuildSplit | refstis/pipeline.py:378-387 | the sub-file loop makes the two half refbiases and then the average, in that order |
| RefFiles.SplitJoin | refstis/pipeline.py:449 | `str.split('_')` loses nothing: joining the pieces gives the string back |
| RefFiles.SplitOnTwo | refstis/pipeline.py:449 | a name with exactly one '_' splits into the two parts the unpacking needs |
| RefFiles.CopyEach | refstis/pipeline.py:468-470 | copying adds each file's copy in the folder, and nothing else changes |
| RefFiles.BaseBiasesLast | refstis/pipeline.py:460-477 | after the gain loop, `basebias_name` is the last gain folder's basebias |
| RefFiles.RefBasesBasebias | refstis/pipeline.py:457-506 | the weeks see the darks' fixed basebias path when `darks/` exists, else the last gain folder's basebias, else none |
| RefFiles.RefWeekGates | refstis/pipeline.py:511-592 | a week whose products exist changes nothing; a week that succeeds leaves them in place, only adding files |
| RefFiles.BiasWeekGates | refstis/pipeline.py:548-574 | a bias week builds only its missing refbias and, below the threshold, its missing weekbias |
| RefFiles.DarkWeekGates | refstis/pipeline.py:576-592 | a dark week builds only a missing weekdark, and it exists afterwards |
| RefFiles.ProductNotRaw | refstis/pipeline.py:549-550 | a product name is a ".fits" file that never matches `*raw.fits` |
| RefFiles.SubNameNotRaw | refstis/pipeline.py:558-559 | nor does a sub-file name |
| RefFiles.RefWeekRawSame | refstis/pipeline.py:521 | a week's step adds only products, so its listing of raw frames is unchanged |
| RefFiles.WeekdarkUsesRefbias | refstis/pipeline.py:583-586 | the weekdark uses the refbias of the same-labelled bias week under `biases/1-1x1` |
| RefFiles.WeekdarkUsesBasedark | refstis/pipeline.py:587-588 | with the week label only at the path's end, the weekdark uses the basedark in the darks' `all/` |
| RefFiles.WeekdarkBasedarkElsewhere | refstis/pipeline.py:587-588 | when the label also occurs higher up, `replace` rewrites every copy, so another basedark path is used |
| RefFiles.CopyFiles | refstis/pipeline.py:469-470 | the copy loop copies each listed file into the folder |
| RefFiles.GatherAll | refstis/pipeline.py:462-470 | `all/` is made if missing, then filled with the `_raw.fits` files of every walked root not ending in "all" |
| RefFiles.MakeBaseBias | refstis/pipeline.py:461-477 | one gain folder is gathered, then its basebias is built unless it exists |
| RefFiles.MakeBaseBiases | refstis/pipeline.py:460-477 | the gain folders in turn, returning the last basebias name |
| RefFiles.MakeBaseDark | refstis/pipeline.py:484-506 | the darks are gathered, then the basedark is built against the fixed basebias path unless it exists |
| RefFiles.MakeRefbiasStep | refstis/pipeline.py:548-566 | the refbias is built unless it exists, split above 120 imsets |
| RefFiles.MakeWeekbiasStep | refstis/pipeline.py:568-574 | the weekbias is built unless it exists, against `basebias_name`; it fails if that name was never assigned |
| RefFiles.MakeWeekdarkStep | refstis/pipeline.py:576-592 | the weekdark is built unless it exists |
| RefFiles.MakeWeek | refstis/pipeline.py:511-592 | one week folder: keywords read first, then the folder's kind sets the flags that decide what is built, or the folder is non-conforming |
| RefFiles.MakeWeeks | refstis/pipeline.py:511-592 | the week folders in turn, stopping at the first error |
| RefFiles.RefFolders | refstis/pipeline.py:431-455 | the root is checked, separated when either list is empty, and the final lists are returned |
| RefFiles.MakeBases | refstis/pipeline.py:457-506 | the base stage, returning the `basebias_name` the weeks see |
| RefFiles.RefFilesSpec | refstis/pipeline.py:418-592 | definition: a missing root is an error; the tree is separated when either folder list is empty; then the base products, then the week folders in order, stopping at the first error |
| RefFiles.MakeRefFiles | refstis/pipeline.py:418-592 | `make_ref_files` does what its specification says |
| Pipeline.Or | refstis/pipeline.py:350-351 | definition: Python's `last or name` for an optional string, `name` when `last` is None or '' |
| Pipeline.CollectSpec | refstis/pipeline.py:313-319 | the collected files are exactly the `o*_raw.fits` files lying directly in a kept root |
| Pipeline.BaseRawsSpec | refstis/pipeline.py:312-334 | the basebias uses every such file under `biases` in a path holding "1-1x1"; the basedark uses every such file under `darks` |
| Pipeline.PlanCallsSpec | refstis/pipeline.py:374-389 | exactly one plan runs and ends with the call that makes the weekbias name: a weekbias below the threshold, else a split average above 120, else one refbias |
| Pipeline.PipeWeek | refstis/pipeline.py:353-414 | definition: one week folder: its header keywords are read first; a `/biases/` week is skipped when its weekbias exists, raises on an unknown mode, else builds its mode's plan; a `/darks/` week is skipped when its weekdark exists, else builds it; any other folder is non-conforming |
| Pipeline.PipelineSpec | refstis/pipeline.py:279-414 | definition: a missing root is an error; the root is separated by period; then the basebias and basedark, then the week folders in order against `last_basebias or` the root's basebias, stopping at the first error |
| Pipeline.PipeWeekGates | refstis/pipeline.py:353-414 | a week whose product exists is skipped, even before the mode lookup; a successful week leaves its product and only adds files and calls |
| Pipeline.PipeWeekBuilds | refstis/pipeline.py:365-389 | a missing weekbias of a known mode is made by exactly the calls of the selected plan |
| Pipeline.PipeWeekdarkUsesWeekbias | refstis/pipeline.py:402-405 | the weekdark uses the weekbias of the same-labelled bias week under `biases/1-1x1` |
| Pipeline.PipelineBases | refstis/pipeline.py:350-411 | every weekbias uses `last_basebias` when given, else the root's basebias; every weekdark uses the root's basedark |
| Pipeline.LastBasedarkIgnored | refstis/pipeline.py:351-407 | the run does not depend on `last_basedark`, because line 407 overwrites it before use |
| Pipeline.CollectRaws | refstis/pipeline.py:312-319 | the walk loop collects the specification's base frames |
| Pipeline.MakePipelineWeekbias | refstis/pipeline.py:365-389 | a bias week is skipped if its weekbias exists, raises on an unknown mode, else builds its plan |
| Pipeline.MakePipelineWeekdark | refstis/pipeline.py:392-411 | a dark week is skipped if its weekdark exists, else builds it against the root's basedark and the week's weekbias |
| Pipeline.MakePipelineWeek | refstis/pipeline.py:353-414 | one week folder, or a non-conforming error |
| Pipeline.MakePipelineWeeks | refstis/pipeline.py:353-414 | the week folders in turn, stopping at the first error |
| Pipeline.MakePipelineReffiles | refstis/pipeline.py:279-414 | `make_pipeline_reffiles` does what its specification says |
| Resume.GlobStable | refstis/pipeline.py:521 | a week folder's frame listing is unchanged by what the run adds |
| Resume.DoneStable | refstis/pipeline.py:548-592 | a finished week stays finished as the run goes on |
| Resume.SubfoldersStable | refstis/pipeline.py:446 | what the run adds changes neither folder list |
| RefFiles.CopyRootsFills | refstis/pipeline.py:466-470 | a `_raw.fits` file directly in a walked root not ending in "all" has its copy in `all/` once every root is done |
| RefFiles.GatherFills | refstis/pipeline.py:462-470 | after gathering, `all/` holds a copy of every `_raw.fits` file directly in the folder or in a directory below it not ending in "all" |
| Resume.GatherGrows | refstis/pipeline.py:462-470 | gathering only adds folders named "all" and ".fits" files (a raw frame only as a copy inside an "all" folder), and logs nothing |
| Resume.BaseBiasGrows | refstis/pipeline.py:461-477 | a gain folder's step leaves its basebias in place and builds nothing when it already existed |
| Resume.BaseDarkGrows | refstis/pipeline.py:484-506 | the darks' step leaves the basedark in place and builds nothing when it already existed |
| Resume.RefBasesGrows | refstis/pipeline.py:457-506 | the base stage only grows the tree and builds nothing when every base product exists |
| Resume.RefWeekRedo | refstis/pipeline.py:511-592 | a finished week, or one missing only a deleted weekdark, raises nothing and rebuilds at most that weekdark |
| Resume.RefWeeksRedo | refstis/pipeline.py:511-592 | the same holds for the whole week stage |
| Resume.RefWeeksDone | refstis/pipeline.py:511-592 | a successful week stage leaves every week folder finished |
| Resume.RemoveKeeps | refstis/pipeline.py:446-455 | deleting weekdarks changes no folder list and no frame listing |
| Resume.PendingAfterRemove | refstis/pipeline.py:576-581 | a finished week stays finished after the deletion, unless its weekdark was deleted |
| Resume.FirstRun | refstis/pipeline.py:418-592 | a successful run leaves every week folder finished and every base product in place |
| Resume.RerunStageOne | refstis/pipeline.py:446-455 | the next run finds the same folders and separates nothing |
| Resume.RerunBases | refstis/pipeline.py:457-506 | the next run's base stage builds nothing |
| Resume.RerunFrom | refstis/pipeline.py:418-592 | the next run raises nothing, rebuilds only deleted weekdarks, and finishes every week |
| Resume.RerunAfterRemovingWeekdarks | refstis/pipeline.py:418-592 | after a successful run, deleting weekdarks and running again builds only those weekdarks and finishes every week |
| Resume.SecondRunBuildsNothing | refstis/pipeline.py:418-592 | a second run over what a successful first run left makes no builder call and raises nothing |

## Left out

- Printing, `os.environ['oref']` (line 288) and `sys.exit` are left out: they have no effect on the files or builds modelled.
- The IMPHTTAB header update after each move (lines 772-778 and 865-869) is left out: header contents are not modelled.
- `clean_directory` (`make_ref_files(..., clean=True)`, line 435) is not part of this model.
- The numerical builders are not modelled beyond their inputs and outputs. These are `basejoint.make_basebias`, `basedark.make_basedark`, `refbias.make_refbias`, `weekbias.make_weekbias`, `weekdark.make_weekdark` and `functions.refaver`. Each becomes a logged call that creates its output file.
- `figure_number_of_periods`, `functions.figure_days_in_period`, `get_anneal_month` and `os.path.realpath` are parameters of `Env`. Only their results are used: at least one period, and one day length per period.
- `functions.count_imsets` is taken as the sum of a per-file imset count. `functions.get_keyword(files, key, 0)` is taken as the first file's header, and an empty list as an error. Neither function is part of this model.
- The order of `os.walk`, `os.listdir` and `glob.glob` is an `Env` parameter. Each listing lists each member once. Hidden files are skipped by glob's `*` and not by `os.walk`.
- `glob` patterns are modelled for the four patterns used, not in general. Paths are not normalised: `a/b` and `a//b` are different names.
- `os.makedirs` is modelled as making every prefix of the path a directory. Failures from permissions or from a file in the way are left out.
- `shutil.copy` onto itself and other `shutil` errors are left out. Only a move onto an existing name is an error.
- EXPSTART times are exact reals. Floating-point rounding in the window sums of lines 720-730 and 822 is not modelled.
- Folder names are computed once per pass, before its period loop (`Separate.FolderPaths`). The source computes each name inside the loop. Naming has no effect on the disk, so the order is immaterial.
- Separate.ByPeriodCovers: needs the day lengths to sum to N_days. This is what `functions.figure_days_in_period` is meant to return, but that function is not part of this model.
- Periods.PeriodCoverage: needs the same day-sum assumption.
- Separate.PeriodStepFound: states the fatal or advisory empty period for one period step. For a whole run, `Separate.PassNoEmptyPeriod` lifts the fatal case, and `Separate.PeriodsFromKeeps` shows a `separate_obs` run never fails on an empty period.
- Separate.ByPeriodLeavesNone: needs the same day-sum assumption.
- Resume.FirstRun: needs the folder lists to be non-empty after the first stage. With an empty list, every run separates again.
- Resume.RerunAfterRemovingWeekdarks: needs the same non-empty folder lists.
- Resume.SecondRunBuildsNothing: needs the same non-empty folder lists.
- The `BASEDARK` flag of `make_ref_files` (lines 515 and 538) is set but never read, so it is not modelled.
- `grab_between`, `get_anneal_month`, `figure_number_of_periods` and the retrieval code of `pipeline.py` are left out. They are outside the modelled core.
