/** How a week's bias products are chosen: the imset threshold table, the
    split into two halves above 120 imsets, and the builder calls that
    follow. Shared by `make_pipeline_reffiles` and `make_ref_files`. */
module Strategy {
  import opened Text
  import opened Frames
  import opened Disk

  /** `bias_threshold`, keyed by (CCDGAIN, BINAXIS1, BINAXIS2). */
  const BiasThreshold: map<(int, int, int), nat> :=
    map[(1, 1, 1) := 98, (1, 1, 2) := 25, (1, 2, 1) := 25, (1, 2, 2) := 7,
        (1, 4, 1) := 7, (1, 4, 2) := 4, (4, 1, 1) := 1]

  /** Above this many imsets a refbias is built from two halves. */
  const SplitAbove: nat := 120

  /** `bias_threshold[(gain, xbin, ybin)]`; a missing key is a `KeyError`. */
  function Threshold(gain: int, xbin: int, ybin: int): Option<nat> {
    if (gain, xbin, ybin) in BiasThreshold then Some(BiasThreshold[(gain, xbin, ybin)]) else None
  }

  /** The table has exactly its seven keys: gain 1 with the six binnings up
      to 4x2, and gain 4 unbinned only; every threshold is between 1 and 98. */
  lemma ThresholdTable(gain: int, xbin: int, ybin: int)
    ensures Threshold(gain, xbin, ybin).Some? <==>
      (gain == 1 && ((xbin == 1 && ybin == 1) || (xbin == 1 && ybin == 2) || (xbin == 2 && ybin == 1)
                     || (xbin == 2 && ybin == 2) || (xbin == 4 && ybin == 1) || (xbin == 4 && ybin == 2)))
      || (gain == 4 && xbin == 1 && ybin == 1)
    ensures Threshold(gain, xbin, ybin).Some? ==> 1 <= Threshold(gain, xbin, ybin).value <= 98
    ensures Threshold(1, 1, 1) == Some(98) && Threshold(4, 1, 1) == Some(1)
  {
  }

  /** `functions.count_imsets`: the imsets of all the files together. */
  function Imsets(raw: seq<string>, cat: Catalog): nat {
    if raw == [] then 0 else Imsets(raw[..|raw| - 1], cat) + HeaderOf(cat, raw[|raw| - 1]).imsets
  }

  /** `get_keyword(raw_files, 'CCDGAIN'|'BINAXIS1'|'BINAXIS2', 0)`: the
      primary header of the first file; an empty list has none. */
  function Keys(raw: seq<string>, cat: Catalog): Option<(int, int, int)> {
    if raw == [] then None
    else
      var h := HeaderOf(cat, raw[0]);
      Some((h.ccdgain, h.binaxis1, h.binaxis2))
  }

  /** The three ways `make_pipeline_reffiles` can make a week's bias. */
  datatype Plan = WeekbiasPlan | SplitPlan | SinglePlan

  /** Lines 375-389: a weekbias below the threshold, else a split refbias
      above 120 imsets, else one refbias. */
  function PipelinePlan(n: nat, thr: nat): Plan {
    if n < thr then WeekbiasPlan else if n > SplitAbove then SplitPlan else SinglePlan
  }

  /** `make_ref_files` builds a weekbias as well as the refbias below the
      threshold (lines 533-534). */
  predicate WantsWeekbias(n: nat, thr: nat) {
    n < thr
  }

  /** The refbias of `make_ref_files` is split above 120 imsets (line 554). */
  predicate WantsSplit(n: nat) {
    n > SplitAbove
  }

  /** Under any threshold of the table the choice depends on the count
      alone in the way the source intends: a weekbias exactly below the
      threshold, a split exactly above 120, and the two never together, in
      either routine. The pipeline's choice is `make_ref_files`'s extra
      weekbias when there is one, and its refbias otherwise. */
  lemma PlansAgree(gain: int, xbin: int, ybin: int, n: nat)
    requires Threshold(gain, xbin, ybin).Some?
    ensures var thr := Threshold(gain, xbin, ybin).value;
      && (PipelinePlan(n, thr) == WeekbiasPlan <==> WantsWeekbias(n, thr))
      && (PipelinePlan(n, thr) == SplitPlan <==> WantsSplit(n))
      && (PipelinePlan(n, thr) == SinglePlan <==> !WantsWeekbias(n, thr) && !WantsSplit(n))
      && !(WantsWeekbias(n, thr) && WantsSplit(n))
  {
    ThresholdTable(gain, xbin, ybin);
  }

  /** The builder calls appended to the log, one after another. */
  function BuiltAll(d: Disk, calls: seq<Call>): (r: Disk)
    ensures r.log == d.log + calls
    ensures r.files == d.files + (set c | c in calls :: c.out)
    ensures r.dirs == d.dirs
  {
    if calls == [] then d
    else
      var init := calls[..|calls| - 1];
      assert calls == init + [calls[|calls| - 1]];
      Built(BuiltAll(d, init), calls[|calls| - 1])
  }

  /** Lines 378-387 (and 555-564): a refbias from each half, then their average. */
  function SplitCalls(raw: seq<string>, cat: Catalog, name: string): seq<Call> {
    var halves := SplitFiles(raw, cat);
    [MakeRefbias(halves.0, SubName(name, 0), None), MakeRefbias(halves.1, SubName(name, 1), None),
     Refaver([SubName(name, 0), SubName(name, 1)], name)]
  }

  /** A refbias as `make_ref_files` builds it: split above 120 imsets. */
  function RefbiasCalls(raw: seq<string>, cat: Catalog, n: nat, name: string): seq<Call> {
    if WantsSplit(n) then SplitCalls(raw, cat, name) else [MakeRefbias(raw, name, None)]
  }

  /** A split build uses every raw file in exactly one half, the halves
      differing in size by at most one; the two partial products have
      different names (when ".fits" occurs in the name), ending in
      "_grp01.fits" and "_grp02.fits" (when the name ends in ".fits"), and
      the average is built from exactly those two under the requested name. */
  lemma SplitCallsSpec(raw: seq<string>, cat: Catalog, name: string)
    ensures var c := SplitCalls(raw, cat, name);
      && |c| == 3 && c[0].MakeRefbias? && c[1].MakeRefbias? && c[2].Refaver?
      && multiset(c[0].inputs) + multiset(c[1].inputs) == multiset(raw)
      && |c[0].inputs| == (|raw| + 1) / 2 && |c[1].inputs| == |raw| / 2
      && c[0].bias.None? && c[1].bias.None?
      && c[2].inputs == [c[0].out, c[1].out] && c[2].out == name
      && (Contains(name, Fits) ==> c[0].out != c[1].out)
      && (EndsWith(name, Fits) ==> EndsWith(c[0].out, "_grp01.fits") && EndsWith(c[1].out, "_grp02.fits"))
  {
    SplitFilesPartition(raw, cat);
    SubNamesDiffer(name);
    if EndsWith(name, Fits) {
      SubNamesEnd(name);
    }
  }

  lemma SubNamesEnd(name: string)
    requires EndsWith(name, Fits)
    ensures EndsWith(SubName(name, 0), "_grp01.fits") && EndsWith(SubName(name, 1), "_grp02.fits")
  {
    var stem := name[..|name| - |Fits|];
    assert name == stem + Fits;
    SubNameShape(stem, 0);
    SubNameShape(stem, 1);
    assert GroupSuffix(0) == "_grp01.fits" && GroupSuffix(1) == "_grp02.fits";
  }

  /** The partial products' names differ: each replaces ".fits" with its own
      suffix, computed by the same replacement. */
  lemma SubNamesDiffer(name: string)
    ensures SubName(name, 0) != SubName(name, 1) || !Contains(name, Fits)
  {
    if Contains(name, Fits) {
      ReplaceDiffers(name);
    }
  }

  /** Replacing ".fits" by two suffixes of the same length that differ
      gives different strings as soon as ".fits" occurs. */
  lemma {:induction false} ReplaceDiffers(s: string)
    requires Contains(s, Fits)
    ensures ReplaceAll(s, Fits, GroupSuffix(0)) != ReplaceAll(s, Fits, GroupSuffix(1))
    decreases |s|
  {
    var a := GroupSuffix(0);
    var b := GroupSuffix(1);
    assert a == "_grp01.fits" && b == "_grp02.fits";
    if OccursAt(s, Fits, 0) {
      var ra := ReplaceAll(s, Fits, a);
      var rb := ReplaceAll(s, Fits, b);
      assert ra == a + ReplaceAll(s[|Fits|..], Fits, a);
      assert rb == b + ReplaceAll(s[|Fits|..], Fits, b);
      assert ra[5] == '1' && rb[5] == '2';
    } else {
      var i :| 0 <= i <= |s| - |Fits| && OccursAt(s, Fits, i);
      assert i != 0;
      assert OccursAt(s[1..], Fits, i - 1) by {
        assert s[1..][i - 1..i - 1 + |Fits|] == s[i..i + |Fits|];
      }
      ReplaceDiffers(s[1..]);
      assert s[..|Fits|] != Fits;
      var ra := ReplaceAll(s, Fits, a);
      var rb := ReplaceAll(s, Fits, b);
      assert ra == [s[0]] + ReplaceAll(s[1..], Fits, a);
      assert rb == [s[0]] + ReplaceAll(s[1..], Fits, b);
      assert ra[1..] == ReplaceAll(s[1..], Fits, a);
      assert rb[1..] == ReplaceAll(s[1..], Fits, b);
    }
  }

  /** The split build as the source writes it: each half in turn, collecting
      the partial names, then the average. */
  method BuildSplit(st: Store, cat: Catalog, raw: seq<string>, name: string)
    modifies st
    ensures st.View() == BuiltAll(old(st.View()), SplitCalls(raw, cat, name))
  {
    var halves := SplitFiles(raw, cat);
    var superList := [halves.0, halves.1];
    ghost var calls := SplitCalls(raw, cat, name);
    var allSubnames: seq<string> := [];
    var i := 0;
    while i < |superList|
      invariant 0 <= i <= 2
      invariant st.View() == BuiltAll(old(st.View()), calls[..i])
      invariant allSubnames == [SubName(name, 0), SubName(name, 1)][..i]
    {
      var subname := ReplaceAll(name, Fits, "_grp0" + NatToString(i + 1) + Fits);
      assert subname == SubName(name, i);
      st.Build(MakeRefbias(superList[i], subname, None));
      assert calls[..i + 1][..i] == calls[..i];
      allSubnames := allSubnames + [subname];
      i := i + 1;
    }
    assert allSubnames == [SubName(name, 0), SubName(name, 1)];
    st.Build(Refaver(allSubnames, name));
    assert calls[..3][..2] == calls[..2];
    assert calls[..3] == calls;
  }
}
