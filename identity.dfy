/** `pull_info`: the proposal, visit and anneal week read out of a folder
    name by two regular expressions, `([0-9]{5})_([0-9]{2})` and
    `([bi]*wk0[0-9])`, each taking its first match or ''. */
module Identity {
  import opened Text

  datatype Info = Info(proposal: string, week: string, visit: string)

  /** `([0-9]{5})_([0-9]{2})` matches `s` at index `i`. */
  predicate ProposalAt(s: string, i: int) {
    0 <= i && i + 8 <= |s| && AllDigits(s[i..i + 5]) && s[i + 5] == '_' && AllDigits(s[i + 6..i + 8])
  }

  /** The leftmost index at or after `i` where the proposal pattern matches. */
  function FirstProposal(s: string, i: nat): (r: Option<nat>)
    ensures r.None? ==> forall j | i <= j :: !ProposalAt(s, j)
    ensures r.Some? ==>
      i <= r.value && ProposalAt(s, r.value) && forall j | i <= j < r.value :: !ProposalAt(s, j)
    decreases |s| - i
  {
    if i + 8 > |s| then None
    else if ProposalAt(s, i) then Some(i)
    else FirstProposal(s, i + 1)
  }

  predicate IsBi(c: char) {
    c == 'b' || c == 'i'
  }

  /** "wk0" followed by a digit at index `q`. */
  predicate WeekCoreAt(s: string, q: int) {
    0 <= q && q + 4 <= |s| && s[q..q + 3] == "wk0" && IsDigit(s[q + 3])
  }

  /** The end of the longest run of 'b'/'i' characters starting at `p`:
      how far the greedy `[bi]*` reaches. */
  function RunEnd(s: string, p: nat): (r: nat)
    requires p <= |s|
    ensures p <= r <= |s|
    ensures forall k | p <= k < r :: IsBi(s[k])
    ensures r == |s| || !IsBi(s[r])
    decreases |s| - p
  {
    if p < |s| && IsBi(s[p]) then RunEnd(s, p + 1) else p
  }

  /** `[bi]*wk0[0-9]` matches at `p` with its star covering `[p, q)`: the
      regular expression's meaning, with no greedy search in it. */
  predicate WeekMatch(s: string, p: int, q: int) {
    0 <= p <= q && WeekCoreAt(s, q) && forall k | p <= k < q :: IsBi(s[k])
  }

  /** The match the greedy search finds at `p`, if any. */
  predicate GreedyWeekAt(s: string, p: nat) {
    p <= |s| && WeekCoreAt(s, RunEnd(s, p))
  }

  /** Backtracking cannot help: the only way `[bi]*wk0[0-9]` can match at
      `p` is with the star covering the whole run, because 'w' is not in
      the run. */
  lemma WeekMatchIsGreedy(s: string, p: nat, q: int)
    requires p <= |s|
    ensures WeekMatch(s, p, q) <==> (GreedyWeekAt(s, p) && q == RunEnd(s, p))
  {
    var r := RunEnd(s, p);
    if WeekMatch(s, p, q) {
      assert s[q] == 'w';
      assert forall k | p <= k < r :: s[k] != 'w';
      if q != r {
        assert false;
      }
    }
  }

  /** The leftmost index at or after `p` where the week pattern matches. */
  function FirstWeek(s: string, p: nat): (r: Option<nat>)
    ensures r.None? ==> forall j | p <= j <= |s| :: !GreedyWeekAt(s, j)
    ensures r.Some? ==>
      p <= r.value <= |s| && GreedyWeekAt(s, r.value) && forall j | p <= j < r.value :: !GreedyWeekAt(s, j)
    decreases |s| - p
  {
    if p + 4 > |s| then
      assert forall j | p <= j <= |s| :: RunEnd(s, j) + 4 > |s|;
      None
    else if GreedyWeekAt(s, p) then Some(p)
    else FirstWeek(s, p + 1)
  }

  /** `pull_info(foldername)`. */
  function PullInfo(s: string): Info {
    var pv :=
      match FirstProposal(s, 0)
      case Some(i) => (s[i..i + 5], s[i + 6..i + 8])
      case None => ("", "");
    var week :=
      match FirstWeek(s, 0)
      case Some(p) => s[p..RunEnd(s, p) + 4]
      case None => "";
    Info(pv.0, week, pv.1)
  }

  /** The proposal and visit come from the leftmost match of the pattern. */
  lemma PullInfoProposal(s: string, i: nat)
    requires ProposalAt(s, i)
    requires forall j | 0 <= j < i :: !ProposalAt(s, j)
    ensures PullInfo(s).proposal == s[i..i + 5] && |PullInfo(s).proposal| == 5
    ensures PullInfo(s).visit == s[i + 6..i + 8] && |PullInfo(s).visit| == 2
    ensures AllDigits(PullInfo(s).proposal) && AllDigits(PullInfo(s).visit)
  {
    var r := FirstProposal(s, 0);
    assert r.Some?;
    if r.value < i {
      assert false;
    }
    if r.value > i {
      assert false;
    }
  }

  /** Without a match, proposal and visit are both ''; with one, both are
      non-empty: they are present or absent together. */
  lemma PullInfoNoProposal(s: string)
    ensures (PullInfo(s).proposal == "") <==> (forall j | 0 <= j :: !ProposalAt(s, j))
    ensures (PullInfo(s).proposal == "") <==> (PullInfo(s).visit == "")
  {
  }

  /** The week is the leftmost match of `[bi]*wk0[0-9]`, taken whole. */
  lemma PullInfoWeek(s: string, p: nat, q: nat)
    requires WeekMatch(s, p, q)
    requires forall j, k | 0 <= j < p && j <= k :: !WeekMatch(s, j, k)
    ensures PullInfo(s).week == s[p..q + 4]
  {
    WeekMatchIsGreedy(s, p, q);
    var r := FirstWeek(s, 0);
    assert r.Some?;
    var j := r.value;
    WeekMatchIsGreedy(s, j, RunEnd(s, j));
    if j < p {
      assert false;
    }
    if j > p {
      assert false;
    }
  }

  /** With no match anywhere, the week is ''; a found week is never ''. */
  lemma PullInfoNoWeek(s: string)
    ensures (PullInfo(s).week == "") <==> (forall j, k | 0 <= j <= k :: !WeekMatch(s, j, k))
  {
    var r := FirstWeek(s, 0);
    if r.Some? {
      var p := r.value;
      WeekMatchIsGreedy(s, p, RunEnd(s, p));
      assert WeekMatch(s, p, RunEnd(s, p));
    } else {
      forall j, k | 0 <= j <= k
        ensures !WeekMatch(s, j, k)
      {
        if j <= |s| {
          WeekMatchIsGreedy(s, j, k);
        }
      }
    }
  }

  /** A run of 'b'/'i' then "wk0" and one digit. */
  predicate WeekShape(w: string) {
    |w| >= 4 && w[|w| - 4..|w| - 1] == "wk0" && IsDigit(w[|w| - 1])
    && forall k | 0 <= k < |w| - 4 :: IsBi(w[k])
  }

  /** A found week has the week's shape. */
  lemma PullInfoWeekShape(s: string)
    requires PullInfo(s).week != ""
    ensures WeekShape(PullInfo(s).week)
  {
    var p := FirstWeek(s, 0).value;
    var q := RunEnd(s, p);
    assert PullInfo(s).week == s[p..q + 4];
    MatchShape(s, p, q);
  }

  lemma MatchShape(s: string, p: nat, q: nat)
    requires p <= q && WeekCoreAt(s, q) && forall k | p <= k < q :: IsBi(s[k])
    ensures WeekShape(s[p..q + 4])
  {
    var w := s[p..q + 4];
    assert w[|w| - 4..|w| - 1] == s[q..q + 3];
    assert w[|w| - 1] == s[q + 3];
    forall k | 0 <= k < |w| - 4
      ensures IsBi(w[k])
    {
      assert w[k] == s[p + k];
    }
  }

  /** The proposal is five digits or empty. */
  lemma ProposalDigits(s: string)
    ensures AllDigits(PullInfo(s).proposal)
  {
    match FirstProposal(s, 0)
    case None =>
    case Some(i) =>
      PullInfoProposal(s, i);
  }

  /** A two-digit week past nine is not recognised: "wk10" gives no week,
      although "wk09" does. */
  lemma WeekTenIsMissed()
    ensures PullInfo("wk10").week == ""
    ensures PullInfo("wk09").week == "wk09"
  {
    var s := "wk10";
    assert s[0..3][2] == '1';
    forall j, k | 0 <= j <= k
      ensures !WeekMatch(s, j, k)
    {
      assert k != 0 ==> k + 4 > |s|;
    }
    PullInfoNoWeek(s);
    assert WeekMatch("wk09", 0, 0);
    PullInfoWeek("wk09", 0, 0);
  }

  /** The two patterns are looked for independently: a biweekly folder with
      no proposal yields its whole "biwk" week, and a proposal folder with no
      week yields its proposal and visit. */
  lemma BiweekWithoutProposal()
    ensures PullInfo("biwk03") == Info("", "biwk03", "")
  {
    assert WeekMatch("biwk03", 0, 2);
    PullInfoWeek("biwk03", 0, 2);
  }

  lemma ProposalWithoutWeek()
    ensures PullInfo("12345_01") == Info("12345", "", "01")
  {
    var s := "12345_01";
    assert s[0..5] == "12345" && s[6..8] == "01";
    PullInfoProposal(s, 0);
    forall j, k | 0 <= j <= k
      ensures !WeekMatch(s, j, k)
    {
      if k + 4 <= |s| {
        assert s[k..k + 3][0] == s[k] != 'w';
      }
    }
    PullInfoNoWeek(s);
  }
}
