/** The group shaper behind the per-state race card: six candidate entries,
    the filter, the two maxima, and the two in-place sorts that pick the worst
    groups. */
module Groups {
  import opened RaceTypes

  /** Per 1,000 to per 100,000; an unreported rate stays unreported. */
  function Scale(v: Val): (w: Val)
    ensures w.Empty? <==> v.Empty?
    ensures v.Num? ==> w.r == 100.0 * v.r
  {
    match v
    case Empty => Empty
    case Num(r) => Num(r * 100.0)
  }

  /** What the multiplication does in JavaScript: an empty field ('' or
      null) times 100 is the number 0, never the empty value. */
  function ScaleAsWritten(v: Val): (w: Val)
    ensures w.Num?
    ensures v.Empty? ==> w == Num(0.0)
    ensures v.Num? ==> w == Scale(v)
  {
    match v
    case Empty => Num(0.0)
    case Num(r) => Num(r * 100.0)
  }

  /** The per-1,000 case rate the record holds for a group label. */
  function PosPercap(s: StateRecord, race: string): Val
  {
    if race == "Black" then s.blackPosPercap
    else if race == "Hispanic/Latino" then s.latinXPosPercap
    else if race == "Asian" then s.asianPosPercap
    else if race == "AIAN" then s.aianPosPercap
    else if race == "White" then s.whitePosPercap
    else if race == "NHPI" then s.nhpiPosPercap
    else Empty
  }

  /** The per-1,000 death rate the record holds for a group label. */
  function DeathPercap(s: StateRecord, race: string): Val
  {
    if race == "Black" then s.blackDeathPercap
    else if race == "Hispanic/Latino" then s.latinXDeathPercap
    else if race == "Asian" then s.asianDeathPercap
    else if race == "AIAN" then s.aianDeathPercap
    else if race == "White" then s.whiteDeathPercap
    else if race == "NHPI" then s.nhpiDeathPercap
    else Empty
  }

  /** The six candidate entries, each rate passed through `scale`. */
  function BuildCandidates(s: StateRecord, scale: Val -> Val): (c: seq<Group>)
    ensures |c| == |GroupOrder|
    ensures forall i :: 0 <= i < |c| ==>
      && c[i].race == GroupOrder[i]
      && c[i].cases == scale(PosPercap(s, c[i].race))
      && c[i].deaths == scale(DeathPercap(s, c[i].race))
  {
    [ Group("Black", BarBlack, scale(s.blackPosPercap), scale(s.blackDeathPercap)),
      Group("Hispanic/Latino", BarLatinx, scale(s.latinXPosPercap), scale(s.latinXDeathPercap)),
      Group("Asian", BarAsian, scale(s.asianPosPercap), scale(s.asianDeathPercap)),
      Group("AIAN", BarAian, scale(s.aianPosPercap), scale(s.aianDeathPercap)),
      Group("White", BarWhite, scale(s.whitePosPercap), scale(s.whiteDeathPercap)),
      Group("NHPI", BarNhpi, scale(s.nhpiPosPercap), scale(s.nhpiDeathPercap)) ]
  }

  /** The candidate list with an unreported rate kept unreported. */
  function Candidates(s: StateRecord): (c: seq<Group>)
    ensures |c| == 6
    ensures forall i :: 0 <= i < 6 ==> c[i].race == GroupOrder[i] && c[i].race in RaceDict
    ensures forall i :: 0 <= i < 6 ==>
      && (c[i].cases.Empty? <==> PosPercap(s, c[i].race).Empty?)
      && (c[i].deaths.Empty? <==> DeathPercap(s, c[i].race).Empty?)
      && (c[i].cases.Num? ==> c[i].cases.r == 100.0 * PosPercap(s, c[i].race).r)
      && (c[i].deaths.Num? ==> c[i].deaths.r == 100.0 * DeathPercap(s, c[i].race).r)
  {
    BuildCandidates(s, Scale)
  }

  /** The candidate list as the JavaScript multiplication produces it. */
  function CandidatesAsWritten(s: StateRecord): (c: seq<Group>)
    ensures |c| == 6
    ensures forall i :: 0 <= i < 6 ==> c[i].cases.Num? && c[i].deaths.Num?
  {
    BuildCandidates(s, ScaleAsWritten)
  }

  /** The filter's predicate: neither rate is the empty value. */
  predicate Complete(g: Group)
  {
    g.cases != Empty && g.deaths != Empty
  }

  function ToBar(g: Group): Bar
    requires Complete(g)
  {
    Bar(g.race, g.style, g.cases.r, g.deaths.r)
  }

  /** The filter: keeps the complete candidates, in order. */
  function Retain(c: seq<Group>): (r: seq<Bar>)
    ensures |r| <= |c|
  {
    if c == [] then []
    else (if Complete(c[0]) then [ToBar(c[0])] else []) + Retain(c[1..])
  }

  /** The retained list the rest of the shaper works on. */
  function Retained(s: StateRecord): seq<Bar>
  {
    Retain(Candidates(s))
  }

  /** Filtering a concatenation filters each part: the filter keeps the
      relative order of what it keeps. */
  lemma {:induction false} RetainAppend(c1: seq<Group>, c2: seq<Group>)
    ensures Retain(c1 + c2) == Retain(c1) + Retain(c2)
  {
    if c1 == [] {
      assert c1 + c2 == c2;
    } else {
      var head := if Complete(c1[0]) then [ToBar(c1[0])] else [];
      assert (c1 + c2)[0] == c1[0];
      assert (c1 + c2)[1..] == c1[1..] + c2;
      assert Retain(c1 + c2) == head + Retain(c1[1..] + c2);
      RetainAppend(c1[1..], c2);
      assert Retain(c1) == head + Retain(c1[1..]);
    }
  }

  /** The filter keeps exactly the complete candidates. */
  lemma {:induction false} RetainExactlyComplete(c: seq<Group>)
    ensures forall g :: g in c && Complete(g) ==> ToBar(g) in Retain(c)
    ensures forall b :: b in Retain(c) ==> exists g :: g in c && Complete(g) && ToBar(g) == b
  {
    if c != [] {
      RetainExactlyComplete(c[1..]);
      assert c == [c[0]] + c[1..];
      forall g | g in c && Complete(g) ensures ToBar(g) in Retain(c) {
        if g != c[0] {
          assert g in c[1..];
        }
      }
      forall b | b in Retain(c) ensures exists g :: g in c && Complete(g) && ToBar(g) == b {
        if Complete(c[0]) && b == ToBar(c[0]) {
          assert c[0] in c;
        } else {
          assert b in Retain(c[1..]);
          var g :| g in c[1..] && Complete(g) && ToBar(g) == b;
          assert g in c;
        }
      }
    }
  }

  /** When every candidate is complete, nothing is removed. */
  lemma {:induction false} RetainAll(c: seq<Group>)
    requires forall i :: 0 <= i < |c| ==> Complete(c[i])
    ensures |Retain(c)| == |c|
    ensures forall i :: 0 <= i < |c| ==> Retain(c)[i] == ToBar(c[i])
  {
    if c != [] {
      RetainAll(c[1..]);
    }
  }

  /** Every retained bar carries a label of RaceDict, whichever rescaling
      built the candidates: the corrected one (Retained) or the one the
      source runs (CandidatesAsWritten). */
  lemma RetainedLabelsNamed(s: StateRecord, scale: Val -> Val)
    ensures forall b :: b in Retain(BuildCandidates(s, scale)) ==> b.race in RaceDict
  {
    var c := BuildCandidates(s, scale);
    RetainExactlyComplete(c);
    forall b | b in Retain(c) ensures b.race in RaceDict {
      var g :| g in c && Complete(g) && ToBar(g) == b;
      var i :| 0 <= i < |c| && c[i] == g;
    }
  }

  /** The maximum of a metric over a non-empty list, as Math.max computes it. */
  function MaxOf(s: seq<Bar>, m: Metric): (x: real)
    requires |s| > 0
    ensures IsMax(x, s, m)
  {
    if |s| == 1 then Key(s[0], m)
    else
      var rest := MaxOf(s[1..], m);
      assert forall i :: 1 <= i < |s| ==> s[i] == s[1..][i - 1];
      if Key(s[0], m) >= rest then Key(s[0], m) else rest
  }

  /** The head of a sorted permutation of s attains the maximum over s. */
  lemma SortedHeadIsMax(t: seq<Bar>, s: seq<Bar>, m: Metric)
    requires |t| > 0
    requires multiset(t) == multiset(s)
    requires SortedBy(t, m)
    ensures IsMax(Key(t[0], m), s, m)
    ensures t[0] in s
  {
    assert t[0] in multiset(t);
    forall i | 0 <= i < |s| ensures Key(s[i], m) <= Key(t[0], m) {
      assert s[i] in multiset(s);
      assert s[i] in t;
      var j :| 0 <= j < |t| && t[j] == s[i];
    }
    assert t[0] in multiset(s);
    var k :| 0 <= k < |s| && s[k] == t[0];
  }

  /** Exchanges two neighbouring bars. */
  method SwapDown(a: array<Bar>, j: int)
    requires 0 < j < a.Length
    modifies a
    ensures a[j - 1] == old(a[j]) && a[j] == old(a[j - 1])
    ensures forall k :: 0 <= k < a.Length && k != j - 1 && k != j ==> a[k] == old(a[k])
    ensures multiset(a[..]) == old(multiset(a[..]))
  {
    a[j - 1], a[j] := a[j], a[j - 1];
  }

  /** Moves a[i] left past every smaller bar, so that a[..i + 1] is sorted. */
  method Insert(a: array<Bar>, i: int, m: Metric)
    requires 0 <= i < a.Length
    requires forall p, q :: 0 <= p < q < i ==> Key(a[p], m) >= Key(a[q], m)
    modifies a
    ensures forall p, q :: 0 <= p < q <= i ==> Key(a[p], m) >= Key(a[q], m)
    ensures forall k :: i < k < a.Length ==> a[k] == old(a[k])
    ensures multiset(a[..]) == old(multiset(a[..]))
  {
    var j := i;
    while j > 0 && Key(a[j - 1], m) < Key(a[j], m)
      invariant 0 <= j <= i
      invariant forall p, q :: 0 <= p < q <= i && p != j && q != j ==> Key(a[p], m) >= Key(a[q], m)
      invariant forall q :: j < q <= i ==> Key(a[j], m) >= Key(a[q], m)
      invariant forall k :: i < k < a.Length ==> a[k] == old(a[k])
      invariant multiset(a[..]) == old(multiset(a[..]))
    {
      SwapDown(a, j);
      j := j - 1;
    }
  }

  /** Sorts the bars in place, non-increasing by one metric; the comparator
      of the source puts a before b whenever a's key is at least b's. */
  method SortDescending(a: array<Bar>, m: Metric)
    modifies a
    ensures SortedBy(a[..], m)
    ensures multiset(a[..]) == old(multiset(a[..]))
  {
    var i := 0;
    while i < a.Length
      invariant 0 <= i <= a.Length
      invariant forall p, q :: 0 <= p < q < i ==> Key(a[p], m) >= Key(a[q], m)
      invariant multiset(a[..]) == old(multiset(a[..]))
    {
      Insert(a, i, m);
      i := i + 1;
    }
  }

  /** The result of the shaper: nothing for an absent record, a failure where
      the source reads the first element of an empty list, and otherwise the
      groups in case order with their maxima and worst labels. */
  datatype GroupValues =
    | NoState
    | NoGroups
    | Shaped(groups: seq<Bar>, maxCasesPerCap: real, maxDeathsPerCap: real,
             worstCasesGroup: string, worstDeathsGroup: string)

  /** What a shaped result promises about the retained list s: its groups are
      s sorted non-increasing by cases, its maxima are the maxima over s, and
      each worst label names an entry of s that attains the matching maximum
      (the case one read off the head of the returned list). */
  ghost predicate ShapeOf(r: GroupValues, s: seq<Bar>)
  {
    && r.Shaped?
    && |r.groups| > 0
    && multiset(r.groups) == multiset(s)
    && SortedBy(r.groups, Cases)
    && IsMax(r.maxCasesPerCap, s, Cases)
    && IsMax(r.maxDeathsPerCap, s, Deaths)
    && r.groups[0].cases == r.maxCasesPerCap
    && r.worstCasesGroup == r.groups[0].race
    && (exists i :: 0 <= i < |s| && s[i].race == r.worstCasesGroup && s[i].cases == r.maxCasesPerCap)
    && (exists i :: 0 <= i < |s| && s[i].race == r.worstDeathsGroup && s[i].deaths == r.maxDeathsPerCap)
  }

  /** Measures and sorts the retained list: the maxima, the deaths sort and
      its head, then the cases sort and its head. */
  method ShapeGroups(groups: seq<Bar>) returns (r: GroupValues)
    ensures r.NoGroups? <==> groups == []
    ensures !r.NoGroups? ==> ShapeOf(r, groups)
  {
    var a := new Bar[|groups|](i requires 0 <= i < |groups| => groups[i]);
    assert a[..] == groups;
    if a.Length == 0 {
      // the source reads groups[0].label of an empty list and throws
      return NoGroups;
    }
    var maxCasesPerCap := MaxOf(groups, Cases);
    var maxDeathsPerCap := MaxOf(groups, Deaths);

    SortDescending(a, Deaths);
    SortedHeadIsMax(a[..], groups, Deaths);
    var worstDeaths := a[0];
    var worstDeathsGroup := worstDeaths.race;

    SortDescending(a, Cases);
    SortedHeadIsMax(a[..], groups, Cases);
    var worstCasesGroup := a[0].race;

    r := Shaped(a[..], maxCasesPerCap, maxDeathsPerCap, worstCasesGroup, worstDeathsGroup);
    ghost var kd :| 0 <= kd < |groups| && groups[kd] == worstDeaths;
    ghost var kc :| 0 <= kc < |groups| && groups[kc] == a[0];
  }

  /** getGroups: an absent record gives the empty result; otherwise the six
      candidates are filtered and shaped. */
  method GetGroups(state: Option<StateRecord>) returns (r: GroupValues)
    ensures state.None? <==> r.NoState?
    ensures r.NoGroups? <==> state.Some? && Retained(state.value) == []
    ensures r.Shaped? ==> state.Some? && ShapeOf(r, Retained(state.value))
    ensures r.Shaped? ==> RaceName(r.worstCasesGroup).Some? && RaceName(r.worstDeathsGroup).Some?
  {
    if state.None? {
      return NoState;
    }
    var groups := Retain(Candidates(state.value));
    r := ShapeGroups(groups);
    if r.Shaped? {
      WorstLabelsNamed(state.value, Scale, r);
    }
  }

  /** getGroups with the filter as written: every record yields a shaped
      result holding all six groups, an unreported rate drawn as 0. */
  method GetGroupsAsWritten(state: Option<StateRecord>) returns (r: GroupValues)
    ensures state.None? <==> r.NoState?
    ensures state.Some? ==>
      && r.Shaped?
      && |r.groups| == 6
      && ShapeOf(r, Retain(CandidatesAsWritten(state.value)))
      && RaceName(r.worstCasesGroup).Some? && RaceName(r.worstDeathsGroup).Some?
  {
    if state.None? {
      return NoState;
    }
    var groups := Retain(CandidatesAsWritten(state.value));
    AsWrittenKeepsAll(state.value);
    r := ShapeGroups(groups);
    assert |multiset(groups)| == |groups|;
    assert |multiset(r.groups)| == |r.groups|;
    WorstLabelsNamed(state.value, ScaleAsWritten, r);
  }

  /** The worst labels of a shaped result are keys of RaceDict, so the lede
      always finds a display name for them; `scale` is Scale for GetGroups
      and ScaleAsWritten for GetGroupsAsWritten. */
  lemma WorstLabelsNamed(state: StateRecord, scale: Val -> Val, r: GroupValues)
    requires ShapeOf(r, Retain(BuildCandidates(state, scale)))
    ensures RaceName(r.worstCasesGroup).Some? && RaceName(r.worstDeathsGroup).Some?
  {
    RetainedLabelsNamed(state, scale);
  }

  /** As written, the filter never drops a group: every rescaled value is a
      number, so both `!== ''` tests pass and all six candidates survive. */
  lemma AsWrittenKeepsAll(s: StateRecord)
    ensures |Retain(CandidatesAsWritten(s))| == 6
  {
    RetainAll(CandidatesAsWritten(s));
  }

  /** A state that reports nothing at all: every rate is empty. */
  function Unreported(): StateRecord
  {
    StateRecord("XX", "Nowhere", 0.0, 0.0, 0.0, 0.0,
      Empty, Empty, Empty, Empty, Empty, Empty,
      Empty, Empty, Empty, Empty, Empty, Empty)
  }

  /** For that state the source draws six zero-height bars, where the filter
      meant to remove them; the corrected filter keeps none. */
  lemma UnreportedStateShowsZeroBars()
    ensures var kept := Retain(CandidatesAsWritten(Unreported()));
      && |kept| == 6
      && forall i :: 0 <= i < 6 ==>
           kept[i].race == GroupOrder[i] && kept[i].cases == 0.0 && kept[i].deaths == 0.0
    ensures Retained(Unreported()) == []
  {
    RetainAll(CandidatesAsWritten(Unreported()));
  }

  /** Where every rate is reported the two filters agree: the corrected
      pipeline is then exactly the one the source runs. */
  lemma FullyReportedAgrees(s: StateRecord)
    requires && s.blackPosPercap.Num? && s.blackDeathPercap.Num?
             && s.latinXPosPercap.Num? && s.latinXDeathPercap.Num?
             && s.asianPosPercap.Num? && s.asianDeathPercap.Num?
             && s.aianPosPercap.Num? && s.aianDeathPercap.Num?
             && s.whitePosPercap.Num? && s.whiteDeathPercap.Num?
             && s.nhpiPosPercap.Num? && s.nhpiDeathPercap.Num?
    ensures Retained(s) == Retain(CandidatesAsWritten(s))
    ensures |Retained(s)| == 6
  {
    assert Candidates(s) == CandidatesAsWritten(s);
    AsWrittenKeepsAll(s);
  }
}
