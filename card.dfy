/** The decisions the per-state race card makes before drawing: the state's
    display name, which charts to draw, the words for the rates shown, the
    order of the bars, and the width of each bar. */
module SocialCard {
  import opened RaceTypes
  import opened Groups

  /** The width of a bar, in percent of the chart, for value n when the
      largest bar has value max: the ratio as a percentage, but never under
      10. With max = 0 the ratio 0/0 is NaN and a negative n over 0 is minus
      infinity; neither exceeds 0.1, so the width is the floor. */
  function BarWidth(n: real, max: real): (w: real)
    requires max != 0.0 || n <= 0.0
    ensures w >= 10.0
    ensures max != 0.0 && n / max > 0.1 ==> w == n / max * 100.0
    ensures max == 0.0 || n / max <= 0.1 ==> w == 10.0
    ensures n <= max && 0.0 <= max ==> w <= 100.0
  {
    if max == 0.0 then 10.0
    else if n / max > 0.1 then
      assert 0.0 < max && n <= max ==> n / max <= max / max;
      n / max * 100.0
    else 10.0
  }

  /** A larger value never gets a narrower bar. */
  lemma BarWidthMonotone(n1: real, n2: real, max: real)
    requires 0.0 < max
    requires n1 <= n2
    ensures BarWidth(n1, max) <= BarWidth(n2, max)
  {
  }

  /** Every bar of a chart scaled by its maximum is between 10% and 100% wide
      when the rates are not negative. */
  lemma BarWidthsBounded(s: seq<Bar>, max: real, m: Metric)
    requires IsMax(max, s, m)
    requires forall i :: 0 <= i < |s| ==> Key(s[i], m) >= 0.0
    ensures forall i :: 0 <= i < |s| ==>
      10.0 <= BarWidth(Key(s[i], m), max) <= 100.0
  {
  }

  /** The card speaks of "The District of Columbia" and of every other state
      by its own name. */
  function DisplayStateName(name: string): (r: string)
    ensures name == "District of Columbia" ==> r == "The District of Columbia"
    ensures name != "District of Columbia" ==> r == name
  {
    if name == "District of Columbia" then "The District of Columbia" else name
  }

  /** Whether the state reports no race data for cases and for deaths: the
      combined race-and-ethnicity shares for a state that reports them
      together, the race shares otherwise. */
  function MissingData(state: StateRecord, combinedStates: seq<string>): (r: (bool, bool))
    ensures state.state in combinedStates ==>
      (r.0 <==> state.knownRaceEthPos == 0.0) && (r.1 <==> state.knownRaceEthDeath == 0.0)
    ensures state.state !in combinedStates ==>
      (r.0 <==> state.knownRacePos == 0.0) && (r.1 <==> state.knownRaceDeath == 0.0)
  {
    if state.state in combinedStates then
      (state.knownRaceEthPos == 0.0, state.knownRaceEthDeath == 0.0)
    else
      (state.knownRacePos == 0.0, state.knownRaceDeath == 0.0)
  }

  /** The card's chart flags. */
  datatype ChartMode = ChartMode(oneChart: bool, noCharts: bool, casesOnly: bool, deathsOnly: bool)

  /** One chart when exactly one metric is missing, none when both are. At
      most one of noCharts, casesOnly and deathsOnly holds, and none does when
      both metrics are reported. */
  function Mode(noCases: bool, noDeaths: bool): (m: ChartMode)
    ensures m.oneChart <==> noCases != noDeaths
    ensures m.noCharts <==> noCases && noDeaths
    ensures m.casesOnly <==> noDeaths && !noCases
    ensures m.deathsOnly <==> noCases && !noDeaths
    ensures !(m.noCharts && m.casesOnly) && !(m.noCharts && m.deathsOnly) && !(m.casesOnly && m.deathsOnly)
    ensures !noCases && !noDeaths ==> !m.noCharts && !m.casesOnly && !m.deathsOnly
  {
    var oneChart := (noCases || noDeaths) && !(noCases && noDeaths);
    ChartMode(oneChart, noCases && noDeaths, oneChart && noDeaths, oneChart && noCases)
  }

  /** The chart flags, the words for the rates, and the bars in the order
      they are drawn: re-sorted by deaths when deaths are the only chart. */
  method SelectCharts(groups: seq<Bar>, noCases: bool, noDeaths: bool)
    returns (shown: seq<Bar>, mode: ChartMode, typeOfRates: string)
    ensures mode == Mode(noCases, noDeaths)
    ensures typeOfRates == "death rates" <==> noCases && !noDeaths
    ensures typeOfRates == "case rates" <==> noDeaths && !noCases
    ensures typeOfRates == "infection and death rates" <==> noCases == noDeaths
    ensures mode.deathsOnly ==> SortedBy(shown, Deaths) && multiset(shown) == multiset(groups)
    ensures !mode.deathsOnly ==> shown == groups
  {
    mode := Mode(noCases, noDeaths);
    shown := groups;
    typeOfRates := "infection and death rates";
    if mode.deathsOnly {
      typeOfRates := "death rates";
      var a := new Bar[|groups|](i requires 0 <= i < |groups| => groups[i]);
      assert a[..] == groups;
      SortDescending(a, Deaths);
      shown := a[..];
    }
    if mode.casesOnly {
      typeOfRates := "case rates";
    }
  }

  /** What the card shows. Crashed stands for the exception the source
      raises when no group survives the filter. */
  datatype Card =
    | Crashed
    | NoChartsCard(stateName: string)
    | ChartsCard(stateName: string, typeOfRates: string, casesOnly: bool, deathsOnly: bool,
                 groups: seq<Bar>, maxCasesPerCap: real, maxDeathsPerCap: real,
                 worstCasesGroup: string, worstDeathsGroup: string)

  /** The card for one state, from its record and the list of states that
      report race and ethnicity combined. */
  method StateRaceSocialCard(state: StateRecord, combinedStates: seq<string>) returns (card: Card)
    ensures card.Crashed? <==> Retained(state) == []
    ensures card.NoChartsCard? <==>
      Retained(state) != [] && MissingData(state, combinedStates).0 && MissingData(state, combinedStates).1
    ensures !card.Crashed? ==> card.stateName == DisplayStateName(state.stateName)
    ensures card.ChartsCard? ==>
      var s := Retained(state);
      var missing := MissingData(state, combinedStates);
      && card.deathsOnly == (missing.0 && !missing.1)
      && card.casesOnly == (missing.1 && !missing.0)
      && (card.typeOfRates == "death rates" <==> card.deathsOnly)
      && (card.typeOfRates == "case rates" <==> card.casesOnly)
      && (card.typeOfRates == "infection and death rates" <==> !card.casesOnly && !card.deathsOnly)
      && multiset(card.groups) == multiset(s)
      && SortedBy(card.groups, if card.deathsOnly then Deaths else Cases)
      && IsMax(card.maxCasesPerCap, s, Cases)
      && IsMax(card.maxDeathsPerCap, s, Deaths)
      && (exists i :: 0 <= i < |s| && s[i].race == card.worstCasesGroup && s[i].cases == card.maxCasesPerCap)
      && (exists i :: 0 <= i < |s| && s[i].race == card.worstDeathsGroup && s[i].deaths == card.maxDeathsPerCap)
  {
    var stateName := DisplayStateName(state.stateName);
    var groupValues := GetGroups(Some(state));
    if !groupValues.Shaped? {
      return Crashed;
    }
    var missing := MissingData(state, combinedStates);
    var noCases, noDeaths := missing.0, missing.1;
    var shown, mode, typeOfRates := SelectCharts(groupValues.groups, noCases, noDeaths);
    if mode.noCharts {
      return NoChartsCard(stateName);
    }
    card := ChartsCard(stateName, typeOfRates, mode.casesOnly, mode.deathsOnly, shown,
      groupValues.maxCasesPerCap, groupValues.maxDeathsPerCap,
      groupValues.worstCasesGroup, groupValues.worstDeathsGroup);
  }
}
