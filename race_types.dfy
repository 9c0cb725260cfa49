/** Values shared by the group shaper and the social card: the per-state race
    record, the six demographic groups, and the bars the card draws. */
module RaceTypes {

  datatype Option<+T> = None | Some(value: T)

  /** A rate as the data layer hands it over: either not reported (the empty
      value the filter looks for) or a number. */
  datatype Val = Empty | Num(r: real)

  /** The presentation class of a bar; the shaper passes it through untouched. */
  datatype BarStyle = BarBlack | BarLatinx | BarAsian | BarAian | BarWhite | BarNhpi

  /** One state's record. Per-capita rates are per 1,000 people; the four
      known-share fields are the percentages of cases and deaths with race
      (or race and ethnicity) reported, already parsed to numbers. */
  datatype StateRecord = StateRecord(
    state: string,
    stateName: string,
    knownRaceEthPos: real,
    knownRaceEthDeath: real,
    knownRacePos: real,
    knownRaceDeath: real,
    blackPosPercap: Val,
    blackDeathPercap: Val,
    latinXPosPercap: Val,
    latinXDeathPercap: Val,
    asianPosPercap: Val,
    asianDeathPercap: Val,
    aianPosPercap: Val,
    aianDeathPercap: Val,
    whitePosPercap: Val,
    whiteDeathPercap: Val,
    nhpiPosPercap: Val,
    nhpiDeathPercap: Val)

  /** A candidate group entry: rates per 100,000, possibly empty. */
  // `race` is the source's `label` (a reserved word in Dafny).
  datatype Group = Group(race: string, style: BarStyle, cases: Val, deaths: Val)

  /** A retained group entry: both rates are numbers. */
  datatype Bar = Bar(race: string, style: BarStyle, cases: real, deaths: real)

  /** Which of the two rates a sort or a maximum looks at. */
  datatype Metric = Cases | Deaths

  function Key(b: Bar, m: Metric): real
  {
    match m
    case Cases => b.cases
    case Deaths => b.deaths
  }

  /** The canonical order of the six groups on the card. */
  const GroupOrder: seq<string> :=
    ["Black", "Hispanic/Latino", "Asian", "AIAN", "White", "NHPI"]

  /** Group label to the name printed on the card. */
  const RaceDict: map<string, string> :=
    map[
      "Black" := "Black/African American",
      "Hispanic/Latino" := "Hispanic/Latino",
      "All" := "All",
      "Asian" := "Asian",
      "AIAN" := "American Indian or Alaska Native",
      "White" := "White",
      "NHPI" := "Native Hawaiian and Pacific Islander"
    ]

  /** Looking a label up in RaceDict; None stands for JavaScript's undefined. */
  function RaceName(race: string): (r: Option<string>)
    ensures r.Some? <==> race in RaceDict
    ensures r.Some? ==> r.value == RaceDict[race]
  {
    if race in RaceDict then Some(RaceDict[race]) else None
  }

  /** Every group label has a display name, and the six names are distinct. */
  lemma GroupLabelsNamed()
    ensures forall i :: 0 <= i < |GroupOrder| ==> RaceName(GroupOrder[i]).Some?
    ensures forall i, j :: 0 <= i < j < |GroupOrder| ==>
      RaceDict[GroupOrder[i]] != RaceDict[GroupOrder[j]]
  {
  }

  /** Bars sorted non-increasing by one metric. */
  ghost predicate SortedBy(s: seq<Bar>, m: Metric)
  {
    forall i, j :: 0 <= i < j < |s| ==> Key(s[i], m) >= Key(s[j], m)
  }

  /** x is the maximum of the metric over s: an upper bound that s attains. */
  ghost predicate IsMax(x: real, s: seq<Bar>, m: Metric)
  {
    && (forall i :: 0 <= i < |s| ==> Key(s[i], m) <= x)
    && (exists i :: 0 <= i < |s| && Key(s[i], m) == x)
  }
}
