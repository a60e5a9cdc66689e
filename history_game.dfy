/**
 * The scrolling timeline of the history page: events are laid out top to
 * bottom with a fixed gap, the scroll offset is turned into the year shown
 * by the counter, and years are formatted and coloured by magnitude.
 */
module HistoryGame {
  import opened JsMath

  datatype Category = Tech | Science | General | Life | Earth | Cosmic | Human

  /** An event of the timeline; title, emoji and description are not modelled. */
  datatype HistoryEvent = HistoryEvent(year: int, category: Category)

  /** The year the counter shows before the first event is reached. */
  const StartYear: int := 2026
  const DefaultGap: real := 500.0
  /** The wider gap of a technology event after 1900. */
  const TechGap: real := 800.0
  /** Scroll room below the last event, besides one and a half viewports. */
  const TailBuffer: real := 1500.0

  /** The space left above an event. */
  function Gap(e: HistoryEvent): (g: real)
    ensures g == TechGap <==> e.category == Tech && e.year > 1900
    ensures g == TechGap || g == DefaultGap
  {
    if e.category == Tech && e.year > 1900 then TechGap else DefaultGap
  }

  /** `tops` places the first event at 0.9 viewport and every later one its gap below the previous. */
  ghost predicate LaidOut(events: seq<HistoryEvent>, viewport: real, tops: seq<real>)
  {
    |tops| == |events| &&
    (|events| > 0 ==> tops[0] == viewport * 0.9) &&
    forall i :: 0 < i < |events| ==> tops[i] == tops[i - 1] + Gap(events[i])
  }

  /** Positions grow strictly from top to bottom. */
  ghost predicate Increasing(tops: seq<real>)
  {
    forall i, j :: 0 <= i < j < |tops| ==> tops[i] < tops[j]
  }

  /**
   * The layout of the page: the top of every event, the position of the
   * last event (0 for an empty timeline) and the height of the scroll area.
   */
  method Layout(events: seq<HistoryEvent>, viewport: real) returns (tops: seq<real>, finalPos: real, totalHeight: real)
    ensures LaidOut(events, viewport, tops)
    ensures finalPos == if |events| == 0 then 0.0 else tops[|tops| - 1]
    ensures totalHeight == finalPos + TailBuffer + viewport * 1.5
  {
    var currentPos := 0.0;
    tops := [];
    for i := 0 to |events|
      invariant LaidOut(events[..i], viewport, tops)
      invariant currentPos == if i == 0 then 0.0 else tops[i - 1]
    {
      var gap := Gap(events[i]);
      if i == 0 {
        currentPos := viewport * 0.9;
      } else {
        currentPos := currentPos + gap;
      }
      tops := tops + [currentPos];
    }
    assert events[..|events|] == events;
    finalPos := currentPos;
    totalHeight := currentPos + TailBuffer + viewport * 1.5;
  }

  /** Every laid-out position lies at least one default gap per step below the earlier ones. */
  lemma {:induction false} LaidOutSpacing(events: seq<HistoryEvent>, viewport: real, tops: seq<real>, i: nat, j: nat)
    requires LaidOut(events, viewport, tops)
    requires i <= j < |tops|
    ensures tops[j] - tops[i] >= DefaultGap * (j - i) as real
    decreases j - i
  {
    if i < j {
      LaidOutSpacing(events, viewport, tops, i, j - 1);
      assert tops[j] == tops[j - 1] + Gap(events[j]);
    }
  }

  /** The layout places the events strictly top to bottom, whatever the viewport. */
  lemma LaidOutIncreasing(events: seq<HistoryEvent>, viewport: real, tops: seq<real>)
    requires LaidOut(events, viewport, tops)
    ensures Increasing(tops)
  {
    forall i, j | 0 <= i < j < |tops|
      ensures tops[i] < tops[j]
    {
      LaidOutSpacing(events, viewport, tops, i, j);
    }
  }

  /**
   * What the counter's scan promises about its index `k`: every event up to
   * `k` has been reached, and the one after it, if any, has not.
   */
  predicate ScanResult(tops: seq<real>, latest: real, k: int)
  {
    -1 <= k < |tops| &&
    (forall j :: 0 <= j <= k ==> tops[j] <= latest) &&
    (k + 1 < |tops| ==> latest < tops[k + 1])
  }

  /** The index the scan stops at, defined recursively. */
  function ActiveIndexOf(tops: seq<real>, latest: real): (k: int)
    ensures ScanResult(tops, latest, k)
  {
    if |tops| == 0 || latest < tops[0] then -1
    else 1 + ActiveIndexOf(tops[1..], latest)
  }

  /** At most one index satisfies the scan's promise, so it determines the scan. */
  lemma ScanResultUnique(tops: seq<real>, latest: real, k1: int, k2: int)
    requires ScanResult(tops, latest, k1) && ScanResult(tops, latest, k2)
    ensures k1 == k2
  {
  }

  /** The scroll handler's scan: the last event reached before the first one not yet reached. */
  method ActiveIndex(tops: seq<real>, latest: real) returns (activeIndex: int)
    ensures activeIndex == ActiveIndexOf(tops, latest)
  {
    activeIndex := -1;
    for i := 0 to |tops|
      invariant activeIndex == i - 1
      invariant forall j :: 0 <= j < i ==> tops[j] <= latest
    {
      if latest < tops[i] {
        activeIndex := i - 1;
        break;
      }
      activeIndex := i;
    }
    ScanResultUnique(tops, latest, activeIndex, ActiveIndexOf(tops, latest));
  }

  /** On increasing positions the scan finds exactly the events at or above the scroll offset. */
  lemma ActiveIsLastReached(tops: seq<real>, latest: real)
    requires Increasing(tops)
    ensures forall j :: 0 <= j < |tops| ==> (j <= ActiveIndexOf(tops, latest) <==> tops[j] <= latest)
  {
    var k := ActiveIndexOf(tops, latest);
    forall j | 0 <= j < |tops| && k < j
      ensures latest < tops[j]
    {
      assert tops[k + 1] <= tops[j];
    }
  }

  /** The year on the line `progress` of the way from `y1` to `y2`, rounded. */
  function Interpolate(y1: int, y2: int, progress: real): (y: int)
    requires 0.0 <= progress <= 1.0
    ensures y1 <= y2 ==> y1 <= y <= y2
    ensures y2 <= y1 ==> y2 <= y <= y1
  {
    InterpolationBetween(y1, y2, progress);
    Round(y1 as real + (y2 - y1) as real * progress)
  }

  lemma InterpolationBetween(y1: int, y2: int, progress: real)
    requires 0.0 <= progress <= 1.0
    ensures y1 <= y2 ==> y1 as real <= y1 as real + (y2 - y1) as real * progress <= y2 as real
    ensures y2 <= y1 ==> y2 as real <= y1 as real + (y2 - y1) as real * progress <= y1 as real
  {
    var d := (y2 - y1) as real;
    if d >= 0.0 {
      assert 0.0 <= d * progress <= d * 1.0;
    } else {
      assert d * 1.0 <= d * progress <= 0.0;
    }
  }

  /** On a falling segment, more progress never shows a later year. */
  lemma InterpolateFalls(y1: int, y2: int, p: real, q: real)
    requires y2 <= y1 && 0.0 <= p <= q <= 1.0
    ensures Interpolate(y1, y2, q) <= Interpolate(y1, y2, p)
  {
    var d := (y2 - y1) as real;
    assert d * q <= d * p;
    RoundMonotone(y1 as real + d * q, y1 as real + d * p);
  }

  /** The progress through the segment that starts at event `k`, clamped to [0, 1]. */
  function Progress(tops: seq<real>, latest: real, k: nat): (p: real)
    requires k + 1 < |tops| && tops[k] < tops[k + 1]
    ensures 0.0 <= p <= 1.0
    ensures tops[k] <= latest <= tops[k + 1] ==> p * (tops[k + 1] - tops[k]) == latest - tops[k]
  {
    var span := tops[k + 1] - tops[k];
    var q := (latest - tops[k]) / span;
    assert q * span == latest - tops[k];
    assert tops[k] <= latest <= tops[k + 1] ==> 0.0 <= q <= 1.0 by {
      if tops[k] <= latest <= tops[k + 1] {
        DivideMonotone(0.0, latest - tops[k], span);
        DivideMonotone(latest - tops[k], span, span);
        assert span / span == 1.0;
      }
    }
    Max(0.0, Min(1.0, q))
  }

  /** A later offset in the same segment never means less progress. */
  lemma ProgressMonotone(tops: seq<real>, l1: real, l2: real, k: nat)
    requires k + 1 < |tops| && tops[k] < tops[k + 1] && l1 <= l2
    ensures Progress(tops, l1, k) <= Progress(tops, l2, k)
  {
    var w := tops[k + 1] - tops[k];
    assert (l1 - tops[k]) / w <= (l2 - tops[k]) / w by {
      DivideMonotone(l1 - tops[k], l2 - tops[k], w);
    }
  }

  /**
   * The year the counter shows once the scan stopped at `active`: 2026
   * before the first event, the last year from the last event on, and the
   * rounded interpolation between the two neighbouring events otherwise.
   */
  function CounterYear(events: seq<HistoryEvent>, tops: seq<real>, latest: real, active: int): (y: int)
    requires |tops| == |events| && ScanResult(tops, latest, active)
    ensures active < 0 ==> y == StartYear
    ensures active >= 0 && active >= |events| - 1 ==> y == events[|events| - 1].year
    ensures 0 <= active < |events| - 1 ==>
      var y1, y2 := events[active].year, events[active + 1].year;
      (y1 <= y2 ==> y1 <= y <= y2) && (y2 <= y1 ==> y2 <= y <= y1)
  {
    if active < 0 then StartYear
    else if active >= |events| - 1 then events[|events| - 1].year
    else Interpolate(events[active].year, events[active + 1].year, Progress(tops, latest, active))
  }

  /** The scroll handler: scan for the active event, then compute the year it shows. */
  method YearCounter(events: seq<HistoryEvent>, tops: seq<real>, latest: real) returns (year: int)
    requires |tops| == |events|
    ensures year == CounterYear(events, tops, latest, ActiveIndexOf(tops, latest))
  {
    var activeIndex := ActiveIndex(tops, latest);
    if activeIndex < 0 {
      return StartYear;
    }
    if activeIndex >= |events| - 1 {
      return events[|events| - 1].year;
    }
    var prevTop, nextTop := tops[activeIndex], tops[activeIndex + 1];
    var segmentProgress := (latest - prevTop) / (nextTop - prevTop);
    var clampedProgress := Max(0.0, Min(1.0, segmentProgress));
    var y1, y2 := events[activeIndex].year, events[activeIndex + 1].year;
    year := Round(y1 as real + (y2 - y1) as real * clampedProgress);
  }

  /** Before the first event is reached the counter shows 2026. */
  lemma YearBeforeFirstEvent(events: seq<HistoryEvent>, tops: seq<real>, latest: real)
    requires |tops| == |events| && (|tops| == 0 || latest < tops[0])
    ensures CounterYear(events, tops, latest, ActiveIndexOf(tops, latest)) == StartYear
  {
  }

  /** From the last event on the counter shows the last event's year. */
  lemma YearPastLastEvent(events: seq<HistoryEvent>, tops: seq<real>, latest: real)
    requires |tops| == |events| > 0 && Increasing(tops) && tops[|tops| - 1] <= latest
    ensures CounterYear(events, tops, latest, ActiveIndexOf(tops, latest)) == events[|events| - 1].year
  {
    ActiveIsLastReached(tops, latest);
  }

  /** Event years never increase down the timeline, and none is after 2026. */
  ghost predicate Chronological(events: seq<HistoryEvent>)
  {
    (forall i, j :: 0 <= i < j < |events| ==> events[j].year <= events[i].year) &&
    (forall i :: 0 <= i < |events| ==> events[i].year <= StartYear)
  }

  /**
   * On a timeline running back in time, scrolling further down never shows
   * a later year.
   */
  lemma {:induction false} ScrollingDownGoesBack(events: seq<HistoryEvent>, tops: seq<real>, l1: real, l2: real)
    requires |tops| == |events| && Increasing(tops) && Chronological(events)
    requires l1 <= l2
    ensures CounterYear(events, tops, l2, ActiveIndexOf(tops, l2)) <= CounterYear(events, tops, l1, ActiveIndexOf(tops, l1))
  {
    var k1, k2 := ActiveIndexOf(tops, l1), ActiveIndexOf(tops, l2);
    var n := |events|;
    ActiveIsLastReached(tops, l1);
    ActiveIsLastReached(tops, l2);
    assert k1 <= k2 by {
      if k1 >= 0 { assert tops[k1] <= l2; }
    }
    var y1, y2 := CounterYear(events, tops, l1, k1), CounterYear(events, tops, l2, k2);
    if k1 < 0 || k2 >= n - 1 {
      // 2026 bounds every year, and the last year is bounded by every year.
    } else if k1 == k2 {
      ProgressMonotone(tops, l1, l2, k1);
      InterpolateFalls(events[k1].year, events[k1 + 1].year, Progress(tops, l1, k1), Progress(tops, l2, k1));
    } else {
      assert y2 <= events[k2].year;
      assert events[k1 + 1].year <= y1;
      assert events[k2].year <= events[k1 + 1].year;
    }
  }

  /** How a year label is written, in the branch `formatYear` takes. */
  datatype YearLabel =
    | CommonEra(year: int)              // "<year> 년"
    | HundredMillionsAgo(amount: real)  // "<amount, one decimal>억 년 전"
    | TenThousandsAgo(amount: real)     // "<amount, no decimals>만 년 전"
    | BeforeCommonEra(years: nat)       // "기원전 <years> 년"

  function AbsInt(y: int): nat { if y < 0 then -y else y }

  /** `formatYear`: picks the form of the label and the amount it prints before digit rounding. */
  function FormatYear(y: int): (l: YearLabel)
    ensures l.CommonEra? <==> y > 0
    ensures l.HundredMillionsAgo? <==> y <= 0 && AbsInt(y) >= 100000000
    ensures l.TenThousandsAgo? <==> y <= 0 && 10000 <= AbsInt(y) < 100000000
    ensures l.BeforeCommonEra? <==> y <= 0 && AbsInt(y) < 10000
  {
    if y > 0 then CommonEra(y)
    else if AbsInt(y) >= 100000000 then HundredMillionsAgo(AbsInt(y) as real / 100000000.0)
    else if AbsInt(y) >= 10000 then TenThousandsAgo(AbsInt(y) as real / 10000.0)
    else BeforeCommonEra(AbsInt(y))
  }

  /** The year a label stands for, reading its unit back. */
  function LabelValue(l: YearLabel): real
  {
    match l
    case CommonEra(year) => year as real
    case HundredMillionsAgo(amount) => -(amount * 100000000.0)
    case TenThousandsAgo(amount) => -(amount * 10000.0)
    case BeforeCommonEra(years) => -(years as real)
  }

  /**
   * Reading an unrounded label back gives the year it was made from: no
   * branch loses the sign or the unit. The printed label rounds the amount.
   */
  lemma FormatYearRoundTrip(y: int)
    ensures LabelValue(FormatYear(y)) == y as real
  {
  }

  /**
   * The integer a label prints, counted in its last printed digit: tenths
   * of 억 for `toFixed(1)`, whole 만 for `toFixed(0)`, whole years
   * otherwise. `toFixed` rounds half up on these non-negative amounts.
   */
  function PrintedDigits(l: YearLabel): int
  {
    match l
    case CommonEra(year) => year
    case HundredMillionsAgo(amount) => Round(amount * 10.0)
    case TenThousandsAgo(amount) => Round(amount)
    case BeforeCommonEra(years) => years
  }

  /** How many years one printed digit of a label stands for. */
  function DigitYears(l: YearLabel): nat
  {
    match l
    case CommonEra(_) => 1
    case HundredMillionsAgo(_) => 10000000
    case TenThousandsAgo(_) => 10000
    case BeforeCommonEra(_) => 1
  }

  /** The year a printed label reads as. */
  function PrintedValue(l: YearLabel): int
  {
    if l.CommonEra? then PrintedDigits(l) else -(PrintedDigits(l) * DigitYears(l))
  }

  /**
   * The label the page prints is within half a printed digit of the year:
   * exact for years after the common era and before 10^4 years ago, within
   * 5,000 years in the 만 form and within 5,000,000 years in the 억 form.
   */
  lemma PrintedLabelNearYear(y: int)
    ensures var l := FormatYear(y);
      2 * (y - PrintedValue(l)) <= DigitYears(l) && 2 * (PrintedValue(l) - y) <= DigitYears(l)
    ensures y > 0 || AbsInt(y) < 10000 ==> PrintedValue(FormatYear(y)) == y
  {
    var l := FormatYear(y);
    if l.HundredMillionsAgo? {
      var x := AbsInt(y) as real / 100000000.0 * 10.0;
      assert x * 10000000.0 == AbsInt(y) as real;
      var r := Round(x);
      assert (r as real) - 0.5 <= x < (r as real) + 0.5;
      assert (r * 10000000) as real - 5000000.0 <= AbsInt(y) as real < (r * 10000000) as real + 5000000.0;
    } else if l.TenThousandsAgo? {
      var x := AbsInt(y) as real / 10000.0;
      assert x * 10000.0 == AbsInt(y) as real;
      var r := Round(x);
      assert (r * 10000) as real - 5000.0 <= AbsInt(y) as real < (r * 10000) as real + 5000.0;
    }
  }

  /**
   * The printed label loses precision: the Triassic (-251,000,000) and the
   * end-Permian extinction (-252,000,000) of the page's own timeline both
   * print as "2.5억 년 전".
   */
  lemma PrintedLabelsCoincide()
    ensures FormatYear(-251000000) != FormatYear(-252000000)
    ensures PrintedValue(FormatYear(-251000000)) == PrintedValue(FormatYear(-252000000)) == -250000000
  {
    assert FormatYear(-251000000) == HundredMillionsAgo(2.51);
    assert FormatYear(-252000000) == HundredMillionsAgo(2.52);
    assert Round(2.51 * 10.0) == 25;
    assert Round(2.52 * 10.0) == 25;
  }

  /** The colour of a year caption, by magnitude. */
  datatype YearColor = Yellow | Emerald | Red | Purple

  function YearColorOf(year: int): (c: YearColor)
    ensures c == Purple <==> AbsInt(year) > 1000000000
    ensures c == Red <==> 65000000 < AbsInt(year) <= 1000000000
    ensures c == Emerald <==> 10000 < AbsInt(year) <= 65000000
    ensures c == Yellow <==> AbsInt(year) <= 10000
  {
    var absYear := AbsInt(year);
    if absYear > 1000000000 then Purple
    else if absYear > 65000000 then Red
    else if absYear > 10000 then Emerald
    else Yellow
  }

  /** The rank of a colour, from recent to ancient. */
  function Tier(c: YearColor): nat
  {
    match c
    case Yellow => 0
    case Emerald => 1
    case Red => 2
    case Purple => 3
  }

  /** A year further from the present never gets a more recent colour. */
  lemma ColorMonotone(a: int, b: int)
    requires AbsInt(a) <= AbsInt(b)
    ensures Tier(YearColorOf(a)) <= Tier(YearColorOf(b))
  {
  }

  /** Timeline events of historyEvents.ts:13-39. */
  const DigitalEra: seq<HistoryEvent> := [
    HistoryEvent(2025, Tech),
    HistoryEvent(2024, Tech),
    HistoryEvent(2024, Tech),
    HistoryEvent(2024, Tech),
    HistoryEvent(2024, Tech),
    HistoryEvent(2023, Tech),
    HistoryEvent(2023, Tech),
    HistoryEvent(2022, Tech),
    HistoryEvent(2022, Tech),
    HistoryEvent(2022, Tech),
    HistoryEvent(2022, Tech),
    HistoryEvent(2022, Cosmic),
    HistoryEvent(2020, Tech),
    HistoryEvent(2019, Tech),
    HistoryEvent(2015, Cosmic),
    HistoryEvent(2014, Tech),
    HistoryEvent(2013, Tech),
    HistoryEvent(2013, Cosmic),
    HistoryEvent(2010, Tech),
    HistoryEvent(2010, Tech),
    HistoryEvent(2007, Tech),
    HistoryEvent(2006, Tech),
    HistoryEvent(2003, Tech),
    HistoryEvent(2002, Cosmic)
  ]

  /** Timeline events of historyEvents.ts:41-53. */
  const InternetEra: seq<HistoryEvent> := [
    HistoryEvent(1999, Tech),
    HistoryEvent(1999, Tech),
    HistoryEvent(1999, Cosmic),
    HistoryEvent(1998, Tech),
    HistoryEvent(1997, Tech),
    HistoryEvent(1997, Tech),
    HistoryEvent(1996, Tech),
    HistoryEvent(1995, Tech),
    HistoryEvent(1994, Tech),
    HistoryEvent(1993, Tech),
    HistoryEvent(1993, Cosmic),
    HistoryEvent(1992, Cosmic)
  ]

  /** Timeline events of historyEvents.ts:55-64. */
  const IndustrialMiracle: seq<HistoryEvent> := [
    HistoryEvent(1983, Tech),
    HistoryEvent(1976, Tech),
    HistoryEvent(1975, Tech),
    HistoryEvent(1975, Tech),
    HistoryEvent(1972, Tech),
    HistoryEvent(1969, Cosmic),
    HistoryEvent(1968, Tech),
    HistoryEvent(1958, Cosmic),
    HistoryEvent(1953, Tech)
  ]

  /** Timeline events of historyEvents.ts:66-74. */
  const IndustrialRevolution: seq<HistoryEvent> := [
    HistoryEvent(1947, Tech),
    HistoryEvent(1947, Tech),
    HistoryEvent(1938, Tech),
    HistoryEvent(1908, Tech),
    HistoryEvent(1885, Tech),
    HistoryEvent(1879, Tech),
    HistoryEvent(1876, Tech),
    HistoryEvent(1769, Tech)
  ]

  /** Timeline events of historyEvents.ts:76-83. */
  const TraditionalScience: seq<HistoryEvent> := [
    HistoryEvent(1443, Science),
    HistoryEvent(1441, Tech),
    HistoryEvent(1434, Tech),
    HistoryEvent(1377, Tech),
    HistoryEvent(-3500, Tech),
    HistoryEvent(-10000, General),
    HistoryEvent(-3300000, Human)
  ]

  /** Timeline events of historyEvents.ts:85-91. */
  const Phanerozoic: seq<HistoryEvent> := [
    HistoryEvent(-66000000, Earth),
    HistoryEvent(-201000000, Life),
    HistoryEvent(-251000000, Life),
    HistoryEvent(-252000000, Earth),
    HistoryEvent(-443000000, Life),
    HistoryEvent(-541000000, Life)
  ]

  /** Timeline events of historyEvents.ts:93-99. */
  const EarthFormation: seq<HistoryEvent> := [
    HistoryEvent(-1500000000, Earth),
    HistoryEvent(-3400000000, Life),
    HistoryEvent(-3850000000, Life),
    HistoryEvent(-4400000000, Earth),
    HistoryEvent(-4500000000, Cosmic),
    HistoryEvent(-4600000000, Earth),
    HistoryEvent(-13800000000, Cosmic)
  ]

  /** The timeline of the page, in file order. */
  function Timeline(): (t: seq<HistoryEvent>)
    ensures |t| == 73
  {
    DigitalEra + InternetEra + IndustrialMiracle + IndustrialRevolution + TraditionalScience + Phanerozoic + EarthFormation
  }

  /** Each event's year is at most the one before it. */
  ghost predicate Falling(t: seq<HistoryEvent>)
  {
    forall i :: 0 < i < |t| ==> t[i].year <= t[i - 1].year
  }

  lemma FallingConcat(a: seq<HistoryEvent>, b: seq<HistoryEvent>)
    requires Falling(a) && Falling(b)
    requires |a| > 0 && |b| > 0 && b[0].year <= a[|a| - 1].year
    ensures Falling(a + b)
  {
    forall i | 0 < i < |a + b|
      ensures (a + b)[i].year <= (a + b)[i - 1].year
    {
      if i == |a| {
        assert (a + b)[i] == b[0] && (a + b)[i - 1] == a[|a| - 1];
      }
    }
  }

  lemma {:induction false} FallingChronological(t: seq<HistoryEvent>, i: nat, j: nat)
    requires Falling(t) && i <= j < |t|
    ensures t[j].year <= t[i].year
    decreases j - i
  {
    if i < j {
      FallingChronological(t, i, j - 1);
    }
  }

  /** The digital era, the longest section, runs back in time. */
  lemma DigitalEraFalling()
    ensures Falling(DigitalEra)
  {
    assert Falling(DigitalEra);
  }

  /** Each section of the timeline runs back in time. */
  lemma SectionsFalling()
    ensures Falling(DigitalEra) && Falling(InternetEra) && Falling(IndustrialMiracle)
    ensures Falling(IndustrialRevolution) && Falling(TraditionalScience)
    ensures Falling(Phanerozoic) && Falling(EarthFormation)
  {
    DigitalEraFalling();
    assert Falling(InternetEra);
    assert Falling(IndustrialMiracle);
    assert Falling(IndustrialRevolution);
    assert Falling(TraditionalScience);
    assert Falling(Phanerozoic);
  }

  /** The whole timeline runs back in time, across its section boundaries. */
  lemma TimelineFalling()
    ensures Falling(Timeline())
  {
    SectionsFalling();
    var s1 := DigitalEra + InternetEra;
    var s2 := s1 + IndustrialMiracle;
    var s3 := s2 + IndustrialRevolution;
    var s4 := s3 + TraditionalScience;
    var s5 := s4 + Phanerozoic;
    FallingConcat(DigitalEra, InternetEra);
    FallingConcat(s1, IndustrialMiracle);
    FallingConcat(s2, IndustrialRevolution);
    FallingConcat(s3, TraditionalScience);
    FallingConcat(s4, Phanerozoic);
    FallingConcat(s5, EarthFormation);
  }

  /** A falling sequence whose first year is at most 2026 is chronological. */
  lemma FallingIsChronological(t: seq<HistoryEvent>)
    requires Falling(t) && (|t| > 0 ==> t[0].year <= StartYear)
    ensures Chronological(t)
  {
    forall i, j | 0 <= i < j < |t|
      ensures t[j].year <= t[i].year
    {
      FallingChronological(t, i, j);
    }
    forall i | 0 <= i < |t|
      ensures t[i].year <= StartYear
    {
      FallingChronological(t, 0, i);
    }
  }

  /** The timeline runs back in time, starting before 2026. */
  lemma TimelineChronological()
    ensures Chronological(Timeline())
  {
    TimelineFalling();
    FallingIsChronological(Timeline());
  }

  /** On the page's own timeline, scrolling down never shows a later year. */
  lemma TimelineCounterGoesBack(viewport: real, tops: seq<real>, l1: real, l2: real)
    requires LaidOut(Timeline(), viewport, tops) && l1 <= l2
    ensures CounterYear(Timeline(), tops, l2, ActiveIndexOf(tops, l2)) <= CounterYear(Timeline(), tops, l1, ActiveIndexOf(tops, l1))
  {
    TimelineChronological();
    LaidOutIncreasing(Timeline(), viewport, tops);
    ScrollingDownGoesBack(Timeline(), tops, l1, l2);
  }
}
