/**
 * `getDateWindows`: cuts a publication-date span into consecutive windows the
 * NVD API accepts. Dates are day numbers; a window is inclusive at both ends.
 */
module DateWindows {

  const DEFAULT_WINDOW_DAYS := 119

  datatype DateWindow = DateWindow(start: int, end: int)

  function Min(a: int, b: int): int
  {
    if a <= b then a else b
  }

  /**
   * What the planner produces: no windows for an empty span; otherwise the
   * first starts at startDate, each ends windowDays after its start or at
   * endDate if that is sooner, each next one starts the day after the
   * previous end, every window starts before endDate, and the last one ends
   * no earlier than the day before endDate.
   */
  ghost predicate Planned(ws: seq<DateWindow>, startDate: int, endDate: int, windowDays: int)
  {
    && (startDate >= endDate <==> |ws| == 0)
    && (|ws| > 0 ==> ws[0].start == startDate && ws[|ws| - 1].end >= endDate - 1)
    && (forall i :: 0 <= i < |ws| ==> ws[i].start < endDate)
    && (forall i :: 0 <= i < |ws| ==> ws[i].end == Min(ws[i].start + windowDays, endDate))
    && (forall i :: 0 < i < |ws| ==> ws[i].start == ws[i - 1].end + 1)
  }

  method GetDateWindows(startDate: int, endDate: int, windowDays: int) returns (windows: seq<DateWindow>)
    requires windowDays >= 0
    ensures Planned(windows, startDate, endDate, windowDays)
  {
    windows := [];
    var current := startDate;
    while current < endDate
      invariant |windows| == 0 <==> current == startDate
      invariant |windows| > 0 ==> windows[0].start == startDate && current == windows[|windows| - 1].end + 1
      invariant forall i :: 0 <= i < |windows| ==> windows[i].start < endDate
      invariant forall i :: 0 <= i < |windows| ==> windows[i].end == Min(windows[i].start + windowDays, endDate)
      invariant forall i :: 0 < i < |windows| ==> windows[i].start == windows[i - 1].end + 1
      decreases endDate - current
    {
      var windowEnd := current + windowDays;
      if windowEnd > endDate {
        windowEnd := endDate;
      }
      windows := windows + [DateWindow(current, windowEnd)];
      current := windowEnd + 1;
    }
  }

  // ----- what the plan guarantees -----

  /** Windows are in order and do not overlap: a later window starts after an earlier one ends. */
  lemma {:induction false} WindowsDisjoint(ws: seq<DateWindow>, startDate: int, endDate: int, windowDays: int, i: nat, j: nat)
    requires windowDays >= 0 && Planned(ws, startDate, endDate, windowDays)
    requires i < j < |ws|
    ensures ws[i].start <= ws[i].end < ws[j].start <= ws[j].end <= endDate
    decreases j - i
  {
    if i + 1 < j {
      WindowsDisjoint(ws, startDate, endDate, windowDays, i + 1, j);
    }
  }

  /** There are no gaps: every day from startDate to the day before endDate lies in some window. */
  lemma WindowContaining(ws: seq<DateWindow>, startDate: int, endDate: int, windowDays: int, d: int)
    returns (i: nat)
    requires windowDays >= 0 && Planned(ws, startDate, endDate, windowDays)
    requires startDate <= d < endDate
    ensures i < |ws| && ws[i].start <= d <= ws[i].end
  {
    i := 0;
    while i + 1 < |ws| && ws[i + 1].start <= d
      invariant i < |ws| && ws[i].start <= d
      decreases |ws| - i
    {
      i := i + 1;
    }
  }

  /** Only the last window can reach the day before endDate. */
  lemma EarlierWindowsEndSooner(ws: seq<DateWindow>, startDate: int, endDate: int, windowDays: int)
    requires Planned(ws, startDate, endDate, windowDays)
    ensures forall i :: 0 <= i < |ws| - 1 ==> ws[i].end < endDate - 1
  {
    forall i | 0 <= i < |ws| - 1 ensures ws[i].end < endDate - 1 {
      assert ws[i + 1].start == ws[i].end + 1;
    }
  }

  /**
   * endDate itself is fetched only when the last window ends on it; when an
   * unclamped window ends on the day before endDate, the loop stops and
   * endDate is left out.
   */
  lemma EndDateCovered(ws: seq<DateWindow>, startDate: int, endDate: int, windowDays: int)
    requires windowDays >= 0 && Planned(ws, startDate, endDate, windowDays)
    ensures (exists i :: 0 <= i < |ws| && ws[i].start <= endDate <= ws[i].end) <==>
            (|ws| > 0 && ws[|ws| - 1].end == endDate)
  {
    EarlierWindowsEndSooner(ws, startDate, endDate, windowDays);
    if |ws| > 0 && ws[|ws| - 1].end == endDate {
      assert ws[|ws| - 1].start <= endDate;
    }
  }

  /** An end date 120 days after the start, with the default window size: one window, and the end date is not fetched. */
  lemma LastDayLeftOut(ws: seq<DateWindow>)
    requires Planned(ws, 0, 120, DEFAULT_WINDOW_DAYS)
    ensures ws == [DateWindow(0, 119)]
  {
    EarlierWindowsEndSooner(ws, 0, 120, DEFAULT_WINDOW_DAYS);
    assert ws[0] == DateWindow(0, 119);
  }

  /** The 366 days of 2020 (days 0 to 365) in four windows, the last one ending on day 365. */
  lemma LeapYearPlan(ws: seq<DateWindow>)
    requires Planned(ws, 0, 365, DEFAULT_WINDOW_DAYS)
    ensures ws == [DateWindow(0, 119), DateWindow(120, 239), DateWindow(240, 359), DateWindow(360, 365)]
  {
    EarlierWindowsEndSooner(ws, 0, 365, DEFAULT_WINDOW_DAYS);
    assert ws[0] == DateWindow(0, 119);
    assert |ws| > 1 && ws[1] == DateWindow(120, 239);
    assert |ws| > 2 && ws[2] == DateWindow(240, 359);
    assert |ws| > 3 && ws[3] == DateWindow(360, 365);
  }
}
