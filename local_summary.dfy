/**
 * The visitor-side chart: the last seven days of the browser's own visit
 * counters, their total, and the largest bar used to scale the chart.
 */
module LocalSummary {
  import opened Common
  import opened Text
  import opened BrowserStorage
  import opened LocalVisits

  datatype LocalDay = LocalDay(date: string, visits: Num)

  /** What `loadLocalAnalytics` hands to the component: the days and their total. */
  datatype LocalWindow = LocalWindow(days: seq<LocalDay>, total: Num)

  /** The running total `total += visits` over the days, from 0. */
  function SumVisits(days: seq<LocalDay>): (t: Num)
    ensures (forall j :: 0 <= j < |days| ==> days[j].visits.Finite? && days[j].visits.value >= 0) ==>
      && t.Finite? && t.value >= 0
      && forall j :: 0 <= j < |days| ==> days[j].visits.value <= t.value
  {
    if days == [] then Finite(0)
    else
      var init := days[..|days| - 1];
      assert forall j :: 0 <= j < |init| ==> init[j] == days[j];
      Add(SumVisits(init), days[|days| - 1].visits)
  }

  /** The total is NaN exactly when some day's stored count does not parse. */
  lemma {:induction false} SumVisitsNaN(days: seq<LocalDay>)
    ensures SumVisits(days).NaN? <==> exists j :: 0 <= j < |days| && days[j].visits.NaN?
  {
    if days != [] {
      var init := days[..|days| - 1];
      SumVisitsNaN(init);
      assert forall j :: 0 <= j < |init| ==> init[j] == days[j];
    }
  }

  /**
   * `loadLocalAnalytics`: one entry per day from six days ago to today, oldest
   * first. None when the storage cannot be read (the component keeps its state).
   */
  method LoadLocalAnalytics(storage: Storage, nowMs: nat) returns (r: Option<LocalWindow>)
    ensures r.Some? <==> storage.available
    ensures r.Some? ==>
      var today := DayOf(nowMs);
      && |r.value.days| == 7
      && (forall j :: 0 <= j < 7 ==>
            r.value.days[j] == LocalDay(DayText(today - 6 + j), StoredVisits(storage.items, VisitKey(today - 6 + j))))
      && r.value.total == SumVisits(r.value.days)
  {
    if !storage.available {
      return None;
    }
    var today := DayOf(nowMs);
    var data: seq<LocalDay> := [];
    var total := Finite(0);
    var i := 6;
    while i >= 0
      invariant -1 <= i <= 6
      invariant |data| == 6 - i
      invariant forall j :: 0 <= j < |data| ==>
        data[j] == LocalDay(DayText(today - 6 + j), StoredVisits(storage.items, VisitKey(today - 6 + j)))
      invariant total == SumVisits(data)
    {
      var dateStr := DayText(today - i);
      var visitKey := VisitPrefix + dateStr;
      var stored := storage.GetItem(visitKey);
      var visits := ParseInt(OrElse(stored, "0"));
      ghost var prev := data;
      data := data + [LocalDay(dateStr, visits)];
      assert data[..|data| - 1] == prev;
      assert today - 6 + |prev| == today - i;
      total := Add(total, visits);
      i := i - 1;
    }
    r := Some(LocalWindow(data, total));
  }

  /** `Math.max(a, b)` on JavaScript numbers. */
  function Larger(a: Num, b: Num): Num
  {
    if a.NaN? || b.NaN? then NaN else if a.value >= b.value then a else b
  }

  /**
   * `Math.max(...visitData.map(d => d.visits), 1)`: the chart's scale. It is
   * NaN exactly when some day is NaN; otherwise it is at least 1 and at least
   * every day's count, and it is 1 or one of the counts.
   */
  function MaxVisits(days: seq<LocalDay>): (m: Num)
    ensures m.NaN? <==> exists j :: 0 <= j < |days| && days[j].visits.NaN?
    ensures m.Finite? ==> m.value >= 1 && forall j :: 0 <= j < |days| ==> days[j].visits.value <= m.value
    ensures m.Finite? ==> m.value == 1 || exists j :: 0 <= j < |days| && days[j].visits == m
  {
    if days == [] then Finite(1)
    else
      var init := days[..|days| - 1];
      assert forall j :: 0 <= j < |init| ==> init[j] == days[j];
      Larger(MaxVisits(init), days[|days| - 1].visits)
  }
}
