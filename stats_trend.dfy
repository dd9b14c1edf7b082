/**
 * The revenue trend of the statistics view: the revenue of the orders that are
 * not cancelled, tallied by a date key (`timeMap`) and by day of the week
 * (`dayOfWeekMap`), and the best day, the first day with the largest positive
 * revenue. The keys come from the browser's calendar and locale, so they are
 * parameters here.
 */
module StatsTrend {
  import opened Folds
  import opened Types
  import opened Ranking
  import opened StatsMetrics
  import opened StatsFinancial

  /** The revenue of the billable orders, tallied under `key(o.createdAt)`. */
  function TallyBy(ds: seq<Order>, key: int -> string): (r: seq<Entry>)
    ensures UniqueNames(r)
  {
    if ds == [] then []
    else
      var r := TallyBy(ds[..|ds| - 1], key);
      var o := ds[|ds| - 1];
      if Billable(o) then Bump(r, key(o.createdAt), o.totalAmount) else r
  }

  /** Both maps in one pass, as the source fills them. */
  method RevenueByDay(ds: seq<Order>, dateKey: int -> string, dayName: int -> string)
    returns (timeMap: seq<Entry>, dayOfWeekMap: seq<Entry>)
    ensures timeMap == TallyBy(ds, dateKey)
    ensures dayOfWeekMap == TallyBy(ds, dayName)
  {
    timeMap, dayOfWeekMap := [], [];
    var i := 0;
    while i < |ds|
      invariant 0 <= i <= |ds|
      invariant timeMap == TallyBy(ds[..i], dateKey)
      invariant dayOfWeekMap == TallyBy(ds[..i], dayName)
    {
      assert ds[..i + 1][..i] == ds[..i];
      var o := ds[i];
      if o.status != Cancelled {
        timeMap := Bump(timeMap, dateKey(o.createdAt), o.totalAmount);
        dayOfWeekMap := Bump(dayOfWeekMap, dayName(o.createdAt), o.totalAmount);
      }
      i := i + 1;
    }
    assert ds[..i] == ds;
  }

  /** Each key's revenue is that of the billable orders created under it. */
  lemma {:induction false} TallyByValue(ds: seq<Order>, key: int -> string, k: string)
    ensures ValueOf(TallyBy(ds, key), k) == Sum(Filter(ds, o => Billable(o) && key(o.createdAt) == k), Amount)
    decreases |ds|
  {
    if ds != [] {
      var init, o := ds[..|ds| - 1], ds[|ds| - 1];
      TallyByValue(init, key, k);
      SumAppendOne(Filter(init, o => Billable(o) && key(o.createdAt) == k), o);
      if Billable(o) { BumpAdds(TallyBy(init, key), key(o.createdAt), o.totalAmount, k); }
    }
  }

  /** Whatever the keys, the trend holds all billable revenue. */
  lemma {:induction false} TallyByTotal(ds: seq<Order>, key: int -> string)
    ensures Total(TallyBy(ds, key)) == Sum(Filter(ds, Billable), Amount)
    decreases |ds|
  {
    if ds != [] {
      var init, o := ds[..|ds| - 1], ds[|ds| - 1];
      TallyByTotal(init, key);
      SumAppendOne(Filter(init, Billable), o);
      if Billable(o) { BumpAdds(TallyBy(init, key), key(o.createdAt), o.totalAmount, ""); }
    }
  }

  // ---------------------------------------------------------------------------
  // The best day
  // ---------------------------------------------------------------------------

  /** `bestDayName` and `maxDayVal` after visiting the entries in order. */
  function BestDayOf(t: seq<Entry>): (r: (string, real))
    ensures r.1 >= 0.0
  {
    if t == [] then ("-", 0.0)
    else
      var prev := BestDayOf(t[..|t| - 1]);
      var last := t[|t| - 1];
      if last.value > prev.1 then (last.name, last.value) else prev
  }

  method BestDay(dayOfWeekMap: seq<Entry>) returns (bestDayName: string, maxDayVal: real)
    ensures (bestDayName, maxDayVal) == BestDayOf(dayOfWeekMap)
  {
    maxDayVal, bestDayName := 0.0, "-";
    var i := 0;
    while i < |dayOfWeekMap|
      invariant 0 <= i <= |dayOfWeekMap|
      invariant (bestDayName, maxDayVal) == BestDayOf(dayOfWeekMap[..i])
    {
      assert dayOfWeekMap[..i + 1][..i] == dayOfWeekMap[..i];
      var e := dayOfWeekMap[i];
      if e.value > maxDayVal {
        maxDayVal, bestDayName := e.value, e.name;
      }
      i := i + 1;
    }
    assert dayOfWeekMap[..i] == dayOfWeekMap;
  }

  /** The best day has the largest revenue and is the first day that has it; with
      no positive revenue it is "-". */
  lemma {:induction false} BestDayIsFirstMax(t: seq<Entry>)
    ensures forall k :: 0 <= k < |t| ==> t[k].value <= BestDayOf(t).1
    ensures BestDayOf(t).1 == 0.0 ==> BestDayOf(t).0 == "-"
    ensures BestDayOf(t).1 > 0.0 ==>
      (exists k :: 0 <= k < |t| && t[k] == Entry(BestDayOf(t).0, BestDayOf(t).1) &&
        forall j :: 0 <= j < k ==> t[j].value < BestDayOf(t).1)
    decreases |t|
  {
    if t != [] {
      var init := t[..|t| - 1];
      BestDayIsFirstMax(init);
      var prev := BestDayOf(init);
      if t[|t| - 1].value > prev.1 {
        assert forall j :: 0 <= j < |init| ==> t[j].value < BestDayOf(t).1 by {
          forall j | 0 <= j < |init| ensures t[j].value < BestDayOf(t).1 { assert t[j] == init[j]; }
        }
      } else if prev.1 > 0.0 {
        var k :| 0 <= k < |init| && init[k] == Entry(prev.0, prev.1) && forall j :: 0 <= j < k ==> init[j].value < prev.1;
        assert t[k] == init[k];
        assert forall j :: 0 <= j < k ==> t[j].value < prev.1 by {
          forall j | 0 <= j < k ensures t[j].value < prev.1 { assert t[j] == init[j]; }
        }
      }
      forall k | 0 <= k < |t| ensures t[k].value <= BestDayOf(t).1 {
        if k < |init| { assert t[k] == init[k]; }
      }
    }
  }
}
