/** `v1/owner/analytics`: view statistics for the owner's plant, over all
    time, over the last seven days, and per calendar day for the last seven
    days. Times are milliseconds; a day runs from one midnight to the next. */
module OwnerAnalyticsController {
  import opened Common
  import opened Store

  const WEEK_MS := 7 * DAY_MS

  /** A day's bucket: its day number (days since the epoch) and its views. */
  datatype DailyViewCount = DailyViewCount(day: int, count: nat)

  datatype AnalyticsResponse = AnalyticsResponse(
    totalViews: nat, weeklyViews: nat, dailyViews: seq<DailyViewCount>,
    uniqueViewers: nat, weeklyUniqueViewers: nat)

  /** The day a time falls in: the one whose midnight is the last at or
      before it. */
  function DayOf(t: int): (d: int)
    ensures d * DAY_MS <= t < (d + 1) * DAY_MS
  {
    t / DAY_MS
  }

  /** The midnight that starts a day: a whole number of days, falling in that
      day. */
  function Midnight(day: int): (m: int)
    ensures m % DAY_MS == 0 && m / DAY_MS == day
    ensures DayOf(m) == day
  {
    day * DAY_MS
  }

  /** Views of the plant with `lo <= viewedAt < hi`. */
  predicate InRange(v: ViewLog, plantId: Id, lo: int, hi: int)
  {
    v.plantId == plantId && lo <= v.viewedAt < hi
  }

  function RangeCount(viewLogs: seq<ViewLog>, plantId: Id, lo: int, hi: int): nat
  {
    Count(viewLogs, (v: ViewLog) => InRange(v, plantId, lo, hi))
  }

  /** The views in one day's bucket. */
  function DayCount(viewLogs: seq<ViewLog>, plantId: Id, day: int): nat
  {
    RangeCount(viewLogs, plantId, Midnight(day), Midnight(day + 1))
  }

  predicate ViewOf(v: ViewLog, plantId: Id) { v.plantId == plantId }

  predicate ViewSince(v: ViewLog, plantId: Id, since: int) { v.plantId == plantId && v.viewedAt >= since }

  function TotalViews(viewLogs: seq<ViewLog>, plantId: Id): nat
  {
    Count(viewLogs, (v: ViewLog) => ViewOf(v, plantId))
  }

  function ViewsSince(viewLogs: seq<ViewLog>, plantId: Id, since: int): nat
  {
    Count(viewLogs, (v: ViewLog) => ViewSince(v, plantId, since))
  }

  /** The distinct signed-in viewers of the plant, since a time if given
      (`groupBy consumerId` with `consumerId: {not: null}`). */
  function Viewers(viewLogs: seq<ViewLog>, plantId: Id, since: Option<int>): set<Id>
  {
    set i | 0 <= i < |viewLogs| && viewLogs[i].plantId == plantId && viewLogs[i].consumerId.Some?
              && (since.Some? ==> viewLogs[i].viewedAt >= since.value)
      :: viewLogs[i].consumerId.value
  }

  // ---------------------------------------------------------------------
  // getDailyViews

  /** The loop over i = 6 down to 0: the bucket i days before today, from
      its midnight to the next, pushed onto the result. The buckets are
      seven consecutive days, in ascending order, the last one today. */
  method GetDailyViews(viewLogs: seq<ViewLog>, plantId: Id, now: int) returns (result: seq<DailyViewCount>)
    ensures |result| == 7
    ensures forall k :: 0 <= k < 7 ==>
      result[k] == DailyViewCount(DayOf(now) - 6 + k, DayCount(viewLogs, plantId, DayOf(now) - 6 + k))
    ensures forall k :: 0 <= k < 6 ==> result[k + 1].day == result[k].day + 1
    ensures Midnight(result[6].day) <= now < Midnight(result[6].day + 1)
  {
    result := [];
    var i := 6;
    while i >= 0
      invariant -1 <= i <= 6
      invariant |result| == 6 - i
      invariant forall k :: 0 <= k < |result| ==>
        result[k] == DailyViewCount(DayOf(now) - 6 + k, DayCount(viewLogs, plantId, DayOf(now) - 6 + k))
    {
      var day := DayOf(now) - i;
      var start := Midnight(day);
      var next := start + DAY_MS;
      var count := Count(viewLogs, (v: ViewLog) => InRange(v, plantId, start, next));
      assert count == DayCount(viewLogs, plantId, day);
      result := result + [DailyViewCount(day, count)];
      i := i - 1;
    }
  }

  function SumCounts(buckets: seq<DailyViewCount>): nat
  {
    if buckets == [] then 0 else buckets[0].count + SumCounts(buckets[1..])
  }

  /** Adjacent ranges add up. */
  lemma RangeSplit(viewLogs: seq<ViewLog>, plantId: Id, lo: int, mid: int, hi: int)
    requires lo <= mid <= hi
    ensures RangeCount(viewLogs, plantId, lo, mid) + RangeCount(viewLogs, plantId, mid, hi)
         == RangeCount(viewLogs, plantId, lo, hi)
  {
    CountUnion(viewLogs, (v: ViewLog) => InRange(v, plantId, lo, mid), (v: ViewLog) => InRange(v, plantId, mid, hi),
               (v: ViewLog) => InRange(v, plantId, lo, hi));
  }

  /** Consecutive day buckets from `first` add up to the range they tile. */
  lemma {:induction false} BucketsTile(viewLogs: seq<ViewLog>, plantId: Id, first: int, buckets: seq<DailyViewCount>)
    requires forall k :: 0 <= k < |buckets| ==> buckets[k].count == DayCount(viewLogs, plantId, first + k)
    ensures SumCounts(buckets) == RangeCount(viewLogs, plantId, Midnight(first), Midnight(first + |buckets|))
    decreases buckets
  {
    if buckets == [] {
      CountZero(viewLogs, (v: ViewLog) => InRange(v, plantId, Midnight(first), Midnight(first)));
    } else {
      var rest := buckets[1..];
      forall k | 0 <= k < |rest| ensures rest[k].count == DayCount(viewLogs, plantId, first + 1 + k) {
        assert rest[k] == buckets[k + 1];
      }
      BucketsTile(viewLogs, plantId, first + 1, rest);
      RangeSplit(viewLogs, plantId, Midnight(first), Midnight(first + 1), Midnight(first + |buckets|));
    }
  }

  // ---------------------------------------------------------------------
  // getAnalytics

  /** `plant.findFirst({where: {ownerId}})`. */
  function FirstPlantOf(plants: seq<Plant>, ownerId: Id): (k: Option<nat>)
    ensures k.Some? ==> k.value < |plants| && plants[k.value].ownerId == ownerId
    ensures k.Some? ==> forall j :: 0 <= j < k.value ==> plants[j].ownerId != ownerId
    ensures k.None? <==> forall j :: 0 <= j < |plants| ==> plants[j].ownerId != ownerId
  {
    Find(plants, (p: Plant) => p.ownerId == ownerId)
  }

  /** GET: the statistics of the owner's first plant, all zero when the
      owner has none. The week starts seven days before the store clock. */
  method GetAnalytics(db: Db, ownerId: Id) returns (r: AnalyticsResponse)
    ensures FirstPlantOf(db.plants, ownerId).None? ==> r == AnalyticsResponse(0, 0, [], 0, 0)
    ensures FirstPlantOf(db.plants, ownerId).Some? ==>
      var plantId := db.plants[FirstPlantOf(db.plants, ownerId).value].id;
      r.totalViews == TotalViews(db.viewLogs, plantId) &&
      r.weeklyViews == ViewsSince(db.viewLogs, plantId, db.clock - WEEK_MS) &&
      r.uniqueViewers == |Viewers(db.viewLogs, plantId, None)| &&
      r.weeklyUniqueViewers == |Viewers(db.viewLogs, plantId, Some(db.clock - WEEK_MS))|
    ensures FirstPlantOf(db.plants, ownerId).Some? ==>
      var plantId := db.plants[FirstPlantOf(db.plants, ownerId).value].id;
      |r.dailyViews| == 7 &&
      forall k :: 0 <= k < 7 ==>
        r.dailyViews[k] == DailyViewCount(DayOf(db.clock) - 6 + k, DayCount(db.viewLogs, plantId, DayOf(db.clock) - 6 + k))
  {
    var plants, viewLogs, now := db.plants, db.viewLogs, db.clock;
    var found := FirstPlantOf(plants, ownerId);
    if found.None? {
      return AnalyticsResponse(0, 0, [], 0, 0);
    }
    var plantId := plants[found.value].id;
    var sevenDaysAgo := now - WEEK_MS;
    var totalViews := Count(viewLogs, (v: ViewLog) => ViewOf(v, plantId));
    var weeklyViews := Count(viewLogs, (v: ViewLog) => ViewSince(v, plantId, sevenDaysAgo));
    var uniqueViewers := |Viewers(viewLogs, plantId, None)|;
    var weeklyUniqueViewers := |Viewers(viewLogs, plantId, Some(sevenDaysAgo))|;
    var dailyViews := GetDailyViews(viewLogs, plantId, now);
    r := AnalyticsResponse(totalViews, weeklyViews, dailyViews, uniqueViewers, weeklyUniqueViewers);
  }

  /** The week is part of all time: weekly views and weekly viewers never
      exceed their all-time counterparts. */
  lemma WeekWithinAllTime(viewLogs: seq<ViewLog>, plantId: Id, since: int)
    ensures ViewsSince(viewLogs, plantId, since) <= TotalViews(viewLogs, plantId)
    ensures |Viewers(viewLogs, plantId, Some(since))| <= |Viewers(viewLogs, plantId, None)|
  {
    CountMonotone(viewLogs, (v: ViewLog) => ViewSince(v, plantId, since), (v: ViewLog) => ViewOf(v, plantId));
    SubsetCard(Viewers(viewLogs, plantId, Some(since)), Viewers(viewLogs, plantId, None));
  }

  /** Every view in a daily bucket is also a weekly view, since the first
      bucket starts at a midnight less than seven days ago: the seven daily
      counts add up to at most the weekly count. */
  lemma DailyViewsWithinWeek(viewLogs: seq<ViewLog>, plantId: Id, now: int, result: seq<DailyViewCount>)
    requires |result| == 7
    requires forall k :: 0 <= k < 7 ==>
      result[k] == DailyViewCount(DayOf(now) - 6 + k, DayCount(viewLogs, plantId, DayOf(now) - 6 + k))
    ensures SumCounts(result) <= ViewsSince(viewLogs, plantId, now - WEEK_MS)
  {
    var first := DayOf(now) - 6;
    BucketsTile(viewLogs, plantId, first, result);
    assert Midnight(first) >= now - WEEK_MS by {
      assert DayOf(now) * DAY_MS > now - DAY_MS;
    }
    CountMonotone(viewLogs, (v: ViewLog) => InRange(v, plantId, Midnight(first), Midnight(first + 7)),
                  (v: ViewLog) => ViewSince(v, plantId, now - WEEK_MS));
  }
}
