/**
 * The analytics store: counters per risk tier, a histogram of threat types
 * and the hundred most recent analyses, updated by every recorded analysis.
 * A ghost history of every recorded analysis states what the counters mean.
 */
module Analytics {

  /** The threat type of an ordinary message, which the histogram skips. */
  const OrdinaryThreat: string := "رسالة عادية"
  const RecentCapacity: nat := 100

  /** One entry of `recent_analyses` (its timestamp is left out). */
  datatype Entry = Entry(score: int, threatType: string)

  datatype RiskTier = HighRisk | MediumRisk | LowRisk

  /** High from 70, medium from 40, low below. */
  function TierOf(score: int): RiskTier {
    if score >= 70 then HighRisk else if score >= 40 then MediumRisk else LowRisk
  }

  /** How many recorded analyses fall in `tier`. */
  function CountTier(h: seq<Entry>, tier: RiskTier): nat {
    if h == [] then 0 else CountTier(h[..|h| - 1], tier) + (if TierOf(h[|h| - 1].score) == tier then 1 else 0)
  }

  /** How many recorded analyses have a score of at least `bound`. */
  function CountAtLeast(h: seq<Entry>, bound: int): nat {
    if h == [] then 0 else CountAtLeast(h[..|h| - 1], bound) + (if h[|h| - 1].score >= bound then 1 else 0)
  }

  /** How many recorded analyses are not ordinary messages. */
  function CountThreats(h: seq<Entry>): nat {
    if h == [] then 0 else CountThreats(h[..|h| - 1]) + (if h[|h| - 1].threatType != OrdinaryThreat then 1 else 0)
  }

  /** `d.get(k, 0)` */
  function Get(d: map<string, int>, k: string): int {
    if k in d then d[k] else 0
  }

  /** The histogram of the non-ordinary threat types of `h`. */
  function Histogram(h: seq<Entry>): map<string, int> {
    if h == [] then map[]
    else
      var prev := Histogram(h[..|h| - 1]);
      var t := h[|h| - 1].threatType;
      if t == OrdinaryThreat then prev else prev[t := Get(prev, t) + 1]
  }

  /** The last `n` elements of `h` (all of them when there are fewer). */
  function LastN(h: seq<Entry>, n: nat): (r: seq<Entry>)
    ensures |r| == if |h| <= n then |h| else n
  {
    if |h| <= n then h else h[|h| - n..]
  }

  /** The sum of the values of `m`. */
  ghost function MapSum(m: map<string, int>): int
    decreases |m|
  {
    if m == map[] then 0
    else
      var k :| k in m;
      m[k] + MapSum(m - {k})
  }

  /** The sum does not depend on which key is taken first. */
  lemma {:induction false} MapSumRemove(m: map<string, int>, k: string)
    requires k in m
    ensures MapSum(m) == m[k] + MapSum(m - {k})
    decreases |m|
  {
    var j :| j in m && MapSum(m) == m[j] + MapSum(m - {j});
    if j != k {
      MapSumRemove(m - {j}, k);
      MapSumRemove(m - {k}, j);
      assert m - {j} - {k} == m - {k} - {j};
    }
  }

  /** Adding one to a key's count (0 when absent) adds one to the sum. */
  lemma MapSumIncrement(m: map<string, int>, t: string)
    ensures MapSum(m[t := Get(m, t) + 1]) == MapSum(m) + 1
  {
    var n := m[t := Get(m, t) + 1];
    MapSumRemove(n, t);
    assert n - {t} == m - {t};
    if t in m {
      MapSumRemove(m, t);
    } else {
      assert m - {t} == m;
    }
  }

  /** The histogram's counts add up to the number of non-ordinary analyses. */
  lemma {:induction false} HistogramSumCountsThreats(h: seq<Entry>)
    ensures MapSum(Histogram(h)) == CountThreats(h)
    decreases |h|
  {
    if h != [] {
      var prefix := h[..|h| - 1];
      HistogramSumCountsThreats(prefix);
      if h[|h| - 1].threatType != OrdinaryThreat {
        MapSumIncrement(Histogram(prefix), h[|h| - 1].threatType);
      }
    }
  }

  /** At most every analysis is a threat. */
  lemma {:induction false} ThreatsAtMostTotal(h: seq<Entry>)
    ensures CountThreats(h) <= |h|
    decreases |h|
  {
    if h != [] {
      ThreatsAtMostTotal(h[..|h| - 1]);
    }
  }

  /** Every analysis falls in exactly one tier. */
  lemma {:induction false} TiersPartitionHistory(h: seq<Entry>)
    ensures CountTier(h, HighRisk) + CountTier(h, MediumRisk) + CountTier(h, LowRisk) == |h|
    ensures CountTier(h, HighRisk) + CountTier(h, MediumRisk) == CountAtLeast(h, 40)
    decreases |h|
  {
    if h != [] {
      TiersPartitionHistory(h[..|h| - 1]);
    }
  }

  /** What one more analysis does to each summary of the history. */
  lemma AppendStep(h: seq<Entry>, e: Entry)
    ensures var n := h + [e];
      && CountTier(n, HighRisk) == CountTier(h, HighRisk) + (if e.score >= 70 then 1 else 0)
      && CountTier(n, MediumRisk) == CountTier(h, MediumRisk) + (if 40 <= e.score < 70 then 1 else 0)
      && CountTier(n, LowRisk) == CountTier(h, LowRisk) + (if e.score < 40 then 1 else 0)
      && Histogram(n) == (if e.threatType == OrdinaryThreat then Histogram(h)
                          else Histogram(h)[e.threatType := Get(Histogram(h), e.threatType) + 1])
  {
    assert (h + [e])[..|h|] == h;
  }

  /**
   * The recent list after one more analysis: the entry is appended, the
   * oldest dropped past the capacity, and the list is again the last entries.
   */
  lemma LastNStep(h: seq<Entry>, e: Entry, recent: seq<Entry>)
    requires recent == LastN(h, RecentCapacity)
    ensures var r := if |recent| < RecentCapacity then recent + [e] else (recent + [e])[1..];
      r == LastN(h + [e], RecentCapacity)
  {
  }

  /** The tier counters after one more analysis with `score`: exactly one of them grows by one. */
  method CountInTier(score: int, high: int, medium: int, low: int) returns (high': int, medium': int, low': int)
    ensures high' == high + (if score >= 70 then 1 else 0)
    ensures medium' == medium + (if 40 <= score < 70 then 1 else 0)
    ensures low' == low + (if score < 40 then 1 else 0)
  {
    high', medium', low' := high, medium, low;
    if score >= 70 {
      high' := high' + 1;
    } else if score >= 40 {
      medium' := medium' + 1;
    } else {
      low' := low' + 1;
    }
  }

  /** The histogram after one more analysis: its threat type counts one more unless it is ordinary. */
  method CountThreat(types: map<string, int>, threatType: string) returns (types': map<string, int>)
    ensures types' == if threatType == OrdinaryThreat then types else types[threatType := Get(types, threatType) + 1]
  {
    types' := types;
    if threatType != OrdinaryThreat {
      types' := types'[threatType := Get(types', threatType) + 1];
    }
  }

  /** Appends `e` to the recent list and drops the oldest entry once there are more than 100. */
  method PushRecent(recent: seq<Entry>, e: Entry) returns (r: seq<Entry>)
    ensures r == if |recent| < RecentCapacity then recent + [e] else (recent + [e])[1..]
    ensures |recent| <= RecentCapacity ==>
      && r == (if |recent| < RecentCapacity then recent + [e] else recent[1..] + [e])
      && |r| <= RecentCapacity && r[|r| - 1] == e
  {
    r := recent + [e];
    if |r| > RecentCapacity {
      r := r[1..];
    }
  }

  /** The counters, the histogram and the recent list are those of history `h`. */
  ghost predicate Summarises(h: seq<Entry>, total: int, high: int, medium: int, low: int, types: map<string, int>,
                             recent: seq<Entry>)
  {
    && total == |h|
    && high == CountTier(h, HighRisk)
    && medium == CountTier(h, MediumRisk)
    && low == CountTier(h, LowRisk)
    && types == Histogram(h)
    && recent == LastN(h, RecentCapacity)
  }

  /** The counters after one more analysis summarise the longer history. */
  lemma SummarisesStep(h: seq<Entry>, e: Entry, total: int, high: int, medium: int, low: int,
                       types: map<string, int>, recent: seq<Entry>,
                       high': int, medium': int, low': int, types': map<string, int>, recent': seq<Entry>)
    requires Summarises(h, total, high, medium, low, types, recent)
    requires high' == high + (if e.score >= 70 then 1 else 0)
    requires medium' == medium + (if 40 <= e.score < 70 then 1 else 0)
    requires low' == low + (if e.score < 40 then 1 else 0)
    requires types' == if e.threatType == OrdinaryThreat then types else types[e.threatType := Get(types, e.threatType) + 1]
    requires recent' == if |recent| < RecentCapacity then recent + [e] else (recent + [e])[1..]
    ensures Summarises(h + [e], total + 1, high', medium', low', types', recent')
  {
    AppendStep(h, e);
    LastNStep(h, e, recent);
  }

  /**
   * One step of `record`: the tier counter, the histogram and the recent
   * list after `e`, which summarise the history extended by `e`.
   */
  method Advance(ghost h: seq<Entry>, e: Entry, total: int, high: int, medium: int, low: int,
                 types: map<string, int>, recent: seq<Entry>)
    returns (high': int, medium': int, low': int, types': map<string, int>, recent': seq<Entry>)
    requires Summarises(h, total, high, medium, low, types, recent)
    ensures Summarises(h + [e], total + 1, high', medium', low', types', recent')
    ensures recent' == if |recent| < RecentCapacity then recent + [e] else recent[1..] + [e]
  {
    high', medium', low' := CountInTier(e.score, high, medium, low);
    types' := CountThreat(types, e.threatType);
    recent' := PushRecent(recent, e);
    SummarisesStep(h, e, total, high, medium, low, types, recent, high', medium', low', types', recent');
  }

  /** The integer fields of `get_stats`. */
  datatype Stats = Stats(totalAnalyzed: int, highRisk: int, mediumRisk: int, lowRisk: int, threatsBlocked: int,
                         threatBreakdown: map<string, int>)

  class AnalyticsStore {
    var totalAnalyzed: int
    var highRiskCount: int
    var mediumRiskCount: int
    var lowRiskCount: int
    var threatTypes: map<string, int>
    var recentAnalyses: seq<Entry>
    /** Every analysis recorded so far, oldest first. */
    ghost var history: seq<Entry>

    /** The counters, the histogram and the recent list are those of the history. */
    ghost predicate Valid()
      reads this
    {
      Summarises(history, totalAnalyzed, highRiskCount, mediumRiskCount, lowRiskCount, threatTypes, recentAnalyses)
    }

    constructor ()
      ensures Valid() && history == []
    {
      totalAnalyzed, highRiskCount, mediumRiskCount, lowRiskCount := 0, 0, 0, 0;
      threatTypes := map[];
      recentAnalyses := [];
      history := [];
    }

    /**
     * `record(score, threat_type)`: one more analysis, one more in exactly one
     * tier, one more for its threat type unless it is ordinary, and the entry
     * appended to the recent list, whose oldest entry is dropped past 100.
     */
    method Record(score: int, threatType: string)
      requires Valid()
      modifies this
      ensures Valid() && history == old(history) + [Entry(score, threatType)]
      ensures recentAnalyses == if |old(recentAnalyses)| < RecentCapacity then old(recentAnalyses) + [Entry(score, threatType)]
                                else old(recentAnalyses)[1..] + [Entry(score, threatType)]
    {
      var entry := Entry(score, threatType);
      var high, medium, low, types, recent :=
        Advance(history, entry, totalAnalyzed, highRiskCount, mediumRiskCount, lowRiskCount, threatTypes, recentAnalyses);
      ghost var h := history + [entry];
      totalAnalyzed, highRiskCount, mediumRiskCount, lowRiskCount, threatTypes, recentAnalyses, history :=
        totalAnalyzed + 1, high, medium, low, types, recent, h;
    }

    /** `get_stats()`'s integer fields. */
    function GetStats(): Stats
      reads this
    {
      Stats(totalAnalyzed, highRiskCount, mediumRiskCount, lowRiskCount, highRiskCount + mediumRiskCount, threatTypes)
    }
  }

  /**
   * In a valid store the tiers partition the total, the threats blocked are
   * the analyses scoring 40 or more, and the histogram adds up to the number
   * of non-ordinary analyses, so to at most the total.
   */
  lemma StatsFollowHistory(store: AnalyticsStore)
    requires store.Valid()
    ensures var r := store.GetStats();
      && r.highRisk + r.mediumRisk + r.lowRisk == r.totalAnalyzed
      && r.threatsBlocked == CountAtLeast(store.history, 40)
      && MapSum(r.threatBreakdown) == CountThreats(store.history)
      && 0 <= MapSum(r.threatBreakdown) <= r.totalAnalyzed
  {
    TiersPartitionHistory(store.history);
    HistogramSumCountsThreats(store.history);
    ThreatsAtMostTotal(store.history);
  }

  /**
   * After any number of records the recent list holds the last
   * min(n, 100) analyses in arrival order, the newest last.
   */
  lemma RecentIsLastHundred(h: seq<Entry>)
    requires |h| > 0
    ensures var r := LastN(h, RecentCapacity);
      && |r| == (if |h| < RecentCapacity then |h| else RecentCapacity)
      && r[|r| - 1] == h[|h| - 1]
      && forall i :: 0 <= i < |r| ==> r[i] == h[|h| - |r| + i]
  {
  }
}
