/** The gaps between pulses, as the dashboard reports them (`pulseGapStats` in dashboard/lib/pulseView.ts). */
module PulseGaps {
  import opened Text

  const HOUR_MS := 3600000

  /** The recorded times inside the window; an unreadable date is `None`. */
  function Kept(history: seq<Option<int>>, fromMs: int, nowMs: int): seq<int> {
    if history == [] then []
    else
      var last := history[|history| - 1];
      Kept(history[..|history| - 1], fromMs, nowMs) +
      if last.Some? && fromMs <= last.value <= nowMs then [last.value] else []
  }

  predicate Sorted(s: seq<int>) {
    forall i, j | 0 <= i < j < |s| :: s[i] <= s[j]
  }

  function Inserted(s: seq<int>, x: int): (r: seq<int>)
    ensures |r| == |s| + 1
  {
    if s == [] then [x] else if x <= s[0] then [x] + s else [s[0]] + Inserted(s[1..], x)
  }

  lemma {:induction false} InsertedElements(s: seq<int>, x: int)
    ensures multiset(Inserted(s, x)) == multiset(s) + multiset{x}
  {
    if s != [] {
      InsertedElements(s[1..], x);
      assert s == [s[0]] + s[1..];
    }
  }

  lemma {:induction false} InsertedAtLeast(s: seq<int>, x: int, low: int)
    requires low <= x && forall i | 0 <= i < |s| :: low <= s[i]
    ensures forall i | 0 <= i < |s| + 1 :: low <= Inserted(s, x)[i]
  {
    if s != [] {
      InsertedAtLeast(s[1..], x, low);
    }
  }

  lemma {:induction false} InsertedSorted(s: seq<int>, x: int)
    requires Sorted(s)
    ensures Sorted(Inserted(s, x))
  {
    if s != [] && x > s[0] {
      InsertedSorted(s[1..], x);
      InsertedAtLeast(s[1..], x, s[0]);
    }
  }

  /** `sort((a, b) => a - b)` */
  function Sort(s: seq<int>): (r: seq<int>)
    ensures |r| == |s|
  {
    if s == [] then [] else Inserted(Sort(s[..|s| - 1]), s[|s| - 1])
  }

  lemma {:induction false} SortSorts(s: seq<int>)
    ensures Sorted(Sort(s)) && multiset(Sort(s)) == multiset(s)
  {
    if s != [] {
      var init, last := s[..|s| - 1], s[|s| - 1];
      SortSorts(init);
      InsertedSorted(Sort(init), last);
      InsertedElements(Sort(init), last);
      hide Sorted, Inserted;
      assert s == init + [last];
    }
  }

  lemma LeastIsFirst(a: seq<int>, b: seq<int>)
    requires Sorted(a) && Sorted(b) && multiset(a) == multiset(b) && a != []
    ensures b != [] && b[0] <= a[0]
  {
    assert a[0] in multiset(b);
    var i :| 0 <= i < |b| && b[i] == a[0];
    assert i > 0 ==> b[0] <= b[i];
  }

  lemma TailElements(s: seq<int>)
    requires s != []
    ensures multiset(s[1..]) == multiset(s) - multiset{s[0]}
  {
    assert s == [s[0]] + s[1..];
  }

  /** Sorting forgets the order. */
  lemma {:induction false} SortedIsUnique(a: seq<int>, b: seq<int>)
    requires Sorted(a) && Sorted(b) && multiset(a) == multiset(b)
    ensures a == b
  {
    if a == [] {
      if b != [] {
        LeastIsFirst(b, a);
      }
    } else {
      LeastIsFirst(a, b);
      LeastIsFirst(b, a);
      TailElements(a);
      TailElements(b);
      assert Sorted(a[1..]) && Sorted(b[1..]);
      hide Sorted;
      SortedIsUnique(a[1..], b[1..]);
      assert a == [a[0]] + a[1..] && b == [b[0]] + b[1..];
    }
  }

  function Gaps(times: seq<int>): (r: seq<int>)
    ensures |r| == if times == [] then 0 else |times| - 1
    ensures forall i | 0 <= i < |r| :: r[i] == times[i + 1] - times[i]
  {
    seq(if times == [] then 0 else |times| - 1, i requires 0 <= i < |times| - 1 => times[i + 1] - times[i])
  }

  function Sum(s: seq<int>): int {
    if s == [] then 0 else Sum(s[..|s| - 1]) + s[|s| - 1]
  }

  /** The gaps make up the whole stretch from the first kept time to the last. */
  lemma {:induction false} GapsTelescope(times: seq<int>)
    requires times != []
    ensures Sum(Gaps(times)) == times[|times| - 1] - times[0]
  {
    if |times| > 1 {
      var init := times[..|times| - 1];
      GapsTelescope(init);
      assert Gaps(times)[..|times| - 2] == Gaps(init);
    }
  }

  // ------------------------------------------------------------------ nearest rank

  /** `ceil(q * n)` for the quantile `q = pct / 100`. */
  function RankOf(pct: nat, n: nat): nat {
    (pct * n + 99) / 100
  }

  function IndexOfRank(pct: nat, n: nat): (k: nat)
    requires n > 0
    ensures k < n
  {
    var k := RankOf(pct, n) - 1;
    var low := if k < 0 then 0 else k;
    if low > n - 1 then n - 1 else low
  }

  function AtMost(s: seq<int>, v: int): (n: nat)
    ensures n <= |s|
  {
    if s == [] then 0 else AtMost(s[..|s| - 1], v) + if s[|s| - 1] <= v then 1 else 0
  }

  function Below(s: seq<int>, v: int): (n: nat)
    ensures n <= |s|
  {
    if s == [] then 0 else Below(s[..|s| - 1], v) + if s[|s| - 1] < v then 1 else 0
  }

  lemma {:induction false} AtMostFrom(s: seq<int>, v: int, k: nat)
    requires k <= |s| && forall i | 0 <= i < k :: s[i] <= v
    ensures AtMost(s, v) >= k
  {
    if k > 0 {
      AtMostFrom(s[..|s| - 1], v, if k == |s| then k - 1 else k);
    }
  }

  lemma {:induction false} BelowUpTo(s: seq<int>, v: int, k: nat)
    requires k <= |s| && forall i | k <= i < |s| :: v <= s[i]
    ensures Below(s, v) <= k
  {
    if k < |s| {
      BelowUpTo(s[..|s| - 1], v, k);
    }
  }

  lemma RankInRange(pct: nat, n: nat)
    requires n > 0 && 0 < pct <= 100
    ensures 1 <= RankOf(pct, n) <= n
    ensures 100 * (RankOf(pct, n) - 1) < pct * n <= 100 * RankOf(pct, n)
  {
    assert pct * n >= 1;
    assert pct * n <= 100 * n by { MulMono(pct, 100, n); }
  }

  lemma MulMono(a: nat, b: nat, n: nat)
    requires a <= b
    ensures a * n <= b * n
  {
  }

  /** The reported rank is a gap; at least `ceil(q n)` gaps are at most it, and fewer than that many are strictly
      below it. */
  lemma NearestRank(gaps: seq<int>, pct: nat)
    requires gaps != [] && Sorted(gaps) && 0 < pct <= 100
    ensures var v, rank := gaps[IndexOfRank(pct, |gaps|)], RankOf(pct, |gaps|);
            v in gaps && AtMost(gaps, v) >= rank && Below(gaps, v) < rank
  {
    RankInRange(pct, |gaps|);
    var rank := RankOf(pct, |gaps|);
    hide RankOf;
    AroundRank(gaps, rank - 1);
    assert IndexOfRank(pct, |gaps|) == rank - 1;
    hide Sorted, AtMost, Below;
  }

  lemma AroundRank(gaps: seq<int>, k: nat)
    requires k < |gaps| && Sorted(gaps)
    ensures AtMost(gaps, gaps[k]) >= k + 1 && Below(gaps, gaps[k]) <= k
  {
    AtMostFrom(gaps, gaps[k], k + 1);
    BelowUpTo(gaps, gaps[k], k);
  }

  // ------------------------------------------------------------------ the report

  /** Minutes to one decimal, halves up. */
  function Minutes(ms: int): real {
    (((ms as real / 60000.0) * 10.0 + 0.5).Floor) as real / 10.0
  }

  lemma MinutesMono(a: int, b: int)
    requires a <= b
    ensures Minutes(a) <= Minutes(b)
  {
    var x, y := (a as real / 60000.0) * 10.0 + 0.5, (b as real / 60000.0) * 10.0 + 0.5;
    assert x <= y;
    assert x.Floor <= y.Floor;
  }

  /** The minutes shown are a whole number of tenths, and the nearest one: at most half a tenth below the true value
      rounds down, a full half rounds up. */
  lemma MinutesAreNearest(ms: int)
    ensures var m, exact := Minutes(ms), ms as real / 60000.0;
            && m * 10.0 == (m * 10.0).Floor as real
            && m - 0.05 <= exact < m + 0.05
  {
    var x := (ms as real / 60000.0) * 10.0 + 0.5;
    assert Minutes(ms) * 10.0 == x.Floor as real;
    assert x.Floor as real <= x < x.Floor as real + 1.0;
  }

  datatype Ranks = Ranks(median: real, p90: real, max: real)

  datatype Stats = Stats(count: nat, ranks: Option<Ranks>)

  function SortedGaps(history: seq<Option<int>>, nowMs: int, windowHours: int): seq<int> {
    Sort(Gaps(Sort(Kept(history, nowMs - windowHours * HOUR_MS, nowMs))))
  }

  function StatsOf(gaps: seq<int>): Stats {
    if gaps == [] then Stats(0, None)
    else
      var median, p90 := gaps[IndexOfRank(50, |gaps|)], gaps[IndexOfRank(90, |gaps|)];
      Stats(|gaps|, Some(Ranks(Minutes(median), Minutes(p90), Minutes(gaps[|gaps| - 1]))))
  }

  /** The figures are in order, and not negative. */
  lemma FiguresAreOrdered(history: seq<Option<int>>, nowMs: int, windowHours: int)
    ensures var s := StatsOf(SortedGaps(history, nowMs, windowHours));
            s.ranks.Some? ==> 0.0 <= s.ranks.value.median <= s.ranks.value.p90 <= s.ranks.value.max
  {
    var kept := Kept(history, nowMs - windowHours * HOUR_MS, nowMs);
    var raw, gaps := Gaps(Sort(kept)), SortedGaps(history, nowMs, windowHours);
    SortSorts(kept);
    SortSorts(raw);
    GapsNotNegative(Sort(kept));
    hide Sort, Kept, Gaps;
    if gaps != [] {
      OrderedFigures(raw, gaps);
    }
  }

  lemma GapsNotNegative(times: seq<int>)
    requires Sorted(times)
    ensures forall g | g in Gaps(times) :: 0 <= g
  {
  }

  lemma OrderedFigures(raw: seq<int>, gaps: seq<int>)
    requires gaps != [] && Sorted(gaps) && multiset(gaps) == multiset(raw) && forall g | g in raw :: 0 <= g
    ensures var r := StatsOf(gaps).ranks.value; 0.0 <= r.median <= r.p90 <= r.max
  {
    var n := |gaps|;
    var i, j := IndexOfRank(50, n), IndexOfRank(90, n);
    assert i <= j;
    hide IndexOfRank, Minutes;
    assert gaps[i] in multiset(gaps);
    assert gaps[i] in raw;
    MinutesMono(0, gaps[i]);
    MinutesMono(gaps[i], gaps[j]);
    MinutesMono(gaps[j], gaps[n - 1]);
    NoMinutes();
  }

  lemma NoMinutes()
    ensures Minutes(0) == 0.0
  {
  }

  lemma Appended<T>(s: seq<T>, x: T, y: T)
    ensures multiset(s + [x])[y] == multiset(s)[y] + if x == y then 1 else 0
  {
  }

  /** The report itself: how many gaps there are, and of which gap each figure is the minutes. At least half of the
      gaps, rounded up, are at most the median and fewer are below it; the same with nine tenths for the p90; and no
      gap is above the maximum. */
  lemma ReportedFigures(gaps: seq<int>)
    requires gaps != [] && Sorted(gaps)
    ensures var s, n := StatsOf(gaps), |gaps|;
            && s.count == n && s.ranks.Some?
            && (exists g | g in gaps :: s.ranks.value.median == Minutes(g) && IsRank(gaps, g, 50))
            && (exists g | g in gaps :: s.ranks.value.p90 == Minutes(g) && IsRank(gaps, g, 90))
            && (exists g | g in gaps :: s.ranks.value.max == Minutes(g) && forall h | h in gaps :: h <= g)
  {
    NearestRank(gaps, 50);
    NearestRank(gaps, 90);
    hide RankOf, IndexOfRank, Minutes, AtMost, Below;
    var n := |gaps|;
    var m, p, x := gaps[IndexOfRank(50, n)], gaps[IndexOfRank(90, n)], gaps[n - 1];
    assert m in gaps && IsRank(gaps, m, 50);
    assert p in gaps && IsRank(gaps, p, 90);
    assert x in gaps && forall h | h in gaps :: h <= x;
  }

  /** `ceil(pct * n / 100)` of the gaps are at most `g`, and fewer are below it. */
  predicate IsRank(gaps: seq<int>, g: int, pct: nat) {
    100 * AtMost(gaps, g) >= pct * |gaps| && 100 * Below(gaps, g) < pct * |gaps|
  }

  /** One gap fewer than pulses in the window, and none without a pulse. */
  lemma CountOfGaps(history: seq<Option<int>>, nowMs: int, windowHours: int)
    ensures var kept := |Kept(history, nowMs - windowHours * 3_600_000, nowMs)|;
            && StatsOf(SortedGaps(history, nowMs, windowHours)).count == (if kept == 0 then 0 else kept - 1)
            && (StatsOf(SortedGaps(history, nowMs, windowHours)).ranks.Some? <==> kept >= 2)
  {
    hide Kept, Minutes, IndexOfRank;
  }

  lemma {:induction false} KeptAsMultiset(a: seq<Option<int>>, fromMs: int, nowMs: int, t: int)
    ensures multiset(Kept(a, fromMs, nowMs))[t] == if fromMs <= t <= nowMs then multiset(a)[Some(t)] else 0
  {
    if a != [] {
      var init, last := a[..|a| - 1], a[|a| - 1];
      KeptAsMultiset(init, fromMs, nowMs, t);
      var kept := Kept(init, fromMs, nowMs);
      var keeps := last.Some? && fromMs <= last.value <= nowMs;
      assert Kept(a, fromMs, nowMs) == if keeps then kept + [last.value] else kept;
      hide Kept;
      InitLast(a);
      Appended(init, last, Some(t));
      if keeps {
        Appended(kept, last.value, t);
      }
    }
  }

  /** Two histories record the same pulses in the window. */
  predicate SamePulses(a: seq<Option<int>>, b: seq<Option<int>>, fromMs: int, nowMs: int) {
    forall t | fromMs <= t <= nowMs :: multiset(a)[Some(t)] == multiset(b)[Some(t)]
  }

  lemma SameKept(a: seq<Option<int>>, b: seq<Option<int>>, fromMs: int, nowMs: int)
    requires SamePulses(a, b, fromMs, nowMs)
    ensures multiset(Kept(a, fromMs, nowMs)) == multiset(Kept(b, fromMs, nowMs))
  {
    hide Kept;
    forall t: int ensures multiset(Kept(a, fromMs, nowMs))[t] == multiset(Kept(b, fromMs, nowMs))[t] {
      KeptAsMultiset(a, fromMs, nowMs, t);
      KeptAsMultiset(b, fromMs, nowMs, t);
    }
  }

  /** The report does not depend on the order in which the history lists its pulses, nor on pulses outside the
      window. */
  lemma OrderDoesNotMatter(a: seq<Option<int>>, b: seq<Option<int>>, nowMs: int, windowHours: int)
    requires SamePulses(a, b, nowMs - windowHours * HOUR_MS, nowMs)
    ensures SortedGaps(a, nowMs, windowHours) == SortedGaps(b, nowMs, windowHours)
  {
    var fromMs := nowMs - windowHours * HOUR_MS;
    SameKept(a, b, fromMs, nowMs);
    hide Kept, Sort, SamePulses, Sorted;
    SortSorts(Kept(a, fromMs, nowMs));
    SortSorts(Kept(b, fromMs, nowMs));
    SortedIsUnique(Sort(Kept(a, fromMs, nowMs)), Sort(Kept(b, fromMs, nowMs)));
  }

  // ------------------------------------------------------------------ the program

  method PulseGapStats(history: seq<Option<int>>, nowMs: int, windowHours: int) returns (stats: Stats)
    ensures stats == StatsOf(SortedGaps(history, nowMs, windowHours))
  {
    hide Kept, Sort, IndexOfRank, Minutes;
    var fromMs := nowMs - windowHours * HOUR_MS;
    var times := Sort(Kept(history, fromMs, nowMs));
    var gaps: seq<int> := [];
    var i := 1;
    while i < |times|
      invariant 1 <= i && |gaps| == i - 1 && (times != [] ==> i <= |times|) && (times == [] ==> i == 1)
      invariant forall k | 0 <= k < |gaps| :: gaps[k] == times[k + 1] - times[k]
    {
      gaps := gaps + [times[i] - times[i - 1]];
      i := i + 1;
    }
    assert gaps == Gaps(times);
    if |gaps| == 0 {
      return Stats(0, None);
    }
    gaps := Sort(gaps);
    var median, p90 := gaps[IndexOfRank(50, |gaps|)], gaps[IndexOfRank(90, |gaps|)];
    return Stats(|gaps|, Some(Ranks(Minutes(median), Minutes(p90), Minutes(gaps[|gaps| - 1]))));
  }
}
