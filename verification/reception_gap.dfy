/** ReceptionGap: an observer's recent rate from a source is compared with its
    own baseline, and with the median of the other observers of that source. */
module ReceptionGapDetector {
  import opened Events
  import opened AnomaliesStage

  /** The columns the query reads: rollup_neighbor_1m, and per observer and
      minute the packets of rollup_observer_1m. */
  datatype NeighborRow = NeighborRow(observer: Bytes, source: Bytes, bucket: Time, packets: nat)
  datatype ObserverRow = ObserverRow(observer: Bytes, bucket: Time, packets: nat)
  datatype Scan = Scan(neighbors: seq<NeighborRow>, observers: seq<ObserverRow>)

  datatype Pair = Pair(observer: Bytes, source: Bytes)

  /** One row of the `ratios` CTE. */
  datatype Rate = Rate(pair: Pair, baseline: real, recent: nat, ratio: real)

  datatype ReceptionGap = ReceptionGap(
    recentWindow: Duration,
    baselineWindow: Duration,
    minSamples: nat,
    baselineMinPerMin: real,
    maxRecentFraction: real,
    minPeerFraction: real,
    minPeers: nat,
    severity: string)

  /** What New registers. */
  const REGISTERED: ReceptionGap := ReceptionGap(HOUR, 24 * HOUR, 30, 0.5, 0.3, 0.5, 1, "warn")

  /* ---------- the query ---------- */

  /** COUNT(*) and SUM(packets) of a pair over [from, until). */
  function CountRows(rows: seq<NeighborRow>, p: Pair, from: Time, until: Time): nat {
    if rows == [] then 0
    else CountRows(rows[..|rows| - 1], p, from, until) + (if Selects(rows[|rows| - 1], p, from, until) then 1 else 0)
  }

  function SumRows(rows: seq<NeighborRow>, p: Pair, from: Time, until: Time): nat {
    if rows == [] then 0
    else
      var last := rows[|rows| - 1];
      SumRows(rows[..|rows| - 1], p, from, until) + (if Selects(last, p, from, until) then last.packets else 0)
  }

  predicate Selects(r: NeighborRow, p: Pair, from: Time, until: Time) {
    r.observer == p.observer && r.source == p.source && from <= r.bucket < until
  }

  function Alive(rows: seq<ObserverRow>, observer: Bytes, from: Time, until: Time): nat {
    if rows == [] then 0
    else
      var last := rows[|rows| - 1];
      Alive(rows[..|rows| - 1], observer, from, until)
      + (if last.observer == observer && from <= last.bucket < until then last.packets else 0)
  }

  /** The GROUP BY keys, each once. */
  function Pairs(rows: seq<NeighborRow>): (ps: seq<Pair>)
    ensures forall i, j :: 0 <= i < j < |ps| ==> ps[i] != ps[j]
  {
    if rows == [] then []
    else
      var ps, p := Pairs(rows[1..]), Pair(rows[0].observer, rows[0].source);
      if p in ps then ps else ps + [p]
  }

  /** The `baseline` CTE. A pair without rows in the window is no group of it. */
  function Baseline(d: ReceptionGap, rows: seq<NeighborRow>, t: Time, p: Pair): Option<real> {
    var n := CountRows(rows, p, t - d.recentWindow - d.baselineWindow, t - d.recentWindow);
    if n == 0 || n < d.minSamples then None
    else
      var baseline := SumRows(rows, p, t - d.recentWindow - d.baselineWindow, t - d.recentWindow) as real / n as real;
      if baseline < d.baselineMinPerMin then None else Some(baseline)
  }

  /** The query divides by every baseline, and fails if one of them is zero. */
  predicate DividesByZero(d: ReceptionGap, rows: seq<NeighborRow>, t: Time) {
    exists p :: p in Pairs(rows) && Baseline(d, rows, t, p) == Some(0.0)
  }

  function RateOf(d: ReceptionGap, rows: seq<NeighborRow>, t: Time, p: Pair): Option<Rate> {
    var baseline := Baseline(d, rows, t, p);
    if baseline.None? || baseline.value == 0.0 then None
    else
      var recent := SumRows(rows, p, t - d.recentWindow, t);
      Some(Rate(p, baseline.value, recent, recent as real / (baseline.value * Minutes(d.recentWindow))))
  }

  function Minutes(window: Duration): (m: real)
    ensures m > 0.0
  {
    window as real / MINUTE as real
  }

  function Rates(d: ReceptionGap, rows: seq<NeighborRow>, t: Time, ps: seq<Pair>): (rs: seq<Rate>)
    requires forall i, j :: 0 <= i < j < |ps| ==> ps[i] != ps[j]
    ensures forall i :: 0 <= i < |rs| ==> rs[i].pair in ps
    ensures Distinct(rs)
  {
    if ps == [] then []
    else
      var init, last := Rates(d, rows, t, ps[..|ps| - 1]), RateOf(d, rows, t, ps[|ps| - 1]);
      if last.Some? then init + [last.value] else init
  }

  predicate Distinct(rs: seq<Rate>) {
    forall i, j :: 0 <= i < j < |rs| ==> rs[i].pair != rs[j].pair
  }

  /** The peers' ratios: the same source, another observer. */
  function Peers(rs: seq<Rate>, p: Pair): seq<real> {
    if rs == [] then []
    else
      var init, r := Peers(rs[..|rs| - 1], p), rs[|rs| - 1];
      if r.pair.source == p.source && r.pair.observer != p.observer then init + [r.ratio] else init
  }

  function Insert(x: real, s: seq<real>): seq<real> {
    if s == [] then [x] else if x <= s[0] then [x] + s else [s[0]] + Insert(x, s[1..])
  }

  function Sort(s: seq<real>): (r: seq<real>)
    ensures |r| == |s|
  {
    if s == [] then [] else InsertLength(s[|s| - 1], Sort(s[..|s| - 1])); Insert(s[|s| - 1], Sort(s[..|s| - 1]))
  }

  /** percentile_cont(0.5): the middle value, or halfway between the middle two. */
  function Median(s: seq<real>): real
    requires s != []
  {
    var r, n := Sort(s), |s|;
    if n % 2 == 1 then r[n / 2] else r[n / 2 - 1] + (r[n / 2] - r[n / 2 - 1]) * 0.5
  }

  /** The final WHERE. A rate without peers has no row in peer_stats. */
  predicate Fires(d: ReceptionGap, rs: seq<Rate>, alive: nat, r: Rate) {
    var peers := Peers(rs, r.pair);
    && peers != []
    && |peers| >= d.minPeers
    && r.ratio < d.maxRecentFraction
    && Median(peers) >= d.minPeerFraction
    && alive > 0
  }

  /* ---------- what the numbers are ---------- */

  /** A pair's rows in a window, and their packets. */
  function InWindow(p: Pair, from: Time, until: Time): NeighborRow -> bool {
    (r: NeighborRow) => r.observer == p.observer && r.source == p.source && from <= r.bucket < until
  }

  function PacketsIn(p: Pair, from: Time, until: Time): NeighborRow -> int {
    (r: NeighborRow) => if r.observer == p.observer && r.source == p.source && from <= r.bucket < until then r.packets else 0
  }

  lemma {:induction false} CountsAndSums(rows: seq<NeighborRow>, p: Pair, from: Time, until: Time)
    ensures CountRows(rows, p, from, until) == |Positions(rows, InWindow(p, from, until))|
    ensures SumRows(rows, p, from, until) == Total(rows, PacketsIn(p, from, until))
  {
    if rows != [] {
      var init, last := rows[..|rows| - 1], rows[|rows| - 1];
      assert rows == init + [last];
      CountsAndSums(init, p, from, until);
      PositionsSnoc(init, last, InWindow(p, from, until));
    }
  }

  lemma {:induction false} CountedIsPaired(rows: seq<NeighborRow>, p: Pair, from: Time, until: Time)
    ensures CountRows(rows, p, from, until) > 0 ==> p in Pairs(rows)
  {
    if rows != [] {
      var first, rest := rows[0], rows[1..];
      PairsMembers(rows);
      if CountRows(rows, p, from, until) > 0 {
        CountsAndSums(rows, p, from, until);
        var i :| i in Positions(rows, InWindow(p, from, until));
        assert rows[i] in rows;
      }
    }
  }

  lemma {:induction false} PairsMembers(rows: seq<NeighborRow>)
    ensures forall r :: r in rows ==> Pair(r.observer, r.source) in Pairs(rows)
  {
    if rows != [] {
      PairsMembers(rows[1..]);
      assert rows == [rows[0]] + rows[1..];
    }
  }

  lemma {:induction false} RatesAre(d: ReceptionGap, rows: seq<NeighborRow>, t: Time, ps: seq<Pair>)
    requires forall i, j :: 0 <= i < j < |ps| ==> ps[i] != ps[j]
    ensures forall r :: r in Rates(d, rows, t, ps) <==> r.pair in ps && RateOf(d, rows, t, r.pair) == Some(r)
  {
    if ps != [] {
      var init, last := ps[..|ps| - 1], ps[|ps| - 1];
      assert ps == init + [last];
      RatesAre(d, rows, t, init);
    }
  }

  lemma Quotient(a: real, b: real)
    requires b != 0.0
    ensures a / b * b == a
  {}

  lemma RatioTimes(a: real, b: real, m: real)
    requires b > 0.0 && m > 0.0
    ensures a / (b * m) * b * m == a
  {
    assert b * m > 0.0;
    Quotient(a, b * m);
    assert a / (b * m) * b * m == a / (b * m) * (b * m);
  }

  /** The mean of n numbers with this total. */
  predicate Mean(b: real, n: nat, total: int) {
    b * n as real == total as real
  }

  lemma MeanOf(n: nat, total: nat)
    requires n > 0
    ensures Mean(total as real / n as real, n, total)
  {
    Quotient(total as real, n as real);
  }

  lemma MeanSign(b: real, n: nat, total: nat)
    requires n > 0 && Mean(b, n, total)
    ensures b >= 0.0 && (b == 0.0 <==> total == 0)
  {
    assert b < 0.0 ==> b * n as real < 0.0;
    assert b > 0.0 ==> b * n as real > 0.0;
  }

  lemma MeanAtFloor(b: real, n: nat, total: nat, floor: real)
    requires n > 0 && Mean(b, n, total)
    ensures b >= floor <==> total as real >= floor * n as real
  {
    assert (b - floor) * n as real == b * n as real - floor * n as real;
    Signs(b - floor, n as real);
  }

  lemma Signs(x: real, n: real)
    requires n > 0.0
    ensures x >= 0.0 <==> x * n >= 0.0
  {
    assert x < 0.0 ==> x * n < 0.0;
  }

  /** The rows of the baseline window. */
  function BaselineRows(d: ReceptionGap, rows: seq<NeighborRow>, t: Time, p: Pair): nat {
    CountRows(rows, p, t - d.recentWindow - d.baselineWindow, t - d.recentWindow)
  }

  function BaselinePackets(d: ReceptionGap, rows: seq<NeighborRow>, t: Time, p: Pair): nat {
    SumRows(rows, p, t - d.recentWindow - d.baselineWindow, t - d.recentWindow)
  }

  lemma BaselineIs(d: ReceptionGap, rows: seq<NeighborRow>, t: Time, p: Pair)
    ensures var n, total := BaselineRows(d, rows, t, p), BaselinePackets(d, rows, t, p);
            match Baseline(d, rows, t, p)
            case Some(b) => n > 0 && n >= d.minSamples && b >= d.baselineMinPerMin && Mean(b, n, total)
            case None => n == 0 || n < d.minSamples || total as real < d.baselineMinPerMin * n as real
  {
    var n, total := BaselineRows(d, rows, t, p), BaselinePackets(d, rows, t, p);
    if n > 0 {
      MeanOf(n, total);
      MeanAtFloor(total as real / n as real, n, total, d.baselineMinPerMin);
    }
  }

  /** A ratio in parts of what the baseline makes over the window. */
  predicate InParts(ratio: real, baseline: real, window: Duration, packets: int) {
    ratio * baseline * window as real == packets as real * MINUTE as real
  }

  lemma PartsOf(packets: nat, baseline: real, window: Duration)
    requires baseline > 0.0
    ensures InParts(packets as real / (baseline * Minutes(window)), baseline, window, packets)
  {
    var m := Minutes(window);
    var x := packets as real / (baseline * m);
    RatioTimes(packets as real, baseline, m);
    Quotient(window as real, MINUTE as real);
    assert m * MINUTE as real == window as real;
    TimesBoth(x * baseline, m, MINUTE as real);
  }

  lemma TimesBoth(a: real, b: real, c: real)
    ensures a * (b * c) == a * b * c
  {}

  lemma RateOfIs(d: ReceptionGap, rows: seq<NeighborRow>, t: Time, p: Pair, r: Rate)
    requires RateOf(d, rows, t, p) == Some(r)
    ensures r.pair == p && Baseline(d, rows, t, p) == Some(r.baseline) && r.baseline > 0.0
    ensures r.recent == SumRows(rows, p, t - d.recentWindow, t)
    ensures InParts(r.ratio, r.baseline, d.recentWindow, r.recent)
  {
    BaselineIs(d, rows, t, p);
    MeanSign(r.baseline, BaselineRows(d, rows, t, p), BaselinePackets(d, rows, t, p));
    PartsOf(r.recent, r.baseline, d.recentWindow);
  }

  lemma RateIsOf(d: ReceptionGap, rows: seq<NeighborRow>, t: Time, r: Rate)
    requires r in Rates(d, rows, t, Pairs(rows))
    ensures RateOf(d, rows, t, r.pair) == Some(r)
  {
    RatesAre(d, rows, t, Pairs(rows));
  }

  /** A rate's ratio is what the recent window holds, in parts of what the baseline
      makes over it. */
  lemma RatioMeaning(d: ReceptionGap, rows: seq<NeighborRow>, t: Time, r: Rate)
    requires r in Rates(d, rows, t, Pairs(rows))
    ensures r.baseline > 0.0 && r.recent == Total(rows, PacketsIn(r.pair, t - d.recentWindow, t))
    ensures r.ratio * r.baseline * d.recentWindow as real == r.recent as real * MINUTE as real
  {
    RateIsOf(d, rows, t, r);
    RatioIs(d, rows, t, r.pair, r);
  }

  /** Its baseline is the mean of the pair's rows in the baseline window. */
  lemma BaselineMeaning(d: ReceptionGap, rows: seq<NeighborRow>, t: Time, r: Rate)
    requires r in Rates(d, rows, t, Pairs(rows))
    ensures var recent := t - d.recentWindow;
            Mean(r.baseline, |Positions(rows, InWindow(r.pair, recent - d.baselineWindow, recent))|,
                 Total(rows, PacketsIn(r.pair, recent - d.baselineWindow, recent)))
  {
    RatedBaseline(d, rows, t, r);
    BaselineOf(d, rows, t, r.pair, r.baseline);
  }

  lemma RatedBaseline(d: ReceptionGap, rows: seq<NeighborRow>, t: Time, r: Rate)
    requires r in Rates(d, rows, t, Pairs(rows))
    ensures Baseline(d, rows, t, r.pair) == Some(r.baseline)
  {
    RateIsOf(d, rows, t, r);
  }

  lemma RatioIs(d: ReceptionGap, rows: seq<NeighborRow>, t: Time, p: Pair, r: Rate)
    requires RateOf(d, rows, t, p) == Some(r)
    ensures Baseline(d, rows, t, p) == Some(r.baseline) && r.baseline > 0.0 && r.pair == p
    ensures r.recent == Total(rows, PacketsIn(p, t - d.recentWindow, t))
    ensures r.ratio * r.baseline * d.recentWindow as real == r.recent as real * MINUTE as real
  {
    RateOfIs(d, rows, t, p, r);
    CountsAndSums(rows, p, t - d.recentWindow, t);
  }

  lemma BaselineOf(d: ReceptionGap, rows: seq<NeighborRow>, t: Time, p: Pair, b: real)
    requires Baseline(d, rows, t, p) == Some(b)
    ensures var recent := t - d.recentWindow;
            Mean(b, |Positions(rows, InWindow(p, recent - d.baselineWindow, recent))|,
                 Total(rows, PacketsIn(p, recent - d.baselineWindow, recent)))
  {
    BaselineIs(d, rows, t, p);
    BaselineCounts(d, rows, t, p);
  }

  lemma BaselineCounts(d: ReceptionGap, rows: seq<NeighborRow>, t: Time, p: Pair)
    ensures var recent := t - d.recentWindow;
            && BaselineRows(d, rows, t, p) == |Positions(rows, InWindow(p, recent - d.baselineWindow, recent))|
            && BaselinePackets(d, rows, t, p) == Total(rows, PacketsIn(p, recent - d.baselineWindow, recent))
  {
    CountsAndSums(rows, p, t - d.recentWindow - d.baselineWindow, t - d.recentWindow);
  }

  /** Enough rows, packets, and a mean at the floor. */
  predicate Enough(d: ReceptionGap, n: nat, total: int) {
    n >= d.minSamples && total > 0 && total as real >= d.baselineMinPerMin * n as real
  }

  lemma RateOfIff(d: ReceptionGap, rows: seq<NeighborRow>, t: Time, p: Pair)
    ensures RateOf(d, rows, t, p).Some? <==> Enough(d, BaselineRows(d, rows, t, p), BaselinePackets(d, rows, t, p))
  {
    var n, total := BaselineRows(d, rows, t, p), BaselinePackets(d, rows, t, p);
    BaselineIs(d, rows, t, p);
    SumNeedsRows(rows, p, t - d.recentWindow - d.baselineWindow, t - d.recentWindow);
    var b := Baseline(d, rows, t, p);
    if b.Some? {
      MeanSign(b.value, n, total);
      MeanAtFloor(b.value, n, total, d.baselineMinPerMin);
    }
  }

  /** Exactly the pairs with enough rows and a mean at the floor, and not zero, have a rate. */
  lemma RateIff(d: ReceptionGap, rows: seq<NeighborRow>, t: Time, p: Pair)
    ensures var recent := t - d.recentWindow;
            (exists r :: r in Rates(d, rows, t, Pairs(rows)) && r.pair == p)
            <==> Enough(d, |Positions(rows, InWindow(p, recent - d.baselineWindow, recent))|,
                        Total(rows, PacketsIn(p, recent - d.baselineWindow, recent)))
  {
    BaselineCounts(d, rows, t, p);
    RateOfIff(d, rows, t, p);
    RatedIff(d, rows, t, p);
  }

  lemma RatedIff(d: ReceptionGap, rows: seq<NeighborRow>, t: Time, p: Pair)
    ensures (exists r :: r in Rates(d, rows, t, Pairs(rows)) && r.pair == p) <==> RateOf(d, rows, t, p).Some?
  {
    RatesAre(d, rows, t, Pairs(rows));
    if RateOf(d, rows, t, p).Some? {
      RatedIsPaired(d, rows, t, p);
      assert RateOf(d, rows, t, p).value in Rates(d, rows, t, Pairs(rows));
    }
  }

  lemma RatedIsPaired(d: ReceptionGap, rows: seq<NeighborRow>, t: Time, p: Pair)
    requires RateOf(d, rows, t, p).Some?
    ensures RateOf(d, rows, t, p).value.pair == p && p in Pairs(rows)
  {
    BaselineIs(d, rows, t, p);
    CountedIsPaired(rows, p, t - d.recentWindow - d.baselineWindow, t - d.recentWindow);
  }

  lemma {:induction false} SumNeedsRows(rows: seq<NeighborRow>, p: Pair, from: Time, until: Time)
    ensures CountRows(rows, p, from, until) == 0 ==> SumRows(rows, p, from, until) == 0
  {
    if rows != [] {
      SumNeedsRows(rows[..|rows| - 1], p, from, until);
    }
  }

  lemma {:induction false} SteadyTotal(rows: seq<NeighborRow>, p: Pair, from: Time, until: Time, each: real)
    requires forall r :: r in rows && InWindow(p, from, until)(r) ==> r.packets as real == each
    ensures Mean(each, CountRows(rows, p, from, until), SumRows(rows, p, from, until))
  {
    if rows != [] {
      var init, last := rows[..|rows| - 1], rows[|rows| - 1];
      SteadyTotal(init, p, from, until, each);
      OneMore(each, CountRows(init, p, from, until));
      assert last in rows;
    }
  }

  lemma OneMore(each: real, n: nat)
    ensures each * (n + 1) as real == each * n as real + each
  {}

  /** An observer that hears a source at its baseline rate in every recent minute has ratio 1. */
  lemma SteadyRatio(d: ReceptionGap, rows: seq<NeighborRow>, t: Time, r: Rate)
    requires r in Rates(d, rows, t, Pairs(rows))
    requires forall x :: x in rows && InWindow(r.pair, t - d.recentWindow, t)(x) ==> x.packets as real == r.baseline
    requires |Positions(rows, InWindow(r.pair, t - d.recentWindow, t))| * MINUTE == d.recentWindow
    ensures r.ratio == 1.0
  {
    RateIsOf(d, rows, t, r);
    RateOfIs(d, rows, t, r.pair, r);
    CountsAndSums(rows, r.pair, t - d.recentWindow, t);
    SteadyTotal(rows, r.pair, t - d.recentWindow, t, r.baseline);
    SteadyIsOne(r.ratio, r.baseline, CountRows(rows, r.pair, t - d.recentWindow, t), d.recentWindow, r.recent);
  }

  lemma SteadyIsOne(ratio: real, baseline: real, n: nat, window: Duration, packets: nat)
    requires baseline > 0.0 && n * MINUTE == window
    requires Mean(baseline, n, packets) && InParts(ratio, baseline, window, packets)
    ensures ratio == 1.0
  {
    assert window as real == n as real * MINUTE as real;
    var w := window as real;
    calc {
      ratio * (baseline * w);
    == { TimesBoth(ratio, baseline, w); }
      packets as real * MINUTE as real;
    == { TimesBoth(baseline, n as real, MINUTE as real); }
      baseline * w;
    }
    assert baseline * w > 0.0;
    CancelFactor(ratio, baseline * w);
  }

  lemma CancelFactor(x: real, y: real)
    requires y > 0.0 && x * y == y
    ensures x == 1.0
  {
    assert (x - 1.0) * y == 0.0;
  }

  /* ---------- at most half of a source's observers fire ---------- */

  lemma {:induction false} InsertLength(x: real, s: seq<real>)
    ensures |Insert(x, s)| == |s| + 1
  {
    if s != [] && x > s[0] {
      InsertLength(x, s[1..]);
    }
  }

  predicate Sorted(s: seq<real>) {
    forall i, j :: 0 <= i < j < |s| ==> s[i] <= s[j]
  }

  lemma {:induction false} InsertPermutes(x: real, s: seq<real>)
    ensures multiset(Insert(x, s)) == multiset(s) + multiset{x}
  {
    if s != [] && x > s[0] {
      InsertPermutes(x, s[1..]);
      assert s == [s[0]] + s[1..];
    }
  }

  lemma {:induction false} InsertSorted(x: real, s: seq<real>)
    requires Sorted(s)
    ensures Sorted(Insert(x, s))
  {
    if s != [] && x > s[0] {
      InsertSorted(x, s[1..]);
      InsertPermutes(x, s[1..]);
      var tail := Insert(x, s[1..]);
      forall j | 0 <= j < |tail|
        ensures s[0] <= tail[j]
      {
        assert tail[j] in multiset(s[1..]) + multiset{x};
      }
    }
  }

  lemma {:induction false} SortSorted(s: seq<real>)
    ensures Sorted(Sort(s)) && multiset(Sort(s)) == multiset(s)
  {
    if s != [] {
      var init := s[..|s| - 1];
      assert s == init + [s[|s| - 1]];
      SortSorted(init);
      InsertSorted(s[|s| - 1], Sort(init));
      InsertPermutes(s[|s| - 1], Sort(init));
    }
  }

  /** How many values lie below a threshold. */
  function Below(s: seq<real>, limit: real): nat {
    if s == [] then 0 else Below(s[..|s| - 1], limit) + (if s[|s| - 1] < limit then 1 else 0)
  }

  lemma {:induction false} BelowConcat(a: seq<real>, b: seq<real>, limit: real)
    ensures Below(a + b, limit) == Below(a, limit) + Below(b, limit)
  {
    if b == [] {
      assert a + b == a;
    } else {
      assert (a + b)[..|a + b| - 1] == a + b[..|b| - 1];
      BelowConcat(a, b[..|b| - 1], limit);
    }
  }

  lemma {:induction false} InsertBelow(x: real, s: seq<real>, limit: real)
    ensures Below(Insert(x, s), limit) == Below(s, limit) + (if x < limit then 1 else 0)
  {
    assert Below([x], limit) == if x < limit then 1 else 0 by {
      assert [x][..0] == [];
    }
    if s == [] {
    } else if x <= s[0] {
      BelowConcat([x], s, limit);
    } else {
      InsertBelow(x, s[1..], limit);
      BelowConcat([s[0]], s[1..], limit);
      BelowConcat([s[0]], Insert(x, s[1..]), limit);
      assert s == [s[0]] + s[1..];
    }
  }

  lemma {:induction false} SortBelow(s: seq<real>, limit: real)
    ensures Below(Sort(s), limit) == Below(s, limit)
  {
    if s != [] {
      SortBelow(s[..|s| - 1], limit);
      InsertBelow(s[|s| - 1], Sort(s[..|s| - 1]), limit);
    }
  }

  /** In a sorted sequence nothing from the first value at the limit on is below it. */
  lemma {:induction false} BelowPrefix(s: seq<real>, limit: real, k: nat)
    requires Sorted(s) && k < |s| && s[k] >= limit
    ensures Below(s, limit) <= k
  {
    var n := |s| - 1;
    if k < n {
      BelowPrefix(s[..n], limit, k);
    } else {
      BelowAtMost(s[..n], limit);
    }
  }

  lemma {:induction false} BelowAtMost(s: seq<real>, limit: real)
    ensures Below(s, limit) <= |s|
  {
    if s != [] {
      BelowAtMost(s[..|s| - 1], limit);
    }
  }

  /** A median at or above a limit leaves at most half of the values below it. */
  lemma MedianBound(s: seq<real>, limit: real)
    requires s != [] && Median(s) >= limit
    ensures Below(s, limit) <= |s| / 2
  {
    SortSorted(s);
    SortBelow(s, limit);
    BelowPrefix(Sort(s), limit, |s| / 2);
  }

  lemma FirstIsLeast(a: seq<real>, x: real)
    requires Sorted(a) && x in multiset(a)
    ensures a != [] && a[0] <= x
  {
    assert x in a;
  }

  lemma TailOf(a: seq<real>)
    requires a != [] && Sorted(a)
    ensures Sorted(a[1..]) && multiset(a[1..]) == multiset(a) - multiset{a[0]}
  {
    assert a == [a[0]] + a[1..];
  }

  lemma SameTails(a: seq<real>, b: seq<real>)
    requires a != [] && b != [] && Sorted(a) && Sorted(b) && multiset(a) == multiset(b)
    ensures a[0] == b[0] && multiset(a[1..]) == multiset(b[1..]) && Sorted(a[1..]) && Sorted(b[1..])
  {
    assert a[0] in multiset(a) && b[0] in multiset(b);
    FirstIsLeast(a, b[0]);
    FirstIsLeast(b, a[0]);
    TailOf(a);
    TailOf(b);
  }

  /** Two ordered arrangements of the same numbers are the same. */
  lemma {:induction false} SortedOnce(a: seq<real>, b: seq<real>)
    requires Sorted(a) && Sorted(b) && multiset(a) == multiset(b)
    ensures a == b
    decreases |a|
  {
    assert |multiset(a)| == |a| && |multiset(b)| == |b|;
    if a != [] {
      SameTails(a, b);
      SortedOnce(a[1..], b[1..]);
      SameWhole(a, b);
    }
  }

  lemma SameWhole(a: seq<real>, b: seq<real>)
    requires a != [] && b != [] && a[0] == b[0] && a[1..] == b[1..]
    ensures a == b
  {
    assert a == [a[0]] + a[1..] && b == [b[0]] + b[1..];
  }

  /** The median is the middle of the ordered values, or halfway between the middle two. */
  lemma MedianIsMiddle(s: seq<real>, r: seq<real>)
    requires s != [] && Sorted(r) && multiset(r) == multiset(s)
    ensures |r| == |s|
    ensures |s| % 2 == 1 ==> Median(s) == r[|s| / 2]
    ensures |s| % 2 == 0 ==> 2.0 * Median(s) == r[|s| / 2 - 1] + r[|s| / 2]
  {
    SortSorted(s);
    SortedOnce(Sort(s), r);
  }

  /** A source's rates, and those of them that fire. */
  function OfSource(rs: seq<Rate>, source: Bytes): seq<Rate> {
    if rs == [] then []
    else
      var init, r := OfSource(rs[..|rs| - 1], source), rs[|rs| - 1];
      if r.pair.source == source then init + [r] else init
  }

  function Firing(d: ReceptionGap, rs: seq<Rate>, scan: Scan, t: Time, all: seq<Rate>): (f: seq<Rate>)
    ensures forall r :: r in f ==> r in rs && Fires(d, all, Heard(d, scan, t, r), r)
    ensures forall r :: r in rs && Fires(d, all, Heard(d, scan, t, r), r) ==> r in f
  {
    if rs == [] then []
    else
      var init, r := Firing(d, rs[..|rs| - 1], scan, t, all), rs[|rs| - 1];
      if Fires(d, all, Heard(d, scan, t, r), r) then init + [r] else init
  }

  /** The observer_alive CTE: what the observer heard of any source recently. */
  function Heard(d: ReceptionGap, scan: Scan, t: Time, r: Rate): nat {
    Alive(scan.observers, r.pair.observer, t - d.recentWindow, t)
  }

  function LowOf(rs: seq<Rate>, limit: real): nat {
    if rs == [] then 0 else LowOf(rs[..|rs| - 1], limit) + (if rs[|rs| - 1].ratio < limit then 1 else 0)
  }

  /** Either this rate or none of its pair. */
  predicate OneOf(rs: seq<Rate>, r: Rate) {
    r in rs || r.pair !in Keys(rs)
  }

  lemma OneOfInit(init: seq<Rate>, last: Rate, r: Rate)
    requires Distinct(init + [last]) && OneOf(init + [last], r)
    ensures Distinct(init) && OneOf(init, r)
    ensures last.pair == r.pair ==> last == r && r !in init
  {
    var rs := init + [last];
    assert rs[|init|] == last && forall i :: 0 <= i < |init| ==> rs[i] == init[i];
    assert last in rs && forall x :: x in init ==> x in rs && x.pair in Keys(rs) && x.pair != last.pair;
  }

  lemma {:induction false} PeersCounted(rs: seq<Rate>, r: Rate)
    requires Distinct(rs) && OneOf(rs, r)
    ensures |Peers(rs, r.pair)| + (if r in rs then 1 else 0) == |OfSource(rs, r.pair.source)|
  {
    if rs != [] {
      var init, last := rs[..|rs| - 1], rs[|rs| - 1];
      assert rs == init + [last];
      OneOfInit(init, last, r);
      PeersCounted(init, r);
    }
  }

  lemma {:induction false} PeersBelow(rs: seq<Rate>, r: Rate, limit: real)
    requires Distinct(rs) && OneOf(rs, r)
    ensures Below(Peers(rs, r.pair), limit) + (if r in rs && r.ratio < limit then 1 else 0) == LowOf(OfSource(rs, r.pair.source), limit)
  {
    if rs != [] {
      var init, last := rs[..|rs| - 1], rs[|rs| - 1];
      assert rs == init + [last];
      OneOfInit(init, last, r);
      PeersBelow(init, r, limit);
      BelowSnoc(Peers(init, r.pair), last.ratio, limit);
      LowSnoc(OfSource(init, r.pair.source), last, limit);
    }
  }

  lemma BelowSnoc(s: seq<real>, x: real, limit: real)
    ensures Below(s + [x], limit) == Below(s, limit) + (if x < limit then 1 else 0)
  {
    assert (s + [x])[..|s|] == s;
  }

  lemma LowSnoc(rs: seq<Rate>, r: Rate, limit: real)
    ensures LowOf(rs + [r], limit) == LowOf(rs, limit) + (if r.ratio < limit then 1 else 0)
  {
    assert (rs + [r])[..|rs|] == rs;
  }

  /** A rate's peers are all of its source's rates but itself. */
  lemma {:induction false} PeersAreTheOthers(rs: seq<Rate>, r: Rate, limit: real)
    requires Distinct(rs) && OneOf(rs, r)
    ensures var own := if r in rs then 1 else 0;
            && |Peers(rs, r.pair)| + own == |OfSource(rs, r.pair.source)|
            && Below(Peers(rs, r.pair), limit) + (if r.ratio < limit then own else 0)
               == LowOf(OfSource(rs, r.pair.source), limit)
  {
    PeersCounted(rs, r);
    PeersBelow(rs, r, limit);
  }

  function Keys(rs: seq<Rate>): set<Pair> {
    set r | r in rs :: r.pair
  }

  lemma {:induction false} FiringAreLow(d: ReceptionGap, rs: seq<Rate>, scan: Scan, t: Time, all: seq<Rate>)
    ensures |Firing(d, rs, scan, t, all)| <= LowOf(rs, d.maxRecentFraction) <= |rs|
  {
    if rs != [] {
      FiringAreLow(d, rs[..|rs| - 1], scan, t, all);
    }
  }

  lemma {:induction false} OfSourceMembers(rs: seq<Rate>, source: Bytes)
    ensures forall r :: r in OfSource(rs, source) <==> r in rs && r.pair.source == source
  {
    if rs != [] {
      assert rs == rs[..|rs| - 1] + [rs[|rs| - 1]];
      OfSourceMembers(rs[..|rs| - 1], source);
    }
  }

  /** At most half of a source's baselined observers, rounded up, fire at once,
      and never all of them, when no ratio counts as both low and healthy. */
  lemma AtMostHalfFire(d: ReceptionGap, scan: Scan, t: Time, source: Bytes)
    requires d.maxRecentFraction <= d.minPeerFraction
    ensures var rs := Rates(d, scan.neighbors, t, Pairs(scan.neighbors));
            var own := OfSource(rs, source);
            var f := Firing(d, own, scan, t, rs);
            && |f| <= (|own| + 1) / 2
            && (own != [] ==> |f| < |own|)
  {
    var rs := Rates(d, scan.neighbors, t, Pairs(scan.neighbors));
    var own := OfSource(rs, source);
    var f := Firing(d, own, scan, t, rs);
    if f != [] {
      var r := f[0];
      OfSourceMembers(rs, source);
      assert r in own && Fires(d, rs, Heard(d, scan, t, r), r);
      PeersAreTheOthers(rs, r, d.maxRecentFraction);
      MedianBound(Peers(rs, r.pair), d.maxRecentFraction);
      FiringAreLow(d, own, scan, t, rs);
    }
  }

  /** The registered thresholds are apart, so this holds of the detector that runs. */
  lemma RegisteredAtMostHalf(scan: Scan, t: Time, source: Bytes)
    ensures var rs := Rates(REGISTERED, scan.neighbors, t, Pairs(scan.neighbors));
            var own := OfSource(rs, source);
            own != [] ==> 2 * |Firing(REGISTERED, own, scan, t, rs)| <= |own| + 1
                          && |Firing(REGISTERED, own, scan, t, rs)| < |own|
  {
    AtMostHalfFire(REGISTERED, scan, t, source);
  }

  /* ---------- the detector ---------- */

  /** One finding per row of the query's result, about the row's observer. */
  function FindingsOf(d: ReceptionGap, rows: seq<Rate>): seq<Finding> {
    seq(|rows|, i requires 0 <= i < |rows| => Finding(Some(rows[i].pair.observer), d.severity))
  }

  /** A positive baseline floor, as the registered one, rules the failure out. */
  lemma FloorPreventsFailure(d: ReceptionGap, rows: seq<NeighborRow>, t: Time)
    requires d.baselineMinPerMin > 0.0
    ensures !DividesByZero(d, rows, t)
  {
    forall p | p in Pairs(rows)
      ensures Baseline(d, rows, t, p) != Some(0.0)
    {
      var baseline := Baseline(d, rows, t, p);
      assert baseline.Some? ==> baseline.value >= d.baselineMinPerMin;
    }
  }

  lemma {:induction false} AliveIff(rows: seq<ObserverRow>, observer: Bytes, from: Time, until: Time)
    ensures Alive(rows, observer, from, until) > 0
            <==> exists x :: x in rows && x.observer == observer && from <= x.bucket < until && x.packets > 0
  {
    if rows != [] {
      assert rows == rows[..|rows| - 1] + [rows[|rows| - 1]];
      AliveIff(rows[..|rows| - 1], observer, from, until);
    }
  }

  /** The observer heard something in the recent window. */
  predicate Lives(d: ReceptionGap, scan: Scan, t: Time, observer: Bytes) {
    exists x :: x in scan.observers && x.observer == observer && t - d.recentWindow <= x.bucket < t && x.packets > 0
  }

  /** A low ratio, among enough peers whose median is healthy. */
  predicate Stands(d: ReceptionGap, peers: seq<real>, ratio: real) {
    && peers != []
    && |peers| >= d.minPeers
    && ratio < d.maxRecentFraction
    && Median(peers) >= d.minPeerFraction
  }

  /** A rate is a gap if it stands out, and its observer is alive. */
  predicate Gap(d: ReceptionGap, scan: Scan, t: Time, r: Rate) {
    var rs := Rates(d, scan.neighbors, t, Pairs(scan.neighbors));
    r in rs && Stands(d, Peers(rs, r.pair), r.ratio) && Lives(d, scan, t, r.pair.observer)
  }

  lemma FiresIff(d: ReceptionGap, rs: seq<Rate>, scan: Scan, t: Time, r: Rate)
    ensures Fires(d, rs, Heard(d, scan, t, r), r) <==> Stands(d, Peers(rs, r.pair), r.ratio) && Lives(d, scan, t, r.pair.observer)
  {
    AliveIff(scan.observers, r.pair.observer, t - d.recentWindow, t);
  }

  lemma FiringIsGaps(d: ReceptionGap, scan: Scan, t: Time, r: Rate)
    ensures var rs := Rates(d, scan.neighbors, t, Pairs(scan.neighbors));
            r in Firing(d, rs, scan, t, rs) <==> Gap(d, scan, t, r)
  {
    FiresIff(d, Rates(d, scan.neighbors, t, Pairs(scan.neighbors)), scan, t, r);
  }

  lemma FindingsAre(d: ReceptionGap, rows: seq<Rate>, f: Finding)
    ensures f in FindingsOf(d, rows) <==> f.severity == d.severity && exists r :: r in rows && f.subject == Some(r.pair.observer)
  {
    if r :| r in rows && f == Finding(Some(r.pair.observer), d.severity) {
      var i :| 0 <= i < |rows| && rows[i] == r;
      assert FindingsOf(d, rows)[i] == f;
    }
  }

  /** Exactly the observers of the gaps are found, all with the detector's severity. */
  lemma FindingIff(d: ReceptionGap, scan: Scan, t: Time, f: Finding)
    ensures var rs := Rates(d, scan.neighbors, t, Pairs(scan.neighbors));
            f in FindingsOf(d, Firing(d, rs, scan, t, rs))
            <==> f.severity == d.severity && exists r :: Gap(d, scan, t, r) && f.subject == Some(r.pair.observer)
  {
    var rs := Rates(d, scan.neighbors, t, Pairs(scan.neighbors));
    FindingsAre(d, Firing(d, rs, scan, t, rs), f);
    forall r {
      FiringIsGaps(d, scan, t, r);
    }
  }

  function About(observer: Bytes): Finding -> bool {
    (f: Finding) => f.subject == Some(observer)
  }

  function GapsOf(d: ReceptionGap, scan: Scan, t: Time, observer: Bytes): Rate -> bool {
    (r: Rate) => Gap(d, scan, t, r) && r.pair.observer == observer
  }

  function FiresFor(d: ReceptionGap, scan: Scan, t: Time, all: seq<Rate>, observer: Bytes): Rate -> bool {
    (r: Rate) => Fires(d, all, Heard(d, scan, t, r), r) && r.pair.observer == observer
  }

  lemma {:induction false} FiringCount(d: ReceptionGap, rs: seq<Rate>, scan: Scan, t: Time, all: seq<Rate>, observer: Bytes)
    ensures |Positions(FindingsOf(d, Firing(d, rs, scan, t, all)), About(observer))| == |Positions(rs, FiresFor(d, scan, t, all, observer))|
  {
    if rs == [] {
      assert Positions(rs, FiresFor(d, scan, t, all, observer)) == {} && Positions(FindingsOf(d, []), About(observer)) == {};
    } else {
      var init, r := rs[..|rs| - 1], rs[|rs| - 1];
      assert rs == init + [r];
      FiringCount(d, init, scan, t, all, observer);
      PositionsSnoc(init, r, FiresFor(d, scan, t, all, observer));
      if Fires(d, all, Heard(d, scan, t, r), r) {
        OneMoreFinding(d, Firing(d, init, scan, t, all), r, observer);
      }
    }
  }

  lemma OneMoreFinding(d: ReceptionGap, rows: seq<Rate>, r: Rate, observer: Bytes)
    ensures |Positions(FindingsOf(d, rows + [r]), About(observer))|
         == |Positions(FindingsOf(d, rows), About(observer))| + if r.pair.observer == observer then 1 else 0
  {
    var f := Finding(Some(r.pair.observer), d.severity);
    assert FindingsOf(d, rows + [r]) == FindingsOf(d, rows) + [f];
    PositionsSnoc(FindingsOf(d, rows), f, About(observer));
  }

  /** An observer is found as often as it has gaps, one for each source. */
  lemma FindingsPerGap(d: ReceptionGap, scan: Scan, t: Time, observer: Bytes)
    ensures var rs := Rates(d, scan.neighbors, t, Pairs(scan.neighbors));
            |Positions(FindingsOf(d, Firing(d, rs, scan, t, rs)), About(observer))| == |Positions(rs, GapsOf(d, scan, t, observer))|
  {
    var rs := Rates(d, scan.neighbors, t, Pairs(scan.neighbors));
    FiringCount(d, rs, scan, t, rs, observer);
    forall r | r in rs
      ensures FiresFor(d, scan, t, rs, observer)(r) == GapsOf(d, scan, t, observer)(r)
    {
      FiresIff(d, rs, scan, t, r);
    }
    SamePositions(rs, FiresFor(d, scan, t, rs, observer), GapsOf(d, scan, t, observer));
  }

  method Run(d: ReceptionGap, scan: Scan, t: Time) returns (ok: bool, findings: seq<Finding>)
    ensures ok <==> !DividesByZero(d, scan.neighbors, t)
    ensures var rs := Rates(d, scan.neighbors, t, Pairs(scan.neighbors));
            findings == if ok then FindingsOf(d, Firing(d, rs, scan, t, rs)) else []
  {
    findings := [];
    ok := !DividesByZero(d, scan.neighbors, t);
    if !ok {
      return;
    }
    var rs := Rates(d, scan.neighbors, t, Pairs(scan.neighbors));
    var rows := Firing(d, rs, scan, t, rs);
    for i := 0 to |rows|
      invariant findings == FindingsOf(d, rows[..i])
    {
      findings := findings + [Finding(Some(rows[i].pair.observer), d.severity)];
    }
    assert rows[..|rows|] == rows;
  }
}
