/** Laws between tables, in every reachable state: they are all projections of
    the same absorbed events, but for rows that torn loads merged again. */
module Conservation {
  import opened Events
  import opened RollupCore
  import opened PacketObservationsStage
  import opened Projection
  import opened Invariants
  import opened Transparency
  import opened FailedAttempts
  import O = ObserversStage
  import S = ObserverStatusStage
  import U = PacketsUniqueStage
  import R = RollupObserverStage
  import B = RollupNeighborStage

  /* ---------- an hour is sixty minutes ---------- */

  predicate InRange(o: Bytes, from: Time, until: Time, e: Event) {
    e.body.Packet? && e.observer == o && from <= e.ts < until
  }

  /** The packets of an observer over a stretch of time. */
  function Stretch(es: seq<Event>, o: Bytes, from: Time, until: Time): R.Totals {
    if es == [] then R.ZERO
    else
      var t, e := Stretch(es[..|es| - 1], o, from, until), es[|es| - 1];
      if InRange(o, from, until, e) then R.Count(t, e.body.packet) else t
  }

  lemma {:induction false} BucketIsStretch(dur: Duration, es: seq<Event>, k: R.Key)
    requires Aligned(k.bucket, dur)
    ensures R.Fold(dur, es, k) == Stretch(es, k.observer, k.bucket, k.bucket + dur)
  {
    if es != [] {
      BucketIsStretch(dur, es[..|es| - 1], k);
      TruncateIsRange(es[|es| - 1].ts, k.bucket, dur);
    }
  }

  lemma {:induction false} CountSplit(c: Column, es: seq<Event>, o: Bytes, from: Time, mid: Time, until: Time)
    requires from <= mid <= until
    ensures Entry(c, Stretch(es, o, from, until)) == Entry(c, Stretch(es, o, from, mid)) + Entry(c, Stretch(es, o, mid, until))
  {
    if es != [] {
      CountSplit(c, es[..|es| - 1], o, from, mid, until);
    }
  }

  lemma {:induction false} HashesSplit(es: seq<Event>, o: Bytes, from: Time, mid: Time, until: Time)
    requires from <= mid <= until
    ensures Stretch(es, o, from, until).hashes == Stretch(es, o, from, mid).hashes + Stretch(es, o, mid, until).hashes
  {
    if es != [] {
      HashesSplit(es[..|es| - 1], o, from, mid, until);
    }
  }

  /** The start of the i-th bucket of size d from `start` on. */
  function Nth(d: Duration, start: Time, i: nat): Time {
    if i == 0 then start else Nth(d, start, i - 1) + d
  }

  function NthKey(d: Duration, o: Bytes, start: Time, i: nat): R.Key {
    R.Key(o, Nth(d, start, i))
  }

  /** The first n buckets from `start` on. */
  function Buckets(d: Duration, es: seq<Event>, o: Bytes, start: Time, n: nat): seq<R.Totals> {
    seq(n, i requires 0 <= i < n => R.Fold(d, es, NthKey(d, o, start, i)))
  }

  function Sum(ns: seq<nat>): nat {
    if ns == [] then 0 else Sum(ns[..|ns| - 1]) + ns[|ns| - 1]
  }

  /** One column of each. */
  function Each(c: Column, parts: seq<R.Totals>): seq<nat> {
    seq(|parts|, i requires 0 <= i < |parts| => Entry(c, parts[i]))
  }

  function Union(parts: seq<R.Totals>): set<Bytes> {
    if parts == [] then {} else Union(parts[..|parts| - 1]) + parts[|parts| - 1].hashes
  }

  lemma NextAligned(d: Duration, a: Time)
    requires Aligned(a, d)
    ensures Aligned(a + d, d)
  {
    assert d * (a / d + 1) == d * (a / d) + d;
    QuotientIs(a + d, a / d + 1, d);
  }

  lemma {:induction false} NthAligned(d: Duration, start: Time, i: nat)
    requires Aligned(start, d)
    ensures Aligned(Nth(d, start, i), d) && start <= Nth(d, start, i)
  {
    if i > 0 {
      NthAligned(d, start, i - 1);
      NextAligned(d, Nth(d, start, i - 1));
    }
  }

  /** Consecutive stretches, each of size d. */
  ghost predicate Tiles(d: Duration, es: seq<Event>, o: Bytes, start: Time, parts: seq<R.Totals>) {
    && (forall i :: 0 <= i < |parts| ==> parts[i] == Stretch(es, o, Nth(d, start, i), Nth(d, start, i) + d))
    && (forall i: nat :: i <= |parts| ==> start <= Nth(d, start, i))
  }

  lemma EachSnoc(c: Column, parts: seq<R.Totals>)
    requires parts != []
    ensures Sum(Each(c, parts)) == Sum(Each(c, parts[..|parts| - 1])) + Entry(c, parts[|parts| - 1])
  {
    assert Each(c, parts)[..|parts| - 1] == Each(c, parts[..|parts| - 1]);
  }

  lemma {:induction false} TilesSum(c: Column, d: Duration, es: seq<Event>, o: Bytes, start: Time, parts: seq<R.Totals>)
    requires Tiles(d, es, o, start, parts)
    ensures Sum(Each(c, parts)) == Entry(c, Stretch(es, o, start, Nth(d, start, |parts|)))
  {
    if parts == [] {
      EmptyStretch(es, o, start);
    } else {
      var n := |parts| - 1;
      TilesSum(c, d, es, o, start, parts[..n]);
      EachSnoc(c, parts);
      CountSplit(c, es, o, start, Nth(d, start, n), Nth(d, start, n) + d);
    }
  }

  lemma {:induction false} TilesUnion(d: Duration, es: seq<Event>, o: Bytes, start: Time, parts: seq<R.Totals>)
    requires Tiles(d, es, o, start, parts)
    ensures Union(parts) == Stretch(es, o, start, Nth(d, start, |parts|)).hashes
  {
    if parts == [] {
      EmptyStretch(es, o, start);
    } else {
      var n := |parts| - 1;
      TilesUnion(d, es, o, start, parts[..n]);
      HashesSplit(es, o, start, Nth(d, start, n), Nth(d, start, n) + d);
    }
  }

  lemma BucketsMakeStretch(c: Column, d: Duration, es: seq<Event>, o: Bytes, start: Time, n: nat)
    requires Aligned(start, d)
    ensures Sum(Each(c, Buckets(d, es, o, start, n))) == Entry(c, Stretch(es, o, start, Nth(d, start, n)))
    ensures Union(Buckets(d, es, o, start, n)) == Stretch(es, o, start, Nth(d, start, n)).hashes
  {
    var parts := Buckets(d, es, o, start, n);
    forall i: nat | i <= n
      ensures start <= Nth(d, start, i)
      ensures i < n ==> parts[i] == Stretch(es, o, Nth(d, start, i), Nth(d, start, i) + d)
    {
      NthAligned(d, start, i);
      BucketIsStretch(d, es, NthKey(d, o, start, i));
    }
    TilesSum(c, d, es, o, start, parts);
    TilesUnion(d, es, o, start, parts);
  }

  lemma {:induction false} EmptyStretch(es: seq<Event>, o: Bytes, start: Time)
    ensures Stretch(es, o, start, start) == R.ZERO
  {
    if es != [] {
      EmptyStretch(es[..|es| - 1], o, start);
    }
  }

  /** One column of the first n minute rows of an observer from `start` on. */
  function MinuteRows(c: Column, t: R.Table, o: Bytes, start: Time, n: nat): seq<nat> {
    seq(n, i requires 0 <= i < n => At(c, t, NthKey(MINUTE, o, start, i)))
  }

  /** What torn loads have added to them. */
  function MinuteExcess(cfg: Config, steps: seq<Step>, c: Column, o: Bytes, start: Time, n: nat): seq<nat> {
    seq(n, i requires 0 <= i < n => ExcessOf(cfg, steps, c, PerMinute, NthKey(MINUTE, o, start, i)).row)
  }

  lemma {:induction false} SumAdds(a: seq<nat>, b: seq<nat>, ab: seq<nat>)
    requires |a| == |b| == |ab| && forall i :: 0 <= i < |ab| ==> ab[i] == a[i] + b[i]
    ensures Sum(ab) == Sum(a) + Sum(b)
  {
    if ab != [] {
      SumAdds(a[..|a| - 1], b[..|b| - 1], ab[..|ab| - 1]);
    }
  }

  lemma MinutesAreBuckets(cfg: Config, steps: seq<Step>, c: Column, o: Bytes, start: Time, n: nat)
    requires Legal(steps)
    ensures Sum(MinuteRows(c, Run(cfg, steps).tables.minute, o, start, n))
         == Sum(Each(c, Buckets(MINUTE, Of(steps).absorbed, o, start, n))) + Sum(MinuteExcess(cfg, steps, c, o, start, n))
  {
    var rows, parts := MinuteRows(c, Run(cfg, steps).tables.minute, o, start, n), Each(c, Buckets(MINUTE, Of(steps).absorbed, o, start, n));
    var more := MinuteExcess(cfg, steps, c, o, start, n);
    forall i | 0 <= i < n
      ensures rows[i] == parts[i] + more[i]
    {
      RowIsAbsorbedAndExcess(cfg, steps, c, PerMinute, NthKey(MINUTE, o, start, i));
    }
    SumAdds(parts, more, rows);
  }

  lemma {:induction false} NthIsMultiple(start: Time, n: nat)
    ensures Nth(MINUTE, start, n) == start + n * MINUTE
  {
    if n > 0 {
      NthIsMultiple(start, n - 1);
    }
  }

  lemma HoursAreMinuteAligned(start: Time)
    requires Aligned(start, HOUR)
    ensures Aligned(start, MINUTE)
  {
    QuotientIs(start, 60 * (start / HOUR), MINUTE);
  }

  /** In every run the hour row and its sixty minute rows differ by what torn loads
      have added to each: they agree exactly when that is as much for the hour as
      for its minutes. */
  lemma HourIsSixtyMinutesIff(cfg: Config, steps: seq<Step>, c: Column, o: Bytes, start: Time)
    requires Legal(steps) && Aligned(start, HOUR)
    ensures At(c, Run(cfg, steps).tables.hour, R.Key(o, start)) == Sum(MinuteRows(c, Run(cfg, steps).tables.minute, o, start, 60))
            <==> ExcessOf(cfg, steps, c, PerHour, R.Key(o, start)).row == Sum(MinuteExcess(cfg, steps, c, o, start, 60))
  {
    RowIsAbsorbedAndExcess(cfg, steps, c, PerHour, R.Key(o, start));
    MinutesAreBuckets(cfg, steps, c, o, start, 60);
    HourOfMinutes(Of(steps).absorbed, c, o, start);
  }

  lemma {:induction false} SumPositive(ns: seq<nat>)
    ensures Sum(ns) > 0 <==> exists n :: n in ns && n > 0
  {
    if ns != [] {
      var init, last := ns[..|ns| - 1], ns[|ns| - 1];
      assert ns == init + [last];
      assert forall n :: n in ns <==> n in init || n == last;
      SumPositive(init);
      assert last in ns;
    }
  }

  /** Some minute row of the hour is doubled. */
  predicate MinuteDoubled(cfg: Config, steps: seq<Step>, o: Bytes, start: Time) {
    exists i :: 0 <= i < 60 && Doubled(cfg, steps, PerMinute, NthKey(MINUTE, o, start, i))
  }

  lemma MinuteDoubledIsExcess(cfg: Config, steps: seq<Step>, o: Bytes, start: Time)
    ensures MinuteDoubled(cfg, steps, o, start) <==> Sum(MinuteExcess(cfg, steps, Packets, o, start, 60)) > 0
  {
    var more := MinuteExcess(cfg, steps, Packets, o, start, 60);
    SumPositive(more);
    forall i | 0 <= i < 60
      ensures Doubled(cfg, steps, PerMinute, NthKey(MINUTE, o, start, i)) <==> more[i] > 0
    {
      DoubledIsExcess(cfg, steps, PerMinute, NthKey(MINUTE, o, start, i));
    }
    if n :| n in more && n > 0 {
      var i :| 0 <= i < 60 && more[i] == n;
      assert Doubled(cfg, steps, PerMinute, NthKey(MINUTE, o, start, i));
    }
    if i :| 0 <= i < 60 && Doubled(cfg, steps, PerMinute, NthKey(MINUTE, o, start, i)) {
      assert more[i] in more && more[i] > 0;
    }
  }

  /** The packets agree when neither the hour row nor a minute row is doubled, and do
      not when only the one or only the others are. */
  lemma HourAgreesUnlessDoubled(cfg: Config, steps: seq<Step>, o: Bytes, start: Time)
    requires Legal(steps) && Aligned(start, HOUR)
    ensures var agrees := At(Packets, Run(cfg, steps).tables.hour, R.Key(o, start))
                          == Sum(MinuteRows(Packets, Run(cfg, steps).tables.minute, o, start, 60));
            var hour, minute := Doubled(cfg, steps, PerHour, R.Key(o, start)), MinuteDoubled(cfg, steps, o, start);
            (!hour && !minute ==> agrees) && (hour != minute ==> !agrees)
  {
    HourIsSixtyMinutesIff(cfg, steps, Packets, o, start);
    DoubledIsExcess(cfg, steps, PerHour, R.Key(o, start));
    MinuteDoubledIsExcess(cfg, steps, o, start);
  }

  /** No attempt failed while an observer rollup was loading. */
  predicate NoTornLoads(steps: seq<Step>) {
    steps == [] || (NoTornLoads(steps[..|steps| - 1]) && !TearsLoad(steps[|steps| - 1]))
  }

  predicate TearsLoad(step: Step) {
    step.Abort? && (step.failure.flushed == 4 || step.failure.flushed == 5) && !step.failure.rollup.Writing?
  }

  lemma {:induction false} NoTearsNoExcess(cfg: Config, steps: seq<Step>, c: Column, g: Grain, k: R.Key)
    requires NoTornLoads(steps)
    ensures ExcessOf(cfg, steps, c, g, k) == Excess(0, 0)
  {
    if steps != [] {
      NoTearsNoExcess(cfg, steps[..|steps| - 1], c, g, k);
    }
  }

  lemma {:induction false} SumOfZeros(ns: seq<nat>)
    requires forall i :: 0 <= i < |ns| ==> ns[i] == 0
    ensures Sum(ns) == 0
  {
    if ns != [] {
      SumOfZeros(ns[..|ns| - 1]);
    }
  }

  /** The sixty minute rows of an observer-hour sum to its hour row in every run
      whose failed attempts, if any, did not stop while an observer rollup was
      loading; and the hour's hashes are the union of the minutes'. */
  lemma HourIsSixtyMinutes(cfg: Config, steps: seq<Step>, c: Column, o: Bytes, start: Time)
    requires Legal(steps) && Aligned(start, HOUR)
    ensures NoTornLoads(steps) ==>
              At(c, Run(cfg, steps).tables.hour, R.Key(o, start)) == Sum(MinuteRows(c, Run(cfg, steps).tables.minute, o, start, 60))
    ensures R.Fold(HOUR, Of(steps).log, R.Key(o, start)).hashes == Union(Buckets(MINUTE, Of(steps).log, o, start, 60))
  {
    HourOfMinutes(Of(steps).log, c, o, start);
    if NoTornLoads(steps) {
      NoTearsNoExcess(cfg, steps, c, PerHour, R.Key(o, start));
      var more := MinuteExcess(cfg, steps, c, o, start, 60);
      forall i | 0 <= i < 60
        ensures more[i] == 0
      {
        NoTearsNoExcess(cfg, steps, c, PerMinute, NthKey(MINUTE, o, start, i));
      }
      SumOfZeros(more);
      HourIsSixtyMinutesIff(cfg, steps, c, o, start);
    }
  }

  lemma {:induction false} CleanRunsTearNothing(steps: seq<Step>)
    requires NoAborts(steps)
    ensures NoTornLoads(steps)
  {
    if steps != [] {
      CleanRunsTearNothing(steps[..|steps| - 1]);
    }
  }

  /** Without failed attempts it does whatever the batches and restarts. */
  lemma HourIsSixtyMinutesClean(cfg: Config, steps: seq<Step>, c: Column, o: Bytes, start: Time)
    requires Legal(steps) && NoAborts(steps) && Aligned(start, HOUR)
    ensures At(c, Run(cfg, steps).tables.hour, R.Key(o, start)) == Sum(MinuteRows(c, Run(cfg, steps).tables.minute, o, start, 60))
  {
    CleanRunsTearNothing(steps);
    HourIsSixtyMinutes(cfg, steps, c, o, start);
  }

  /** Every failed attempt stopped before the hour rollup. */
  predicate StoppedBeforeHour(steps: seq<Step>) {
    forall s :: s in steps && s.Abort? ==> s.failure.flushed <= 4
  }

  lemma {:induction false} NoHourExcess(cfg: Config, steps: seq<Step>, c: Column, k: R.Key)
    requires StoppedBeforeHour(steps)
    ensures ExcessOf(cfg, steps, c, PerHour, k) == Excess(0, 0)
  {
    if steps != [] {
      NoHourExcess(cfg, steps[..|steps| - 1], c, k);
    }
  }

  lemma {:induction false} SumAtLeast(ns: seq<nat>, i: nat)
    requires i < |ns|
    ensures Sum(ns) >= ns[i]
  {
    if i < |ns| - 1 {
      SumAtLeast(ns[..|ns| - 1], i);
    }
  }

  /** A torn load of one minute: its row is doubled, the hour's is not. */
  lemma TornLoadBreaksHour(cfg: Config, a: seq<Event>, e: Event, o: Bytes, start: Time, i: nat)
    requires AllWellTimed(a) && WellTimed(e) && e.body.Status? && Aligned(start, HOUR) && i < 60
    requires R.Touches(MINUTE, NthKey(MINUTE, o, start, i), e) && Count(Packets, MINUTE, a, NthKey(MINUTE, o, start, i)) > 0
    ensures var steps := TornLoad(a, e, PerMinute);
            && Legal(steps)
            && At(Packets, Run(cfg, steps).tables.hour, R.Key(o, start)) != Sum(MinuteRows(Packets, Run(cfg, steps).tables.minute, o, start, 60))
  {
    TornLoadExcess(cfg, a, e, PerMinute, NthKey(MINUTE, o, start, i));
    TornBeforeHour(a, e);
    DoubledMinuteBreaksHour(cfg, TornLoad(a, e, PerMinute), o, start, i);
  }

  lemma TornBeforeHour(a: seq<Event>, e: Event)
    ensures StoppedBeforeHour(TornLoad(a, e, PerMinute))
  {}

  lemma DoubledMinuteBreaksHour(cfg: Config, steps: seq<Step>, o: Bytes, start: Time, i: nat)
    requires Legal(steps) && StoppedBeforeHour(steps) && Aligned(start, HOUR) && i < 60
    requires ExcessOf(cfg, steps, Packets, PerMinute, NthKey(MINUTE, o, start, i)).row > 0
    ensures At(Packets, Run(cfg, steps).tables.hour, R.Key(o, start)) != Sum(MinuteRows(Packets, Run(cfg, steps).tables.minute, o, start, 60))
  {
    NoHourExcess(cfg, steps, Packets, R.Key(o, start));
    SumAtLeast(MinuteExcess(cfg, steps, Packets, o, start, 60), i);
    HourIsSixtyMinutesIff(cfg, steps, Packets, o, start);
  }

  /** ... so unique_pkts of the hour is the number of distinct hashes of its minutes. */
  lemma HourUniqueIsUnion(cfg: Config, steps: seq<Step>, o: Bytes, start: Time)
    requires Legal(steps) && NoAborts(steps) && Aligned(start, HOUR)
    ensures var hour, k := Run(cfg, steps).tables.hour, R.Key(o, start);
            k in hour && !R.Poisoned(HOUR, Of(steps).log, k) ==>
              hour[k].unique == |Union(Buckets(MINUTE, Of(steps).log, o, start, 60))|
  {
    CacheTransparency(cfg, steps, PerHour, R.Key(o, start));
    HourOfMinutes(Of(steps).log, Packets, o, start);
  }

  lemma HourOfMinutes(es: seq<Event>, c: Column, o: Bytes, start: Time)
    requires Aligned(start, HOUR)
    ensures var hour := R.Fold(HOUR, es, R.Key(o, start));
            && Entry(c, hour) == Sum(Each(c, Buckets(MINUTE, es, o, start, 60)))
            && hour.hashes == Union(Buckets(MINUTE, es, o, start, 60))
  {
    HoursAreMinuteAligned(start);
    NthIsMultiple(start, 60);
    BucketsMakeStretch(c, MINUTE, es, o, start, 60);
    BucketIsStretch(HOUR, es, R.Key(o, start));
  }

  /* ---------- neighbors and their observer ---------- */

  ghost function SumOver(srcs: set<Bytes>, f: Bytes -> nat): nat {
    if srcs == {} then 0
    else
      var s :| s in srcs;
      f(s) + SumOver(srcs - {s}, f)
  }

  lemma {:induction false} SumOverPick(srcs: set<Bytes>, f: Bytes -> nat, s: Bytes)
    requires s in srcs
    ensures SumOver(srcs, f) == f(s) + SumOver(srcs - {s}, f)
    decreases |srcs|
  {
    var x :| x in srcs && SumOver(srcs, f) == f(x) + SumOver(srcs - {x}, f);
    if x != s {
      SumOverPick(srcs - {x}, f, s);
      SumOverPick(srcs - {s}, f, x);
      assert srcs - {x} - {s} == srcs - {s} - {x};
    }
  }

  lemma {:induction false} SumOverSame(srcs: set<Bytes>, f: Bytes -> nat, f': Bytes -> nat)
    requires forall s :: s in srcs ==> f(s) == f'(s)
    ensures SumOver(srcs, f) == SumOver(srcs, f')
    decreases |srcs|
  {
    if srcs != {} {
      var s :| s in srcs;
      SumOverPick(srcs, f, s);
      SumOverPick(srcs, f', s);
      SumOverSame(srcs - {s}, f, f');
    }
  }

  /** Packets of an observer-minute that name no source. */
  function Sourceless(es: seq<Event>, k: R.Key): nat {
    if es == [] then 0
    else
      var e := es[|es| - 1];
      Sourceless(es[..|es| - 1], k) + if R.Hits(MINUTE, k, e) && e.body.packet.sourcePrefix == [] then 1 else 0
  }

  ghost function FromSource(es: seq<Event>, k: R.Key): Bytes -> nat {
    s => B.Fold(MINUTE, es, B.Key(k.observer, s, k.bucket)).packets
  }

  lemma {:induction false} NeighborsAddUp(es: seq<Event>, k: R.Key, srcs: set<Bytes>)
    requires forall e :: e in es && e.body.Packet? ==> e.body.packet.sourcePrefix in srcs + {[]}
    ensures SumOver(srcs, FromSource(es, k)) + Sourceless(es, k) == R.Fold(MINUTE, es, k).core.packets
  {
    if es == [] {
      SumOverZero(srcs, FromSource(es, k));
    } else {
      var init, e := es[..|es| - 1], es[|es| - 1];
      assert es == init + [e];
      NeighborsAddUp(init, k, srcs);
      R.FoldSnoc(MINUTE, init, e, k);
      var f, f' := FromSource(init, k), FromSource(es, k);
      forall s
        ensures f'(s) == f(s) + if R.Hits(MINUTE, k, e) && e.body.packet.sourcePrefix == s != [] then 1 else 0
      {
        B.FoldSnoc(MINUTE, init, e, B.Key(k.observer, s, k.bucket));
      }
      if R.Hits(MINUTE, k, e) && e.body.packet.sourcePrefix != [] {
        var s := e.body.packet.sourcePrefix;
        SumOverPick(srcs, f, s);
        SumOverPick(srcs, f', s);
        SumOverSame(srcs - {s}, f, f');
      } else {
        SumOverSame(srcs, f, f');
      }
    }
  }

  lemma {:induction false} SumOverZero(srcs: set<Bytes>, f: Bytes -> nat)
    requires forall s :: s in srcs ==> f(s) == 0
    ensures SumOver(srcs, f) == 0
    decreases |srcs|
  {
    if srcs != {} {
      var s :| s in srcs;
      SumOverPick(srcs, f, s);
      SumOverZero(srcs - {s}, f);
    }
  }

  ghost function StoredFromSource(t: B.Table, k: R.Key): Bytes -> nat {
    s => NeighborAt(t, B.Key(k.observer, s, k.bucket))
  }

  ghost function ExcessFromSource(cfg: Config, steps: seq<Step>, k: R.Key): Bytes -> nat {
    s => NeighborExcessOf(cfg, steps, B.Key(k.observer, s, k.bucket)).row
  }

  lemma {:induction false} SumOverAdds(srcs: set<Bytes>, f: Bytes -> nat, g: Bytes -> nat, fg: Bytes -> nat)
    requires forall s :: s in srcs ==> fg(s) == f(s) + g(s)
    ensures SumOver(srcs, fg) == SumOver(srcs, f) + SumOver(srcs, g)
    decreases |srcs|
  {
    if srcs != {} {
      var s :| s in srcs;
      SumOverPick(srcs, f, s);
      SumOverPick(srcs, g, s);
      SumOverPick(srcs, fg, s);
      SumOverAdds(srcs - {s}, f, g, fg);
    }
  }

  /** Over any set of sources that includes the log's, an observer-minute's neighbor
      rows and its source-less packets make up its minute row exactly when torn
      loads have added as much to the neighbor rows as to the minute row. */
  lemma NeighborsAreTheMinuteIff(cfg: Config, steps: seq<Step>, k: R.Key, srcs: set<Bytes>)
    requires Legal(steps)
    requires forall e :: e in Of(steps).absorbed && e.body.Packet? ==> e.body.packet.sourcePrefix in srcs + {[]}
    ensures SumOver(srcs, StoredFromSource(Run(cfg, steps).tables.neighbor, k)) + Sourceless(Of(steps).absorbed, k)
            == At(Packets, Run(cfg, steps).tables.minute, k)
            <==> SumOver(srcs, ExcessFromSource(cfg, steps, k)) == ExcessOf(cfg, steps, Packets, PerMinute, k).row
  {
    var t, done := Run(cfg, steps).tables, Of(steps).absorbed;
    RowIsAbsorbedAndExcess(cfg, steps, Packets, PerMinute, k);
    NeighborsAddUp(done, k, srcs);
    forall s | s in srcs
      ensures StoredFromSource(t.neighbor, k)(s) == FromSource(done, k)(s) + ExcessFromSource(cfg, steps, k)(s)
    {
      NeighborIsAbsorbedAndExcess(cfg, steps, B.Key(k.observer, s, k.bucket));
    }
    SumOverAdds(srcs, FromSource(done, k), ExcessFromSource(cfg, steps, k), StoredFromSource(t.neighbor, k));
  }

  lemma {:induction false} SumOverPositive(srcs: set<Bytes>, f: Bytes -> nat)
    ensures SumOver(srcs, f) > 0 <==> exists s :: s in srcs && f(s) > 0
    decreases |srcs|
  {
    if srcs != {} {
      var s :| s in srcs;
      SumOverPick(srcs, f, s);
      SumOverPositive(srcs - {s}, f);
    }
  }

  predicate SomeNeighborDoubled(cfg: Config, steps: seq<Step>, k: R.Key, srcs: set<Bytes>) {
    exists s :: s in srcs && NeighborDoubled(cfg, steps, B.Key(k.observer, s, k.bucket))
  }

  /** They do when neither the minute row nor a neighbor row is doubled, and do not
      when only the one or only the others are. */
  lemma NeighborsAgreeUnlessDoubled(cfg: Config, steps: seq<Step>, k: R.Key, srcs: set<Bytes>)
    requires Legal(steps)
    requires forall e :: e in Of(steps).absorbed && e.body.Packet? ==> e.body.packet.sourcePrefix in srcs + {[]}
    ensures var agree := SumOver(srcs, StoredFromSource(Run(cfg, steps).tables.neighbor, k)) + Sourceless(Of(steps).absorbed, k)
                         == At(Packets, Run(cfg, steps).tables.minute, k);
            var minute, some := Doubled(cfg, steps, PerMinute, k), SomeNeighborDoubled(cfg, steps, k, srcs);
            (!minute && !some ==> agree) && (minute != some ==> !agree)
  {
    NeighborsAreTheMinuteIff(cfg, steps, k, srcs);
    DoubledIsExcess(cfg, steps, PerMinute, k);
    SumOverPositive(srcs, ExcessFromSource(cfg, steps, k));
    forall s | s in srcs
      ensures NeighborDoubled(cfg, steps, B.Key(k.observer, s, k.bucket)) <==> ExcessFromSource(cfg, steps, k)(s) > 0
    {
      NeighborDoubledIsExcess(cfg, steps, B.Key(k.observer, s, k.bucket));
    }
  }

  predicate NoTornNeighborLoads(steps: seq<Step>) {
    steps == [] || (NoTornNeighborLoads(steps[..|steps| - 1]) && !TearsNeighborLoad(steps[|steps| - 1]))
  }

  predicate TearsNeighborLoad(step: Step) {
    step.Abort? && step.failure.flushed == 6 && step.failure.neighbor.Merging?
  }

  lemma {:induction false} NoTearsNoNeighborExcess(cfg: Config, steps: seq<Step>, k: B.Key)
    requires NoTornNeighborLoads(steps)
    ensures NeighborExcessOf(cfg, steps, k) == Excess(0, 0)
  {
    if steps != [] {
      NoTearsNoNeighborExcess(cfg, steps[..|steps| - 1], k);
    }
  }

  /** ... so they do in every run whose failed attempts, if any, did not stop while a
      rollup was loading. */
  lemma NeighborsAreTheMinute(cfg: Config, steps: seq<Step>, k: R.Key, srcs: set<Bytes>)
    requires Legal(steps)
    requires forall e :: e in Of(steps).absorbed && e.body.Packet? ==> e.body.packet.sourcePrefix in srcs + {[]}
    ensures NoTornLoads(steps) && NoTornNeighborLoads(steps) ==>
              SumOver(srcs, StoredFromSource(Run(cfg, steps).tables.neighbor, k)) + Sourceless(Of(steps).absorbed, k)
              == At(Packets, Run(cfg, steps).tables.minute, k)
  {
    if NoTornLoads(steps) && NoTornNeighborLoads(steps) {
      NoTearsNoExcess(cfg, steps, Packets, PerMinute, k);
      forall s | s in srcs
        ensures ExcessFromSource(cfg, steps, k)(s) == 0
      {
        NoTearsNoNeighborExcess(cfg, steps, B.Key(k.observer, s, k.bucket));
      }
      SumOverZero(srcs, ExcessFromSource(cfg, steps, k));
      NeighborsAreTheMinuteIff(cfg, steps, k, srcs);
    }
  }

  /** The minute row that a torn load has doubled is more than its neighbor rows. */
  lemma TornLoadBreaksNeighbors(cfg: Config, a: seq<Event>, e: Event, k: R.Key, srcs: set<Bytes>)
    requires AllWellTimed(a) && WellTimed(e) && e.body.Status? && R.Touches(MINUTE, k, e) && Count(Packets, MINUTE, a, k) > 0
    requires forall x :: x in Of(TornLoad(a, e, PerMinute)).absorbed && x.body.Packet? ==> x.body.packet.sourcePrefix in srcs + {[]}
    ensures var steps := TornLoad(a, e, PerMinute);
            && Legal(steps)
            && SumOver(srcs, StoredFromSource(Run(cfg, steps).tables.neighbor, k)) + Sourceless(Of(steps).absorbed, k)
               != At(Packets, Run(cfg, steps).tables.minute, k)
  {
    TornLoadExcess(cfg, a, e, PerMinute, k);
    TornElsewhere(a, e);
    DoubledMinuteBreaksNeighbors(cfg, TornLoad(a, e, PerMinute), k, srcs);
  }

  lemma TornElsewhere(a: seq<Event>, e: Event)
    ensures NoTornNeighborLoads(TornLoad(a, e, PerMinute))
  {
    var none: seq<Step>, steps := [], [Batch(a, 1)] + [Crash];
    assert none + [Batch(a, 1)] == [Batch(a, 1)];
    NeighborTearsSnoc(none, Batch(a, 1));
    NeighborTearsSnoc([Batch(a, 1)], Crash);
    NeighborTearsSnoc(steps, Abort([e], LoadFailure(PerMinute)));
    NeighborTearsSnoc(steps + [Abort([e], LoadFailure(PerMinute))], Batch([e], 2));
  }

  lemma NeighborTearsSnoc(steps: seq<Step>, step: Step)
    ensures NoTornNeighborLoads(steps + [step]) <==> NoTornNeighborLoads(steps) && !TearsNeighborLoad(step)
  {
    assert (steps + [step])[..|steps|] == steps;
  }

  lemma DoubledMinuteBreaksNeighbors(cfg: Config, steps: seq<Step>, k: R.Key, srcs: set<Bytes>)
    requires Legal(steps) && NoTornNeighborLoads(steps) && ExcessOf(cfg, steps, Packets, PerMinute, k).row > 0
    requires forall x :: x in Of(steps).absorbed && x.body.Packet? ==> x.body.packet.sourcePrefix in srcs + {[]}
    ensures SumOver(srcs, StoredFromSource(Run(cfg, steps).tables.neighbor, k)) + Sourceless(Of(steps).absorbed, k)
            != At(Packets, Run(cfg, steps).tables.minute, k)
  {
    forall s | s in srcs
      ensures ExcessFromSource(cfg, steps, k)(s) == 0
    {
      NoTearsNoNeighborExcess(cfg, steps, B.Key(k.observer, s, k.bucket));
    }
    SumOverZero(srcs, ExcessFromSource(cfg, steps, k));
    NeighborsAreTheMinuteIff(cfg, steps, k, srcs);
  }

  lemma {:induction false} CleanRunsTearNoNeighbor(steps: seq<Step>)
    requires NoAborts(steps)
    ensures NoTornNeighborLoads(steps)
  {
    if steps != [] {
      CleanRunsTearNoNeighbor(steps[..|steps| - 1]);
    }
  }

  /** Without failed attempts they do whatever the batches and restarts. */
  lemma NeighborsAreTheMinuteClean(cfg: Config, steps: seq<Step>, k: R.Key, srcs: set<Bytes>)
    requires Legal(steps) && NoAborts(steps)
    requires forall e :: e in Of(steps).log && e.body.Packet? ==> e.body.packet.sourcePrefix in srcs + {[]}
    ensures SumOver(srcs, StoredFromSource(Run(cfg, steps).tables.neighbor, k)) + Sourceless(Of(steps).log, k)
            == At(Packets, Run(cfg, steps).tables.minute, k)
  {
    AbsorbedOnce(steps);
    CleanRunsTearNothing(steps);
    CleanRunsTearNoNeighbor(steps);
    NeighborsAreTheMinute(cfg, steps, k, srcs);
  }

  /* ---------- packets_unique and packet_observations, status and observers ---------- */

  /** packets_unique has a row exactly for the non-empty hashes observed, counting
      exactly the observers that packet_observations holds for each. */
  lemma UniqueMatchesObservations(cfg: Config, steps: seq<Step>, h: Bytes)
    requires Legal(steps)
    ensures var t := Run(cfg, steps).tables;
            && (h in t.unique <==> h != [] && exists o :: o in t.observations && o.packet.hash == Some(h))
            && (h in t.unique ==> t.unique[h].observerCount == |U.Heard(t.observations, h)|)
  {
    var t, hist := Run(cfg, steps).tables, Of(steps);
    RunUnique(cfg, steps);
    RunObservations(cfg, steps);
    RunCoherent(steps);
    assert U.Stored(Get(t.unique, h), hist.log, h);
    U.FoldObservers(hist.log, h);
    U.ObservedMembers(hist.absorbed);
    if h == [] {
      U.NoEmptyHash(hist.log);
    } else {
      U.HeardIsFold(hist.log, hist.absorbed, h);
      if h in t.unique {
        var e :| e in hist.log && U.Hits(h, e);
        assert e in hist.absorbed && Observation(e.ts, e.observer, e.body.packet) in t.observations;
      }
      forall o | o in t.observations && o.packet.hash == Some(h)
        ensures h in t.unique
      {
        var e :| e in hist.absorbed && e.body.Packet? && o == Observation(e.ts, e.observer, e.body.packet);
        assert e in hist.log && U.Hits(h, e);
      }
    }
  }

  /** Every observer_status row refers to an observers row. */
  lemma StatusHasObserver(cfg: Config, steps: seq<Step>, k: S.Key)
    requires Legal(steps)
    ensures k in Run(cfg, steps).tables.status ==> k.observer in Run(cfg, steps).tables.observers
  {
    var t, log := Run(cfg, steps).tables, Of(steps).log;
    RunStatus(cfg, steps);
    RunObservers(cfg, steps);
    assert Get(t.status, k) == S.First(S.Samples(log), k);
    assert Get(t.observers, k.observer) == O.Fold(log, k.observer);
    SampledIsFolded(log, k);
  }

  lemma {:induction false} SampledIsFolded(es: seq<Event>, k: S.Key)
    ensures S.First(S.Samples(es), k).Some? ==> O.Fold(es, k.observer).Some?
  {
    if es != [] {
      var init, e := es[..|es| - 1], es[|es| - 1];
      SampledIsFolded(init, k);
      if e.body.Status? {
        assert S.Samples(es)[..|S.Samples(es)| - 1] == S.Samples(init);
      }
    }
  }
}
