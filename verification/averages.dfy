/** What a stored average is when only some packets of a bucket carry RSSI: before any
    reload the mean of the samples, to half a hundredth; after one, the mean in which
    the older samples weigh as much as the packets of the row they came from. */
module Averages {
  import opened Events
  import opened PacketObservationsStage
  import opened RollupCore
  import opened Projection
  import opened Invariants
  import opened Transparency
  import opened Accuracy
  import R = RollupObserverStage
  import B = RollupNeighborStage

  /* ---------- the samples ---------- */

  /** The packets of a bucket, and those of them that carry RSSI. */
  function InBucket(dur: Duration, k: R.Key): Event -> bool {
    (e: Event) => e.body.Packet? && e.observer == k.observer && k.bucket <= e.ts < k.bucket + dur
  }

  function Sampled(dur: Duration, k: R.Key): Event -> bool {
    (e: Event) => InBucket(dur, k)(e) && e.body.Packet? && e.body.packet.rssi.Some?
  }

  function Rssi(dur: Duration, k: R.Key): Event -> int {
    (e: Event) => if InBucket(dur, k)(e) && e.body.Packet? && e.body.packet.rssi.Some? then e.body.packet.rssi.value else 0
  }

  /** How many samples there are, and their total; after a reload the older ones count
      as often as the row had packets. */
  datatype Samples = Samples(n: nat, total: real)

  const NO_SAMPLES: Samples := Samples(0, 0.0)

  function More(w: Samples, n: nat, total: int): Samples {
    Samples(w.n + n, w.total + total as real)
  }

  function Weighed(w: Samples, packets: nat): Samples {
    if w.n == 0 then NO_SAMPLES else Samples(packets, w.total * packets as real / w.n as real)
  }

  /** What one more reload can add: half a hundredth from the column, and the truncation
      to a whole unit, spread over the packets. */
  function Wider(slack: real, packets: nat): real {
    if packets == 0 then slack else slack + 0.5 + 100.0 / packets as real
  }

  /** An accumulator's sum is within `slack` hundredths per sample. */
  predicate Near(c: Core, w: Samples, slack: real) {
    NearSum(c.n, c.sum, w, slack)
  }

  predicate NearSum(n: nat, sum: int, w: Samples, slack: real) {
    n == w.n && Within(100.0 * (sum as real - w.total), w.n, slack)
  }

  predicate Within(x: real, n: nat, slack: real) {
    -(n as real * slack) <= x <= n as real * slack
  }

  /** A row's average is there if there are samples, and within `slack` and a half
      hundredths of their mean. */
  predicate RowNear(row: CoreRow, w: Samples, slack: real) {
    && (row.avg.Some? <==> w.n > 0)
    && (row.avg.Some? ==> Within(row.avg.value as real * w.n as real - 100.0 * w.total, w.n, slack + 0.5))
  }

  lemma RealMono(a: real, b: real, c: real)
    requires a <= b && c >= 0.0
    ensures a * c <= b * c
  {
    assert (b - a) * c >= 0.0;
  }

  lemma WithinMore(x: real, n: nat, slack: real, m: nat, wider: real)
    requires Within(x, n, slack) && n <= m && 0.0 <= slack <= wider
    ensures Within(x, m, wider)
  {
    RealMono(n as real, m as real, slack);
    RealMono(slack, wider, m as real);
    assert m as real * slack == slack * m as real && m as real * wider == wider * m as real;
  }

  lemma NearMore(n: nat, sum: int, w: Samples, slack: real, m: nat, total: int)
    requires NearSum(n, sum, w, slack) && slack >= 0.0
    ensures NearSum(n + m, sum + total, More(w, m, total), slack)
  {
    WithinMore(100.0 * (sum as real - w.total), w.n, slack, w.n + m, slack);
  }

  lemma NearWrites(c: Core, w: Samples, slack: real)
    requires Near(c, w, slack)
    ensures RowNear(ToRow(c), w, slack)
  {
    if c.n > 0 {
      var avg := RoundDiv(100 * c.sum, c.n);
      RoundDivNear(100 * c.sum, c.n);
      HalfMore(avg as real * c.n as real - 100.0 * c.sum as real, 100.0 * (c.sum as real - w.total), c.n, slack);
    }
  }

  lemma HalfMore(x: real, y: real, n: nat, slack: real)
    requires Within(y, n, slack) && -(n as real) <= 2.0 * x <= n as real
    ensures Within(x + y, n, slack + 0.5)
  {
    assert n as real * (slack + 0.5) == n as real * slack + n as real * 0.5;
  }

  /** Scaling the samples of a row to its packets. */
  lemma Scales(avg: int, w: Samples, slack: real, packets: nat)
    requires w.n > 0 && slack >= 0.0 && Within(avg as real * w.n as real - 100.0 * w.total, w.n, slack + 0.5)
    ensures Within(avg as real * packets as real - 100.0 * Weighed(w, packets).total, packets, slack + 0.5)
  {
    var n, p := w.n as real, packets as real;
    var x, f := avg as real * n - 100.0 * w.total, p / n;
    assert f >= 0.0 && f * n == p;
    var total := w.total * p / n;
    assert total == w.total * f;
    assert avg as real * p == avg as real * (n * f);
    assert avg as real * p - 100.0 * total == x * f;
    assert x * f <= (n * (slack + 0.5)) * f;
    assert x * f >= -(n * (slack + 0.5)) * f;
    assert n * (slack + 0.5) * f == p * (slack + 0.5);
  }

  /** A reload under the exact accumulator of the batch. */
  lemma NearLoads(row: CoreRow, w: Samples, slack: real, c: Core)
    requires RowNear(row, w, slack) && slack >= 0.0 && (w.n > 0 ==> row.packets > 0)
    ensures Near(MergeRow(c, row), More(Weighed(w, row.packets), c.n, c.sum), Wider(slack, row.packets))
  {
    WiderIsMore(slack, row.packets);
    if w.n > 0 {
      var p, sum := row.packets, TruncDiv(row.avg.value * row.packets, 100);
      LoadedSum(row.avg.value, w, slack, p);
      NearMore(p, sum, Weighed(w, p), Wider(slack, p), c.n, c.sum);
    } else {
      NothingNear(Wider(slack, row.packets));
      NearMore(0, 0, NO_SAMPLES, Wider(slack, row.packets), c.n, c.sum);
    }
  }

  lemma NothingNear(slack: real)
    ensures NearSum(0, 0, NO_SAMPLES, slack)
  {}

  /** The sum that a reload makes of the row. */
  lemma LoadedSum(avg: int, w: Samples, slack: real, packets: nat)
    requires w.n > 0 && slack >= 0.0 && packets > 0 && Within(avg as real * w.n as real - 100.0 * w.total, w.n, slack + 0.5)
    ensures NearSum(packets, TruncDiv(avg * packets, 100), Weighed(w, packets), Wider(slack, packets))
  {
    TruncDivNear(avg * packets, 100);
    Scales(avg, w, slack, packets);
    assert (avg * packets) as real == avg as real * packets as real;
    Truncates(TruncDiv(avg * packets, 100), avg * packets, 100.0 * Weighed(w, packets).total, packets, slack);
  }

  lemma WiderIsMore(slack: real, packets: nat)
    requires slack >= 0.0
    ensures Wider(slack, packets) >= slack
  {}

  lemma Truncates(s: int, num: int, target: real, p: nat, slack: real)
    requires p > 0 && slack >= 0.0 && -100 < 100 * s - num < 100
    requires Within(num as real - target, p, slack + 0.5)
    ensures Within(100.0 * s as real - target, p, Wider(slack, p)) && Wider(slack, p) >= 0.0
  {
    assert p as real * (100.0 / p as real) == 100.0;
    assert p as real * (slack + 0.5 + 100.0 / p as real) == p as real * (slack + 0.5) + p as real * (100.0 / p as real);
  }

  /* ---------- one committed batch ---------- */

  /** The cached accumulator and the row, when the bucket's samples are `w`. */
  predicate NearOK(acc: Option<Core>, row: Option<CoreRow>, w: Samples, slack: real) {
    && slack >= 0.0
    && (acc.Some? ==> Near(acc.value, w, slack))
    && (row.Some? ==> RowNear(row.value, w, slack))
    && (row.None? ==> w == NO_SAMPLES)
  }

  function SamplesAfter(w: Samples, reload: bool, packets: nat, n: nat, total: int): Samples {
    More(if reload then Weighed(w, packets) else w, n, total)
  }

  function SlackAfter(slack: real, reload: bool, packets: nat): real {
    if reload then Wider(slack, packets) else slack
  }

  /** What memory holds of the bucket when the batch has been applied, and loaded. */
  function LoadedCore(acc: Option<Core>, row: Option<CoreRow>, applied: Core): Core {
    if acc.None? && row.Some? then MergeRow(applied, row.value) else applied
  }

  function PacketsOf(row: Option<CoreRow>): nat {
    if row.Some? then row.value.packets else 0
  }

  lemma NearBatch(acc: Option<Core>, row: Option<CoreRow>, applied: Core, w: Samples, slack: real, n: nat, total: int)
    requires NearOK(acc, row, w, slack) && (row.Some? ==> Ordered(row.value))
    requires applied.n == (if acc.Some? then acc.value.n else 0) + n && applied.sum == (if acc.Some? then acc.value.sum else 0) + total
    ensures var reload := acc.None? && row.Some?;
            var w', slack' := SamplesAfter(w, reload, PacketsOf(row), n, total), SlackAfter(slack, reload, PacketsOf(row));
            var c := LoadedCore(acc, row, applied);
            slack' >= 0.0 && Near(c, w', slack') && RowNear(ToRow(c), w', slack')
  {
    var reload := acc.None? && row.Some?;
    var w', slack' := SamplesAfter(w, reload, PacketsOf(row), n, total), SlackAfter(slack, reload, PacketsOf(row));
    if reload {
      NearLoads(row.value, w, slack, applied);
      WiderIsMore(slack, row.value.packets);
    } else if acc.Some? {
      NearMore(acc.value.n, acc.value.sum, w, slack, n, total);
    } else {
      NothingNear(slack);
      NearMore(0, 0, NO_SAMPLES, slack, n, total);
    }
    NearWrites(LoadedCore(acc, row, applied), w', slack');
  }

  /** A batch without packets of the bucket. */
  lemma NearSame(acc: Option<Core>, row: Option<CoreRow>, w: Samples, slack: real)
    requires NearOK(acc, row, w, slack)
    ensures NearOK(acc, row, SamplesAfter(w, false, PacketsOf(row), 0, 0), slack)
  {
    assert w.total + 0.0 == w.total;
  }

  /* ---------- observer rollups ---------- */

  function CoreOf(acc: Option<R.Accum>): Option<Core> {
    if acc.Some? then Some(acc.value.core) else None
  }

  function CoreRowOf(row: Option<R.Row>): Option<CoreRow> {
    if row.Some? then Some(row.value.core) else None
  }

  lemma {:induction false} ApplyAllAdds(dur: Duration, s: R.State, es: seq<Event>, k: R.Key)
    ensures var applied, exact := R.ApplyAll(dur, s, es), R.Fold(dur, es, k).core;
            k in applied ==>
              && applied[k].core.n == (if k in s then s[k].core.n else 0) + exact.n
              && applied[k].core.sum == (if k in s then s[k].core.sum else 0) + exact.sum
              && applied[k].loaded == (k in s && s[k].loaded)
  {
    if es != [] {
      ApplyAllAdds(dur, s, es[..|es| - 1], k);
      R.NothingApplied(dur, s, es[..|es| - 1], k);
    }
  }

  /** The bucket's samples in a batch, by position. */
  lemma {:induction false} FoldSamples(dur: Duration, es: seq<Event>, k: R.Key)
    requires Aligned(k.bucket, dur)
    ensures R.Fold(dur, es, k).core.n == |Positions(es, Sampled(dur, k))|
    ensures R.Fold(dur, es, k).core.sum == Total(es, Rssi(dur, k))
    ensures R.Fold(dur, es, k).core.packets == |Positions(es, InBucket(dur, k))|
  {
    if es == [] {
      assert Positions(es, Sampled(dur, k)) == {} && Positions(es, InBucket(dur, k)) == {};
    } else {
      var init, e := es[..|es| - 1], es[|es| - 1];
      assert es == init + [e];
      FoldSamples(dur, init, k);
      TruncateIsRange(e.ts, k.bucket, dur);
      PositionsSnoc(init, e, Sampled(dur, k));
      PositionsSnoc(init, e, InBucket(dur, k));
    }
  }

  /** The samples that the average of the bucket's row stands for, and how far it may be
      from their mean. Only what a commit rebuilds from the row is weighed anew. */
  function SamplesOf(cfg: Config, steps: seq<Step>, g: Grain, k: R.Key): (Samples, real) {
    if steps == [] then (NO_SAMPLES, 0.0)
    else
      var init := steps[..|steps| - 1];
      var (w, slack) := SamplesOf(cfg, init, g, k);
      match steps[|steps| - 1]
      case Batch(es, _) =>
        var s := Run(cfg, init);
        var reload := R.Reload(R.ApplyAll(Span(g), Cache(g, s.mem), es), Rows(g, s.tables), k) > 0;
        var packets := |Positions(Of(init).log, InBucket(Span(g), k))|;
        (SamplesAfter(w, reload, packets, |Positions(es, Sampled(Span(g), k))|, Total(es, Rssi(Span(g), k))),
         SlackAfter(slack, reload, packets))
      case Abort(_, _) => (w, slack)
      case Crash => (w, slack)
      case Reset => (NO_SAMPLES, 0.0)
  }

  predicate AverageOK(g: Grain, s: System, w: Samples, slack: real, k: R.Key) {
    && (k in Cache(g, s.mem) ==> !Cache(g, s.mem)[k].dirty)
    && NearOK(CoreOf(Get(Cache(g, s.mem), k)), CoreRowOf(Get(Rows(g, s.tables), k)), w, slack)
  }

  /** The bucket's accumulator between batches, and its row. */
  predicate Settled(s: R.State, row: Option<R.Row>, k: R.Key) {
    && (k in s ==> s[k].loaded && !s[k].dirty)
    && (row.Some? ==> Ordered(row.value.core))
  }

  /** A batch that does not make the flush write the bucket brings no packet of it. */
  predicate CleanIsEmpty(dur: Duration, s: R.State, es: seq<Event>, k: R.Key) {
    var applied := R.ApplyAll(dur, s, es);
    (k in applied && applied[k].dirty) || R.Fold(dur, es, k) == R.ZERO
  }

  lemma WrittenNear(a: R.Accum, acc: Option<Core>, row: Option<R.Row>, hist: set<Bytes>, w: Samples, slack: real)
    requires a.dirty && a.loaded == acc.Some? && slack >= 0.0
    requires var c := LoadedCore(acc, CoreRowOf(row), a.core);
             Near(c, w, slack) && RowNear(ToRow(c), w, slack)
    ensures NearOK(CoreOf(Some(R.Settle(a, row, hist).0)), CoreRowOf(R.Settle(a, row, hist).1), w, slack)
  {}

  lemma DirtyNear(dur: Duration, s: R.State, t: R.Table, po: seq<Observation>, es: seq<Event>, w: Samples, slack: real, k: R.Key)
    requires NearOK(CoreOf(Get(s, k)), CoreRowOf(Get(t, k)), w, slack) && Settled(s, Get(t, k), k)
    requires k in R.ApplyAll(dur, s, es) && R.ApplyAll(dur, s, es)[k].dirty
    ensures var applied, exact := R.ApplyAll(dur, s, es), R.Fold(dur, es, k).core;
            var reload, packets := R.Reload(applied, t, k) > 0, PacketsOf(CoreRowOf(Get(t, k)));
            var (a, row) := R.Settle(applied[k], Get(t, k), R.History(dur, po, k));
            NearOK(CoreOf(Some(a)), CoreRowOf(row), SamplesAfter(w, reload, packets, exact.n, exact.sum), SlackAfter(slack, reload, packets))
  {
    var applied, exact := R.ApplyAll(dur, s, es), R.Fold(dur, es, k).core;
    var acc, row := CoreOf(Get(s, k)), CoreRowOf(Get(t, k));
    var reload := acc.None? && row.Some?;
    ApplyAllAdds(dur, s, es, k);
    NearBatch(acc, row, applied[k].core, w, slack, exact.n, exact.sum);
    WrittenNear(applied[k], acc, Get(t, k), R.History(dur, po, k), SamplesAfter(w, reload, PacketsOf(row), exact.n, exact.sum),
                SlackAfter(slack, reload, PacketsOf(row)));
  }

  /** What a committed flush does to the bucket. */
  lemma FlushNear(dur: Duration, s: R.State, t: R.Table, po: seq<Observation>, es: seq<Event>, w: Samples, slack: real, k: R.Key)
    requires NearOK(CoreOf(Get(s, k)), CoreRowOf(Get(t, k)), w, slack) && Settled(s, Get(t, k), k) && CleanIsEmpty(dur, s, es, k) && AllWellTimed(es)
    ensures var applied, exact := R.ApplyAll(dur, s, es), R.Fold(dur, es, k).core;
            var reload, packets := R.Reload(applied, t, k) > 0, PacketsOf(CoreRowOf(Get(t, k)));
            NearOK(CoreOf(Get(R.FlushState(dur, applied, t, po), k)), CoreRowOf(Get(R.FlushTable(dur, applied, t, po), k)),
                   SamplesAfter(w, reload, packets, exact.n, exact.sum), SlackAfter(slack, reload, packets))
  {
    var applied := R.ApplyAll(dur, s, es);
    R.FlushAt(dur, applied, t, po, k);
    if k in applied && applied[k].dirty {
      DirtyNear(dur, s, t, po, es, w, slack, k);
    } else {
      NearSame(CoreOf(Get(s, k)), CoreRowOf(Get(t, k)), w, slack);
      CleanSettles(dur, s, t, po, es, k);
    }
  }

  /** A clean accumulator stays what it was. */
  lemma CleanSettles(dur: Duration, s: R.State, t: R.Table, po: seq<Observation>, es: seq<Event>, k: R.Key)
    requires Settled(s, Get(t, k), k) && AllWellTimed(es)
    requires var applied := R.ApplyAll(dur, s, es); k in applied ==> !applied[k].dirty
    ensures CoreOf(Get(R.FlushState(dur, R.ApplyAll(dur, s, es), t, po), k)) == CoreOf(Get(s, k))
  {
    UnchangedCore(dur, s, es, k);
    R.FlushAt(dur, R.ApplyAll(dur, s, es), t, po, k);
  }

  /** Only what has been applied makes an accumulator dirty, and no more. */
  lemma {:induction false} UnchangedCore(dur: Duration, s: R.State, es: seq<Event>, k: R.Key)
    requires AllWellTimed(es) && (k in s ==> s[k].loaded && !s[k].dirty)
    ensures var applied := R.ApplyAll(dur, s, es);
            k in applied && !applied[k].dirty ==> k in s && applied[k] == s[k]
    ensures k in s ==> k in R.ApplyAll(dur, s, es)
  {
    if es != [] {
      assert es == es[..|es| - 1] + [es[|es| - 1]] && WellTimed(es[|es| - 1]);
      UnchangedCore(dur, s, es[..|es| - 1], k);
    }
  }

  lemma KeptNear(dur: Duration, retention: Time, s: R.State, row: Option<CoreRow>, hwm: Time, w: Samples, slack: real, k: R.Key)
    requires NearOK(CoreOf(Get(s, k)), row, w, slack) && (k in s ==> !s[k].dirty)
    ensures var s' := R.Kept(dur, retention, s, hwm);
            NearOK(CoreOf(Get(s', k)), row, w, slack) && (k in s' ==> !s'[k].dirty)
  {}

  lemma SettledIs(cfg: Config, steps: seq<Step>, es: seq<Event>, w: Samples, slack: real, g: Grain, k: R.Key)
    requires Legal(steps) && NoAborts(steps) && AverageOK(g, Run(cfg, steps), w, slack, k) && AllWellTimed(es)
    ensures var s := Run(cfg, steps);
            && Settled(Cache(g, s.mem), Get(Rows(g, s.tables), k), k) && CleanIsEmpty(Span(g), Cache(g, s.mem), es, k)
            && (k in Rows(g, s.tables) ==> Rows(g, s.tables)[k].core.packets == R.Fold(Span(g), Of(steps).log, k).core.packets)
  {
    RunRollup(cfg, steps, g, k);
    LedgerOnce(cfg, steps, g, k);
    R.CleanIsNothing(Span(g), Cache(g, Run(cfg, steps).mem), LedgerOf(cfg, steps, g, k), es, k);
  }

  lemma AverageBatch(cfg: Config, s: System, es: seq<Event>, cursor: nat, w: Samples, slack: real, g: Grain, k: R.Key)
    requires AverageOK(g, s, w, slack, k) && AllWellTimed(es)
    requires Settled(Cache(g, s.mem), Get(Rows(g, s.tables), k), k) && CleanIsEmpty(Span(g), Cache(g, s.mem), es, k)
    ensures var exact := R.Fold(Span(g), es, k).core;
            var reload := R.Reload(R.ApplyAll(Span(g), Cache(g, s.mem), es), Rows(g, s.tables), k) > 0;
            var packets := PacketsOf(CoreRowOf(Get(Rows(g, s.tables), k)));
            AverageOK(g, Next(cfg, s, Batch(es, cursor)), SamplesAfter(w, reload, packets, exact.n, exact.sum), SlackAfter(slack, reload, packets), k)
  {
    var m, po, exact := Apply(s.mem, es), s.tables.observations, R.Fold(Span(g), es, k).core;
    var reload := R.Reload(Cache(g, m), Rows(g, s.tables), k) > 0;
    var packets := PacketsOf(CoreRowOf(Get(Rows(g, s.tables), k)));
    FlushNear(Span(g), Cache(g, s.mem), Rows(g, s.tables), po, es, w, slack, k);
    CommitRows(cfg, m, s.tables, cursor, HighWater(es), g);
    FlushCache(m, s.tables, g);
    KeptCache(cfg, FlushMemory(m, s.tables), HighWater(es), g);
    R.FlushIsClean(Span(g), Cache(g, m), Rows(g, s.tables), po, k);
    KeptNear(Span(g), Retention(g, cfg), R.FlushState(Span(g), Cache(g, m), Rows(g, s.tables), po),
             CoreRowOf(Get(R.FlushTable(Span(g), Cache(g, m), Rows(g, s.tables), po), k)), HighWater(es),
             SamplesAfter(w, reload, packets, exact.n, exact.sum), SlackAfter(slack, reload, packets), k);
  }

  lemma {:induction false} RunAverages(cfg: Config, steps: seq<Step>, g: Grain, k: R.Key)
    requires Legal(steps) && NoAborts(steps) && Aligned(k.bucket, Span(g))
    ensures var (w, slack) := SamplesOf(cfg, steps, g, k);
            AverageOK(g, Run(cfg, steps), w, slack, k)
  {
    if steps != [] {
      var init, step := steps[..|steps| - 1], steps[|steps| - 1];
      var (w, slack) := SamplesOf(cfg, init, g, k);
      RunAverages(cfg, init, g, k);
      if step.Batch? {
        SettledIs(cfg, init, step.events, w, slack, g, k);
        AverageBatch(cfg, Run(cfg, init), step.events, step.cursor, w, slack, g, k);
        FoldSamples(Span(g), step.events, k);
        FoldSamples(Span(g), Of(init).log, k);
        ReloadHasRow(cfg, init, step.events, g, k);
      }
    }
  }

  /** Only a bucket with a row is reloaded. */
  lemma ReloadHasRow(cfg: Config, steps: seq<Step>, es: seq<Event>, g: Grain, k: R.Key)
    ensures R.Reload(R.ApplyAll(Span(g), Cache(g, Run(cfg, steps).mem), es), Rows(g, Run(cfg, steps).tables), k) > 0
            ==> k in Rows(g, Run(cfg, steps).tables)
  {}

  /** The stored average of a bucket in any run without failed attempts, after any
      number of reloads, packets without RSSI allowed. */
  lemma AverageIsWeighted(cfg: Config, steps: seq<Step>, g: Grain, k: R.Key)
    requires Legal(steps) && NoAborts(steps) && Aligned(k.bucket, Span(g))
    ensures var rows, (w, slack) := Rows(g, Run(cfg, steps).tables), SamplesOf(cfg, steps, g, k);
            k in rows ==> RowNear(rows[k].core, w, slack)
  {
    RunAverages(cfg, steps, g, k);
  }

  /** The samples in a log, none weighed. */
  function LogSamples(log: seq<Event>, p: Event -> bool, f: Event -> int): Samples {
    Samples(|Positions(log, p)|, Total(log, f) as real)
  }

  lemma MoreLogSamples(log: seq<Event>, es: seq<Event>, p: Event -> bool, f: Event -> int)
    ensures More(LogSamples(log, p, f), |Positions(es, p)|, Total(es, f)) == LogSamples(log + es, p, f)
    ensures LogSamples([], p, f) == NO_SAMPLES
  {
    var none: seq<Event> := [];
    assert Positions(none, p) == {};
    Concat(log, es, p, f);
  }

  /** Without reloads the samples are the log's. */
  lemma {:induction false} UnreloadedSamples(cfg: Config, steps: seq<Step>, g: Grain, k: R.Key)
    requires Reloads(cfg, steps, g, k) == 0
    ensures SamplesOf(cfg, steps, g, k) == (LogSamples(Of(steps).log, Sampled(Span(g), k), Rssi(Span(g), k)), 0.0)
  {
    if steps == [] {
      MoreLogSamples([], [], Sampled(Span(g), k), Rssi(Span(g), k));
    } else {
      var init, step := steps[..|steps| - 1], steps[|steps| - 1];
      match step
      case Batch(es, _) =>
        UnreloadedSamples(cfg, init, g, k);
        MoreLogSamples(Of(init).log, es, Sampled(Span(g), k), Rssi(Span(g), k));
      case Abort(_, _) => UnreloadedSamples(cfg, init, g, k);
      case Crash => UnreloadedSamples(cfg, init, g, k);
      case Reset => MoreLogSamples([], [], Sampled(Span(g), k), Rssi(Span(g), k));
    }
  }

  /** The mean of n samples with this total, in hundredths and to the nearest; null
      without samples. */
  predicate IsMean(avg: Option<int>, n: nat, total: int) {
    && (avg.Some? <==> n > 0)
    && (avg.Some? ==> -1 * n <= 2 * (avg.value * n - 100 * total) <= n)
  }

  lemma NearIsMean(row: CoreRow, n: nat, total: int)
    requires RowNear(row, Samples(n, total as real), 0.0)
    ensures IsMean(row.avg, n, total)
  {
    if row.avg.Some? {
      assert row.avg.value as real * n as real == (row.avg.value * n) as real;
    }
  }

  /** The stored average of a bucket that was never reloaded is the mean of its RSSI
      samples, however many of its packets have none. */
  lemma AverageIsMean(cfg: Config, steps: seq<Step>, g: Grain, k: R.Key)
    requires Legal(steps) && NoAborts(steps) && Aligned(k.bucket, Span(g)) && Reloads(cfg, steps, g, k) == 0
    ensures var rows, log := Rows(g, Run(cfg, steps).tables), Of(steps).log;
            k in rows ==> IsMean(rows[k].core.avg, |Positions(log, Sampled(Span(g), k))|, Total(log, Rssi(Span(g), k)))
  {
    AverageIsWeighted(cfg, steps, g, k);
    UnreloadedSamples(cfg, steps, g, k);
    var rows, log := Rows(g, Run(cfg, steps).tables), Of(steps).log;
    if k in rows {
      NearIsMean(rows[k].core, |Positions(log, Sampled(Span(g), k))|, Total(log, Rssi(Span(g), k)));
    }
  }

  /* ---------- the neighbor rollup ---------- */

  function FromSource(k: B.Key): Event -> bool {
    (e: Event) => e.body.Packet? && e.observer == k.observer && e.body.packet.sourcePrefix == k.source != []
                  && k.bucket <= e.ts < k.bucket + MINUTE
  }

  function SampledFrom(k: B.Key): Event -> bool {
    (e: Event) => FromSource(k)(e) && e.body.Packet? && e.body.packet.rssi.Some?
  }

  function RssiFrom(k: B.Key): Event -> int {
    (e: Event) => if FromSource(k)(e) && e.body.Packet? && e.body.packet.rssi.Some? then e.body.packet.rssi.value else 0
  }

  function NeighborCore(acc: Option<B.Accum>): Option<Core> {
    if acc.Some? then Some(acc.value.core) else None
  }

  lemma {:induction false} NeighborAdds(s: B.State, es: seq<Event>, k: B.Key)
    requires k in s ==> s[k].loaded && !s[k].dirty
    ensures var applied, exact := B.ApplyAll(MINUTE, s, es), B.Fold(MINUTE, es, k);
            && (k in s ==> k in applied)
            && (k in applied ==>
                  && applied[k].core.n == (if k in s then s[k].core.n else 0) + exact.n
                  && applied[k].core.sum == (if k in s then s[k].core.sum else 0) + exact.sum
                  && applied[k].loaded == (k in s)
                  && (!applied[k].dirty ==> k in s && applied[k] == s[k]))
  {
    if es != [] {
      NeighborAdds(s, es[..|es| - 1], k);
      B.NothingApplied(MINUTE, s, es[..|es| - 1], k);
    }
  }

  lemma {:induction false} NeighborFoldSamples(es: seq<Event>, k: B.Key)
    requires Aligned(k.bucket, MINUTE)
    ensures B.Fold(MINUTE, es, k).n == |Positions(es, SampledFrom(k))|
    ensures B.Fold(MINUTE, es, k).sum == Total(es, RssiFrom(k))
    ensures B.Fold(MINUTE, es, k).packets == |Positions(es, FromSource(k))|
  {
    if es == [] {
      assert Positions(es, SampledFrom(k)) == {} && Positions(es, FromSource(k)) == {};
    } else {
      var init, e := es[..|es| - 1], es[|es| - 1];
      assert es == init + [e];
      NeighborFoldSamples(init, k);
      TruncateIsRange(e.ts, k.bucket, MINUTE);
      PositionsSnoc(init, e, SampledFrom(k));
      PositionsSnoc(init, e, FromSource(k));
    }
  }

  function NeighborSamplesOf(cfg: Config, steps: seq<Step>, k: B.Key): (Samples, real) {
    if steps == [] then (NO_SAMPLES, 0.0)
    else
      var init := steps[..|steps| - 1];
      var (w, slack) := NeighborSamplesOf(cfg, init, k);
      match steps[|steps| - 1]
      case Batch(es, _) =>
        var s := Run(cfg, init);
        var reload := B.Reload(B.ApplyAll(MINUTE, s.mem.neighbor, es), s.tables.neighbor, k) > 0;
        var packets := |Positions(Of(init).log, FromSource(k))|;
        (SamplesAfter(w, reload, packets, |Positions(es, SampledFrom(k))|, Total(es, RssiFrom(k))), SlackAfter(slack, reload, packets))
      case Abort(_, _) => (w, slack)
      case Crash => (w, slack)
      case Reset => (NO_SAMPLES, 0.0)
  }

  predicate NeighborAverageOK(s: System, w: Samples, slack: real, k: B.Key) {
    && (k in s.mem.neighbor ==> !s.mem.neighbor[k].dirty)
    && NearOK(NeighborCore(Get(s.mem.neighbor, k)), Get(s.tables.neighbor, k), w, slack)
  }

  predicate NeighborSettled(s: B.State, row: Option<CoreRow>, k: B.Key) {
    && (k in s ==> s[k].loaded && !s[k].dirty)
    && (row.Some? ==> Ordered(row.value))
  }

  predicate NeighborCleanIsEmpty(s: B.State, es: seq<Event>, k: B.Key) {
    var applied := B.ApplyAll(MINUTE, s, es);
    (k in applied && applied[k].dirty) || B.Fold(MINUTE, es, k) == EMPTY
  }

  lemma NeighborWritten(a: B.Accum, acc: Option<Core>, row: Option<CoreRow>, w: Samples, slack: real)
    requires a.dirty && a.loaded == acc.Some? && slack >= 0.0
    requires var c := LoadedCore(acc, row, a.core);
             Near(c, w, slack) && RowNear(ToRow(c), w, slack)
    ensures NearOK(NeighborCore(Some(B.Settle(a, row).0)), B.Settle(a, row).1, w, slack)
  {}

  lemma NeighborDirtyNear(s: B.State, t: B.Table, es: seq<Event>, w: Samples, slack: real, k: B.Key)
    requires NearOK(NeighborCore(Get(s, k)), Get(t, k), w, slack) && NeighborSettled(s, Get(t, k), k)
    requires k in B.ApplyAll(MINUTE, s, es) && B.ApplyAll(MINUTE, s, es)[k].dirty
    ensures var applied, exact := B.ApplyAll(MINUTE, s, es), B.Fold(MINUTE, es, k);
            var reload, packets := B.Reload(applied, t, k) > 0, PacketsOf(Get(t, k));
            var (a, row) := B.Settle(applied[k], Get(t, k));
            NearOK(NeighborCore(Some(a)), row, SamplesAfter(w, reload, packets, exact.n, exact.sum), SlackAfter(slack, reload, packets))
  {
    var applied, exact := B.ApplyAll(MINUTE, s, es), B.Fold(MINUTE, es, k);
    var acc, row := NeighborCore(Get(s, k)), Get(t, k);
    var reload := acc.None? && row.Some?;
    NeighborAdds(s, es, k);
    NearBatch(acc, row, applied[k].core, w, slack, exact.n, exact.sum);
    NeighborWritten(applied[k], acc, row, SamplesAfter(w, reload, PacketsOf(row), exact.n, exact.sum), SlackAfter(slack, reload, PacketsOf(row)));
  }

  lemma NeighborFlushNear(s: B.State, t: B.Table, es: seq<Event>, w: Samples, slack: real, k: B.Key)
    requires NearOK(NeighborCore(Get(s, k)), Get(t, k), w, slack)
    requires NeighborSettled(s, Get(t, k), k) && NeighborCleanIsEmpty(s, es, k)
    ensures var applied, exact := B.ApplyAll(MINUTE, s, es), B.Fold(MINUTE, es, k);
            var reload, packets := B.Reload(applied, t, k) > 0, PacketsOf(Get(t, k));
            NearOK(NeighborCore(Get(B.FlushState(applied, t), k)), Get(B.FlushTable(applied, t), k),
                   SamplesAfter(w, reload, packets, exact.n, exact.sum), SlackAfter(slack, reload, packets))
  {
    var applied := B.ApplyAll(MINUTE, s, es);
    B.FlushAt(applied, t, k);
    if k in applied && applied[k].dirty {
      NeighborDirtyNear(s, t, es, w, slack, k);
    } else {
      NearSame(NeighborCore(Get(s, k)), Get(t, k), w, slack);
      NeighborAdds(s, es, k);
    }
  }

  lemma NeighborKeptNear(retention: Time, s: B.State, row: Option<CoreRow>, hwm: Time, w: Samples, slack: real, k: B.Key)
    requires NearOK(NeighborCore(Get(s, k)), row, w, slack) && (k in s ==> !s[k].dirty)
    ensures var s' := B.Kept(MINUTE, retention, s, hwm);
            NearOK(NeighborCore(Get(s', k)), row, w, slack) && (k in s' ==> !s'[k].dirty)
  {}

  lemma NeighborSettledIs(cfg: Config, steps: seq<Step>, es: seq<Event>, w: Samples, slack: real, k: B.Key)
    requires Legal(steps) && NoAborts(steps) && NeighborAverageOK(Run(cfg, steps), w, slack, k)
    ensures var s := Run(cfg, steps);
            && NeighborSettled(s.mem.neighbor, Get(s.tables.neighbor, k), k) && NeighborCleanIsEmpty(s.mem.neighbor, es, k)
            && (k in s.tables.neighbor ==> s.tables.neighbor[k].packets == B.Fold(MINUTE, Of(steps).log, k).packets)
  {
    RunNeighbors(cfg, steps, k);
    NeighborLedgerOnce(cfg, steps, k);
    B.CleanIsNothing(MINUTE, Run(cfg, steps).mem.neighbor, NeighborLedgerOf(cfg, steps, k), es, k);
  }

  lemma NeighborAverageBatch(cfg: Config, s: System, es: seq<Event>, cursor: nat, w: Samples, slack: real, k: B.Key)
    requires NeighborAverageOK(s, w, slack, k)
    requires NeighborSettled(s.mem.neighbor, Get(s.tables.neighbor, k), k) && NeighborCleanIsEmpty(s.mem.neighbor, es, k)
    ensures var exact := B.Fold(MINUTE, es, k);
            var reload := B.Reload(B.ApplyAll(MINUTE, s.mem.neighbor, es), s.tables.neighbor, k) > 0;
            var packets := PacketsOf(Get(s.tables.neighbor, k));
            NeighborAverageOK(Next(cfg, s, Batch(es, cursor)), SamplesAfter(w, reload, packets, exact.n, exact.sum), SlackAfter(slack, reload, packets), k)
  {
    var m, t, exact := Apply(s.mem, es), s.tables.neighbor, B.Fold(MINUTE, es, k);
    var reload, packets := B.Reload(m.neighbor, t, k) > 0, PacketsOf(Get(t, k));
    NeighborFlushNear(s.mem.neighbor, t, es, w, slack, k);
    CommitNeighbors(cfg, m, s.tables, cursor, HighWater(es));
    KeptNeighbors(cfg, m, s.tables, HighWater(es));
    B.FlushAt(m.neighbor, t, k);
    NeighborKeptNear(cfg.neighbor, B.FlushState(m.neighbor, t), Get(B.FlushTable(m.neighbor, t), k), HighWater(es),
                     SamplesAfter(w, reload, packets, exact.n, exact.sum), SlackAfter(slack, reload, packets), k);
  }

  lemma {:induction false} RunNeighborAverages(cfg: Config, steps: seq<Step>, k: B.Key)
    requires Legal(steps) && NoAborts(steps) && Aligned(k.bucket, MINUTE)
    ensures var (w, slack) := NeighborSamplesOf(cfg, steps, k);
            NeighborAverageOK(Run(cfg, steps), w, slack, k)
  {
    if steps != [] {
      var init, step := steps[..|steps| - 1], steps[|steps| - 1];
      var (w, slack) := NeighborSamplesOf(cfg, init, k);
      RunNeighborAverages(cfg, init, k);
      if step.Batch? {
        NeighborSettledIs(cfg, init, step.events, w, slack, k);
        NeighborAverageBatch(cfg, Run(cfg, init), step.events, step.cursor, w, slack, k);
        NeighborFoldSamples(step.events, k);
        NeighborFoldSamples(Of(init).log, k);
      }
    }
  }

  lemma NeighborAverageIsWeighted(cfg: Config, steps: seq<Step>, k: B.Key)
    requires Legal(steps) && NoAborts(steps) && Aligned(k.bucket, MINUTE)
    ensures var rows, (w, slack) := Run(cfg, steps).tables.neighbor, NeighborSamplesOf(cfg, steps, k);
            k in rows ==> RowNear(rows[k], w, slack)
  {
    RunNeighborAverages(cfg, steps, k);
  }

  lemma {:induction false} UnreloadedNeighborSamples(cfg: Config, steps: seq<Step>, k: B.Key)
    requires NeighborReloads(cfg, steps, k) == 0
    ensures NeighborSamplesOf(cfg, steps, k) == (LogSamples(Of(steps).log, SampledFrom(k), RssiFrom(k)), 0.0)
  {
    if steps == [] {
      MoreLogSamples([], [], SampledFrom(k), RssiFrom(k));
    } else {
      var init, step := steps[..|steps| - 1], steps[|steps| - 1];
      match step
      case Batch(es, _) =>
        UnreloadedNeighborSamples(cfg, init, k);
        MoreLogSamples(Of(init).log, es, SampledFrom(k), RssiFrom(k));
      case Abort(_, _) => UnreloadedNeighborSamples(cfg, init, k);
      case Crash => UnreloadedNeighborSamples(cfg, init, k);
      case Reset => MoreLogSamples([], [], SampledFrom(k), RssiFrom(k));
    }
  }

  lemma NeighborAverageIsMean(cfg: Config, steps: seq<Step>, k: B.Key)
    requires Legal(steps) && NoAborts(steps) && Aligned(k.bucket, MINUTE) && NeighborReloads(cfg, steps, k) == 0
    ensures var rows, log := Run(cfg, steps).tables.neighbor, Of(steps).log;
            k in rows ==> IsMean(rows[k].avg, |Positions(log, SampledFrom(k))|, Total(log, RssiFrom(k)))
  {
    NeighborAverageIsWeighted(cfg, steps, k);
    UnreloadedNeighborSamples(cfg, steps, k);
    var rows, log := Run(cfg, steps).tables.neighbor, Of(steps).log;
    if k in rows {
      NearIsMean(rows[k], |Positions(log, SampledFrom(k))|, Total(log, RssiFrom(k)));
    }
  }
}
