/** What the invariants say about the tables a reader sees: they are the
    one-pass projection of the log up to the cursor, where they are. */
module Transparency {
  import opened Events
  import opened RollupCore
  import opened PacketObservationsStage
  import opened Projection
  import opened Invariants
  import opened Readings
  import O = ObserversStage
  import S = ObserverStatusStage
  import N = NodesStage
  import U = PacketsUniqueStage
  import R = RollupObserverStage
  import B = RollupNeighborStage
  import A = AnomaliesStage

  predicate NoAborts(steps: seq<Step>) {
    steps == [] || (NoAborts(steps[..|steps| - 1]) && !steps[|steps| - 1].Abort?)
  }

  /** A run without failed attempts that has projected exactly this log. */
  predicate Projects(steps: seq<Step>, log: seq<Event>) {
    Legal(steps) && NoAborts(steps) && Of(steps).log == log
  }

  lemma {:induction false} AbsorbedOnce(steps: seq<Step>)
    requires NoAborts(steps)
    ensures Of(steps) == History(Of(steps).log, Of(steps).log, [], [])
  {
    if steps != [] {
      AbsorbedOnce(steps[..|steps| - 1]);
    }
  }

  /** Without failed attempts every row has counted the log, once, and memory no more. */
  lemma {:induction false} LedgerOnce(cfg: Config, steps: seq<Step>, g: Grain, k: R.Key)
    requires NoAborts(steps)
    ensures LedgerOf(cfg, steps, g, k) == Ledger(Of(steps).log, [])
  {
    if steps != [] {
      var init, step := steps[..|steps| - 1], steps[|steps| - 1];
      LedgerOnce(cfg, init, g, k);
      if step.Batch? {
        assert [] + step.events == step.events;
      }
    }
  }

  lemma {:induction false} NeighborLedgerOnce(cfg: Config, steps: seq<Step>, k: B.Key)
    requires NoAborts(steps)
    ensures NeighborLedgerOf(cfg, steps, k) == Ledger(Of(steps).log, [])
  {
    if steps != [] {
      var init, step := steps[..|steps| - 1], steps[|steps| - 1];
      NeighborLedgerOnce(cfg, init, k);
      if step.Batch? {
        assert [] + step.events == step.events;
      }
    }
  }

  /* ---------- observer rollups ---------- */

  /** Without failed attempts no commit loses anything. */
  lemma {:induction false} NothingLost(steps: seq<Step>, g: Grain, k: R.Key)
    requires NoAborts(steps)
    ensures !Lossy(steps, g, k) && LastCleaned(steps, g, k).None?
  {
    if steps != [] {
      NothingLost(steps[..|steps| - 1], g, k);
    }
  }

  /** Batching, eviction and restarts are invisible in the exact columns. */
  lemma CacheTransparency(cfg: Config, steps: seq<Step>, g: Grain, k: R.Key)
    requires Legal(steps) && NoAborts(steps)
    ensures var rows, log := Rows(g, Run(cfg, steps).tables), Of(steps).log;
            var exact := R.Fold(Span(g), log, k);
            && (k in rows <==> R.Touched(Span(g), log, k))
            && (k in rows ==> R.RowAgrees(rows[k], exact))
            && (k in rows && !R.Poisoned(Span(g), log, k) ==> rows[k].unique == |exact.hashes|)
            && (k in rows && R.ReloadSafe(Span(g), log, k) ==> rows[k].noiseFloor == R.Floor(R.Noise(Span(g), log, k)))
  {
    RunRollup(cfg, steps, g, k);
    NothingLost(steps, g, k);
    NothingIsMissing(cfg, steps, g, k);
    LedgerOnce(cfg, steps, g, k);
  }

  lemma NeighborTransparency(cfg: Config, steps: seq<Step>, k: B.Key)
    requires Legal(steps) && NoAborts(steps)
    ensures var rows, exact := Run(cfg, steps).tables.neighbor, B.Fold(MINUTE, Of(steps).log, k);
            && (k in rows <==> exact.packets > 0)
            && (k in rows ==> rows[k].packets == exact.packets && rows[k].lo == exact.lo && rows[k].hi == exact.hi)
  {
    RunNeighbors(cfg, steps, k);
    NeighborLedgerOnce(cfg, steps, k);
    B.FoldZero(MINUTE, Of(steps).log, k);
  }

  /** In every stored row of every run, failed attempts included, the RSSI
      columns are null together and min <= avg <= max. */
  lemma AverageBetween(cfg: Config, steps: seq<Step>)
    requires Legal(steps)
    ensures forall k :: k in Run(cfg, steps).tables.minute ==> Ordered(Run(cfg, steps).tables.minute[k].core)
    ensures forall k :: k in Run(cfg, steps).tables.hour ==> Ordered(Run(cfg, steps).tables.hour[k].core)
    ensures forall k :: k in Run(cfg, steps).tables.neighbor ==> Ordered(Run(cfg, steps).tables.neighbor[k])
  {
    forall k | k in Run(cfg, steps).tables.minute
      ensures Ordered(Run(cfg, steps).tables.minute[k].core)
    {
      RollupOrdered(cfg, steps, PerMinute, k);
    }
    forall k | k in Run(cfg, steps).tables.hour
      ensures Ordered(Run(cfg, steps).tables.hour[k].core)
    {
      RollupOrdered(cfg, steps, PerHour, k);
    }
    forall k | k in Run(cfg, steps).tables.neighbor
      ensures Ordered(Run(cfg, steps).tables.neighbor[k])
    {
      RunNeighbors(cfg, steps, k);
    }
  }

  lemma RollupOrdered(cfg: Config, steps: seq<Step>, g: Grain, k: R.Key)
    requires Legal(steps)
    ensures k in Rows(g, Run(cfg, steps).tables) ==> Ordered(Rows(g, Run(cfg, steps).tables)[k].core)
  {
    RunRollup(cfg, steps, g, k);
  }

  /** A failed attempt, wherever it stopped, does not make unique_pkts wrong: what
      is absorbed again are the same hashes. */
  lemma UniqueSurvivesFailures(cfg: Config, steps: seq<Step>, g: Grain, k: R.Key)
    requires Legal(steps) && !R.HasEmptyHash(Span(g), Of(steps).log, k)
    ensures var rows := Rows(g, Run(cfg, steps).tables);
            k in rows ==> rows[k].unique == |R.Fold(Span(g), Of(steps).log, k).hashes|
  {
    RunRollup(cfg, steps, g, k);
    SameEventsHash(Span(g), LedgerOf(cfg, steps, g, k).done, Of(steps).log, k);
  }

  lemma SameEventsHash(dur: Duration, done: seq<Event>, log: seq<Event>, k: R.Key)
    requires forall e :: e in done <==> e in log
    ensures R.Fold(dur, done, k).hashes == R.Fold(dur, log, k).hashes
    ensures R.Poisoned(dur, done, k) ==> R.HasEmptyHash(dur, log, k)
  {
    R.FoldHashes(dur, done, k);
    R.FoldHashes(dur, log, k);
    if R.Poisoned(dur, done, k) {
      var i, j :| 0 <= i < j < |done| && R.EmptyHashed(dur, k, done[i]) && R.Touches(dur, k, done[j]);
      assert done[i] in log;
    }
  }

  /* ---------- between batches the caches are settled ---------- */

  /** After a batch with events, retried or not, the cache holds exactly the buckets it
      held or the batch touches that lie within the retention window, and every
      accumulator has merged its history and is written. */
  lemma CacheIsSettled(cfg: Config, steps: seq<Step>, es: seq<Event>, cursor: nat, g: Grain, k: R.Key)
    requires Legal(steps + [Batch(es, cursor)]) && es != []
    ensures var cache := Cache(g, Run(cfg, steps + [Batch(es, cursor)]).mem);
            && (k in cache <==> (k in Cache(g, Run(cfg, steps).mem) || R.Touched(Span(g), es, k))
                                && k.bucket + Span(g) >= HighWater(es) - Retention(g, cfg))
            && (k in cache ==> cache[k].loaded && !cache[k].dirty)
  {
    SnocLegal(cfg, steps, es, cursor);
    RunRollup(cfg, steps, g, k);
    var s, l := Run(cfg, steps), LedgerOf(cfg, steps, g, k);
    var m := Apply(s.mem, es);
    R.ApplyAllKeepsCached(Span(g), Cache(g, s.mem), es, l, [], k);
    R.AppliedKeys(Span(g), Cache(g, s.mem), es, k);
    FlushCache(m, s.tables, g);
    KeptCache(cfg, FlushMemory(m, s.tables), HighWater(es), g);
    R.FlushIsClean(Span(g), Cache(g, m), Rows(g, s.tables), s.tables.observations, k);
    if k in Cache(g, m) {
      R.FlushSettles(Span(g), Cache(g, m), Rows(g, s.tables), s.tables.observations, Tried(l, es, false), es, k);
    }
  }

  lemma SnocLegal(cfg: Config, steps: seq<Step>, es: seq<Event>, cursor: nat)
    requires Legal(steps + [Batch(es, cursor)]) && es != []
    ensures Legal(steps) && Allowed(Of(steps), Batch(es, cursor)) && HighWater(es) != 0
    ensures Run(cfg, steps + [Batch(es, cursor)]).mem
         == Kept(cfg, FlushMemory(Apply(Run(cfg, steps).mem, es), Run(cfg, steps).tables), HighWater(es))
  {
    Snoc(cfg, steps, Batch(es, cursor));
    HighWaterSet(es);
  }

  lemma NeighborIsSettled(cfg: Config, steps: seq<Step>, es: seq<Event>, cursor: nat, k: B.Key)
    requires Legal(steps + [Batch(es, cursor)]) && es != []
    ensures var cache := Run(cfg, steps + [Batch(es, cursor)]).mem.neighbor;
            && (k in cache <==> (k in Run(cfg, steps).mem.neighbor || exists e :: e in es && B.Hits(MINUTE, k, e))
                                && k.bucket + MINUTE >= HighWater(es) - cfg.neighbor)
            && (k in cache ==> cache[k].loaded && !cache[k].dirty)
  {
    SnocLegal(cfg, steps, es, cursor);
    RunNeighbors(cfg, steps, k);
    var s, l := Run(cfg, steps), NeighborLedgerOf(cfg, steps, k);
    var m := Apply(s.mem, es);
    B.ApplyAllKeepsCached(MINUTE, s.mem.neighbor, es, l, [], k);
    B.AppliedKeys(MINUTE, s.mem.neighbor, es, k);
    KeptNeighbors(cfg, m, s.tables, HighWater(es));
    B.FlushAt(m.neighbor, s.tables.neighbor, k);
    if k in m.neighbor {
      B.FlushSettles(MINUTE, m.neighbor, s.tables.neighbor, Tried(l, es, false), es, k);
    }
  }

  /** The entries of packets_unique are those last seen within the retention window. */
  lemma UniqueIsSettled(cfg: Config, steps: seq<Step>, es: seq<Event>, cursor: nat, h: Bytes)
    requires Legal(steps + [Batch(es, cursor)]) && es != []
    ensures var before, cache := Run(cfg, steps).mem.unique, Run(cfg, steps + [Batch(es, cursor)]).mem.unique;
            && (h in cache <==> (h in before && before[h].sum.lastSeen >= HighWater(es) - cfg.unique)
                                || exists e :: e in es && U.Hits(h, e) && e.ts >= HighWater(es) - cfg.unique)
            && (h in cache ==> cache[h].loaded && !cache[h].dirty)
  {
    SnocLegal(cfg, steps, es, cursor);
    RunUnique(cfg, steps);
    RunObservations(cfg, steps);
    RunCoherent(steps);
    var s, hist := Run(cfg, steps), Of(steps);
    assert U.Cached(Get(s.mem.unique, h), hist.log, hist.last, h) && U.Stored(Get(s.tables.unique, h), hist.log, h);
    U.CommitKeeps(cfg.unique, s.mem.unique, s.tables.unique, s.tables.observations, hist.log, hist.absorbed, hist.last, es, HighWater(es), h);
    UniqueKeptIff(cfg, s, es, h);
    RecentIff(s.mem.unique, es, HighWater(es) - cfg.unique, h);
  }

  lemma UniqueKeptIff(cfg: Config, s: System, es: seq<Event>, h: Bytes)
    requires HighWater(es) != 0
    ensures var applied := U.ApplyAll(s.mem.unique, es);
            h in Kept(cfg, FlushMemory(Apply(s.mem, es), s.tables), HighWater(es)).unique
            <==> h in applied && applied[h].sum.lastSeen >= HighWater(es) - cfg.unique
  {
    U.FlushAt(U.ApplyAll(s.mem.unique, es), s.tables.unique, s.tables.observations, h);
  }

  /** An entry is recent after a batch if it was before, or if one of the batch is. */
  lemma RecentIff(before: U.State, es: seq<Event>, cutoff: Time, h: Bytes)
    ensures var applied := U.ApplyAll(before, es);
            h in applied && applied[h].sum.lastSeen >= cutoff
            <==> (h in before && before[h].sum.lastSeen >= cutoff) || exists e :: e in es && U.Hits(h, e) && e.ts >= cutoff
  {
    U.ApplyAllAppends(before, es, h);
    U.FoldTimes(es, h);
  }

  /* ---------- where the exact columns go wrong, and only there ---------- */

  /** A log projected in two batches with a restart in between. */
  function Restarted(a: seq<Event>, b: seq<Event>): seq<Step> {
    [Batch(a, 1), Crash, Batch(b, 2)]
  }

  lemma NoAbortsSnoc(steps: seq<Step>, step: Step)
    ensures NoAborts(steps + [step]) <==> NoAborts(steps) && !step.Abort?
  {
    assert (steps + [step])[..|steps|] == steps;
  }

  lemma RestartedRun(cfg: Config, a: seq<Event>, b: seq<Event>)
    requires AllWellTimed(a) && AllWellTimed(b)
    ensures Projects([Batch(a, 1)], a) && Projects(Restarted(a, b), a + b)
    ensures Run(cfg, Restarted(a, b)).tables
         == FlushTables(cfg, Apply(NO_MEMORY, b), Run(cfg, [Batch(a, 1)]).tables, 2)
  {
    var one, two := [Batch(a, 1)], [Batch(a, 1), Crash];
    assert [] + [Batch(a, 1)] == one && one + [Crash] == two && two + [Batch(b, 2)] == Restarted(a, b);
    assert [] + a == a;
    Snoc(cfg, [], Batch(a, 1));
    NoAbortsSnoc([], Batch(a, 1));
    Snoc(cfg, one, Crash);
    NoAbortsSnoc(one, Crash);
    Snoc(cfg, two, Batch(b, 2));
    NoAbortsSnoc(two, Batch(b, 2));
  }

  lemma OneBatchStored(cfg: Config, a: seq<Event>, g: Grain, k: R.Key)
    requires Projects([Batch(a, 1)], a)
    ensures var t := Run(cfg, [Batch(a, 1)]).tables;
            R.Stored(Span(g), Get(Rows(g, t), k), a, k) && t.observations == Observed(a)
  {
    RunRollup(cfg, [Batch(a, 1)], g, k);
    LedgerOnce(cfg, [Batch(a, 1)], g, k);
    AbsorbedOnce([Batch(a, 1)]);
    RunObservations(cfg, [Batch(a, 1)]);
  }

  predicate UniqueRight(t: R.Table, g: Grain, log: seq<Event>, k: R.Key) {
    k in t ==> t[k].unique == |R.Fold(Span(g), log, k).hashes|
  }

  lemma AroundPoison(dur: Duration, log: seq<Event>, k: R.Key) returns (a: seq<Event>, b: seq<Event>)
    requires R.Poisoned(dur, log, k)
    ensures log == a + b && R.HasEmptyHash(dur, a, k) && R.Touched(dur, b, k)
  {
    var i, j :| 0 <= i < j < |log| && R.EmptyHashed(dur, k, log[i]) && R.Touches(dur, k, log[j]);
    a, b := log[..j], log[j..];
    assert a[i] == log[i] && b[0] == log[j];
  }

  /** A restart between the empty hash and the bucket's next event. */
  lemma ReloadMiscounts(cfg: Config, a: seq<Event>, b: seq<Event>, g: Grain, k: R.Key)
    requires AllWellTimed(a + b) && R.HasEmptyHash(Span(g), a, k) && R.Touched(Span(g), b, k)
    ensures Projects(Restarted(a, b), a + b)
    ensures !UniqueRight(Rows(g, Run(cfg, Restarted(a, b)).tables), g, a + b, k)
  {
    assert forall e :: e in a || e in b ==> e in a + b;
    RestartedRun(cfg, a, b);
    OneBatchStored(cfg, a, g, k);
    RestartedRows(cfg, a, b, g);
    R.ReloadCountsEmptyHash(Span(g), Rows(g, Run(cfg, [Batch(a, 1)]).tables), a, b, k);
  }

  /** After the restart memory holds the second batch only. */
  lemma RestartedRows(cfg: Config, a: seq<Event>, b: seq<Event>, g: Grain)
    requires AllWellTimed(a) && AllWellTimed(b)
    ensures var t := Run(cfg, [Batch(a, 1)]).tables;
            Rows(g, Run(cfg, Restarted(a, b)).tables) == R.FlushTable(Span(g), R.ApplyAll(Span(g), map[], b), Rows(g, t), t.observations)
  {
    RestartedRun(cfg, a, b);
  }

  /** unique_pkts is exact for every batching and restart of a log exactly when
      no packet of the bucket with an empty hash is followed in it by another event. */
  lemma UniquePacketsIff(cfg: Config, log: seq<Event>, g: Grain, k: R.Key)
    requires AllWellTimed(log)
    ensures (forall steps :: Projects(steps, log) ==> UniqueRight(Rows(g, Run(cfg, steps).tables), g, log, k))
            <==> !R.Poisoned(Span(g), log, k)
  {
    if R.Poisoned(Span(g), log, k) {
      var a, b := AroundPoison(Span(g), log, k);
      ReloadMiscounts(cfg, a, b, g, k);
      assert !UniqueRight(Rows(g, Run(cfg, Restarted(a, b)).tables), g, log, k);
    } else {
      forall steps | Projects(steps, log)
        ensures UniqueRight(Rows(g, Run(cfg, steps).tables), g, log, k)
      {
        CacheTransparency(cfg, steps, g, k);
      }
    }
  }

  predicate FloorRight(t: R.Table, g: Grain, log: seq<Event>, k: R.Key) {
    k in t ==> t[k].noiseFloor == R.Floor(R.Noise(Span(g), log, k))
  }

  /** A run over the log, failed attempts included, in which no commit has followed one
      that had marked the bucket clean. */
  predicate Lossless(steps: seq<Step>, log: seq<Event>, g: Grain, k: R.Key) {
    Legal(steps) && Of(steps).log == log && !Lossy(steps, g, k)
  }

  /** noise_floor is the newest one after every commit of every such run over a log
      exactly when each is newer than all before it in its bucket, or repeats the
      newest one's value. */
  lemma NoiseFloorIff(cfg: Config, log: seq<Event>, g: Grain, k: R.Key)
    requires AllWellTimed(log)
    ensures (forall steps, n :: 0 <= n <= |log| && Lossless(steps, log[..n], g, k)
                           ==> FloorRight(Rows(g, Run(cfg, steps).tables), g, log[..n], k))
            <==> R.ReloadSafe(Span(g), log, k)
  {
    if R.ReloadSafe(Span(g), log, k) {
      forall steps, n | 0 <= n <= |log| && Lossless(steps, log[..n], g, k)
        ensures FloorRight(Rows(g, Run(cfg, steps).tables), g, log[..n], k)
      {
        assert log == log[..n] + log[n..];
        R.SafePrefix(Span(g), log[..n], log[n..], k);
        NothingIsMissing(cfg, steps, g, k);
      }
    } else {
      var n := FirstUnsafe(Span(g), log, k);
      assert log[..n + 1] == log[..n] + [log[n]] && log[n] in log;
      UnsafeFloor(cfg, log[..n], log[n], g, k);
      assert !FloorRight(Rows(g, Run(cfg, Restarted(log[..n], [log[n]])).tables), g, log[..n + 1], k);
    }
  }

  /** A restart right before a reading that is older than the newest, and another. */
  lemma UnsafeFloor(cfg: Config, a: seq<Event>, e: Event, g: Grain, k: R.Key)
    requires AllWellTimed(a) && WellTimed(e) && !R.Harmless(Span(g), a, e, k)
    ensures Lossless(Restarted(a, [e]), a + [e], g, k)
    ensures !FloorRight(Rows(g, Run(cfg, Restarted(a, [e])).tables), g, a + [e], k)
  {
    RestartedRun(cfg, a, [e]);
    NothingLost(Restarted(a, [e]), g, k);
    RestartedRows(cfg, a, [e], g);
    var t := Run(cfg, [Batch(a, 1)]).tables;
    R.ReloadTakesAnyFloor(Span(g), Rows(g, t), t.observations, e, k);
    R.NoiseSnoc(Span(g), a, e, k);
  }

  lemma {:induction false} FirstUnsafe(dur: Duration, log: seq<Event>, k: R.Key) returns (n: nat)
    requires !R.ReloadSafe(dur, log, k)
    ensures n < |log| && !R.Harmless(dur, log[..n], log[n], k)
  {
    var init := log[..|log| - 1];
    if R.ReloadSafe(dur, init, k) {
      n := |init|;
    } else {
      n := FirstUnsafe(dur, init, k);
      assert init[..n] == log[..n];
    }
  }

  /* ---------- failed attempts ---------- */

  /** The run with its failed attempts left out. */
  function WithoutAborts(steps: seq<Step>): seq<Step> {
    if steps == [] then []
    else
      var init, step := WithoutAborts(steps[..|steps| - 1]), steps[|steps| - 1];
      if step.Abort? then init else init + [step]
  }

  lemma {:induction false} WithoutAbortsProjects(steps: seq<Step>)
    requires Legal(steps)
    ensures Projects(WithoutAborts(steps), Of(steps).log)
  {
    if steps != [] {
      var init, step := steps[..|steps| - 1], steps[|steps| - 1];
      WithoutAbortsProjects(init);
      AbsorbedOnce(WithoutAborts(init));
      if !step.Abort? {
        var all := WithoutAborts(init) + [step];
        assert all[..|all| - 1] == WithoutAborts(init);
      }
    }
  }

  /** observers, observer_status and packets_unique do not show failed attempts,
      wherever in the flush they stopped. */
  lemma RetryIsInvisible(cfg: Config, steps: seq<Step>)
    requires Legal(steps)
    ensures var t, u := Run(cfg, steps).tables, Run(cfg, WithoutAborts(steps)).tables;
            t.observers == u.observers && t.status == u.status && t.unique == u.unique
  {
    WithoutAbortsProjects(steps);
    SameIdempotentTables(cfg, steps, cfg, WithoutAborts(steps));
  }

  lemma SameIdempotentTables(cfg: Config, a: seq<Step>, cfg': Config, b: seq<Step>)
    requires Legal(a) && Legal(b) && Of(a).log == Of(b).log
    ensures var t, u := Run(cfg, a).tables, Run(cfg', b).tables;
            t.observers == u.observers && t.status == u.status && t.unique == u.unique
  {
    var t, u, log := Run(cfg, a).tables, Run(cfg', b).tables, Of(a).log;
    RunObservers(cfg, a);
    RunObservers(cfg', b);
    assert forall k :: Get(t.observers, k) == O.Fold(log, k) == Get(u.observers, k);
    GetEqual(t.observers, u.observers);
    RunStatus(cfg, a);
    RunStatus(cfg', b);
    assert forall k :: Get(t.status, k) == S.First(S.Samples(log), k) == Get(u.status, k);
    GetEqual(t.status, u.status);
    RunUnique(cfg, a);
    RunUnique(cfg', b);
    forall h
      ensures Get(t.unique, h) == Get(u.unique, h)
    {
      assert U.Stored(Get(t.unique, h), log, h) && U.Stored(Get(u.unique, h), log, h);
    }
    GetEqual(t.unique, u.unique);
  }

  /* ---------- reset and replay ---------- */

  /** Two runs over the same log, whatever their batches, evictions, restarts and
      retentions, hold the same exact tables. */
  lemma SameLogSameTables(cfg: Config, a: seq<Step>, cfg': Config, b: seq<Step>)
    requires Legal(a) && NoAborts(a) && Legal(b) && NoAborts(b) && Of(a).log == Of(b).log
    ensures var t, u := Run(cfg, a).tables, Run(cfg', b).tables;
            && t.observers == u.observers && t.status == u.status && t.unique == u.unique
            && t.nodes == u.nodes && t.observations == u.observations
            && SameRollup(PerMinute, t.minute, u.minute, Of(a).log) && SameRollup(PerHour, t.hour, u.hour, Of(a).log)
            && SameNeighbor(t.neighbor, u.neighbor)
  {
    SameIdempotentTables(cfg, a, cfg', b);
    SameAppendedTables(cfg, a, cfg', b);
    SameRollups(cfg, a, cfg', b, PerMinute);
    SameRollups(cfg, a, cfg', b, PerHour);
    SameNeighbors(cfg, a, cfg', b);
  }

  lemma SameAppendedTables(cfg: Config, a: seq<Step>, cfg': Config, b: seq<Step>)
    requires Legal(a) && NoAborts(a) && Legal(b) && NoAborts(b) && Of(a).log == Of(b).log
    ensures Run(cfg, a).tables.nodes == Run(cfg', b).tables.nodes
    ensures Run(cfg, a).tables.observations == Run(cfg', b).tables.observations
  {
    AbsorbedOnce(a);
    AbsorbedOnce(b);
    RunObservations(cfg, a);
    RunObservations(cfg', b);
    RunNodes(cfg, a);
    RunNodes(cfg', b);
    var t, u := Run(cfg, a).tables.nodes, Run(cfg', b).tables.nodes;
    forall k
      ensures Get(t, k) == Get(u, k)
    {
      assert NodeStored(t, Of(a).log, k) && NodeStored(u, Of(a).log, k);
    }
    GetEqual(t, u);
  }

  lemma SameRollups(cfg: Config, a: seq<Step>, cfg': Config, b: seq<Step>, g: Grain)
    requires Legal(a) && NoAborts(a) && Legal(b) && NoAborts(b) && Of(a).log == Of(b).log
    ensures SameRollup(g, Rows(g, Run(cfg, a).tables), Rows(g, Run(cfg', b).tables), Of(a).log)
  {
    var t, u := Rows(g, Run(cfg, a).tables), Rows(g, Run(cfg', b).tables);
    forall k
      ensures k in t <==> k in u
      ensures k in t ==> SameRow(g, t[k], u[k], Of(a).log, k)
    {
      CacheTransparency(cfg, a, g, k);
      CacheTransparency(cfg', b, g, k);
    }
  }

  lemma SameNeighbors(cfg: Config, a: seq<Step>, cfg': Config, b: seq<Step>)
    requires Legal(a) && NoAborts(a) && Legal(b) && NoAborts(b) && Of(a).log == Of(b).log
    ensures SameNeighbor(Run(cfg, a).tables.neighbor, Run(cfg', b).tables.neighbor)
  {
    var t, u := Run(cfg, a).tables.neighbor, Run(cfg', b).tables.neighbor;
    forall k
      ensures k in t <==> k in u
      ensures k in t ==> SameCoreRow(t[k], u[k])
    {
      NeighborTransparency(cfg, a, k);
      NeighborTransparency(cfg', b, k);
    }
  }

  predicate SameCoreRow(r: CoreRow, q: CoreRow) {
    r.packets == q.packets && r.lo == q.lo && r.hi == q.hi
  }

  /** Rows agree in every exact column, in unique_pkts unless an empty hash may
      have met a reload, and in the noise floor unless an older one may have. */
  predicate SameRow(g: Grain, r: R.Row, q: R.Row, log: seq<Event>, k: R.Key) {
    && SameCoreRow(r.core, q.core) && r.flood == q.flood && r.direct == q.direct
    && (!R.Poisoned(Span(g), log, k) ==> r.unique == q.unique)
    && (R.ReloadSafe(Span(g), log, k) ==> r.noiseFloor == q.noiseFloor)
  }

  predicate SameRollup(g: Grain, t: R.Table, u: R.Table, log: seq<Event>) {
    t.Keys == u.Keys && forall k :: k in t ==> SameRow(g, t[k], u[k], log, k)
  }

  predicate SameNeighbor(t: B.Table, u: B.Table) {
    t.Keys == u.Keys && forall k :: k in t ==> SameCoreRow(t[k], u[k])
  }

  lemma ResetEmpties(cfg: Config, before: seq<Step>)
    ensures Run(cfg, before + [Reset]) == Run(cfg, []) && Of(before + [Reset]) == Of([])
  {
    Snoc(cfg, before, Reset);
  }

  /** Nothing of what came before a reset is left after it. */
  lemma ResetForgets(cfg: Config, before: seq<Step>, replay: seq<Step>)
    ensures Run(cfg, before + [Reset] + replay) == Run(cfg, replay)
    ensures Of(before + [Reset] + replay) == Of(replay)
  {
    ResetEmpties(cfg, before);
    FromNothing(cfg, before + [Reset], replay, before + [Reset] + replay);
  }

  lemma {:induction false} FromNothing(cfg: Config, start: seq<Step>, replay: seq<Step>, all: seq<Step>)
    requires Run(cfg, start) == Run(cfg, []) && Of(start) == Of([]) && all == start + replay
    ensures Run(cfg, all) == Run(cfg, replay) && Of(all) == Of(replay)
    decreases |replay|
  {
    if replay == [] {
      assert all == start;
    } else {
      var past, init, step := SplitLast(start, replay, all);
      FromNothing(cfg, start, init, past);
      Snoc(cfg, past, step);
      Snoc(cfg, init, step);
    }
  }

  lemma SplitLast(a: seq<Step>, b: seq<Step>, all: seq<Step>) returns (past: seq<Step>, init: seq<Step>, step: Step)
    requires b != [] && all == a + b
    ensures all == past + [step] && b == init + [step] && past == a + init && |init| < |b|
  {
    init, step := b[..|b| - 1], b[|b| - 1];
    past := a + init;
  }

  /** Reset and replay rebuilds the tables of the incremental run. */
  lemma ReplayRebuilds(cfg: Config, incremental: seq<Step>, replay: seq<Step>)
    requires Legal(incremental) && NoAborts(incremental)
    requires Legal(replay) && NoAborts(replay) && Of(replay).log == Of(incremental).log
    ensures var t, u := Run(cfg, incremental).tables, Run(cfg, incremental + [Reset] + replay).tables;
            && t.observers == u.observers && t.status == u.status && t.unique == u.unique
            && t.nodes == u.nodes && t.observations == u.observations
            && SameRollup(PerMinute, t.minute, u.minute, Of(incremental).log) && SameRollup(PerHour, t.hour, u.hour, Of(incremental).log)
            && SameNeighbor(t.neighbor, u.neighbor)
  {
    ResetForgets(cfg, incremental, replay);
    SameLogSameTables(cfg, incremental, cfg, replay);
  }
}
