/** How far a stored average can be from the true one: every reload of a bucket
    from its rounded row adds at most half a hundredth and one part in n. */
module Accuracy {
  import opened Events
  import opened RollupCore
  import opened PacketObservationsStage
  import opened Projection
  import opened Invariants
  import opened Transparency
  import R = RollupObserverStage
  import B = RollupNeighborStage

  /** How often a commit has rebuilt the accumulator of k from its row. */
  function Reloads(cfg: Config, steps: seq<Step>, g: Grain, k: R.Key): nat {
    if steps == [] then 0
    else
      var init := steps[..|steps| - 1];
      var s, before := Run(cfg, init), Reloads(cfg, init, g, k);
      match steps[|steps| - 1]
      case Batch(es, _) => before + R.Reload(R.ApplyAll(Span(g), Cache(g, s.mem), es), Rows(g, s.tables), k)
      case Abort(_, _) => before
      case Crash => before
      case Reset => 0
  }

  /** The rows and what is cached have drifted by at most a term per reload. */
  ghost predicate DriftOK(g: Grain, s: System, log: seq<Event>, k: R.Key, r: nat) {
    R.Drifts(Span(g), Get(Cache(g, s.mem), k), Get(Rows(g, s.tables), k), log, [], k, r)
  }

  lemma DriftBatch(cfg: Config, s: System, log: seq<Event>, es: seq<Event>, cursor: nat, g: Grain, k: R.Key, r: nat, r': nat)
    requires DriftOK(g, s, log, k, r) && RollupOK(g, s, Ledger(log, []), k) && AllWellTimed(es)
    requires r' == r + R.Reload(R.ApplyAll(Span(g), Cache(g, s.mem), es), Rows(g, s.tables), k)
    ensures DriftOK(g, Next(cfg, s, Batch(es, cursor)), log + es, k, r')
  {
    var cache, rows, po := Cache(g, s.mem), Rows(g, s.tables), s.tables.observations;
    R.CleanIsNothing(Span(g), cache, Ledger(log, []), es, k);
    R.CommitDrifts(Span(g), cache, rows, po, log, es, k, r, r');
    CommitRows(cfg, Apply(s.mem, es), s.tables, cursor, HighWater(es), g);
    FlushCache(Apply(s.mem, es), s.tables, g);
    KeptCache(cfg, FlushMemory(Apply(s.mem, es), s.tables), HighWater(es), g);
    var flushed := R.FlushState(Span(g), R.ApplyAll(Span(g), cache, es), rows, po);
    EvictDrifts(Span(g), Retention(g, cfg), flushed, Get(R.FlushTable(Span(g), R.ApplyAll(Span(g), cache, es), rows, po), k),
                log + es, HighWater(es), k, r');
  }

  lemma EvictDrifts(dur: Duration, retention: Time, s: R.State, row: Option<R.Row>, log: seq<Event>, hwm: Time, k: R.Key, r: nat)
    requires R.Drifts(dur, Get(s, k), row, log, [], k, r) && (k in s ==> s[k].loaded)
    ensures R.Drifts(dur, Get(R.Evicted(dur, retention, s, hwm), k), row, log, [], k, r)
  {
    assert R.Fold(dur, [], k) == R.ZERO;
  }

  lemma {:induction false} RunDrifts(cfg: Config, steps: seq<Step>, g: Grain, k: R.Key)
    requires Legal(steps) && NoAborts(steps)
    ensures DriftOK(g, Run(cfg, steps), Of(steps).log, k, Reloads(cfg, steps, g, k))
  {
    if steps != [] {
      var init, step := steps[..|steps| - 1], steps[|steps| - 1];
      var s, log := Run(cfg, init), Of(init).log;
      if !step.Reset? {
        RunDrifts(cfg, init, g, k);
        RunRollup(cfg, init, g, k);
        LedgerOnce(cfg, init, g, k);
        AbsorbedOnce(init);
        if step.Batch? {
          DriftBatch(cfg, s, log, step.events, step.cursor, g, k, Reloads(cfg, init, g, k), Reloads(cfg, steps, g, k));
        } else {
          assert log + [] == log && R.Fold(Span(g), [], k) == R.ZERO;
        }
      }
    }
  }

  /** In a bucket of n packets that all carry RSSI, the stored average (in
      hundredths) is off from the true one by at most 1/2 + r * (1/2 + 100/n)
      hundredths after r reloads. */
  lemma AverageDrift(cfg: Config, steps: seq<Step>, g: Grain, k: R.Key)
    requires Legal(steps) && NoAborts(steps)
    ensures var rows, exact := Rows(g, Run(cfg, steps).tables), R.Fold(Span(g), Of(steps).log, k).core;
            var n, r := exact.packets, Reloads(cfg, steps, g, k);
            k in rows && n > 0 && exact.n == n ==>
              rows[k].core.avg.Some? && RowDrift(rows[k].core.avg.value, exact.sum, n, r)
  {
    RunDrifts(cfg, steps, g, k);
  }

  function NeighborReloads(cfg: Config, steps: seq<Step>, k: B.Key): nat {
    if steps == [] then 0
    else
      var init := steps[..|steps| - 1];
      var s, before := Run(cfg, init), NeighborReloads(cfg, init, k);
      match steps[|steps| - 1]
      case Batch(es, _) => before + B.Reload(B.ApplyAll(MINUTE, s.mem.neighbor, es), s.tables.neighbor, k)
      case Abort(_, _) => before
      case Crash => before
      case Reset => 0
  }

  ghost predicate NeighborDriftOK(s: System, log: seq<Event>, k: B.Key, r: nat) {
    B.Drifts(MINUTE, Get(s.mem.neighbor, k), Get(s.tables.neighbor, k), log, [], k, r)
  }

  lemma NeighborDriftBatch(cfg: Config, s: System, log: seq<Event>, es: seq<Event>, cursor: nat, k: B.Key, r: nat, r': nat)
    requires NeighborDriftOK(s, log, k, r) && NeighborOK(s, Ledger(log, []), k)
    requires r' == r + B.Reload(B.ApplyAll(MINUTE, s.mem.neighbor, es), s.tables.neighbor, k)
    ensures NeighborDriftOK(Next(cfg, s, Batch(es, cursor)), log + es, k, r')
  {
    B.CleanIsNothing(MINUTE, s.mem.neighbor, Ledger(log, []), es, k);
    B.CommitDrifts(MINUTE, s.mem.neighbor, s.tables.neighbor, log, es, k, r, r');
    CommitNeighbors(cfg, Apply(s.mem, es), s.tables, cursor, HighWater(es));
    KeptNeighbors(cfg, Apply(s.mem, es), s.tables, HighWater(es));
    var applied := B.ApplyAll(MINUTE, s.mem.neighbor, es);
    EvictNeighborDrifts(cfg.neighbor, B.FlushState(applied, s.tables.neighbor), Get(B.FlushTable(applied, s.tables.neighbor), k),
                        log + es, HighWater(es), k, r');
  }

  lemma EvictNeighborDrifts(retention: Time, s: B.State, row: Option<CoreRow>, log: seq<Event>, hwm: Time, k: B.Key, r: nat)
    requires B.Drifts(MINUTE, Get(s, k), row, log, [], k, r) && (k in s ==> s[k].loaded)
    ensures B.Drifts(MINUTE, Get(B.Evicted(MINUTE, retention, s, hwm), k), row, log, [], k, r)
  {
    assert B.Fold(MINUTE, [], k) == EMPTY;
  }

  lemma {:induction false} RunNeighborDrifts(cfg: Config, steps: seq<Step>, k: B.Key)
    requires Legal(steps) && NoAborts(steps)
    ensures NeighborDriftOK(Run(cfg, steps), Of(steps).log, k, NeighborReloads(cfg, steps, k))
  {
    if steps != [] {
      var init, step := steps[..|steps| - 1], steps[|steps| - 1];
      var s, log := Run(cfg, init), Of(init).log;
      if !step.Reset? {
        RunNeighborDrifts(cfg, init, k);
        RunNeighbors(cfg, init, k);
        NeighborLedgerOnce(cfg, init, k);
        if step.Batch? {
          NeighborDriftBatch(cfg, s, log, step.events, step.cursor, k, NeighborReloads(cfg, init, k), NeighborReloads(cfg, steps, k));
        } else {
          assert log + [] == log && B.Fold(MINUTE, [], k) == EMPTY;
        }
      }
    }
  }

  lemma NeighborAverageDrift(cfg: Config, steps: seq<Step>, k: B.Key)
    requires Legal(steps) && NoAborts(steps)
    ensures var rows, exact := Run(cfg, steps).tables.neighbor, B.Fold(MINUTE, Of(steps).log, k);
            var n, r := exact.packets, NeighborReloads(cfg, steps, k);
            k in rows && n > 0 && exact.n == n ==>
              rows[k].avg.Some? && RowDrift(rows[k].avg.value, exact.sum, n, r)
  {
    RunNeighborDrifts(cfg, steps, k);
  }
}
