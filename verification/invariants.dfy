/** Every stage's invariant holds after every step of every run: however the log
    is batched, whatever is evicted, wherever the process restarts, an attempt
    fails or the tables are reset. */
module Invariants {
  import opened Events
  import opened PacketObservationsStage
  import opened RollupCore
  import opened Projection
  import O = ObserversStage
  import S = ObserverStatusStage
  import N = NodesStage
  import U = PacketsUniqueStage
  import R = RollupObserverStage
  import B = RollupNeighborStage

  /* ---------- packet_observations ---------- */

  lemma {:induction false} RunObservations(cfg: Config, steps: seq<Step>)
    requires Legal(steps)
    ensures ObservationsOK(Run(cfg, steps), Of(steps))
  {
    if steps != [] {
      var init, step := steps[..|steps| - 1], steps[|steps| - 1];
      var h := Of(init);
      RunObservations(cfg, init);
      RunCoherent(init);
      match step
      case Batch(es, _) =>
        ObservedConcat(h.pending, es);
        ObservedConcat(h.absorbed, h.pending + es);
        HighWaterSet(es);
      case Abort(es, _) => ObservedConcat(h.pending, es);
      case Crash =>
      case Reset =>
    }
  }

  /** A well-timed batch with events has a high-water mark. */
  lemma HighWaterSet(es: seq<Event>)
    requires AllWellTimed(es)
    ensures es != [] ==> HighWater(es) > 0
  {
    if es != [] {
      assert WellTimed(es[|es| - 1]);
    }
  }

  /* ---------- the rollup caches ---------- */

  /** A committed batch, seen from one grain's rows, and from its cache. */
  lemma CommitRows(cfg: Config, m: Memory, t: Tables, cursor: nat, hwm: Time, g: Grain)
    ensures Rows(g, Commit(cfg, m, t, cursor, hwm).tables) == R.FlushTable(Span(g), Cache(g, m), Rows(g, t), t.observations)
  {}

  lemma FlushCache(m: Memory, t: Tables, g: Grain)
    ensures Cache(g, FlushMemory(m, t)) == R.FlushState(Span(g), Cache(g, m), Rows(g, t), t.observations)
  {}

  lemma KeptCache(cfg: Config, m: Memory, hwm: Time, g: Grain)
    ensures Cache(g, Kept(cfg, m, hwm)) == R.Kept(Span(g), Retention(g, cfg), Cache(g, m), hwm)
  {}

  lemma RollupBatch(cfg: Config, s: System, l: Ledger, es: seq<Event>, cursor: nat, g: Grain, k: R.Key)
    requires RollupOK(g, s, l, k) && R.Reflects(Span(g), s.tables.observations, l.done, k) && AllWellTimed(es)
    ensures RollupOK(g, Next(cfg, s, Batch(es, cursor)), LedgerAfter(cfg, s, l, Batch(es, cursor), g, k), k)
  {
    var m := Apply(s.mem, es);
    R.BatchKeeps(Span(g), Retention(g, cfg), Cache(g, s.mem), Rows(g, s.tables), s.tables.observations, l, es, HighWater(es), k);
    CommitRows(cfg, m, s.tables, cursor, HighWater(es), g);
    FlushCache(m, s.tables, g);
    KeptCache(cfg, FlushMemory(m, s.tables), HighWater(es), g);
  }

  lemma RollupStep(cfg: Config, s: System, h: History, l: Ledger, step: Step, g: Grain, k: R.Key)
    requires Coherent(h) && Allowed(h, step) && Fits(l, h) && s.tables.observations == Observed(h.absorbed)
    requires RollupOK(g, s, l, k)
    ensures var l' := LedgerAfter(cfg, s, l, step, g, k);
            RollupOK(g, Next(cfg, s, step), l', k) && Fits(l', Recorded(h, step))
  {
    R.SameEventsReflect(Span(g), h.absorbed, l.done, k);
    match step
    case Batch(es, cursor) =>
      RollupBatch(cfg, s, l, es, cursor, g, k);
      CommittedFits(l, h, es, Writes(s, es, g, k), k in Cache(g, Next(cfg, s, step).mem), cursor);
    case Abort(es, f) =>
      R.AbortKeeps(Span(g), Cache(g, s.mem), Rows(g, s.tables), s.tables.observations, l, es, RollupReach(g, f), k);
      TriedFits(l, h, es, LoadsAgain(s, es, f, g, k), f);
    case Crash =>
    case Reset =>
  }

  lemma {:induction false} RunRollup(cfg: Config, steps: seq<Step>, g: Grain, k: R.Key)
    requires Legal(steps)
    ensures RollupOK(g, Run(cfg, steps), LedgerOf(cfg, steps, g, k), k)
    ensures Fits(LedgerOf(cfg, steps, g, k), Of(steps))
  {
    if steps != [] {
      var init, step := steps[..|steps| - 1], steps[|steps| - 1];
      RunRollup(cfg, init, g, k);
      RunObservations(cfg, init);
      RunCoherent(init);
      RollupStep(cfg, Run(cfg, init), Of(init), LedgerOf(cfg, init, g, k), step, g, k);
    }
  }

  lemma CommitNeighbors(cfg: Config, m: Memory, t: Tables, cursor: nat, hwm: Time)
    ensures Commit(cfg, m, t, cursor, hwm).tables.neighbor == B.FlushTable(m.neighbor, t.neighbor)
  {}

  lemma KeptNeighbors(cfg: Config, m: Memory, t: Tables, hwm: Time)
    ensures Kept(cfg, FlushMemory(m, t), hwm).neighbor == B.Kept(MINUTE, cfg.neighbor, B.FlushState(m.neighbor, t.neighbor), hwm)
  {}

  lemma NeighborBatch(cfg: Config, s: System, l: Ledger, es: seq<Event>, cursor: nat, k: B.Key)
    requires NeighborOK(s, l, k)
    ensures NeighborOK(Next(cfg, s, Batch(es, cursor)), NeighborLedgerAfter(cfg, s, l, Batch(es, cursor), k), k)
  {
    B.BatchKeeps(MINUTE, cfg.neighbor, s.mem.neighbor, s.tables.neighbor, l, es, HighWater(es), k);
    CommitNeighbors(cfg, Apply(s.mem, es), s.tables, cursor, HighWater(es));
    KeptNeighbors(cfg, Apply(s.mem, es), s.tables, HighWater(es));
  }

  lemma NeighborStep(cfg: Config, s: System, h: History, l: Ledger, step: Step, k: B.Key)
    requires Allowed(h, step) && Fits(l, h) && NeighborOK(s, l, k)
    ensures var l' := NeighborLedgerAfter(cfg, s, l, step, k);
            NeighborOK(Next(cfg, s, step), l', k) && Fits(l', Recorded(h, step))
  {
    match step
    case Batch(es, cursor) =>
      NeighborBatch(cfg, s, l, es, cursor, k);
      CommittedFits(l, h, es, WritesNeighbor(s, es, k), k in Next(cfg, s, step).mem.neighbor, cursor);
    case Abort(es, f) =>
      B.AbortKeeps(MINUTE, s.mem.neighbor, s.tables.neighbor, l, es, NeighborReach(f), k);
      TriedFits(l, h, es, LoadsNeighborAgain(s, es, f, k), f);
    case Crash =>
    case Reset =>
  }

  lemma {:induction false} RunNeighbors(cfg: Config, steps: seq<Step>, k: B.Key)
    requires Legal(steps)
    ensures NeighborOK(Run(cfg, steps), NeighborLedgerOf(cfg, steps, k), k)
    ensures Fits(NeighborLedgerOf(cfg, steps, k), Of(steps))
  {
    if steps != [] {
      var init, step := steps[..|steps| - 1], steps[|steps| - 1];
      RunNeighbors(cfg, init, k);
      NeighborStep(cfg, Run(cfg, init), Of(init), NeighborLedgerOf(cfg, init, k), step, k);
    }
  }

  /* ---------- packets_unique ---------- */

  lemma {:induction false} RunUnique(cfg: Config, steps: seq<Step>)
    requires Legal(steps)
    ensures UniqueOK(Run(cfg, steps), Of(steps))
  {
    if steps != [] {
      var init, step := steps[..|steps| - 1], steps[|steps| - 1];
      var s, h := Run(cfg, init), Of(init);
      RunUnique(cfg, init);
      RunObservations(cfg, init);
      RunCoherent(init);
      forall k
        ensures U.Cached(Get(Run(cfg, steps).mem.unique, k), Of(steps).log, Of(steps).last, k)
        ensures U.Stored(Get(Run(cfg, steps).tables.unique, k), Of(steps).log, k)
      {
        match step
        case Batch(es, _) =>
          U.CommitKeeps(cfg.unique, s.mem.unique, s.tables.unique, s.tables.observations, h.log, h.absorbed, h.last, es, HighWater(es), k);
        case Abort(es, f) =>
          U.AbortKeeps(s.mem.unique, s.tables.unique, s.tables.observations, h.log, h.absorbed, h.last, es, UniqueReach(f), k);
        case Crash =>
        case Reset =>
      }
    }
  }

  /* ---------- nodes, observers, observer_status ---------- */

  lemma CommitNode(m: N.State, t: N.Table, h: History, es: seq<Event>, k: Bytes)
    requires AllWellTimed(h.absorbed) && AllWellTimed(h.pending) && AllWellTimed(es)
    requires Get(m, k) == N.Fold(h.pending, k) && NodeStored(t, h.absorbed, k)
    ensures NodeStored(N.FlushTable(N.ApplyAll(m, es), t), h.absorbed + (h.pending + es), k)
  {
    N.ApplyAllIsFold(m, h.pending, es, k);
    N.UpsertIsFold(h.absorbed, h.pending + es, k, Get(t, k));
  }

  lemma {:induction false} RunNodes(cfg: Config, steps: seq<Step>)
    requires Legal(steps)
    ensures NodesOK(Run(cfg, steps), Of(steps))
  {
    if steps != [] {
      var init, step := steps[..|steps| - 1], steps[|steps| - 1];
      var s, h := Run(cfg, init), Of(init);
      RunNodes(cfg, init);
      RunCoherent(init);
      forall k
        ensures Get(Run(cfg, steps).mem.nodes, k) == N.Fold(Of(steps).pending, k)
        ensures NodeStored(Run(cfg, steps).tables.nodes, Of(steps).absorbed, k)
      {
        match step
        case Batch(es, _) =>
          CommitNode(s.mem.nodes, s.tables.nodes, h, es, k);
          HighWaterSet(es);
        case Abort(es, _) => N.ApplyAllIsFold(s.mem.nodes, h.pending, es, k);
        case Crash =>
        case Reset =>
      }
    }
  }

  lemma {:induction false} RunObservers(cfg: Config, steps: seq<Step>)
    requires Legal(steps)
    ensures ObserversOK(Run(cfg, steps), Of(steps))
  {
    if steps != [] {
      var init, step := steps[..|steps| - 1], steps[|steps| - 1];
      var s, h := Run(cfg, init), Of(init);
      RunObservers(cfg, init);
      RunCoherent(init);
      forall k
        ensures Get(Run(cfg, steps).mem.observers, k) == O.Fold(Of(steps).last, k)
        ensures Get(Run(cfg, steps).tables.observers, k) == O.Fold(Of(steps).log, k)
      {
        match step
        case Batch(es, _) =>
          O.RetryAbsorbs(s.mem.observers, h.last, es, k);
          O.FlushIsFold(O.ApplyAll(s.mem.observers, es), s.tables.observers, h.log, es, k);
          HighWaterSet(es);
        case Abort(es, _) => O.RetryAbsorbs(s.mem.observers, h.last, es, k);
        case Crash =>
        case Reset =>
      }
    }
  }

  lemma {:induction false} RunStatus(cfg: Config, steps: seq<Step>)
    requires Legal(steps)
    ensures StatusOK(Run(cfg, steps), Of(steps))
  {
    if steps != [] {
      var init, step := steps[..|steps| - 1], steps[|steps| - 1];
      var s, h := Run(cfg, init), Of(init);
      RunStatus(cfg, init);
      RunCoherent(init);
      forall k
        ensures StatusRow(Run(cfg, steps).mem.status, Of(steps).last, k)
        ensures Get(Run(cfg, steps).tables.status, k) == S.First(S.Samples(Of(steps).log), k)
      {
        assert StatusRow(s.mem.status, h.last, k);
        match step
        case Batch(es, _) =>
          S.RetryAbsorbs(s.mem.status, h.last, es, k);
          S.FlushIsFirst(s.tables.status, s.mem.status + S.Samples(es), h.log, es, k);
          HighWaterSet(es);
        case Abort(es, _) => S.RetryAbsorbs(s.mem.status, h.last, es, k);
        case Crash =>
        case Reset =>
      }
    }
  }
}
