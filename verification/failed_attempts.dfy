/** What failed attempts leave in the rollups. In the additive columns, exactly: the
    packets of attempts that memory absorbed, and the rows that a torn load merged
    more than once. And which rows there are. */
module FailedAttempts {
  import opened Events
  import opened RollupCore
  import opened PacketObservationsStage
  import opened Projection
  import opened Invariants
  import opened Readings
  import opened Transparency
  import N = NodesStage
  import U = PacketsUniqueStage
  import R = RollupObserverStage
  import B = RollupNeighborStage

  /** The additive columns. */
  datatype Column = Packets | Flood | Direct

  function Entry(c: Column, t: R.Totals): nat {
    match c
    case Packets => t.core.packets
    case Flood => t.flood
    case Direct => t.direct
  }

  /** What a log counts, and what a table holds, for a bucket in one column. */
  function Count(c: Column, dur: Duration, es: seq<Event>, k: R.Key): nat {
    Entry(c, R.Fold(dur, es, k))
  }

  function At(c: Column, t: R.Table, k: R.Key): nat {
    if k !in t then 0
    else
      match c
      case Packets => t[k].core.packets
      case Flood => t[k].flood
      case Direct => t[k].direct
  }

  lemma CountConcat(c: Column, dur: Duration, a: seq<Event>, b: seq<Event>, k: R.Key)
    ensures Count(c, dur, a + b, k) == Count(c, dur, a, k) + Count(c, dur, b, k)
  {
    R.FoldConcat(dur, a, b, k);
    EntryPlus(c, R.Fold(dur, a, k), R.Fold(dur, b, k));
  }

  lemma EntryPlus(c: Column, t: R.Totals, u: R.Totals)
    ensures Entry(c, R.Plus(t, u)) == Entry(c, t) + Entry(c, u)
  {}

  /* ---------- attempts absorbed twice ---------- */

  /** The events that memory absorbed in failed attempts and a later commit of
      the same process wrote to the tables, on top of the retry. */
  function Wasted(steps: seq<Step>): seq<Event> {
    if steps == [] then []
    else
      var init := steps[..|steps| - 1];
      match steps[|steps| - 1]
      case Batch(_, _) => Wasted(init) + Of(init).pending
      case Abort(_, _) => Wasted(init)
      case Crash => Wasted(init)
      case Reset => []
  }

  lemma {:induction false} AbsorbedIsLogPlusWasted(steps: seq<Step>, c: Column, dur: Duration, k: R.Key)
    ensures Count(c, dur, Of(steps).absorbed, k) == Count(c, dur, Of(steps).log, k) + Count(c, dur, Wasted(steps), k)
  {
    if steps != [] {
      var init, step := steps[..|steps| - 1], steps[|steps| - 1];
      var h := Of(init);
      AbsorbedIsLogPlusWasted(init, c, dur, k);
      if step.Batch? {
        CountConcat(c, dur, h.log, step.events, k);
        CountConcat(c, dur, h.absorbed, h.pending + step.events, k);
        CountConcat(c, dur, h.pending, step.events, k);
        CountConcat(c, dur, Wasted(init), h.pending, k);
      }
    }
  }

  /* ---------- rows merged twice ---------- */

  /** What a row counts because torn loads merged it again, and what the
      accumulator in memory counts for that reason and has not written yet. */
  datatype Excess = Excess(row: nat, mem: nat)

  function ExcessAfter(cfg: Config, s: System, x: Excess, step: Step, c: Column, g: Grain, k: R.Key): Excess {
    match step
    case Batch(es, _) =>
      if Writes(s, es, g, k) then Excess(x.row + x.mem, 0)
      else Excess(x.row, if k in Cache(g, Next(cfg, s, step).mem) then x.mem else 0)
    case Abort(es, f) => Excess(x.row, x.mem + if LoadsAgain(s, es, f, g, k) then At(c, Rows(g, s.tables), k) else 0)
    case Crash => Excess(x.row, 0)
    case Reset => Excess(0, 0)
  }

  function ExcessOf(cfg: Config, steps: seq<Step>, c: Column, g: Grain, k: R.Key): Excess {
    if steps == [] then Excess(0, 0)
    else
      var init := steps[..|steps| - 1];
      ExcessAfter(cfg, Run(cfg, init), ExcessOf(cfg, init, c, g, k), steps[|steps| - 1], c, g, k)
  }

  /** A ledger holds what has been absorbed, and the excess. */
  predicate Balances(c: Column, dur: Duration, l: Ledger, h: History, x: Excess, k: R.Key) {
    && Count(c, dur, l.done, k) == Count(c, dur, h.absorbed, k) + x.row
    && Count(c, dur, l.pending, k) == Count(c, dur, h.pending, k) + x.mem
  }

  lemma BatchBalances(c: Column, dur: Duration, l: Ledger, h: History, x: Excess, es: seq<Event>, written: bool, kept: bool, cursor: nat, k: R.Key)
    requires Balances(c, dur, l, h, x, k)
    requires !written ==> Count(c, dur, es, k) == 0 && Count(c, dur, h.pending, k) == 0
    ensures var x' := if written then Excess(x.row + x.mem, 0) else Excess(x.row, if kept then x.mem else 0);
            Balances(c, dur, Committed(l, es, written, kept), Recorded(h, Batch(es, cursor)), x', k)
  {
    CountConcat(c, dur, h.absorbed, h.pending + es, k);
    CountConcat(c, dur, h.pending, es, k);
    CountConcat(c, dur, l.done, l.pending + es, k);
    CountConcat(c, dur, l.done, es, k);
    CountConcat(c, dur, l.pending, es, k);
  }

  lemma AbortBalances(c: Column, dur: Duration, l: Ledger, h: History, x: Excess, es: seq<Event>, again: bool, f: Failure, row: nat, k: R.Key)
    requires Balances(c, dur, l, h, x, k) && row == Count(c, dur, l.done, k)
    ensures Balances(c, dur, Tried(l, es, again), Recorded(h, Abort(es, f)), Excess(x.row, x.mem + if again then row else 0), k)
  {
    CountConcat(c, dur, h.pending, es, k);
    CountConcat(c, dur, l.done, l.pending + es, k);
    CountConcat(c, dur, l.pending, es, k);
  }

  /** Nothing of a failed attempt is pending for a bucket that its retry does not write. */
  lemma UnwrittenIsNothing(cfg: Config, steps: seq<Step>, es: seq<Event>, cursor: nat, g: Grain, k: R.Key)
    requires Legal(steps) && Allowed(Of(steps), Batch(es, cursor)) && !Writes(Run(cfg, steps), es, g, k)
    ensures R.Fold(Span(g), es, k) == R.ZERO && R.Fold(Span(g), Of(steps).pending, k) == R.ZERO
  {
    var h := Of(steps);
    RunRollup(cfg, steps, g, k);
    RunCoherent(steps);
    R.CleanIsNothing(Span(g), Cache(g, Run(cfg, steps).mem), LedgerOf(cfg, steps, g, k), es, k);
    R.FoldZero(Span(g), es, k);
    R.FoldZero(Span(g), h.pending, k);
    assert forall e :: e in h.last ==> e in es;
  }

  lemma StepBalances(cfg: Config, init: seq<Step>, step: Step, x: Excess, c: Column, g: Grain, k: R.Key)
    requires Legal(init) && Allowed(Of(init), step)
    requires Balances(c, Span(g), LedgerOf(cfg, init, g, k), Of(init), x, k)
    ensures var s := Run(cfg, init);
            Balances(c, Span(g), LedgerAfter(cfg, s, LedgerOf(cfg, init, g, k), step, g, k), Recorded(Of(init), step),
                     ExcessAfter(cfg, s, x, step, c, g, k), k)
  {
    var s, h, l := Run(cfg, init), Of(init), LedgerOf(cfg, init, g, k);
    if step.Batch? && !Writes(s, step.events, g, k) {
      UnwrittenIsNothing(cfg, init, step.events, step.cursor, g, k);
    }
    StoredCount(cfg, init, c, g, k);
    SystemBalances(cfg, s, h, l, step, x, c, g, k);
  }

  lemma SystemBalances(cfg: Config, s: System, h: History, l: Ledger, step: Step, x: Excess, c: Column, g: Grain, k: R.Key)
    requires Balances(c, Span(g), l, h, x, k) && At(c, Rows(g, s.tables), k) == Count(c, Span(g), l.done, k)
    requires step.Batch? && !Writes(s, step.events, g, k)
             ==> Count(c, Span(g), step.events, k) == 0 && Count(c, Span(g), h.pending, k) == 0
    ensures Balances(c, Span(g), LedgerAfter(cfg, s, l, step, g, k), Recorded(h, step), ExcessAfter(cfg, s, x, step, c, g, k), k)
  {
    match step
    case Batch(es, cursor) =>
      BatchBalances(c, Span(g), l, h, x, es, Writes(s, es, g, k), k in Cache(g, Next(cfg, s, step).mem), cursor, k);
    case Abort(es, f) =>
      AbortBalances(c, Span(g), l, h, x, es, LoadsAgain(s, es, f, g, k), f, At(c, Rows(g, s.tables), k), k);
    case Crash =>
    case Reset =>
  }

  lemma StoredCount(cfg: Config, steps: seq<Step>, c: Column, g: Grain, k: R.Key)
    requires Legal(steps)
    ensures At(c, Rows(g, Run(cfg, steps).tables), k) == Count(c, Span(g), LedgerOf(cfg, steps, g, k).done, k)
  {
    RunRollup(cfg, steps, g, k);
  }

  lemma {:induction false} RunBalances(cfg: Config, steps: seq<Step>, c: Column, g: Grain, k: R.Key)
    requires Legal(steps)
    ensures Balances(c, Span(g), LedgerOf(cfg, steps, g, k), Of(steps), ExcessOf(cfg, steps, c, g, k), k)
  {
    if steps != [] {
      var init, step := steps[..|steps| - 1], steps[|steps| - 1];
      RunBalances(cfg, init, c, g, k);
      StepBalances(cfg, init, step, ExcessOf(cfg, init, c, g, k), c, g, k);
    }
  }

  /** A row's additive columns, in every run: what has been absorbed, and the row
      merged again. */
  lemma RowIsAbsorbedAndExcess(cfg: Config, steps: seq<Step>, c: Column, g: Grain, k: R.Key)
    requires Legal(steps)
    ensures At(c, Rows(g, Run(cfg, steps).tables), k)
         == Count(c, Span(g), Of(steps).absorbed, k) + ExcessOf(cfg, steps, c, g, k).row
  {
    StoredCount(cfg, steps, c, g, k);
    RunBalances(cfg, steps, c, g, k);
  }

  /** ... that is the log, the attempts absorbed twice, and the row merged again. */
  lemma RowIsLogWastedAndExcess(cfg: Config, steps: seq<Step>, c: Column, g: Grain, k: R.Key)
    requires Legal(steps)
    ensures At(c, Rows(g, Run(cfg, steps).tables), k)
         == Count(c, Span(g), Of(steps).log, k) + Count(c, Span(g), Wasted(steps), k) + ExcessOf(cfg, steps, c, g, k).row
  {
    RowIsAbsorbedAndExcess(cfg, steps, c, g, k);
    AbsorbedIsLogPlusWasted(steps, c, Span(g), k);
  }

  /* ---------- when a bucket is counted once ---------- */

  /** Memory holds the packets of the row once more: a load that had merged the
      row failed, and the process has not written the bucket, dropped it or
      restarted since. */
  predicate Reloading(cfg: Config, steps: seq<Step>, g: Grain, k: R.Key) {
    if steps == [] then false
    else
      var init := steps[..|steps| - 1];
      var s := Run(cfg, init);
      match steps[|steps| - 1]
      case Batch(es, _) =>
        Reloading(cfg, init, g, k) && !Writes(s, es, g, k) && k in Cache(g, Next(cfg, s, steps[|steps| - 1]).mem)
      case Abort(es, f) =>
        Reloading(cfg, init, g, k) || (LoadsAgain(s, es, f, g, k) && At(Packets, Rows(g, s.tables), k) > 0)
      case Crash => false
      case Reset => false
  }

  /** Some commit has written the bucket in that state. */
  predicate Doubled(cfg: Config, steps: seq<Step>, g: Grain, k: R.Key) {
    if steps == [] then false
    else
      var init := steps[..|steps| - 1];
      match steps[|steps| - 1]
      case Batch(es, _) => Doubled(cfg, init, g, k) || (Reloading(cfg, init, g, k) && Writes(Run(cfg, init), es, g, k))
      case Abort(_, _) => Doubled(cfg, init, g, k)
      case Crash => Doubled(cfg, init, g, k)
      case Reset => false
  }

  lemma {:induction false} DoubledIsExcess(cfg: Config, steps: seq<Step>, g: Grain, k: R.Key)
    ensures Doubled(cfg, steps, g, k) <==> ExcessOf(cfg, steps, Packets, g, k).row > 0
    ensures Reloading(cfg, steps, g, k) <==> ExcessOf(cfg, steps, Packets, g, k).mem > 0
  {
    if steps != [] {
      DoubledIsExcess(cfg, steps[..|steps| - 1], g, k);
    }
  }

  /** A bucket's packets are counted once exactly when no failed attempt that held
      one of them was followed by a commit of the same process, and no failed load
      that had merged its packets by a commit that wrote it. */
  lemma PacketCountIff(cfg: Config, steps: seq<Step>, g: Grain, k: R.Key)
    requires Legal(steps)
    ensures At(Packets, Rows(g, Run(cfg, steps).tables), k) == Count(Packets, Span(g), Of(steps).log, k)
            <==> (forall e :: e in Wasted(steps) ==> !R.Hits(Span(g), k, e)) && !Doubled(cfg, steps, g, k)
  {
    RowIsLogWastedAndExcess(cfg, steps, Packets, g, k);
    DoubledIsExcess(cfg, steps, g, k);
    R.FoldZero(Span(g), Wasted(steps), k);
  }

  /** A restart, a reading for a bucket that has a row, and a database that fails after
      the row has been merged: the retry merges it again, and the row is doubled. */
  function TornLoad(a: seq<Event>, e: Event, g: Grain): seq<Step> {
    UntilTear(a, e, g) + [Batch([e], 2)]
  }

  function UntilTear(a: seq<Event>, e: Event, g: Grain): seq<Step> {
    Restart(a) + [Abort([e], LoadFailure(g))]
  }

  function Restart(a: seq<Event>): seq<Step> {
    [Batch(a, 1)] + [Crash]
  }

  function LoadFailure(g: Grain): Failure {
    Failure(if g == PerMinute then 4 else 5, U.Writing({}), R.Hashing({}), B.Writing({}))
  }

  lemma SnocCounting(cfg: Config, steps: seq<Step>, step: Step, c: Column, g: Grain, k: R.Key)
    ensures ExcessOf(cfg, steps + [step], c, g, k) == ExcessAfter(cfg, Run(cfg, steps), ExcessOf(cfg, steps, c, g, k), step, c, g, k)
    ensures step.Batch? ==> Wasted(steps + [step]) == Wasted(steps) + Of(steps).pending
    ensures step.Abort? || step.Crash? ==> Wasted(steps + [step]) == Wasted(steps)
  {
    assert (steps + [step])[..|steps|] == steps;
  }

  lemma RestartCounting(cfg: Config, a: seq<Event>, g: Grain, k: R.Key)
    requires AllWellTimed(a)
    ensures Legal(Restart(a)) && Of(Restart(a)) == History(a, a, [], []) && Wasted(Restart(a)) == []
    ensures Cache(g, Run(cfg, Restart(a)).mem) == map[]
    ensures ExcessOf(cfg, Restart(a), Packets, g, k) == Excess(0, 0)
  {
    assert [] + [Batch(a, 1)] == [Batch(a, 1)] && [] + a == a;
    SnocHistory([], Batch(a, 1));
    SnocCounting(cfg, [], Batch(a, 1), Packets, g, k);
    Snoc(cfg, [Batch(a, 1)], Crash);
    SnocCounting(cfg, [Batch(a, 1)], Crash, Packets, g, k);
  }

  lemma OneReading(dur: Duration, s: R.State, e: Event, k: R.Key)
    requires e.body.Status? && e.ts > 0 && R.Touches(dur, k, e)
    ensures R.ApplyAll(dur, s, [e]) == s[k := R.AddEvent(if k in s then s[k] else R.FRESH, e)]
  {
    assert [e][..0] == [] && R.ApplyAll(dur, s, []) == s;
  }

  /** What the failed attempt does to a cache without the bucket. */
  lemma TearAt(s: System, e: Event, g: Grain, k: R.Key)
    requires e.body.Status? && e.ts > 0 && R.Touches(Span(g), k, e) && Cache(g, s.mem) == map[]
    ensures var applied := R.ApplyAll(Span(g), Cache(g, s.mem), [e]);
            var torn := R.Reached(Span(g), applied, Rows(g, s.tables), s.tables.observations, RollupReach(g, LoadFailure(g)));
            k in torn && torn[k].dirty && LoadsAgain(s, [e], LoadFailure(g), g, k)
  {
    OneReading(Span(g), map[], e, k);
    R.ReachedAt(Span(g), R.ApplyAll(Span(g), map[], [e]), Rows(g, s.tables), s.tables.observations, RollupReach(g, LoadFailure(g)), k);
  }

  /** After the failed attempt memory holds the row's packets, and will load them again. */
  lemma TearCounting(cfg: Config, a: seq<Event>, e: Event, g: Grain, k: R.Key)
    requires AllWellTimed(a) && WellTimed(e) && e.body.Status? && R.Touches(Span(g), k, e)
    ensures var steps := UntilTear(a, e, g);
            && Legal(steps) && Of(steps) == History(a, a, [e], [e]) && Wasted(steps) == []
            && k in Cache(g, Run(cfg, steps).mem) && Cache(g, Run(cfg, steps).mem)[k].dirty
            && ExcessOf(cfg, steps, Packets, g, k) == Excess(0, Count(Packets, Span(g), a, k))
  {
    RestartCounting(cfg, a, g, k);
    TearAfter(cfg, Restart(a), a, e, g, k);
  }

  lemma TearAfter(cfg: Config, steps: seq<Step>, a: seq<Event>, e: Event, g: Grain, k: R.Key)
    requires WellTimed(e) && e.body.Status? && R.Touches(Span(g), k, e)
    requires Legal(steps) && Of(steps) == History(a, a, [], []) && Wasted(steps) == []
    requires Cache(g, Run(cfg, steps).mem) == map[] && ExcessOf(cfg, steps, Packets, g, k) == Excess(0, 0)
    ensures var all := steps + [Abort([e], LoadFailure(g))];
            && Legal(all) && Of(all) == History(a, a, [e], [e]) && Wasted(all) == []
            && k in Cache(g, Run(cfg, all).mem) && Cache(g, Run(cfg, all).mem)[k].dirty
            && ExcessOf(cfg, all, Packets, g, k) == Excess(0, Count(Packets, Span(g), a, k))
  {
    var step := Abort([e], LoadFailure(g));
    assert [] + [e] == [e];
    Snoc(cfg, steps, step);
    SnocCounting(cfg, steps, step, Packets, g, k);
    TearAt(Run(cfg, steps), e, g, k);
    RowIsLogWastedAndExcess(cfg, steps, Packets, g, k);
  }

  lemma RetryWrites(s: System, e: Event, g: Grain, k: R.Key)
    requires e.body.Status? && e.ts > 0 && R.Touches(Span(g), k, e)
    requires k in Cache(g, s.mem) && Cache(g, s.mem)[k].dirty
    ensures Writes(s, [e], g, k)
  {
    OneReading(Span(g), Cache(g, s.mem), e, k);
  }

  lemma ReadingIsNoPacket(dur: Duration, a: seq<Event>, e: Event, k: R.Key)
    requires e.body.Status?
    ensures Count(Packets, dur, [e], k) == 0 && Count(Packets, dur, a + [e], k) == Count(Packets, dur, a, k)
  {
    R.FoldZero(dur, [e], k);
    CountConcat(Packets, dur, a, [e], k);
  }

  lemma TornLoadExcess(cfg: Config, a: seq<Event>, e: Event, g: Grain, k: R.Key)
    requires AllWellTimed(a) && WellTimed(e) && e.body.Status? && R.Touches(Span(g), k, e)
    ensures var all := TornLoad(a, e, g);
            && Legal(all) && Of(all).log == a + [e] && Wasted(all) == [e]
            && ExcessOf(cfg, all, Packets, g, k).row == Count(Packets, Span(g), a, k)
  {
    var steps := UntilTear(a, e, g);
    TearCounting(cfg, a, e, g, k);
    SnocHistory(steps, Batch([e], 2));
    SnocCounting(cfg, steps, Batch([e], 2), Packets, g, k);
    RetryWrites(Run(cfg, steps), e, g, k);
    assert [] + [e] == [e];
  }

  lemma TornLoadDoubles(cfg: Config, a: seq<Event>, e: Event, g: Grain, k: R.Key)
    requires AllWellTimed(a) && WellTimed(e) && e.body.Status? && R.Touches(Span(g), k, e)
    ensures var all := TornLoad(a, e, g);
            && Legal(all) && Of(all).log == a + [e] && (forall x :: x in Wasted(all) ==> !R.Hits(Span(g), k, x))
            && At(Packets, Rows(g, Run(cfg, all).tables), k) == 2 * Count(Packets, Span(g), Of(all).log, k)
  {
    TornLoadExcess(cfg, a, e, g, k);
    ExcessDoubles(cfg, TornLoad(a, e, g), a, e, g, k);
  }

  lemma ExcessDoubles(cfg: Config, steps: seq<Step>, a: seq<Event>, e: Event, g: Grain, k: R.Key)
    requires Legal(steps) && Of(steps).log == a + [e] && Wasted(steps) == [e] && e.body.Status?
    requires ExcessOf(cfg, steps, Packets, g, k).row == Count(Packets, Span(g), a, k)
    ensures At(Packets, Rows(g, Run(cfg, steps).tables), k) == 2 * Count(Packets, Span(g), Of(steps).log, k)
  {
    RowIsLogWastedAndExcess(cfg, steps, Packets, g, k);
    ReadingIsNoPacket(Span(g), a, e, k);
  }

  /* ---------- the neighbor rollup ---------- */

  function NeighborAt(t: B.Table, k: B.Key): nat {
    if k in t then t[k].packets else 0
  }

  function NeighborExcessAfter(cfg: Config, s: System, x: Excess, step: Step, k: B.Key): Excess {
    match step
    case Batch(es, _) =>
      if WritesNeighbor(s, es, k) then Excess(x.row + x.mem, 0)
      else Excess(x.row, if k in Next(cfg, s, step).mem.neighbor then x.mem else 0)
    case Abort(es, f) => Excess(x.row, x.mem + if LoadsNeighborAgain(s, es, f, k) then NeighborAt(s.tables.neighbor, k) else 0)
    case Crash => Excess(x.row, 0)
    case Reset => Excess(0, 0)
  }

  function NeighborExcessOf(cfg: Config, steps: seq<Step>, k: B.Key): Excess {
    if steps == [] then Excess(0, 0)
    else
      var init := steps[..|steps| - 1];
      NeighborExcessAfter(cfg, Run(cfg, init), NeighborExcessOf(cfg, init, k), steps[|steps| - 1], k)
  }

  function NeighborCount(es: seq<Event>, k: B.Key): nat {
    B.Fold(MINUTE, es, k).packets
  }

  lemma NeighborCountConcat(a: seq<Event>, b: seq<Event>, k: B.Key)
    ensures NeighborCount(a + b, k) == NeighborCount(a, k) + NeighborCount(b, k)
  {
    B.FoldConcat(MINUTE, a, b, k);
  }

  predicate NeighborBalances(l: Ledger, h: History, x: Excess, k: B.Key) {
    && NeighborCount(l.done, k) == NeighborCount(h.absorbed, k) + x.row
    && NeighborCount(l.pending, k) == NeighborCount(h.pending, k) + x.mem
  }

  lemma NeighborBatchBalances(l: Ledger, h: History, x: Excess, es: seq<Event>, written: bool, kept: bool, cursor: nat, k: B.Key)
    requires NeighborBalances(l, h, x, k)
    requires !written ==> NeighborCount(es, k) == 0 && NeighborCount(h.pending, k) == 0
    ensures var x' := if written then Excess(x.row + x.mem, 0) else Excess(x.row, if kept then x.mem else 0);
            NeighborBalances(Committed(l, es, written, kept), Recorded(h, Batch(es, cursor)), x', k)
  {
    NeighborCountConcat(h.absorbed, h.pending + es, k);
    NeighborCountConcat(h.pending, es, k);
    NeighborCountConcat(l.done, l.pending + es, k);
    NeighborCountConcat(l.done, es, k);
    NeighborCountConcat(l.pending, es, k);
  }

  lemma NeighborAbortBalances(l: Ledger, h: History, x: Excess, es: seq<Event>, again: bool, f: Failure, row: nat, k: B.Key)
    requires NeighborBalances(l, h, x, k) && row == NeighborCount(l.done, k)
    ensures NeighborBalances(Tried(l, es, again), Recorded(h, Abort(es, f)), Excess(x.row, x.mem + if again then row else 0), k)
  {
    NeighborCountConcat(h.pending, es, k);
    NeighborCountConcat(l.done, l.pending + es, k);
    NeighborCountConcat(l.pending, es, k);
  }

  lemma UnwrittenNeighborIsNothing(cfg: Config, steps: seq<Step>, es: seq<Event>, cursor: nat, k: B.Key)
    requires Legal(steps) && Allowed(Of(steps), Batch(es, cursor)) && !WritesNeighbor(Run(cfg, steps), es, k)
    ensures NeighborCount(es, k) == 0 && NeighborCount(Of(steps).pending, k) == 0
  {
    var h := Of(steps);
    RunNeighbors(cfg, steps, k);
    RunCoherent(steps);
    B.CleanIsNothing(MINUTE, Run(cfg, steps).mem.neighbor, NeighborLedgerOf(cfg, steps, k), es, k);
    B.FoldZero(MINUTE, es, k);
    B.FoldZero(MINUTE, h.pending, k);
    assert forall e :: e in h.last ==> e in es;
  }

  lemma StoredNeighborCount(cfg: Config, steps: seq<Step>, k: B.Key)
    requires Legal(steps)
    ensures NeighborAt(Run(cfg, steps).tables.neighbor, k) == NeighborCount(NeighborLedgerOf(cfg, steps, k).done, k)
  {
    RunNeighbors(cfg, steps, k);
  }

  lemma NeighborStepBalances(cfg: Config, init: seq<Step>, step: Step, x: Excess, k: B.Key)
    requires Legal(init) && Allowed(Of(init), step)
    requires NeighborBalances(NeighborLedgerOf(cfg, init, k), Of(init), x, k)
    ensures var s := Run(cfg, init);
            NeighborBalances(NeighborLedgerAfter(cfg, s, NeighborLedgerOf(cfg, init, k), step, k), Recorded(Of(init), step),
                             NeighborExcessAfter(cfg, s, x, step, k), k)
  {
    var s, h, l := Run(cfg, init), Of(init), NeighborLedgerOf(cfg, init, k);
    match step
    case Batch(es, cursor) =>
      if !WritesNeighbor(s, es, k) {
        UnwrittenNeighborIsNothing(cfg, init, es, cursor, k);
      }
      NeighborBatchBalances(l, h, x, es, WritesNeighbor(s, es, k), k in Next(cfg, s, step).mem.neighbor, cursor, k);
    case Abort(es, f) =>
      StoredNeighborCount(cfg, init, k);
      NeighborAbortBalances(l, h, x, es, LoadsNeighborAgain(s, es, f, k), f, NeighborAt(s.tables.neighbor, k), k);
    case Crash =>
    case Reset =>
  }

  lemma {:induction false} RunNeighborBalances(cfg: Config, steps: seq<Step>, k: B.Key)
    requires Legal(steps)
    ensures NeighborBalances(NeighborLedgerOf(cfg, steps, k), Of(steps), NeighborExcessOf(cfg, steps, k), k)
  {
    if steps != [] {
      var init, step := steps[..|steps| - 1], steps[|steps| - 1];
      RunNeighborBalances(cfg, init, k);
      NeighborStepBalances(cfg, init, step, NeighborExcessOf(cfg, init, k), k);
    }
  }

  /** A neighbor row's packets, in every run: what has been absorbed, and the row
      merged again. */
  lemma NeighborIsAbsorbedAndExcess(cfg: Config, steps: seq<Step>, k: B.Key)
    requires Legal(steps)
    ensures NeighborAt(Run(cfg, steps).tables.neighbor, k)
         == NeighborCount(Of(steps).absorbed, k) + NeighborExcessOf(cfg, steps, k).row
  {
    StoredNeighborCount(cfg, steps, k);
    RunNeighborBalances(cfg, steps, k);
  }

  /** Memory holds the packets of the neighbor row once more. */
  predicate NeighborReloading(cfg: Config, steps: seq<Step>, k: B.Key) {
    if steps == [] then false
    else
      var init := steps[..|steps| - 1];
      var s := Run(cfg, init);
      match steps[|steps| - 1]
      case Batch(es, _) =>
        NeighborReloading(cfg, init, k) && !WritesNeighbor(s, es, k) && k in Next(cfg, s, steps[|steps| - 1]).mem.neighbor
      case Abort(es, f) =>
        NeighborReloading(cfg, init, k) || (LoadsNeighborAgain(s, es, f, k) && NeighborAt(s.tables.neighbor, k) > 0)
      case Crash => false
      case Reset => false
  }

  predicate NeighborDoubled(cfg: Config, steps: seq<Step>, k: B.Key) {
    if steps == [] then false
    else
      var init := steps[..|steps| - 1];
      match steps[|steps| - 1]
      case Batch(es, _) =>
        NeighborDoubled(cfg, init, k) || (NeighborReloading(cfg, init, k) && WritesNeighbor(Run(cfg, init), es, k))
      case Abort(_, _) => NeighborDoubled(cfg, init, k)
      case Crash => NeighborDoubled(cfg, init, k)
      case Reset => false
  }

  lemma {:induction false} NeighborDoubledIsExcess(cfg: Config, steps: seq<Step>, k: B.Key)
    ensures NeighborDoubled(cfg, steps, k) <==> NeighborExcessOf(cfg, steps, k).row > 0
    ensures NeighborReloading(cfg, steps, k) <==> NeighborExcessOf(cfg, steps, k).mem > 0
  {
    if steps != [] {
      NeighborDoubledIsExcess(cfg, steps[..|steps| - 1], k);
    }
  }

  lemma {:induction false} NeighborAbsorbed(steps: seq<Step>, k: B.Key)
    ensures NeighborCount(Of(steps).absorbed, k) == NeighborCount(Of(steps).log, k) + NeighborCount(Wasted(steps), k)
  {
    if steps != [] {
      var init, step := steps[..|steps| - 1], steps[|steps| - 1];
      var h := Of(init);
      NeighborAbsorbed(init, k);
      if step.Batch? {
        NeighborCountConcat(h.log, step.events, k);
        NeighborCountConcat(h.absorbed, h.pending + step.events, k);
        NeighborCountConcat(h.pending, step.events, k);
        NeighborCountConcat(Wasted(init), h.pending, k);
      }
    }
  }

  /** A neighbor row counts its packets once under the same condition. */
  lemma NeighborCountIff(cfg: Config, steps: seq<Step>, k: B.Key)
    requires Legal(steps)
    ensures NeighborAt(Run(cfg, steps).tables.neighbor, k) == NeighborCount(Of(steps).log, k)
            <==> (forall e :: e in Wasted(steps) ==> !B.Hits(MINUTE, k, e)) && !NeighborDoubled(cfg, steps, k)
  {
    NeighborIsAbsorbedAndExcess(cfg, steps, k);
    NeighborAbsorbed(steps, k);
    NeighborDoubledIsExcess(cfg, steps, k);
    B.FoldZero(MINUTE, Wasted(steps), k);
  }

  /* ---------- nodes and packet_observations ---------- */

  lemma {:induction false} ObservedNothing(es: seq<Event>)
    ensures Observed(es) == [] <==> forall e :: e in es ==> !e.body.Packet?
  {
    if es != [] {
      assert es == es[..|es| - 1] + [es[|es| - 1]];
      ObservedNothing(es[..|es| - 1]);
    }
  }

  lemma {:induction false} ObservedAbsorbed(steps: seq<Step>)
    ensures |Observed(Of(steps).absorbed)| == |Observed(Of(steps).log)| + |Observed(Wasted(steps))|
    ensures Observed(Wasted(steps)) == [] ==> Observed(Of(steps).absorbed) == Observed(Of(steps).log)
  {
    if steps != [] {
      var init, step := steps[..|steps| - 1], steps[|steps| - 1];
      var h := Of(init);
      ObservedAbsorbed(init);
      if step.Batch? {
        ObservedConcat(h.log, step.events);
        ObservedConcat(h.absorbed, h.pending + step.events);
        ObservedConcat(h.pending, step.events);
        ObservedConcat(Wasted(init), h.pending);
      }
    }
  }

  /** packet_observations is the log's packets, in order, exactly when no failed attempt
      that held a packet was followed by a commit of the same process. */
  lemma ObservationsIff(cfg: Config, steps: seq<Step>)
    requires Legal(steps)
    ensures Run(cfg, steps).tables.observations == Observed(Of(steps).log)
            <==> forall e :: e in Wasted(steps) ==> !e.body.Packet?
  {
    RunObservations(cfg, steps);
    ObservedAbsorbed(steps);
    ObservedNothing(Wasted(steps));
  }

  function Adverts(es: seq<Event>, k: Bytes): nat {
    if N.Fold(es, k).Some? then N.Fold(es, k).value.count else 0
  }

  function AdvertsAt(t: N.Table, k: Bytes): nat {
    if k in t then t[k].count else 0
  }

  lemma {:induction false} NoAdverts(es: seq<Event>, k: Bytes)
    ensures Adverts(es, k) == 0 <==> forall e :: e in es ==> !N.Hits(k, e)
    ensures N.Fold(es, k).Some? ==> Adverts(es, k) > 0
  {
    if es != [] {
      assert es == es[..|es| - 1] + [es[|es| - 1]];
      NoAdverts(es[..|es| - 1], k);
    }
  }

  lemma AdvertsConcat(a: seq<Event>, b: seq<Event>, k: Bytes)
    ensures Adverts(a + b, k) == Adverts(a, k) + Adverts(b, k)
  {
    N.FoldConcat(a, b, k);
  }

  lemma {:induction false} AdvertsAbsorbed(steps: seq<Step>, k: Bytes)
    ensures Adverts(Of(steps).absorbed, k) == Adverts(Of(steps).log, k) + Adverts(Wasted(steps), k)
  {
    if steps != [] {
      var init, step := steps[..|steps| - 1], steps[|steps| - 1];
      var h := Of(init);
      AdvertsAbsorbed(init, k);
      if step.Batch? {
        AdvertsConcat(h.log, step.events, k);
        AdvertsConcat(h.absorbed, h.pending + step.events, k);
        AdvertsConcat(h.pending, step.events, k);
        AdvertsConcat(Wasted(init), h.pending, k);
      }
    }
  }

  /** advert_count is the number of the node's adverts in the log exactly when no
      failed attempt that held one was followed by a commit of the same process. */
  lemma AdvertCountIff(cfg: Config, steps: seq<Step>, k: Bytes)
    requires Legal(steps)
    ensures AdvertsAt(Run(cfg, steps).tables.nodes, k) == Adverts(Of(steps).log, k)
            <==> forall e :: e in Wasted(steps) ==> !N.Hits(k, e)
  {
    NodeCounts(cfg, steps, k);
    AdvertsAbsorbed(steps, k);
    NoAdverts(Wasted(steps), k);
  }

  lemma NodeCounts(cfg: Config, steps: seq<Step>, k: Bytes)
    requires Legal(steps)
    ensures AdvertsAt(Run(cfg, steps).tables.nodes, k) == Adverts(Of(steps).absorbed, k)
  {
    RunNodes(cfg, steps);
    assert NodeStored(Run(cfg, steps).tables.nodes, Of(steps).absorbed, k);
  }

  /* ---------- which rows there are ---------- */

  /** In every run a bucket with packets has a row, and a row has been touched. */
  lemma PacketsArePresent(cfg: Config, steps: seq<Step>, g: Grain, k: R.Key)
    requires Legal(steps)
    ensures var rows, log := Rows(g, Run(cfg, steps).tables), Of(steps).log;
            && ((exists e :: e in log && R.Hits(Span(g), k, e)) ==> k in rows)
            && (k in rows ==> R.Touched(Span(g), log, k))
  {
    RunRollup(cfg, steps, g, k);
    RowAndFloorIff(cfg, steps, g, k);
    LostIsUnheld(cfg, steps, g, k);
    R.FoldZero(Span(g), LedgerOf(cfg, steps, g, k).done, k);
  }

  /** The last failure there can be: every stage had flushed, the commit failed. */
  const AT_COMMIT: Failure := Failure(9, U.Writing({}), R.Writing({}), B.Writing({}))

  /** The flush of an attempt that fails at the commit marks the accumulator clean. */
  lemma CleanAfterFailure(cfg: Config, e: Event, g: Grain, k: R.Key)
    requires WellTimed(e) && e.body.Status? && R.Touches(Span(g), k, e)
    ensures var s := Next(cfg, System(NO_MEMORY, NO_TABLES), Abort([e], AT_COMMIT));
            && Rows(g, s.tables) == map[]
            && k in Cache(g, s.mem) && !Cache(g, s.mem)[k].dirty && Cache(g, s.mem)[k].noiseTS == e.ts
  {
    OneReading(Span(g), map[], e, k);
    R.ReachedAt(Span(g), R.ApplyAll(Span(g), map[], [e]), map[], [], RollupReach(g, AT_COMMIT), k);
  }

  /** ... and the retried reading is no newer than itself, so nothing is written. */
  lemma RetryWritesNothing(cfg: Config, s: System, e: Event, g: Grain, k: R.Key)
    requires e.body.Status? && e.ts > 0 && R.Touches(Span(g), k, e)
    requires k in Cache(g, s.mem) && !Cache(g, s.mem)[k].dirty && Cache(g, s.mem)[k].noiseTS == e.ts && k !in Rows(g, s.tables)
    ensures k !in Rows(g, Next(cfg, s, Batch([e], 1)).tables)
  {
    OneReading(Span(g), Cache(g, s.mem), e, k);
    CommitRows(cfg, Apply(s.mem, [e]), s.tables, 1, HighWater([e]), g);
  }

  lemma LostAfter(cfg: Config, steps: seq<Step>, e: Event, g: Grain, k: R.Key)
    requires e.body.Status? && e.ts > 0 && R.Touches(Span(g), k, e)
    requires Run(cfg, steps) == Next(cfg, System(NO_MEMORY, NO_TABLES), Abort([e], AT_COMMIT)) && WellTimed(e)
    ensures k !in Rows(g, Run(cfg, steps + [Batch([e], 1)]).tables)
  {
    CleanAfterFailure(cfg, e, g, k);
    RetryWritesNothing(cfg, Run(cfg, steps), e, g, k);
    Snoc(cfg, steps, Batch([e], 1));
  }

  lemma FailedOnce(cfg: Config, e: Event)
    requires WellTimed(e)
    ensures var one := [Abort([e], AT_COMMIT)];
            && Run(cfg, one) == Next(cfg, System(NO_MEMORY, NO_TABLES), Abort([e], AT_COMMIT))
            && Legal(one + [Batch([e], 1)]) && Of(one + [Batch([e], 1)]).log == [e]
  {
    var one := [Abort([e], AT_COMMIT)];
    assert [] + one == one && [] + [e] == [e];
    Snoc(cfg, [], Abort([e], AT_COMMIT));
    SnocHistory(one, Batch([e], 1));
  }

  /** A bucket with statuses only may have no row. */
  lemma LostReading(cfg: Config, e: Event, g: Grain, k: R.Key)
    requires WellTimed(e) && e.body.Status? && R.Touches(Span(g), k, e)
    ensures var steps := [Abort([e], AT_COMMIT)] + [Batch([e], 1)];
            && Legal(steps) && R.Touched(Span(g), Of(steps).log, k)
            && k !in Rows(g, Run(cfg, steps).tables)
  {
    FailedOnce(cfg, e);
    LostAfter(cfg, [Abort([e], AT_COMMIT)], e, g, k);
    assert [e][0] in [e];
  }
}
