/** The projector as a state machine: what one attempt to process a batch does
    to memory and to the tables, and which events each of them has absorbed. */
module Projection {
  import opened Events
  import opened PacketObservationsStage
  import opened RollupCore
  import O = ObserversStage
  import S = ObserverStatusStage
  import N = NodesStage
  import U = PacketsUniqueStage
  import R = RollupObserverStage
  import B = RollupNeighborStage
  import A = AnomaliesStage

  datatype Tables = Tables(
    observers: O.Table,
    status: S.Table,
    nodes: N.Table,
    unique: U.Table,
    minute: R.Table,
    hour: R.Table,
    neighbor: B.Table,
    observations: seq<Observation>,
    anomalies: A.Table,
    cursor: nat)

  const NO_TABLES: Tables := Tables(map[], map[], map[], map[], map[], map[], map[], [], [], 0)

  datatype Memory = Memory(
    observers: O.State,
    status: seq<S.Sample>,
    nodes: N.State,
    unique: U.State,
    minute: R.State,
    hour: R.State,
    neighbor: B.State,
    observations: seq<Observation>,
    clock: A.Clock)

  const NO_MEMORY: Memory := Memory(map[], [], map[], map[], map[], map[], map[], [], A.STOPPED)

  datatype System = System(mem: Memory, tables: Tables)

  /** How long each cache keeps an entry, and the anomaly rules. */
  datatype Config = Config(
    unique: Time,
    minute: Time,
    hour: Time,
    neighbor: Time,
    detectors: seq<A.Detector<Tables>>)

  /** The two observer rollups differ in bucket size, retention and flush order. */
  datatype Grain = PerMinute | PerHour

  function Span(g: Grain): Duration {
    if g == PerMinute then MINUTE else HOUR
  }

  function Cache(g: Grain, m: Memory): R.State {
    if g == PerMinute then m.minute else m.hour
  }

  function Rows(g: Grain, t: Tables): R.Table {
    if g == PerMinute then t.minute else t.hour
  }

  function Retention(g: Grain, cfg: Config): Time {
    if g == PerMinute then cfg.minute else cfg.hour
  }

  /* ---------- one attempt ---------- */

  function Apply(m: Memory, es: seq<Event>): Memory {
    Memory(O.ApplyAll(m.observers, es), m.status + S.Samples(es), N.ApplyAll(m.nodes, es),
           U.ApplyAll(m.unique, es), R.ApplyAll(MINUTE, m.minute, es), R.ApplyAll(HOUR, m.hour, es),
           B.ApplyAll(MINUTE, m.neighbor, es), m.observations + Observed(es), A.Advance(m.clock, es))
  }

  /** Memory after every stage has flushed. */
  function FlushMemory(m: Memory, t: Tables): Memory {
    m.(unique := U.FlushState(m.unique, t.unique, t.observations),
       minute := R.FlushState(MINUTE, m.minute, t.minute, t.observations),
       hour := R.FlushState(HOUR, m.hour, t.hour, t.observations),
       neighbor := B.FlushState(m.neighbor, t.neighbor),
       clock := A.Flushed(m.clock))
  }

  /** The tables a transaction holds when the anomaly stage flushes: the caches
      have read packet_observations as it was before this batch's rows. */
  function FlushDerived(m: Memory, t: Tables): Tables {
    t.(observers := O.FlushTable(m.observers, t.observers),
       status := S.InsertAll(t.status, m.status),
       nodes := N.FlushTable(m.nodes, t.nodes),
       unique := U.FlushTable(m.unique, t.unique, t.observations),
       minute := R.FlushTable(MINUTE, m.minute, t.minute, t.observations),
       hour := R.FlushTable(HOUR, m.hour, t.hour, t.observations),
       neighbor := B.FlushTable(m.neighbor, t.neighbor),
       observations := t.observations + m.observations)
  }

  /** What the detectors' queries see of them: no rule reads the anomalies. */
  function View(m: Memory, t: Tables): Tables {
    FlushDerived(m, t).(anomalies := [])
  }

  /** ... and after it, when the detectors have read them. */
  function Flushed(cfg: Config, m: Memory, t: Tables): Tables {
    FlushDerived(m, t).(anomalies := A.Ticked(t.anomalies, A.TicksOf(cfg.detectors, View(m, t), A.Due(m.clock))))
  }

  function FlushTables(cfg: Config, m: Memory, t: Tables, cursor: nat): Tables {
    Flushed(cfg, m, t).(cursor := cursor)
  }

  function Evict(cfg: Config, m: Memory, hwm: Time): Memory {
    Memory(map[], [], map[], U.Evicted(cfg.unique, m.unique, hwm), R.Evicted(MINUTE, cfg.minute, m.minute, hwm),
           R.Evicted(HOUR, cfg.hour, m.hour, hwm), B.Evicted(MINUTE, cfg.neighbor, m.neighbor, hwm), [], m.clock)
  }

  /** How many of the nine stages had flushed when the attempt failed, and how
      far the next one had come if it is one that keeps memory across batches. */
  datatype Failure = Failure(flushed: nat, unique: U.Tear, rollup: R.Tear, neighbor: B.Tear)

  /** Where the failure stopped the stage with this position. */
  function Stopped<T>(f: Failure, stage: nat, tear: T): Reach<T> {
    if f.flushed < stage then Before else if f.flushed == stage then Within(tear) else After
  }

  function UniqueReach(f: Failure): Reach<U.Tear> {
    Stopped(f, 3, f.unique)
  }

  function RollupReach(g: Grain, f: Failure): Reach<R.Tear> {
    Stopped(f, if g == PerMinute then 4 else 5, f.rollup)
  }

  function NeighborReach(f: Failure): Reach<B.Tear> {
    Stopped(f, 6, f.neighbor)
  }

  /** Memory keeps what it absorbed when the transaction is rolled back. */
  function AbortMemory(m: Memory, t: Tables, f: Failure): Memory {
    m.(unique := U.Reached(m.unique, t.unique, t.observations, UniqueReach(f)),
       minute := R.Reached(MINUTE, m.minute, t.minute, t.observations, RollupReach(PerMinute, f)),
       hour := R.Reached(HOUR, m.hour, t.hour, t.observations, RollupReach(PerHour, f)),
       neighbor := B.Reached(m.neighbor, t.neighbor, NeighborReach(f)),
       clock := if f.flushed > 8 then A.Flushed(m.clock) else m.clock)
  }

  /* ---------- runs ---------- */

  datatype Step =
    | Batch(events: seq<Event>, cursor: nat)
    | Abort(events: seq<Event>, failure: Failure)
    | Crash
    | Reset

  /** Flush, commit, and evict if the batch had a high-water mark. */
  function Commit(cfg: Config, m: Memory, t: Tables, cursor: nat, hwm: Time): System {
    System(Kept(cfg, FlushMemory(m, t), hwm), FlushTables(cfg, m, t, cursor))
  }

  function Kept(cfg: Config, m: Memory, hwm: Time): Memory {
    if hwm != 0 then Evict(cfg, m, hwm) else m
  }

  function Next(cfg: Config, s: System, step: Step): System {
    match step
    case Batch(es, cursor) => Commit(cfg, Apply(s.mem, es), s.tables, cursor, HighWater(es))
    case Abort(es, failure) => System(AbortMemory(Apply(s.mem, es), s.tables, failure), s.tables)
    case Crash => System(NO_MEMORY, s.tables)
    case Reset => System(NO_MEMORY, NO_TABLES)
  }

  function Run(cfg: Config, steps: seq<Step>): System {
    if steps == [] then System(NO_MEMORY, NO_TABLES)
    else Next(cfg, Run(cfg, steps[..|steps| - 1]), steps[|steps| - 1])
  }

  /** `log` is the decoded log up to the cursor; `absorbed` what the tables have
      counted; `pending` what memory has counted beyond that, in failed attempts
      of which the latest is `last`. */
  datatype History = History(log: seq<Event>, absorbed: seq<Event>, pending: seq<Event>, last: seq<Event>)

  function Recorded(h: History, step: Step): History {
    match step
    case Batch(es, _) => History(h.log + es, h.absorbed + (h.pending + es), [], [])
    case Abort(es, _) => History(h.log, h.absorbed, h.pending + es, es)
    case Crash => History(h.log, h.absorbed, [], [])
    case Reset => History([], [], [], [])
  }

  function Of(steps: seq<Step>): History {
    if steps == [] then History([], [], [], []) else Recorded(Of(steps[..|steps| - 1]), steps[|steps| - 1])
  }

  /** The batch after a failed one is read from the same cursor, so it starts
      with the failed one. */
  predicate Allowed(h: History, step: Step) {
    match step
    case Batch(es, _) => h.last <= es && AllWellTimed(es)
    case Abort(es, _) => h.last <= es && AllWellTimed(es)
    case Crash => true
    case Reset => true
  }

  predicate Legal(steps: seq<Step>) {
    steps == [] || (Legal(steps[..|steps| - 1]) && Allowed(Of(steps[..|steps| - 1]), steps[|steps| - 1]))
  }

  lemma SnocHistory(steps: seq<Step>, step: Step)
    ensures Of(steps + [step]) == Recorded(Of(steps), step)
    ensures Legal(steps + [step]) <==> Legal(steps) && Allowed(Of(steps), step)
  {
    var all := steps + [step];
    assert all[..|all| - 1] == steps && all[|all| - 1] == step;
  }

  lemma Snoc(cfg: Config, steps: seq<Step>, step: Step)
    ensures Run(cfg, steps + [step]) == Next(cfg, Run(cfg, steps), step)
    ensures Of(steps + [step]) == Recorded(Of(steps), step)
    ensures Legal(steps + [step]) <==> Legal(steps) && Allowed(Of(steps), step)
  {
    SnocHistory(steps, step);
    var all := steps + [step];
    assert all[..|all| - 1] == steps && all[|all| - 1] == step;
  }

  /** The stored cursor. */
  function CursorOf(steps: seq<Step>): nat {
    if steps == [] then 0
    else
      match steps[|steps| - 1]
      case Batch(_, cursor) => cursor
      case Abort(_, _) => CursorOf(steps[..|steps| - 1])
      case Crash => CursorOf(steps[..|steps| - 1])
      case Reset => 0
  }

  lemma {:induction false} RunCursor(cfg: Config, steps: seq<Step>)
    ensures Run(cfg, steps).tables.cursor == CursorOf(steps)
  {
    if steps != [] {
      RunCursor(cfg, steps[..|steps| - 1]);
    }
  }

  /** Each commit moves the cursor on. */
  predicate Advances(steps: seq<Step>) {
    steps == [] || (
      var init, step := steps[..|steps| - 1], steps[|steps| - 1];
      Advances(init) && (step.Batch? ==> step.cursor > CursorOf(init)))
  }

  /** The log and what was absorbed hold the same events, up to repetition. */
  ghost predicate Coherent(h: History) {
    && (forall e :: e in h.absorbed <==> e in h.log)
    && (forall e :: e in h.pending ==> e in h.last)
    && AllWellTimed(h.log) && AllWellTimed(h.absorbed) && AllWellTimed(h.pending)
    && (h.last == [] ==> h.pending == [])
  }

  lemma RecordedCoherent(h: History, step: Step)
    requires Coherent(h) && Allowed(h, step)
    ensures Coherent(Recorded(h, step))
  {
    match step
    case Batch(es, _) =>
      assert forall e :: e in h.last ==> e in es;
      assert forall e :: e in h.absorbed + (h.pending + es) <==> e in h.absorbed || e in h.pending || e in es;
    case Abort(es, _) =>
      assert forall e :: e in h.last ==> e in es;
      if es == [] {
        assert h.pending == [];
      }
    case Crash =>
    case Reset =>
  }

  lemma {:induction false} RunCoherent(steps: seq<Step>)
    requires Legal(steps)
    ensures Coherent(Of(steps))
  {
    if steps != [] {
      RunCoherent(steps[..|steps| - 1]);
      RecordedCoherent(Of(steps[..|steps| - 1]), steps[|steps| - 1]);
    }
  }

  /* ---------- what each rollup row has counted ---------- */

  /** Whether a batch makes the flush write the bucket. */
  predicate Writes(s: System, es: seq<Event>, g: Grain, k: R.Key) {
    var applied := R.ApplyAll(Span(g), Cache(g, s.mem), es);
    k in applied && applied[k].dirty
  }

  /** Whether a failed attempt merges the bucket's row and leaves it to be loaded again. */
  predicate LoadsAgain(s: System, es: seq<Event>, f: Failure, g: Grain, k: R.Key) {
    R.Again(R.ApplyAll(Span(g), Cache(g, s.mem), es), k, RollupReach(g, f))
  }

  function LedgerAfter(cfg: Config, s: System, l: Ledger, step: Step, g: Grain, k: R.Key): Ledger {
    match step
    case Batch(es, _) => Committed(l, es, Writes(s, es, g, k), k in Cache(g, Next(cfg, s, step).mem))
    case Abort(es, f) => Tried(l, es, LoadsAgain(s, es, f, g, k))
    case Crash => Ledger(l.done, [])
    case Reset => Ledger([], [])
  }

  function LedgerOf(cfg: Config, steps: seq<Step>, g: Grain, k: R.Key): Ledger {
    if steps == [] then Ledger([], [])
    else
      var init := steps[..|steps| - 1];
      LedgerAfter(cfg, Run(cfg, init), LedgerOf(cfg, init, g, k), steps[|steps| - 1], g, k)
  }

  predicate WritesNeighbor(s: System, es: seq<Event>, k: B.Key) {
    var applied := B.ApplyAll(MINUTE, s.mem.neighbor, es);
    k in applied && applied[k].dirty
  }

  predicate LoadsNeighborAgain(s: System, es: seq<Event>, f: Failure, k: B.Key) {
    B.Again(B.ApplyAll(MINUTE, s.mem.neighbor, es), k, NeighborReach(f))
  }

  function NeighborLedgerAfter(cfg: Config, s: System, l: Ledger, step: Step, k: B.Key): Ledger {
    match step
    case Batch(es, _) => Committed(l, es, WritesNeighbor(s, es, k), k in Next(cfg, s, step).mem.neighbor)
    case Abort(es, f) => Tried(l, es, LoadsNeighborAgain(s, es, f, k))
    case Crash => Ledger(l.done, [])
    case Reset => Ledger([], [])
  }

  function NeighborLedgerOf(cfg: Config, steps: seq<Step>, k: B.Key): Ledger {
    if steps == [] then Ledger([], [])
    else
      var init := steps[..|steps| - 1];
      NeighborLedgerAfter(cfg, Run(cfg, init), NeighborLedgerOf(cfg, init, k), steps[|steps| - 1], k)
  }

  /** A ledger holds the events of the log, and of the failed attempt, up to repetition. */
  ghost predicate Fits(l: Ledger, h: History) {
    && (forall e :: e in l.done <==> e in h.log)
    && (forall e :: e in l.pending ==> e in h.log || e in h.last)
  }

  lemma CommittedFits(l: Ledger, h: History, es: seq<Event>, written: bool, kept: bool, cursor: nat)
    requires Fits(l, h) && h.last <= es
    ensures Fits(Committed(l, es, written, kept), Recorded(h, Batch(es, cursor)))
  {
    assert forall e :: e in h.last ==> e in es;
  }

  lemma TriedFits(l: Ledger, h: History, es: seq<Event>, again: bool, f: Failure)
    requires Fits(l, h) && h.last <= es
    ensures Fits(Tried(l, es, again), Recorded(h, Abort(es, f)))
  {
    assert forall e :: e in h.last ==> e in es;
  }

  /* ---------- the invariant of every stage ---------- */

  ghost predicate ObservationsOK(s: System, h: History) {
    s.mem.observations == Observed(h.pending) && s.tables.observations == Observed(h.absorbed)
  }

  ghost predicate RollupOK(g: Grain, s: System, l: Ledger, k: R.Key) {
    R.Cached(Span(g), Get(Cache(g, s.mem), k), l, [], k) && R.Stored(Span(g), Get(Rows(g, s.tables), k), l.done, k)
  }

  ghost predicate NeighborOK(s: System, l: Ledger, k: B.Key) {
    B.Cached(MINUTE, Get(s.mem.neighbor, k), l, [], k) && B.Stored(MINUTE, Get(s.tables.neighbor, k), l.done, k)
  }

  ghost predicate UniqueOK(s: System, h: History) {
    forall k :: U.Cached(Get(s.mem.unique, k), h.log, h.last, k) && U.Stored(Get(s.tables.unique, k), h.log, k)
  }

  ghost predicate NodesOK(s: System, h: History) {
    forall k :: Get(s.mem.nodes, k) == N.Fold(h.pending, k) && NodeStored(s.tables.nodes, h.absorbed, k)
  }

  predicate NodeStored(t: N.Table, done: seq<Event>, k: Bytes) {
    Get(t, k) == if N.Fold(done, k).Some? then Some(N.RowOf(N.Fold(done, k).value)) else None
  }

  ghost predicate ObserversOK(s: System, h: History) {
    forall k :: Get(s.mem.observers, k) == O.Fold(h.last, k) && Get(s.tables.observers, k) == O.Fold(h.log, k)
  }

  ghost predicate StatusOK(s: System, h: History) {
    forall k :: StatusRow(s.mem.status, h.last, k) && Get(s.tables.status, k) == S.First(S.Samples(h.log), k)
  }

  predicate StatusRow(buf: seq<S.Sample>, last: seq<Event>, k: S.Key) {
    && (S.First(buf, k).Some? ==> S.First(buf, k) == S.First(S.Samples(last), k))
    && (last == [] ==> buf == [])
  }
}
