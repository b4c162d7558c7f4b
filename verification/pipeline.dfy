/** Pipeline.ProcessBatch over the stage objects and the database, step by step
    what Projection says it does. */
module PipelineSteps {
  import opened Events
  import opened PacketObservationsStage
  import opened Projection
  import O = ObserversStage
  import S = ObserverStatusStage
  import N = NodesStage
  import U = PacketsUniqueStage
  import R = RollupObserverStage
  import B = RollupNeighborStage
  import A = AnomaliesStage

  /** The committed tables. A transaction is a copy that is installed or dropped. */
  class Database {
    var tables: Tables

    constructor ()
      ensures tables == NO_TABLES
    {
      tables := NO_TABLES;
    }
  }

  /** A database that works, or one that fails when the n-th stage (the ninth is
      the cursor and the commit) has been given `results` answers, or right after
      that stage if it needs no more. */
  datatype Fault = Healthy | Fails(stage: nat, results: nat)

  function Left(fault: Fault, stage: nat): Option<nat> {
    if fault.Fails? && fault.stage == stage then Some(fault.results) else None
  }

  /** A failure between two stages. */
  function Untorn(flushed: nat): Failure {
    Failure(flushed, U.Writing({}), R.Merging({}), B.Merging({}))
  }

  class Pipeline {
    const cfg: Config
    const db: Database
    const observers: O.Observers
    const status: S.ObserverStatus
    const nodes: N.Nodes
    const unique: U.PacketsUnique
    const minute: R.RollupObserver
    const hour: R.RollupObserver
    const neighbor: B.RollupNeighbor1m
    const observations: PacketObservations
    const anomalies: A.Anomalies<Tables>

    ghost function Stages(): set<object> {
      {observers, status, nodes, unique, minute, hour, neighbor, observations, anomalies}
    }

    ghost predicate Valid()
      reads Stages()
    {
      && minute != hour
      && minute.bucketDur == MINUTE && minute.retention == cfg.minute && R.AlignedKeys(MINUTE, minute.state)
      && hour.bucketDur == HOUR && hour.retention == cfg.hour && R.AlignedKeys(HOUR, hour.state)
      && unique.retention == cfg.unique && neighbor.retention == cfg.neighbor
      && anomalies.detectors == cfg.detectors && anomalies.hwm >= 0
      && forall r :: r in status.buf ==> r.observer in observers.touched
    }

    ghost function Mem(): Memory
      reads Stages()
    {
      Memory(observers.touched, status.buf, nodes.touched, unique.state, minute.state, hour.state,
             neighbor.state, observations.buf, anomalies.Now())
    }

    constructor (cfg: Config, db: Database)
      ensures Valid() && fresh(Stages()) && this.cfg == cfg && this.db == db
      ensures Mem() == NO_MEMORY
    {
      this.cfg, this.db := cfg, db;
      observers := new O.Observers();
      status := new S.ObserverStatus();
      nodes := new N.Nodes();
      unique := new U.PacketsUnique(cfg.unique);
      minute := new R.RollupObserver(MINUTE, cfg.minute);
      hour := new R.RollupObserver(HOUR, cfg.hour);
      neighbor := new B.RollupNeighbor1m(cfg.neighbor);
      observations := new PacketObservations();
      anomalies := new A.Anomalies(cfg.detectors);
    }

    /** Nothing happens without a cursor. Otherwise the batch is committed with its
        cursor as one step, or memory has absorbed it and the tables are as before. */
    method ProcessBatch(events: seq<Event>, newCursor: nat, fault: Fault) returns (ok: bool, ghost failure: Failure)
      requires Valid()
      modifies Stages(), db
      ensures Valid()
      ensures newCursor == 0 ==> ok && Mem() == old(Mem()) && db.tables == old(db.tables)
      ensures newCursor > 0 ==> (ok <==> fault.Healthy?)
      ensures newCursor > 0 && ok ==>
                System(Mem(), db.tables) == Next(cfg, old(System(Mem(), db.tables)), Batch(events, newCursor))
      ensures newCursor > 0 && !ok ==>
                System(Mem(), db.tables) == Next(cfg, old(System(Mem(), db.tables)), Abort(events, failure))
    {
      failure := Untorn(0);
      ok := true;
      if newCursor > 0 {
        ghost var before := System(Mem(), db.tables);
        var hwm := ApplyAll(events);
        ghost var applied := Mem();
        ok, failure := Transact(newCursor, hwm, fault);
        NextBatch(cfg, before, events, newCursor, applied);
      }
    }

    /** The transaction, and what follows its commit. */
    method Transact(newCursor: nat, hwm: Time, fault: Fault) returns (ok: bool, ghost failure: Failure)
      requires Valid()
      modifies Stages(), db
      ensures Valid()
      ensures ok <==> fault.Healthy?
      ensures ok ==> db.tables == Flushed(cfg, old(Mem()), old(db.tables)).(cursor := newCursor)
      ensures ok ==> Mem() == Kept(cfg, FlushMemory(old(Mem()), old(db.tables)), hwm)
      ensures !ok ==> db.tables == old(db.tables) && Mem() == AbortMemory(old(Mem()), old(db.tables), failure)
    {
      ghost var m, t := Mem(), db.tables;
      var tx;
      ok, tx, failure := FlushAll(db.tables, fault);
      if ok {
        if fault.Fails? {
          ok, failure := false, Untorn(9);
          AbortAfterAll(m, t, failure);
        } else {
          Install(tx.(cursor := newCursor), hwm);
        }
      }
    }

    /** After the commit: notifications, and eviction if the batch had events. */
    method Install(tx: Tables, hwm: Time)
      requires Valid()
      modifies Stages(), db
      ensures Valid() && db.tables == tx
      ensures Mem() == Kept(cfg, old(Mem()), hwm)
    {
      db.tables := tx;
      anomalies.Notify();
      if hwm != 0 {
        EvictAll(hwm);
      }
    }

    method ApplyAll(events: seq<Event>) returns (hwm: Time)
      requires Valid()
      modifies Stages()
      ensures Valid() && hwm == HighWater(events)
      ensures Mem() == Apply(old(Mem()), events)
    {
      hwm := 0;
      ApplyNone(Mem());
      for i := 0 to |events|
        invariant Valid() && hwm == HighWater(events[..i])
        invariant Mem() == Apply(old(Mem()), events[..i])
      {
        var e := events[i];
        assert events[..i + 1] == events[..i] + [e];
        ApplySnoc(old(Mem()), events[..i], e);
        if e.ts > hwm {
          hwm := e.ts;
        }
        ApplyOne(e);
      }
      assert events[..|events|] == events;
    }

    method ApplyOne(e: Event)
      requires Valid()
      modifies Stages()
      ensures Valid() && Mem() == AppliedOne(old(Mem()), e)
    {
      observers.Apply(e);
      status.Apply(e);
      nodes.Apply(e);
      unique.Apply(e);
      ApplyRollups(e);
      observations.Apply(e);
      anomalies.Apply(e);
    }

    method ApplyRollups(e: Event)
      requires minute != hour && minute.bucketDur == MINUTE && hour.bucketDur == HOUR
      requires R.AlignedKeys(MINUTE, minute.state) && R.AlignedKeys(HOUR, hour.state)
      modifies minute, hour, neighbor
      ensures R.AlignedKeys(MINUTE, minute.state) && R.AlignedKeys(HOUR, hour.state)
      ensures minute.state == R.ApplyEvent(MINUTE, old(minute.state), e)
      ensures hour.state == R.ApplyEvent(HOUR, old(hour.state), e)
      ensures neighbor.state == B.ApplyEvent(MINUTE, old(neighbor.state), e)
    {
      R.ApplyAllAligned(MINUTE, minute.state, [e]);
      R.ApplyAllAligned(HOUR, hour.state, [e]);
      ApplySingle(minute.state, hour.state, e);
      minute.Apply(e);
      hour.Apply(e);
      neighbor.Apply(e);
    }

    method FlushAll(tables: Tables, fault: Fault) returns (ok: bool, tx: Tables, ghost failure: Failure)
      requires Valid()
      modifies Stages()
      ensures Valid()
      ensures fault.Healthy? ==> ok
      ensures ok ==> Mem() == FlushMemory(old(Mem()), tables) && tx == Flushed(cfg, old(Mem()), tables)
      ensures !ok ==> Mem() == AbortMemory(old(Mem()), tables, failure)
    {
      if fault.Fails? && fault.stage < 3 {
        StoppedBefore(Mem(), tables);
        return false, tables, Untorn(0);
      }
      tx := FlushFirst(tables);
      FirstIsApart(cfg, Mem(), tables);
      ok, tx, failure := FlushLater(tx, fault);
    }

    /** packets_unique and the stages after it. */
    method FlushLater(tables: Tables, fault: Fault) returns (ok: bool, tx: Tables, ghost failure: Failure)
      requires Valid()
      modifies unique, minute, hour, neighbor, observations, anomalies
      ensures Valid() && (fault.Healthy? ==> ok)
      ensures ok ==> Mem() == FlushMemory(old(Mem()), tables) && tx == LaterTables(cfg, old(Mem()), tables)
      ensures !ok ==> Mem() == AbortMemory(old(Mem()), tables, failure)
    {
      ghost var m := Mem();
      ok, tx, failure := FlushUnique(tables, fault);
      if ok {
        UniqueIsApart(cfg, m, tables);
        ok, tx, failure := FlushRollups(tx, fault);
        if !ok {
          StoppedLater(m, tables, failure);
        }
      }
    }

    method FlushUnique(tables: Tables, fault: Fault) returns (ok: bool, tx: Tables, ghost failure: Failure)
      requires Valid()
      modifies unique
      ensures Valid() && (fault.Healthy? ==> ok)
      ensures ok ==> Mem() == FlushedUnique(old(Mem()), tables) && tx == UniqueTables(old(Mem()), tables)
      ensures !ok ==> Mem() == AbortMemory(old(Mem()), tables, failure)
    {
      ghost var m := Mem();
      ghost var reach;
      ok, tx, reach := ReachUnique(tables, fault);
      failure := if reach.Within? then Untorn(3).(unique := reach.tear) else Untorn(4);
      StoppedAtUnique(m, tables, failure);
    }

    method ReachUnique(tables: Tables, fault: Fault) returns (ok: bool, tx: Tables, ghost reach: Reach<U.Tear>)
      requires Valid()
      modifies unique
      ensures Valid() && (fault.Healthy? ==> ok) && !reach.Before?
      ensures Mem() == old(Mem()).(unique := U.Reached(old(unique.state), tables.unique, tables.observations, reach))
      ensures ok ==> reach.After? && tx == UniqueTables(old(Mem()), tables)
    {
      ghost var tear;
      var rows;
      ok, rows, tear := unique.Flush(tables.unique, tables.observations, Left(fault, 3));
      reach := if ok then After else Within(tear);
      tx := if ok then tables.(unique := rows) else tables;
      ok := ok && !(fault.Fails? && fault.stage == 3);
    }

    /** The stages before packets_unique. A status row's observer has been flushed
        before it, so the foreign key always holds. */
    method FlushFirst(tables: Tables) returns (tx: Tables)
      requires Valid()
      ensures tx == FirstTables(Mem(), tables)
    {
      var observerRows := observers.Flush(tables.observers);
      var referenced, statusRows := status.Flush(tables.status, observerRows.Keys);
      assert referenced;
      var nodeRows := nodes.Flush(tables.nodes);
      tx := tables.(observers := observerRows, status := statusRows, nodes := nodeRows);
    }

    /** One observer rollup, and how far it came. */
    static method FlushRollup(stage: nat, r: R.RollupObserver, rows: R.Table, po: seq<Observation>, fault: Fault)
      returns (ok: bool, rows': R.Table, ghost reach: Reach<R.Tear>)
      requires R.AlignedKeys(r.bucketDur, r.state)
      modifies r
      ensures fault.Healthy? ==> ok
      ensures r.state == R.Reached(r.bucketDur, old(r.state), rows, po, reach) && !reach.Before?
      ensures ok ==> reach.After? && rows' == R.FlushTable(r.bucketDur, old(r.state), rows, po)
      ensures R.AlignedKeys(r.bucketDur, r.state)
    {
      ghost var tear;
      ok, rows', tear := r.Flush(rows, po, Left(fault, stage));
      reach := if ok then After else Within(tear);
      ok := ok && !(fault.Fails? && fault.stage == stage);
    }

    /** The stages after packets_unique. */
    method FlushRollups(tables: Tables, fault: Fault) returns (ok: bool, tx: Tables, ghost failure: Failure)
      requires Valid()
      modifies minute, hour, neighbor, observations, anomalies
      ensures Valid() && (fault.Healthy? ==> ok)
      ensures ok ==> Mem() == FlushedLate(old(Mem()), tables) && tx == LateTables(cfg, old(Mem()), tables)
      ensures !ok ==> failure.flushed >= 4 && Mem() == AbortedLate(old(Mem()), tables, failure)
    {
      ghost var m := Mem();
      ghost var reach;
      ok, tx, reach := FlushMinute(tables, fault);
      if ok {
        ok, tx, failure := FlushHour(tx, fault);
        if !ok {
          StoppedAfterMinute(m, tables, failure);
        }
      } else {
        failure := FailureAt(4, reach);
        StoppedAtMinute(m, tables, reach);
      }
    }

    method FlushMinute(tables: Tables, fault: Fault) returns (ok: bool, tx: Tables, ghost reach: Reach<R.Tear>)
      requires Valid()
      modifies minute
      ensures Valid() && (fault.Healthy? ==> ok) && !reach.Before?
      ensures Mem() == old(Mem()).(minute := R.Reached(MINUTE, old(minute.state), tables.minute, tables.observations, reach))
      ensures ok ==> reach.After?
      ensures tx == if ok then tables.(minute := R.FlushTable(MINUTE, old(minute.state), tables.minute, tables.observations)) else tables
    {
      var rows;
      ok, rows, reach := FlushRollup(4, minute, tables.minute, tables.observations, fault);
      tx := if ok then tables.(minute := rows) else tables;
    }

    method FlushHour(tables: Tables, fault: Fault) returns (ok: bool, tx: Tables, ghost failure: Failure)
      requires Valid()
      modifies hour, neighbor, observations, anomalies
      ensures Valid() && (fault.Healthy? ==> ok)
      ensures ok ==> Mem() == FlushedFromHour(old(Mem()), tables) && tx == TablesFromHour(cfg, old(Mem()), tables)
      ensures !ok ==> failure.flushed >= 5 && Mem() == AbortedFromHour(old(Mem()), tables, failure)
    {
      ghost var m := Mem();
      ghost var reach;
      ok, tx, reach := FlushHourRows(tables, fault);
      if ok {
        ok, tx, failure := FlushLast(tx, fault);
        if !ok {
          StoppedAfterHour(m, tables, failure);
        }
      } else {
        failure := FailureAt(5, reach);
        StoppedAtHour(m, tables, reach);
      }
    }

    method FlushHourRows(tables: Tables, fault: Fault) returns (ok: bool, tx: Tables, ghost reach: Reach<R.Tear>)
      requires Valid()
      modifies hour
      ensures Valid() && (fault.Healthy? ==> ok) && !reach.Before?
      ensures Mem() == old(Mem()).(hour := R.Reached(HOUR, old(hour.state), tables.hour, tables.observations, reach))
      ensures ok ==> reach.After?
      ensures tx == if ok then tables.(hour := R.FlushTable(HOUR, old(hour.state), tables.hour, tables.observations)) else tables
    {
      var rows;
      ok, rows, reach := FlushRollup(5, hour, tables.hour, tables.observations, fault);
      tx := if ok then tables.(hour := rows) else tables;
    }

    /** The stages after the observer rollups. */
    method FlushLast(tables: Tables, fault: Fault) returns (ok: bool, tx: Tables, ghost failure: Failure)
      requires Valid()
      modifies neighbor, observations, anomalies
      ensures Valid() && (fault.Healthy? ==> ok)
      ensures ok ==> Mem() == FlushedLast(old(Mem()), tables) && tx == LastTables(cfg, old(Mem()), tables)
      ensures !ok ==> 6 <= failure.flushed <= 8 && Mem() == AbortedLast(old(Mem()), tables, failure)
    {
      ok, tx, failure := FlushNeighbors(tables, fault);
      if ok {
        tx := FlushAnomalies(tx);
      }
    }

    method FlushNeighbors(tables: Tables, fault: Fault) returns (ok: bool, tx: Tables, ghost failure: Failure)
      requires Valid()
      modifies neighbor
      ensures Valid() && (fault.Healthy? ==> ok)
      ensures ok ==> Mem() == old(Mem()).(neighbor := B.FlushState(old(neighbor.state), tables.neighbor))
      ensures ok ==> tx == tables.(neighbor := B.FlushTable(old(neighbor.state), tables.neighbor))
      ensures !ok ==> 6 <= failure.flushed <= 8 && Mem() == AbortedLast(old(Mem()), tables, failure)
    {
      ghost var m := Mem();
      ghost var tear;
      var rows;
      ok, rows, tear := neighbor.Flush(tables.neighbor, Left(fault, 6));
      StoppedAtNeighbor(m, tables, tear);
      failure := if ok then Untorn(7) else Untorn(6).(neighbor := tear);
      tx := if ok then tables.(neighbor := rows) else tables;
      ok := ok && !(fault.Fails? && 6 <= fault.stage <= 8);
    }

    /** packet_observations and then the anomalies. */
    method FlushAnomalies(tables: Tables) returns (tx: Tables)
      requires Valid()
      modifies observations, anomalies
      ensures Valid()
      ensures Mem() == old(Mem()).(clock := A.Flushed(old(Mem()).clock))
      ensures tx == AnomalyTables(cfg, old(Mem()), tables)
    {
      var rows := observations.Flush(tables.observations);
      tx := tables.(observations := rows);
      var anomalyRows := anomalies.Flush(tx.(anomalies := []), tx.anomalies);
      tx := tx.(anomalies := anomalyRows);
    }

    method EvictAll(hwm: Time)
      requires Valid()
      modifies Stages()
      ensures Valid() && Mem() == Projection.Evict(cfg, old(Mem()), hwm)
    {
      observers.Evict(hwm);
      status.Evict(hwm);
      nodes.Evict(hwm);
      unique.Evict(hwm);
      minute.Evict(hwm);
      hour.Evict(hwm);
      neighbor.Evict(hwm);
      observations.Evict(hwm);
    }

    method Clear()
      requires Valid()
      modifies Stages()
      ensures Valid() && Mem() == NO_MEMORY
    {
      observers.Clear();
      status.Clear();
      nodes.Clear();
      unique.Clear();
      minute.Clear();
      hour.Clear();
      neighbor.Clear();
      observations.Clear();
      anomalies.Clear();
    }
  }

  /* ---------- the same, as functions of memory ---------- */

  /** A rollup that failed at a stage, in it or after it. */
  function FailureAt(stage: nat, reach: Reach<R.Tear>): Failure {
    if reach.Within? then Untorn(stage).(rollup := reach.tear) else Untorn(stage + 1)
  }

  function FlushedUnique(m: Memory, t: Tables): Memory {
    m.(unique := U.FlushState(m.unique, t.unique, t.observations))
  }

  lemma StoppedBefore(m: Memory, t: Tables)
    ensures AbortMemory(m, t, Untorn(0)) == m
  {}

  /** A failure in or right after packets_unique leaves the other stages as they were. */
  lemma StoppedAtUnique(m: Memory, t: Tables, f: Failure)
    requires f.flushed <= 4 && f.rollup == R.Merging({})
    ensures AbortMemory(m, t, f) == m.(unique := U.Reached(m.unique, t.unique, t.observations, UniqueReach(f)))
  {
    R.NothingTorn(MINUTE, m.minute, t.minute, t.observations);
  }

  function UniqueTables(m: Memory, t: Tables): Tables {
    t.(unique := U.FlushTable(m.unique, t.unique, t.observations))
  }

  function LaterTables(cfg: Config, m: Memory, t: Tables): Tables {
    LateTables(cfg, FlushedUnique(m, t), UniqueTables(m, t))
  }

  function FirstTables(m: Memory, t: Tables): Tables {
    t.(observers := O.FlushTable(m.observers, t.observers),
       status := S.InsertAll(t.status, m.status),
       nodes := N.FlushTable(m.nodes, t.nodes))
  }

  /** The later stages neither read nor write the first three tables. */
  lemma FirstIsApart(cfg: Config, m: Memory, t: Tables)
    ensures FlushMemory(m, FirstTables(m, t)) == FlushMemory(m, t)
    ensures LaterTables(cfg, m, FirstTables(m, t)) == Flushed(cfg, m, t)
    ensures forall f :: AbortMemory(m, FirstTables(m, t), f) == AbortMemory(m, t, f)
  {}

  lemma UniqueIsApart(cfg: Config, m: Memory, t: Tables)
    ensures FlushedLate(FlushedUnique(m, t), UniqueTables(m, t)) == FlushMemory(m, t)
  {}

  /** A later failure leaves packets_unique flushed. */
  lemma StoppedLater(m: Memory, t: Tables, f: Failure)
    requires f.flushed >= 4
    ensures AbortMemory(m, t, f) == AbortedLate(FlushedUnique(m, t), UniqueTables(m, t), f)
  {}

  lemma NextBatch(cfg: Config, s: System, es: seq<Event>, cursor: nat, applied: Memory)
    requires applied == Apply(s.mem, es)
    ensures Next(cfg, s, Batch(es, cursor))
         == System(Kept(cfg, FlushMemory(applied, s.tables), HighWater(es)), Flushed(cfg, applied, s.tables).(cursor := cursor))
    ensures forall f :: Next(cfg, s, Abort(es, f)) == System(AbortMemory(applied, s.tables, f), s.tables)
  {}

  /** When the commit itself fails, memory is as after a successful flush. */
  lemma AbortAfterAll(m: Memory, t: Tables, f: Failure)
    requires f.flushed == 9
    ensures AbortMemory(m, t, f) == FlushMemory(m, t)
  {}

  function AppliedOne(m: Memory, e: Event): Memory {
    Memory(O.ApplyEvent(m.observers, e), m.status + S.Samples([e]), N.ApplyEvent(m.nodes, e),
           U.ApplyEvent(m.unique, e), R.ApplyEvent(MINUTE, m.minute, e), R.ApplyEvent(HOUR, m.hour, e),
           B.ApplyEvent(MINUTE, m.neighbor, e), m.observations + Observed([e]),
           m.clock.(hwm := if e.ts > m.clock.hwm then e.ts else m.clock.hwm))
  }

  lemma ApplySingle(minute: R.State, hour: R.State, e: Event)
    ensures R.ApplyAll(MINUTE, minute, [e]) == R.ApplyEvent(MINUTE, minute, e)
    ensures R.ApplyAll(HOUR, hour, [e]) == R.ApplyEvent(HOUR, hour, e)
  {
    assert [e][..0] == [];
    assert R.ApplyAll(MINUTE, minute, []) == minute && R.ApplyAll(HOUR, hour, []) == hour;
  }

  lemma ApplyNone(m: Memory)
    requires m.clock.hwm >= 0
    ensures Apply(m, []) == m
  {}

  lemma ApplySnoc(m: Memory, es: seq<Event>, e: Event)
    ensures Apply(m, es + [e]) == AppliedOne(Apply(m, es), e)
    ensures HighWater(es + [e]) == if e.ts > HighWater(es) then e.ts else HighWater(es)
  {
    var all := es + [e];
    assert all[..|es|] == es;
    S.SamplesConcat(es, [e]);
    ObservedConcat(es, [e]);
  }

  lemma StoppedAtHour(m: Memory, t: Tables, reach: Reach<R.Tear>)
    requires !reach.Before?
    ensures AbortedFromHour(m, t, FailureAt(5, reach)) == m.(hour := R.Reached(HOUR, m.hour, t.hour, t.observations, reach))
  {
    B.NothingTorn(m.neighbor, t.neighbor);
  }

  lemma StoppedAfterHour(m: Memory, t: Tables, f: Failure)
    requires 6 <= f.flushed <= 8
    ensures AbortedFromHour(m, t, f)
         == AbortedLast(m.(hour := R.FlushState(HOUR, m.hour, t.hour, t.observations)),
                        t.(hour := R.FlushTable(HOUR, m.hour, t.hour, t.observations)), f)
  {}

  /** A failure in or right after the neighbor rollup. */
  lemma StoppedAtNeighbor(m: Memory, t: Tables, tear: B.Tear)
    ensures AbortedLast(m, t, Untorn(6).(neighbor := tear)) == m.(neighbor := B.TornState(m.neighbor, t.neighbor, tear))
    ensures AbortedLast(m, t, Untorn(7)) == m.(neighbor := B.FlushState(m.neighbor, t.neighbor))
  {}

  function FlushedLast(m: Memory, t: Tables): Memory {
    m.(neighbor := B.FlushState(m.neighbor, t.neighbor), clock := A.Flushed(m.clock))
  }

  function AbortedLast(m: Memory, t: Tables, f: Failure): Memory {
    m.(neighbor := B.Reached(m.neighbor, t.neighbor, NeighborReach(f)))
  }

  function AnomalyTables(cfg: Config, m: Memory, t: Tables): Tables {
    var d := t.(observations := t.observations + m.observations);
    d.(anomalies := A.Ticked(t.anomalies, A.TicksOf(cfg.detectors, d.(anomalies := []), A.Due(m.clock))))
  }

  function LastTables(cfg: Config, m: Memory, t: Tables): Tables {
    AnomalyTables(cfg, m, t.(neighbor := B.FlushTable(m.neighbor, t.neighbor)))
  }

  function FlushedFromHour(m: Memory, t: Tables): Memory {
    FlushedLast(m.(hour := R.FlushState(HOUR, m.hour, t.hour, t.observations)), t)
  }

  function TablesFromHour(cfg: Config, m: Memory, t: Tables): Tables {
    LastTables(cfg, m, t.(hour := R.FlushTable(HOUR, m.hour, t.hour, t.observations)))
  }

  function AbortedFromHour(m: Memory, t: Tables, f: Failure): Memory {
    m.(hour := R.Reached(HOUR, m.hour, t.hour, t.observations, RollupReach(PerHour, f)),
       neighbor := B.Reached(m.neighbor, t.neighbor, NeighborReach(f)),
       clock := if f.flushed > 8 then A.Flushed(m.clock) else m.clock)
  }

  function FlushedLate(m: Memory, t: Tables): Memory {
    FlushedFromHour(m.(minute := R.FlushState(MINUTE, m.minute, t.minute, t.observations)), t)
  }

  /** A failure in or right after the minute rollup leaves the other stages as they were. */
  lemma StoppedAtMinute(m: Memory, t: Tables, reach: Reach<R.Tear>)
    requires !reach.Before?
    ensures AbortedLate(m, t, FailureAt(4, reach)) == m.(minute := R.Reached(MINUTE, m.minute, t.minute, t.observations, reach))
  {
    R.NothingTorn(HOUR, m.hour, t.hour, t.observations);
  }

  lemma StoppedAfterMinute(m: Memory, t: Tables, f: Failure)
    requires f.flushed >= 5
    ensures AbortedLate(m, t, f)
         == AbortedFromHour(m.(minute := R.FlushState(MINUTE, m.minute, t.minute, t.observations)),
                            t.(minute := R.FlushTable(MINUTE, m.minute, t.minute, t.observations)), f)
  {}

  function LateTables(cfg: Config, m: Memory, t: Tables): Tables {
    TablesFromHour(cfg, m, t.(minute := R.FlushTable(MINUTE, m.minute, t.minute, t.observations)))
  }

  function AbortedLate(m: Memory, t: Tables, f: Failure): Memory {
    m.(minute := R.Reached(MINUTE, m.minute, t.minute, t.observations, RollupReach(PerMinute, f)),
       hour := R.Reached(HOUR, m.hour, t.hour, t.observations, RollupReach(PerHour, f)),
       neighbor := B.Reached(m.neighbor, t.neighbor, NeighborReach(f)),
       clock := if f.flushed > 8 then A.Flushed(m.clock) else m.clock)
  }
}
