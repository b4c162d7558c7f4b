/** Anomalies: a minute clock driven by the event-time high-water mark, and the
    windowed suppression of repeated findings. */
module AnomaliesStage {
  import opened Events

  const DEDUP_WINDOW: Time := 15 * MINUTE

  datatype Finding = Finding(subject: Option<Bytes>, severity: string)

  /** One rule. `S` is what its queries see of the transaction's tables. */
  datatype Detector<!S> = Detector(kind: string, run: (S, Time) -> seq<Finding>)

  datatype Anomaly = Anomaly(ts: Time, kind: string, subject: Option<Bytes>, severity: string)

  type Table = seq<Anomaly>

  /** A finding together with the kind of the rule that made it. */
  datatype Found = Found(kind: string, finding: Finding)

  /** Everything the detectors found when they ran for minute `t`. */
  datatype Tick = Tick(t: Time, found: seq<Found>)

  /* ---------- suppression ---------- */

  predicate Same(a: Anomaly, f: Found) {
    a.kind == f.kind && a.subject == f.finding.subject
  }

  /** The NOT EXISTS subquery: a row of the same kind and subject in [t - window, t). */
  predicate Suppressed(table: Table, t: Time, f: Found) {
    exists i :: 0 <= i < |table| && Same(table[i], f) && t - DEDUP_WINDOW <= table[i].ts < t
  }

  function RowOf(t: Time, f: Found): Anomaly {
    Anomaly(t, f.kind, f.finding.subject, f.finding.severity)
  }

  function Emit(table: Table, t: Time, f: Found): Table {
    if Suppressed(table, t, f) then table else table + [RowOf(t, f)]
  }

  function EmitAll(table: Table, t: Time, found: seq<Found>): Table {
    if found == [] then table
    else Emit(EmitAll(table, t, found[..|found| - 1]), t, found[|found| - 1])
  }

  function Ticked(table: Table, ticks: seq<Tick>): Table {
    if ticks == [] then table
    else
      var last := ticks[|ticks| - 1];
      EmitAll(Ticked(table, ticks[..|ticks| - 1]), last.t, last.found)
  }

  /** Rows of one kind and subject are at the same minute or more than a window apart. */
  ghost predicate Spaced(table: Table) {
    forall i, j :: 0 <= i < |table| && 0 <= j < |table| && Alike(table[i], table[j]) && table[i].ts < table[j].ts
      ==> table[j].ts - table[i].ts > DEDUP_WINDOW
  }

  predicate Alike(a: Anomaly, b: Anomaly) {
    a.kind == b.kind && a.subject == b.subject
  }

  /** No tick steps back behind an earlier one by up to a window. */
  ghost predicate NoStepBack(times: seq<Time>) {
    forall i, j :: 0 <= i < j < |times| ==> !(0 < times[i] - times[j] <= DEDUP_WINDOW)
  }

  function Times(ticks: seq<Tick>): seq<Time> {
    seq(|ticks|, i requires 0 <= i < |ticks| => ticks[i].t)
  }

  lemma EmitKeepsSpaced(table: Table, t: Time, f: Found)
    requires Spaced(table)
    requires forall a :: a in table ==> !(0 < a.ts - t <= DEDUP_WINDOW)
    ensures Spaced(Emit(table, t, f))
  {
    if !Suppressed(table, t, f) {
      var n := |table|;
      var all := table + [RowOf(t, f)];
      forall i | 0 <= i < n && Alike(table[i], all[n])
        ensures table[i].ts == t || table[i].ts < t - DEDUP_WINDOW || table[i].ts > t + DEDUP_WINDOW
      {
        assert Same(table[i], f);
        assert table[i] in table;
      }
    }
  }

  lemma {:induction false} EmitAllKeepsSpaced(table: Table, t: Time, found: seq<Found>)
    requires Spaced(table)
    requires forall a :: a in table ==> !(0 < a.ts - t <= DEDUP_WINDOW)
    ensures Spaced(EmitAll(table, t, found))
    ensures forall a :: a in EmitAll(table, t, found) ==> a in table || a.ts == t
  {
    if found != [] {
      var init := found[..|found| - 1];
      EmitAllKeepsSpaced(table, t, init);
      EmitKeepsSpaced(EmitAll(table, t, init), t, found[|found| - 1]);
    }
  }

  lemma {:induction false} TickedSpaced(ticks: seq<Tick>)
    requires NoStepBack(Times(ticks))
    ensures Spaced(Ticked([], ticks))
    ensures forall a :: a in Ticked([], ticks) ==> exists i :: 0 <= i < |ticks| && ticks[i].t == a.ts
  {
    if ticks != [] {
      var n := |ticks| - 1;
      var init := ticks[..n];
      forall i, j | 0 <= i < j < |Times(init)|
        ensures !(0 < Times(init)[i] - Times(init)[j] <= DEDUP_WINDOW)
      {
        assert Times(init)[i] == Times(ticks)[i] && Times(init)[j] == Times(ticks)[j];
      }
      TickedSpaced(init);
      forall a | a in Ticked([], init)
        ensures !(0 < a.ts - ticks[n].t <= DEDUP_WINDOW)
      {
        var i :| 0 <= i < |init| && init[i].t == a.ts;
        assert Times(ticks)[i] == a.ts && Times(ticks)[n] == ticks[n].t;
      }
      EmitAllKeepsSpaced(Ticked([], init), ticks[n].t, ticks[n].found);
      forall a | a in Ticked([], ticks)
        ensures exists i :: 0 <= i < |ticks| && ticks[i].t == a.ts
      {
        if a in Ticked([], init) {
          var i :| 0 <= i < |init| && init[i].t == a.ts;
          assert ticks[i].t == a.ts;
        } else {
          assert ticks[n].t == a.ts;
        }
      }
    }
  }

  /** One finding at each of two positions, nothing elsewhere. */
  function TwoTicks(times: seq<Time>, i: nat, j: nat, f: Found): seq<Tick> {
    seq(|times|, k requires 0 <= k < |times| => Tick(times[k], if k == i || k == j then [f] else []))
  }

  lemma {:induction false} TwoTicksEmit(times: seq<Time>, i: nat, j: nat, f: Found, n: nat)
    requires i < j < |times| && n <= |times| && times[j] < times[i]
    ensures Ticked([], TwoTicks(times, i, j, f)[..n])
         == if n <= i then [] else if n <= j then [RowOf(times[i], f)] else [RowOf(times[i], f), RowOf(times[j], f)]
  {
    var ticks := TwoTicks(times, i, j, f)[..n];
    if n > 0 {
      TwoTicksEmit(times, i, j, f, n - 1);
      assert ticks[..n - 1] == TwoTicks(times, i, j, f)[..n - 1];
      var last := ticks[n - 1];
      var mid := Ticked([], ticks[..n - 1]);
      assert [f][..0] == [];
      assert EmitAll(mid, last.t, [f]) == Emit(mid, last.t, f);
    }
  }

  /** Spacing holds whatever the detectors find exactly when the clock never steps
      back by up to a window, as it can only do by re-anchoring after a restart. */
  lemma SpacingIffNoStepBack(times: seq<Time>)
    ensures (forall ticks: seq<Tick> :: Times(ticks) == times ==> Spaced(Ticked([], ticks))) <==> NoStepBack(times)
  {
    if NoStepBack(times) {
      forall ticks: seq<Tick> | Times(ticks) == times
        ensures Spaced(Ticked([], ticks))
      {
        TickedSpaced(ticks);
      }
    } else {
      var i, j :| 0 <= i < j < |times| && 0 < times[i] - times[j] <= DEDUP_WINDOW;
      var f := Found("kind", Finding(None, "warn"));
      var ticks := TwoTicks(times, i, j, f);
      TwoTicksEmit(times, i, j, f, |times|);
      assert ticks[..|times|] == ticks;
      var t := Ticked([], ticks);
      assert Alike(t[1], t[0]) && t[1].ts < t[0].ts;
      assert Times(ticks) == times;
    }
  }

  /** Every finding has a row of its kind and subject at its minute or in the
      window before it. */
  ghost predicate Covered(table: Table, t: Time, f: Found) {
    exists i :: 0 <= i < |table| && Same(table[i], f) && t - DEDUP_WINDOW <= table[i].ts <= t
  }

  lemma {:induction false} EmitAllCovers(table: Table, t: Time, found: seq<Found>)
    ensures table <= EmitAll(table, t, found)
    ensures forall f :: f in found ==> Covered(EmitAll(table, t, found), t, f)
  {
    if found != [] {
      var init, f := found[..|found| - 1], found[|found| - 1];
      assert found == init + [f];
      EmitAllCovers(table, t, init);
      var mid, all := EmitAll(table, t, init), EmitAll(table, t, found);
      assert mid <= all;
      forall g | g in found
        ensures Covered(all, t, g)
      {
        if g in init {
          assert Covered(mid, t, g);
          var i :| 0 <= i < |mid| && Same(mid[i], g) && t - DEDUP_WINDOW <= mid[i].ts <= t;
          assert all[i] == mid[i];
        } else if Suppressed(mid, t, f) {
          var i :| 0 <= i < |mid| && Same(mid[i], f) && t - DEDUP_WINDOW <= mid[i].ts < t;
          assert all[i] == mid[i];
        } else {
          assert all[|mid|] == RowOf(t, f);
        }
      }
    }
  }

  /** Coverage holds for any order of minutes, restarts included: rows are only added. */
  lemma {:induction false} TickedCovers(table: Table, ticks: seq<Tick>)
    ensures table <= Ticked(table, ticks)
    ensures forall k, f :: 0 <= k < |ticks| && f in ticks[k].found ==> Covered(Ticked(table, ticks), ticks[k].t, f)
  {
    if ticks != [] {
      var n := |ticks| - 1;
      var mid, all := Ticked(table, ticks[..n]), Ticked(table, ticks);
      TickedCovers(table, ticks[..n]);
      EmitAllCovers(mid, ticks[n].t, ticks[n].found);
      forall k, f | 0 <= k < |ticks| && f in ticks[k].found
        ensures Covered(all, ticks[k].t, f)
      {
        if k < n {
          assert ticks[..n][k] == ticks[k];
          var i :| 0 <= i < |mid| && Same(mid[i], f) && ticks[k].t - DEDUP_WINDOW <= mid[i].ts <= ticks[k].t;
          assert all[i] == mid[i];
        }
      }
    }
  }

  /** A row is that of a finding at its minute. */
  ghost predicate Stems(a: Anomaly, ticks: seq<Tick>) {
    exists k, x :: 0 <= k < |ticks| && x in ticks[k].found
                   && a.ts == ticks[k].t && a.kind == x.kind && a.subject == x.finding.subject && a.severity == x.finding.severity
  }

  lemma {:induction false} EmittedStem(table: Table, t: Time, found: seq<Found>, a: Anomaly)
    requires a in EmitAll(table, t, found)
    ensures a in table
            || exists x :: x in found && a.ts == t && a.kind == x.kind && a.subject == x.finding.subject && a.severity == x.finding.severity
  {
    if found != [] {
      var init, last := found[..|found| - 1], found[|found| - 1];
      assert found == init + [last];
      if a in EmitAll(table, t, init) {
        EmittedStem(table, t, init, a);
      }
    }
  }

  lemma {:induction false} TickedStem(ticks: seq<Tick>, a: Anomaly)
    requires a in Ticked([], ticks)
    ensures Stems(a, ticks)
  {
    var init, last := ticks[..|ticks| - 1], ticks[|ticks| - 1];
    EmittedStem(Ticked([], init), last.t, last.found, a);
    if a in Ticked([], init) {
      TickedStem(init, a);
      var k, x :| 0 <= k < |init| && x in init[k].found
                  && a.ts == init[k].t && a.kind == x.kind && a.subject == x.finding.subject && a.severity == x.finding.severity;
      assert x in ticks[k].found;
    } else {
      assert ticks[|ticks| - 1] == last;
    }
  }

  /* ---------- the minute clock ---------- */

  /** cursor and hwm; 0 is unset. */
  datatype Clock = Clock(cursor: Time, hwm: Time)

  const STOPPED: Clock := Clock(0, 0)

  function Advance(c: Clock, es: seq<Event>): Clock {
    var h := HighWater(es);
    if h > c.hwm then c.(hwm := h) else c
  }

  /** The minutes after `from` up to `until`. */
  function MinutesAfter(from: Time, until: Time): seq<Time>
    decreases until - from
  {
    if from + MINUTE > until then [] else [from + MINUTE] + MinutesAfter(from + MINUTE, until)
  }

  /** The minutes one flush runs the detectors for. */
  function Due(c: Clock): seq<Time> {
    if c.hwm == 0 || c.cursor == 0 then [] else MinutesAfter(c.cursor, Truncate(c.hwm, MINUTE))
  }

  function Flushed(c: Clock): Clock {
    if c.hwm == 0 then c else c.(cursor := Truncate(c.hwm, MINUTE))
  }

  /** The clock, and the minutes run, after a lifetime of committed batches. */
  function Lifetime(batches: seq<seq<Event>>): (Clock, seq<Time>) {
    if batches == [] then (STOPPED, [])
    else
      var (c, ran) := Lifetime(batches[..|batches| - 1]);
      var c' := Advance(c, batches[|batches| - 1]);
      (Flushed(c'), ran + Due(c'))
  }

  function Flatten(batches: seq<seq<Event>>): seq<Event> {
    if batches == [] then [] else Flatten(batches[..|batches| - 1]) + batches[|batches| - 1]
  }

  lemma {:induction false} MinutesSplit(a: Time, b: Time, c: Time)
    requires Aligned(a, MINUTE) && Aligned(b, MINUTE) && a <= b <= c
    ensures MinutesAfter(a, b) + MinutesAfter(b, c) == MinutesAfter(a, c)
    decreases b - a
  {
    if a < b {
      StepAligned(a, b);
      MinutesSplit(a + MINUTE, b, c);
      assert [a + MINUTE] + MinutesAfter(a + MINUTE, b) + MinutesAfter(b, c)
          == [a + MINUTE] + (MinutesAfter(a + MINUTE, b) + MinutesAfter(b, c));
    }
  }

  lemma StepAligned(a: Time, b: Time)
    requires Aligned(a, MINUTE) && Aligned(b, MINUTE) && a < b
    ensures a + MINUTE <= b && Aligned(a + MINUTE, MINUTE)
  {}

  lemma {:induction false} HighWaterConcat(a: seq<Event>, b: seq<Event>)
    ensures HighWater(a + b) == if HighWater(b) > HighWater(a) then HighWater(b) else HighWater(a)
    ensures HighWater(a) >= 0
  {
    if b == [] {
      assert a + b == a;
      if a != [] {
        HighWaterConcat(a[..|a| - 1], []);
        assert a[..|a| - 1] + [] == a[..|a| - 1];
      }
    } else {
      var init := b[..|b| - 1];
      assert (a + b)[..|a + b| - 1] == a + init;
      HighWaterConcat(a, init);
    }
  }

  lemma {:induction false} HighWaterPositive(es: seq<Event>)
    requires forall e :: e in es ==> e.ts >= MINUTE
    ensures HighWater(es) == 0 || HighWater(es) >= MINUTE
    ensures HighWater(es) == 0 <==> es == []
  {
    if es != [] {
      HighWaterPositive(es[..|es| - 1]);
    }
  }

  /** The high-water mark of the first batch that has events, 0 if none has. */
  function FirstHigh(batches: seq<seq<Event>>): Time {
    if batches == [] then 0
    else
      var f := FirstHigh(batches[..|batches| - 1]);
      if f != 0 then f else HighWater(batches[|batches| - 1])
  }

  /** Where the clock starts and ends in a lifetime; nothing runs up to the start. */
  function Start(batches: seq<seq<Event>>): Time {
    Truncate(FirstHigh(batches), MINUTE)
  }

  function End(batches: seq<seq<Event>>): Time {
    Truncate(HighWater(Flatten(batches)), MINUTE)
  }

  /** In a lifetime, whatever its batches, the detectors run exactly once, in order,
      for each minute after that of the first events and up to the last one seen. */
  lemma {:induction false} Schedule(batches: seq<seq<Event>>)
    requires forall e :: e in Flatten(batches) ==> e.ts >= MINUTE
    ensures var (c, ran) := Lifetime(batches);
            && c == Clock(End(batches), HighWater(Flatten(batches))) && ran == MinutesAfter(Start(batches), End(batches))
            && (FirstHigh(batches) == 0 <==> c.hwm == 0)
            && (FirstHigh(batches) == 0 || MINUTE <= FirstHigh(batches) <= c.hwm)
    decreases |batches|
  {
    if batches != [] {
      var init, last := batches[..|batches| - 1], batches[|batches| - 1];
      assert Flatten(batches) == Flatten(init) + last;
      Schedule(init);
      HighWaterConcat(Flatten(init), last);
      HighWaterPositive(last);
      if FirstHigh(init) != 0 {
        LaterBatch(FirstHigh(init), Lifetime(init).0, last);
      } else {
        TruncateAligned(HighWater(last), MINUTE);
      }
    }
  }

  /** A batch after the first events adds the minutes up to the new high-water mark. */
  lemma LaterBatch(first: Time, c: Clock, last: seq<Event>)
    requires MINUTE <= first <= c.hwm && c.cursor == Truncate(c.hwm, MINUTE)
    ensures var c' := Advance(c, last);
            && c'.hwm >= c.hwm && c'.cursor != 0
            && MinutesAfter(Truncate(first, MINUTE), c.cursor) + Due(c') == MinutesAfter(Truncate(first, MINUTE), Truncate(c'.hwm, MINUTE))
  {
    var c' := Advance(c, last);
    TruncateAligned(first, MINUTE);
    TruncateAligned(c.hwm, MINUTE);
    TruncateAligned(c'.hwm, MINUTE);
    TruncateMonotone(MINUTE, c.hwm);
    TruncateMonotone(first, c.hwm);
    TruncateMonotone(c.hwm, c'.hwm);
    MinutesSplit(Truncate(first, MINUTE), c.cursor, Truncate(c'.hwm, MINUTE));
  }

  lemma TruncateMonotone(a: Time, b: Time)
    requires a <= b
    ensures Truncate(a, MINUTE) <= Truncate(b, MINUTE)
  {}

  /** How the batches after the first events are cut does not change which minutes
      are run. */
  lemma RegroupingIsInvisible(a: seq<seq<Event>>, b: seq<seq<Event>>)
    requires FirstHigh(a) == FirstHigh(b) && Flatten(a) == Flatten(b)
    requires forall e :: e in Flatten(a) ==> e.ts >= MINUTE
    ensures Lifetime(a) == Lifetime(b)
  {
    Schedule(a);
    Schedule(b);
  }

  /** The clock never steps back in a lifetime. */
  lemma {:induction false} MinutesIncrease(from: Time, until: Time)
    ensures forall i :: 0 <= i < |MinutesAfter(from, until)| ==> from < MinutesAfter(from, until)[i] <= until
    ensures forall i, j :: 0 <= i < j < |MinutesAfter(from, until)| ==> MinutesAfter(from, until)[i] < MinutesAfter(from, until)[j]
    decreases until - from
  {
    if from + MINUTE <= until {
      MinutesIncrease(from + MINUTE, until);
    }
  }

  /** It passes exactly the aligned times after its start. */
  lemma {:induction false} MinutesAre(from: Time, until: Time, t: Time)
    requires Aligned(from, MINUTE)
    ensures t in MinutesAfter(from, until) <==> from < t <= until && Aligned(t, MINUTE)
    decreases until - from
  {
    if from < t && Aligned(t, MINUTE) {
      StepAligned(from, t);
    }
    if from + MINUTE <= until {
      assert Aligned(from + MINUTE, MINUTE);
      MinutesAre(from + MINUTE, until, t);
    }
  }

  /** ... so within a lifetime spacing holds, whatever is found. */
  lemma LifetimeIsSpaced(batches: seq<seq<Event>>, ticks: seq<Tick>)
    requires forall e :: e in Flatten(batches) ==> e.ts >= MINUTE
    requires Times(ticks) == Lifetime(batches).1
    ensures Spaced(Ticked([], ticks))
  {
    Schedule(batches);
    MinutesIncrease(Start(batches), End(batches));
    TickedSpaced(ticks);
  }

  /* ---------- how many rows a condition can make ---------- */

  /** The distinct times, from `from` on and before `until`, of the rows of one kind and subject. */
  function TimesOf(table: Table, kind: string, subject: Option<Bytes>, from: Time, until: Time): set<Time> {
    set a | a in table && a.kind == kind && a.subject == subject && from <= a.ts < until :: a.ts
  }

  ghost predicate OnMinutes(table: Table) {
    forall a :: a in table ==> Aligned(a.ts, MINUTE)
  }

  lemma AtMostOneInWindow(table: Table, kind: string, subject: Option<Bytes>, from: Time)
    requires Spaced(table) && OnMinutes(table) && Aligned(from, MINUTE)
    ensures |TimesOf(table, kind, subject, from, from + 16 * MINUTE)| <= 1
  {
    var ts := TimesOf(table, kind, subject, from, from + 16 * MINUTE);
    forall t, u | t in ts && u in ts
      ensures t == u
    {
      var a, b :| a in table && b in table && a.kind == b.kind == kind && a.subject == b.subject == subject && a.ts == t && b.ts == u;
      SpacedTimes(table, a, b);
    }
    if t :| t in ts {
      assert ts == {t};
    }
  }

  lemma SpacedTimes(table: Table, a: Anomaly, b: Anomaly)
    requires Spaced(table) && OnMinutes(table) && a in table && b in table && Alike(a, b)
    ensures a.ts == b.ts || a.ts - b.ts >= 16 * MINUTE || b.ts - a.ts >= 16 * MINUTE
  {
    var i :| 0 <= i < |table| && table[i] == a;
    var j :| 0 <= j < |table| && table[j] == b;
    assert Alike(table[i], table[j]) && Alike(table[j], table[i]);
  }

  /** Rows of a stretch lie in its first sixteen minutes or after them. */
  lemma OneMoreWindow(table: Table, kind: string, subject: Option<Bytes>, from: Time, mid: Time, until: Time)
    requires Spaced(table) && OnMinutes(table) && Aligned(from, MINUTE) && mid == from + 16 * MINUTE
    ensures |TimesOf(table, kind, subject, from, until)| <= 1 + |TimesOf(table, kind, subject, mid, until)|
  {
    AtMostOneInWindow(table, kind, subject, from);
    SmallerSet(TimesOf(table, kind, subject, from, until), TimesOf(table, kind, subject, from, mid) + TimesOf(table, kind, subject, mid, until));
  }

  lemma SmallerSet(a: set<Time>, b: set<Time>)
    requires a <= b
    ensures |a| <= |b|
  {
    assert b == a + (b - a);
  }

  lemma SixteenLater(from: Time)
    requires Aligned(from, MINUTE)
    ensures Aligned(from + 16 * MINUTE, MINUTE)
  {
    QuotientIs(from + 16 * MINUTE, from / MINUTE + 16, MINUTE);
  }

  /** In n consecutive minutes there are rows of one kind and subject at no more than
      n/16 minutes, rounded up. */
  lemma {:induction false} RowsAreFew(table: Table, kind: string, subject: Option<Bytes>, from: Time, until: Time, n: nat)
    requires Spaced(table) && OnMinutes(table) && Aligned(from, MINUTE) && until <= from + n * MINUTE
    ensures |TimesOf(table, kind, subject, from, until)| <= (n + 15) / 16
    decreases n
  {
    if n == 0 {
      assert TimesOf(table, kind, subject, from, until) == {};
    } else {
      var mid := from + 16 * MINUTE;
      OneMoreWindow(table, kind, subject, from, mid, until);
      SixteenLater(from);
      RowsAreFew(table, kind, subject, mid, until, if n <= 16 then 0 else n - 16);
    }
  }

  /* ---------- the stage ---------- */

  function Tag(kind: string, fs: seq<Finding>): seq<Found> {
    seq(|fs|, i requires 0 <= i < |fs| => Found(kind, fs[i]))
  }

  /** What the detectors find for one minute, in the order they are registered. */
  function FoundAt<S>(ds: seq<Detector<S>>, snap: S, t: Time): seq<Found> {
    if ds == [] then []
    else FoundAt(ds[..|ds| - 1], snap, t) + Tag(ds[|ds| - 1].kind, ds[|ds| - 1].run(snap, t))
  }

  /** Every finding of every detector is among them, and nothing else. */
  lemma {:induction false} FoundIff<S>(ds: seq<Detector<S>>, snap: S, t: Time, x: Found)
    ensures x in FoundAt(ds, snap, t) <==> exists d :: d in ds && x.kind == d.kind && x.finding in d.run(snap, t)
  {
    if ds != [] {
      var init, last := ds[..|ds| - 1], ds[|ds| - 1];
      assert ds == init + [last];
      FoundIff(init, snap, t, x);
      TagIff(last.kind, last.run(snap, t), x);
      if d :| d in ds && x.kind == d.kind && x.finding in d.run(snap, t) {
        assert d in init || d == last;
      }
    }
  }

  lemma TagIff(kind: string, fs: seq<Finding>, x: Found)
    ensures x in Tag(kind, fs) <==> x.kind == kind && x.finding in fs
  {
    if x.kind == kind && x.finding in fs {
      var i :| 0 <= i < |fs| && fs[i] == x.finding;
      assert Tag(kind, fs)[i] == x;
    }
  }

  lemma FoundSnoc<S>(ds: seq<Detector<S>>, snap: S, t: Time, i: nat)
    requires i < |ds|
    ensures FoundAt(ds[..i + 1], snap, t) == FoundAt(ds[..i], snap, t) + Tag(ds[i].kind, ds[i].run(snap, t))
  {
    assert ds[..i + 1][..i] == ds[..i];
  }

  function TicksOf<S>(ds: seq<Detector<S>>, snap: S, minutes: seq<Time>): seq<Tick> {
    if minutes == [] then [] else [Tick(minutes[0], FoundAt(ds, snap, minutes[0]))] + TicksOf(ds, snap, minutes[1..])
  }

  lemma {:induction false} EmitAllConcat(table: Table, t: Time, a: seq<Found>, b: seq<Found>)
    ensures EmitAll(table, t, a + b) == EmitAll(EmitAll(table, t, a), t, b)
  {
    if b == [] {
      assert a + b == a;
    } else {
      assert (a + b)[..|a + b| - 1] == a + b[..|b| - 1];
      EmitAllConcat(table, t, a, b[..|b| - 1]);
    }
  }

  lemma {:induction false} TickedFirst(table: Table, tick: Tick, rest: seq<Tick>)
    ensures Ticked(table, [tick] + rest) == Ticked(EmitAll(table, tick.t, tick.found), rest)
  {
    var all := [tick] + rest;
    if rest == [] {
      assert all == [tick] && all[..0] == [];
      assert Ticked(table, [tick]) == EmitAll(Ticked(table, []), tick.t, tick.found);
    } else {
      assert all[..|all| - 1] == [tick] + rest[..|rest| - 1];
      TickedFirst(table, tick, rest[..|rest| - 1]);
    }
  }

  /** The detectors run for minute m, then for the next one, up to `end`. */
  function RunFrom<S>(ds: seq<Detector<S>>, snap: S, table: Table, m: Time, end: Time): Table
    decreases end - m
  {
    if m > end then table else RunFrom(ds, snap, EmitAll(table, m, FoundAt(ds, snap, m)), m + MINUTE, end)
  }

  lemma {:induction false} RunFromTicks<S>(ds: seq<Detector<S>>, snap: S, table: Table, m: Time, end: Time)
    ensures RunFrom(ds, snap, table, m, end) == Ticked(table, TicksOf(ds, snap, MinutesAfter(m - MINUTE, end)))
    decreases end - m
  {
    if m <= end {
      var rest := MinutesAfter(m, end);
      assert MinutesAfter(m - MINUTE, end) == [m] + rest && ([m] + rest)[1..] == rest;
      TickedFirst(table, Tick(m, FoundAt(ds, snap, m)), TicksOf(ds, snap, rest));
      RunFromTicks(ds, snap, EmitAll(table, m, FoundAt(ds, snap, m)), m + MINUTE, end);
    }
  }

  /** The rows added to a table have been added to the emitted ones. */
  predicate Grew(table: Table, emitted: seq<Anomaly>, table': Table, emitted': seq<Anomaly>) {
    table <= table' && emitted' == emitted + table'[|table|..]
  }

  lemma GrewOn(t0: Table, e0: seq<Anomaly>, t1: Table, e1: seq<Anomaly>, t2: Table, e2: seq<Anomaly>)
    requires Grew(t0, e0, t1, e1) && Grew(t1, e1, t2, e2)
    ensures Grew(t0, e0, t2, e2)
  {
    assert t2[|t0|..] == t1[|t0|..] + t2[|t1|..];
  }

  class Anomalies<!S> {
    const detectors: seq<Detector<S>>
    var cursor: Time
    var hwm: Time
    var emitted: seq<Anomaly>

    ghost function Now(): Clock
      reads this
    {
      Clock(cursor, hwm)
    }

    constructor (detectors: seq<Detector<S>>)
      ensures this.detectors == detectors && Now() == STOPPED && emitted == []
    {
      this.detectors, cursor, hwm, emitted := detectors, 0, 0, [];
    }

    method Apply(e: Event)
      modifies this`hwm
      ensures hwm == if e.ts > old(hwm) then e.ts else old(hwm)
    {
      if e.ts > hwm {
        hwm := e.ts;
      }
    }

    method Flush(snap: S, table: Table) returns (table': Table)
      modifies this`cursor, this`emitted
      ensures Now() == Flushed(old(Now()))
      ensures table' == Ticked(table, TicksOf(detectors, snap, Due(old(Now()))))
      ensures Grew(table, old(emitted), table', emitted)
    {
      table' := table;
      if hwm == 0 {
        return;
      }
      if cursor == 0 {
        cursor := Truncate(hwm, MINUTE);
        return;
      }
      var end := Truncate(hwm, MINUTE);
      RunFromTicks(detectors, snap, table, cursor + MINUTE, end);
      table' := RunDue(snap, end, table);
      cursor := end;
    }

    /** What the minute loop is to come to. */
    ghost function Goal(snap: S, table: Table, m: Time, end: Time): Table {
      RunFrom(detectors, snap, table, m, end)
    }

    /** The minute loop of Flush. */
    method RunDue(snap: S, end: Time, table: Table) returns (table': Table)
      modifies this`emitted
      ensures table' == RunFrom(detectors, snap, table, cursor + MINUTE, end)
      ensures Grew(table, old(emitted), table', emitted)
    {
      table' := table;
      var m := cursor + MINUTE;
      ghost var first, goal := emitted, Goal(snap, table', m, end);
      while m <= end
        invariant Grew(table, first, table', emitted) && Goal(snap, table', m, end) == goal
        decreases end - m
      {
        ghost var sofar, seen := table', emitted;
        table' := RunDetectors(snap, m, table');
        GrewOn(table, first, sofar, seen, table', emitted);
        m := m + MINUTE;
      }
    }

    method RunDetectors(snap: S, t: Time, table: Table) returns (table': Table)
      modifies this`emitted
      ensures table' == EmitAll(table, t, FoundAt(detectors, snap, t))
      ensures Grew(table, old(emitted), table', emitted)
    {
      ghost var first := emitted;
      table' := table;
      for i := 0 to |detectors|
        invariant table' == EmitAll(table, t, FoundAt(detectors[..i], snap, t))
        invariant Grew(table, first, table', emitted)
      {
        var d := detectors[i];
        var findings := d.run(snap, t);
        EmitAllConcat(table, t, FoundAt(detectors[..i], snap, t), Tag(d.kind, findings));
        FoundSnoc(detectors, snap, t, i);
        ghost var sofar, seen := table', emitted;
        table' := EmitFindings(t, d.kind, findings, table');
        GrewOn(table, first, sofar, seen, table', emitted);
      }
      assert detectors[..|detectors|] == detectors;
    }

    method EmitFindings(t: Time, kind: string, findings: seq<Finding>, table: Table) returns (table': Table)
      modifies this`emitted
      ensures table' == EmitAll(table, t, Tag(kind, findings))
      ensures Grew(table, old(emitted), table', emitted)
    {
      ghost var first, tagged := emitted, Tag(kind, findings);
      table' := table;
      for j := 0 to |findings|
        invariant table' == EmitAll(table, t, tagged[..j])
        invariant Grew(table, first, table', emitted)
      {
        assert tagged[..j + 1][..j] == tagged[..j];
        ghost var sofar, seen := table', emitted;
        table' := EmitOne(t, kind, findings[j], table');
        GrewOn(table, first, sofar, seen, table', emitted);
      }
      assert tagged[..|findings|] == tagged;
    }

    method EmitOne(t: Time, kind: string, f: Finding, table: Table) returns (table': Table)
      modifies this`emitted
      ensures table' == Emit(table, t, Found(kind, f))
      ensures table' == if exists a :: a in table && a.kind == kind && a.subject == f.subject && t - 15 * MINUTE <= a.ts < t
                        then table else table + [Anomaly(t, kind, f.subject, f.severity)]
      ensures Grew(table, old(emitted), table', emitted)
    {
      table' := table;
      if !exists i :: 0 <= i < |table| && table[i].kind == kind && table[i].subject == f.subject
                      && t - DEDUP_WINDOW <= table[i].ts < t {
        var row := Anomaly(t, kind, f.subject, f.severity);
        table' := table + [row];
        emitted := emitted + [row];
      }
    }

    method Notify()
      modifies this`emitted
      ensures emitted == []
    {
      emitted := [];
    }

    method Clear()
      modifies this
      ensures Now() == STOPPED && emitted == []
    {
      cursor, hwm, emitted := 0, 0, [];
    }
  }
}
