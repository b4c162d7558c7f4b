/** The anomaly rules over whole runs of the projector. */
module AnomalyRuns {
  import opened Events
  import opened AnomaliesStage
  import opened Projection
  import opened Transparency

  /** What the detectors are run on by a commit: its tables, and a minute. */
  datatype Point = Point(view: Tables, t: Time)

  function PointsAt(view: Tables, minutes: seq<Time>): seq<Point> {
    seq(|minutes|, i requires 0 <= i < |minutes| => Point(view, minutes[i]))
  }

  /** Every point since the last reset, in order. */
  function Points(cfg: Config, steps: seq<Step>): seq<Point> {
    if steps == [] then []
    else
      var init := steps[..|steps| - 1];
      match steps[|steps| - 1]
      case Batch(es, _) =>
        var s := Run(cfg, init);
        var m := Apply(s.mem, es);
        Points(cfg, init) + PointsAt(View(m, s.tables), Due(m.clock))
      case Abort(_, _) => Points(cfg, init)
      case Crash => Points(cfg, init)
      case Reset => []
  }

  /** What the detectors find there. */
  function TicksAt(ds: seq<Detector<Tables>>, ps: seq<Point>): seq<Tick> {
    seq(|ps|, i requires 0 <= i < |ps| => Tick(ps[i].t, FoundAt(ds, ps[i].view, ps[i].t)))
  }

  function PointTimes(ps: seq<Point>): seq<Time> {
    seq(|ps|, i requires 0 <= i < |ps| => ps[i].t)
  }

  lemma {:induction false} TickedConcat(table: Table, a: seq<Tick>, b: seq<Tick>)
    ensures Ticked(table, a + b) == Ticked(Ticked(table, a), b)
  {
    if b == [] {
      assert a + b == a;
    } else {
      assert (a + b)[..|a + b| - 1] == a + b[..|b| - 1];
      TickedConcat(table, a, b[..|b| - 1]);
    }
  }

  lemma {:induction false} TicksOfPoints(ds: seq<Detector<Tables>>, view: Tables, minutes: seq<Time>)
    ensures TicksOf(ds, view, minutes) == TicksAt(ds, PointsAt(view, minutes))
  {
    if minutes != [] {
      TicksOfPoints(ds, view, minutes[1..]);
      var all, rest := TicksAt(ds, PointsAt(view, minutes)), TicksAt(ds, PointsAt(view, minutes[1..]));
      assert all == [Tick(minutes[0], FoundAt(ds, view, minutes[0]))] + rest;
    }
  }

  lemma TicksConcat(ds: seq<Detector<Tables>>, a: seq<Point>, b: seq<Point>)
    ensures TicksAt(ds, a + b) == TicksAt(ds, a) + TicksAt(ds, b)
    ensures PointTimes(a + b) == PointTimes(a) + PointTimes(b)
  {}

  /** In every run the anomalies are what emitting all findings, minute by minute, gives. */
  lemma {:induction false} RunAnomalies(cfg: Config, steps: seq<Step>)
    ensures Run(cfg, steps).tables.anomalies == Ticked([], TicksAt(cfg.detectors, Points(cfg, steps)))
  {
    if steps != [] {
      var init, step := steps[..|steps| - 1], steps[|steps| - 1];
      RunAnomalies(cfg, init);
      if step.Batch? {
        var s := Run(cfg, init);
        var m := Apply(s.mem, step.events);
        var now := PointsAt(View(m, s.tables), Due(m.clock));
        TicksOfPoints(cfg.detectors, View(m, s.tables), Due(m.clock));
        TicksConcat(cfg.detectors, Points(cfg, init), now);
        TickedConcat([], TicksAt(cfg.detectors, Points(cfg, init)), TicksAt(cfg.detectors, now));
        CommitAnomalies(cfg, m, s.tables, step.cursor, HighWater(step.events));
      }
    }
  }

  lemma CommitAnomalies(cfg: Config, m: Memory, t: Tables, cursor: nat, hwm: Time)
    ensures Commit(cfg, m, t, cursor, hwm).tables.anomalies == Ticked(t.anomalies, TicksOf(cfg.detectors, View(m, t), Due(m.clock)))
  {}

  /** Every finding ever made at a point that a commit has run, restarts and failed
      attempts included, has a row of its kind and subject in the quarter of an hour
      that ends there. */
  lemma FindingsAreCovered(cfg: Config, steps: seq<Step>, p: Point, d: Detector<Tables>, f: Finding)
    requires p in Points(cfg, steps) && d in cfg.detectors && f in d.run(p.view, p.t)
    ensures exists a :: a in Run(cfg, steps).tables.anomalies
                        && a.kind == d.kind && a.subject == f.subject && p.t - 15 * MINUTE <= a.ts <= p.t
  {
    var ticks, table := TicksAt(cfg.detectors, Points(cfg, steps)), Run(cfg, steps).tables.anomalies;
    RunAnomalies(cfg, steps);
    TickedCovers([], ticks);
    var k :| 0 <= k < |Points(cfg, steps)| && Points(cfg, steps)[k] == p;
    FoundIff(cfg.detectors, p.view, p.t, Found(d.kind, f));
    assert Found(d.kind, f) in ticks[k].found;
    var i :| 0 <= i < |table| && Same(table[i], Found(d.kind, f)) && p.t - DEDUP_WINDOW <= table[i].ts <= p.t;
    assert table[i] in table;
  }

  /** ... and every row is that of such a finding at its minute. */
  lemma RowsAreFindings(cfg: Config, steps: seq<Step>, a: Anomaly)
    requires a in Run(cfg, steps).tables.anomalies
    ensures exists p, d, f :: p in Points(cfg, steps) && d in cfg.detectors && f in d.run(p.view, p.t)
                              && a == Anomaly(p.t, d.kind, f.subject, f.severity)
  {
    var ps := Points(cfg, steps);
    var ticks := TicksAt(cfg.detectors, ps);
    RunAnomalies(cfg, steps);
    TickedStem(ticks, a);
    var k, x :| 0 <= k < |ticks| && x in ticks[k].found
                && a.ts == ticks[k].t && a.kind == x.kind && a.subject == x.finding.subject && a.severity == x.finding.severity;
    FoundIff(cfg.detectors, ps[k].view, ps[k].t, x);
    var d :| d in cfg.detectors && x.kind == d.kind && x.finding in d.run(ps[k].view, ps[k].t);
    assert ps[k] in ps;
  }

  /* ---------- the minutes of a run ---------- */

  /** The batches of each process lifetime since the last reset. */
  function Lives(steps: seq<Step>): seq<seq<seq<Event>>>
    ensures Lives(steps) != []
  {
    if steps == [] then [[]]
    else
      var lives := Lives(steps[..|steps| - 1]);
      match steps[|steps| - 1]
      case Batch(es, _) => lives[|lives| - 1 := lives[|lives| - 1] + [es]]
      case Abort(_, _) => lives
      case Crash => lives + [[]]
      case Reset => [[]]
  }

  /** The minutes run in all of them. */
  function Minutes(lives: seq<seq<seq<Event>>>): seq<Time> {
    if lives == [] then [] else Minutes(lives[..|lives| - 1]) + Lifetime(lives[|lives| - 1]).1
  }

  lemma MinutesSnoc(lives: seq<seq<seq<Event>>>, life: seq<seq<Event>>)
    ensures Minutes(lives + [life]) == Minutes(lives) + Lifetime(life).1
  {
    assert (lives + [life])[..|lives|] == lives;
  }

  lemma LifetimeSnoc(life: seq<seq<Event>>, es: seq<Event>)
    ensures var c := Advance(Lifetime(life).0, es);
            Lifetime(life + [es]) == (AnomaliesStage.Flushed(c), Lifetime(life).1 + Due(c))
  {
    assert (life + [es])[..|life|] == life;
  }

  /** The detectors run in each lifetime exactly when its minute clock says. */
  lemma {:induction false} RunMinutes(cfg: Config, steps: seq<Step>)
    requires NoAborts(steps)
    ensures var lives := Lives(steps);
            Run(cfg, steps).mem.clock == Lifetime(lives[|lives| - 1]).0 && PointTimes(Points(cfg, steps)) == Minutes(lives)
  {
    if steps == [] {
      FirstLife();
    } else {
      var init, step := steps[..|steps| - 1], steps[|steps| - 1];
      RunMinutes(cfg, init);
      match step
      case Batch(es, cursor) => BatchMinutes(cfg, Run(cfg, init), Points(cfg, init), Lives(init), es, cursor);
      case Crash => MinutesSnoc(Lives(init), []);
      case Reset => FirstLife();
    }
  }

  lemma FirstLife()
    ensures Minutes([[]]) == []
  {
    var none: seq<seq<seq<Event>>> := [];
    MinutesSnoc(none, []);
    assert none + [[]] == [[]];
  }

  /** One more batch in the last lifetime. */
  lemma LastLifeGrows(lives: seq<seq<seq<Event>>>, es: seq<Event>)
    requires lives != []
    ensures var last := |lives| - 1;
            var c, lives' := Advance(Lifetime(lives[last]).0, es), lives[last := lives[last] + [es]];
            Lifetime(lives'[last]).0 == AnomaliesStage.Flushed(c) && Minutes(lives') == Minutes(lives) + Due(c)
  {
    var past, life := lives[..|lives| - 1], lives[|lives| - 1];
    assert lives == past + [life] && lives[|lives| - 1 := life + [es]] == past + [life + [es]];
    LifeGrows(past, life, es);
  }

  lemma LifeGrows(past: seq<seq<seq<Event>>>, life: seq<seq<Event>>, es: seq<Event>)
    ensures var c := Advance(Lifetime(life).0, es);
            Lifetime(life + [es]).0 == AnomaliesStage.Flushed(c) && Minutes(past + [life + [es]]) == Minutes(past + [life]) + Due(c)
  {
    MinutesSnoc(past, life);
    MinutesSnoc(past, life + [es]);
    LifetimeSnoc(life, es);
    Regroup(Minutes(past), Lifetime(life).1, Due(Advance(Lifetime(life).0, es)));
  }

  lemma Regroup(a: seq<Time>, b: seq<Time>, c: seq<Time>)
    ensures a + (b + c) == (a + b) + c
  {}

  lemma BatchMinutes(cfg: Config, s: System, ps: seq<Point>, lives: seq<seq<seq<Event>>>, es: seq<Event>, cursor: nat)
    requires lives != [] && s.mem.clock == Lifetime(lives[|lives| - 1]).0 && PointTimes(ps) == Minutes(lives)
    ensures var m, last := Apply(s.mem, es), |lives| - 1;
            var lives' := lives[last := lives[last] + [es]];
            && Next(cfg, s, Batch(es, cursor)).mem.clock == Lifetime(lives'[last]).0
            && PointTimes(ps + PointsAt(View(m, s.tables), Due(m.clock))) == Minutes(lives')
  {
    var m := Apply(s.mem, es);
    LastLifeGrows(lives, es);
    CommitClock(cfg, m, s.tables, cursor, HighWater(es));
    PointTimesSnoc(ps, View(m, s.tables), Due(m.clock));
  }

  lemma PointTimesSnoc(ps: seq<Point>, view: Tables, minutes: seq<Time>)
    ensures PointTimes(ps + PointsAt(view, minutes)) == PointTimes(ps) + minutes
  {}

  lemma CommitClock(cfg: Config, m: Memory, t: Tables, cursor: nat, hwm: Time)
    ensures Commit(cfg, m, t, cursor, hwm).mem.clock == AnomaliesStage.Flushed(m.clock)
  {}

  predicate Late(lives: seq<seq<seq<Event>>>) {
    forall l, e :: l in lives && e in Flatten(l) ==> e.ts >= MINUTE
  }

  /* ---------- minutes that failed attempts have run ---------- */

  /** An attempt whose anomaly stage has flushed: it moves the clock, committed or not. */
  predicate Ticks(step: Step) {
    step.Batch? || (step.Abort? && step.failure.flushed > 8)
  }

  function ClockAfter(c: Clock, step: Step): Clock {
    match step
    case Batch(es, _) => AnomaliesStage.Flushed(Advance(c, es))
    case Abort(es, _) => if Ticks(step) then AnomaliesStage.Flushed(Advance(c, es)) else Advance(c, es)
    case Crash => STOPPED
    case Reset => STOPPED
  }

  function ClockOf(steps: seq<Step>): Clock {
    if steps == [] then STOPPED else ClockAfter(ClockOf(steps[..|steps| - 1]), steps[|steps| - 1])
  }

  /** The minutes this process has run in commits, and in attempts that failed later. */
  function Ran(steps: seq<Step>, committed: bool): seq<Time> {
    if steps == [] then []
    else
      var init, step := steps[..|steps| - 1], steps[|steps| - 1];
      if step.Crash? || step.Reset? then []
      else if Ticks(step) && step.Batch? == committed then Ran(init, committed) + Due(Advance(ClockOf(init), step.events))
      else Ran(init, committed)
  }

  /** Where the clock of this process was anchored, 0 if it is not yet. */
  function Anchor(steps: seq<Step>): Time {
    if steps == [] then 0
    else
      var init, step := steps[..|steps| - 1], steps[|steps| - 1];
      if step.Crash? || step.Reset? then 0
      else if Ticks(step) && Anchor(init) == 0 then ClockOf(steps).cursor
      else Anchor(init)
  }

  lemma {:induction false} RunClock(cfg: Config, steps: seq<Step>)
    ensures Run(cfg, steps).mem.clock == ClockOf(steps)
  {
    if steps != [] {
      RunClock(cfg, steps[..|steps| - 1]);
      ClockStep(cfg, Run(cfg, steps[..|steps| - 1]), steps[|steps| - 1]);
    }
  }

  lemma ClockStep(cfg: Config, s: System, step: Step)
    ensures Next(cfg, s, step).mem.clock == ClockAfter(s.mem.clock, step)
  {}

  predicate EndsWith(all: seq<Time>, end: seq<Time>) {
    |end| <= |all| && all[|all| - |end|..] == end
  }

  /** The minutes of this process's commits are the last ones run on the tables. */
  lemma {:induction false} RanIsLast(cfg: Config, steps: seq<Step>)
    ensures EndsWith(PointTimes(Points(cfg, steps)), Ran(steps, true))
  {
    if steps != [] {
      var init, step := steps[..|steps| - 1], steps[|steps| - 1];
      RanIsLast(cfg, init);
      if step.Batch? {
        PointsMore(cfg, init, step.events);
        EndGrows(PointTimes(Points(cfg, init)), Ran(init, true), Due(Advance(ClockOf(init), step.events)));
      }
    }
  }

  lemma PointsMore(cfg: Config, steps: seq<Step>, es: seq<Event>)
    ensures var s := Run(cfg, steps);
            var m := Apply(s.mem, es);
            PointTimes(Points(cfg, steps) + PointsAt(View(m, s.tables), Due(m.clock)))
            == PointTimes(Points(cfg, steps)) + Due(Advance(ClockOf(steps), es))
  {
    var s := Run(cfg, steps);
    RunClock(cfg, steps);
    PointTimesSnoc(Points(cfg, steps), View(Apply(s.mem, es), s.tables), Due(Apply(s.mem, es).clock));
  }

  lemma EndGrows(all: seq<Time>, end: seq<Time>, more: seq<Time>)
    requires EndsWith(all, end)
    ensures EndsWith(all + more, end + more)
  {}

  /** Every event is at least a minute after the zero time. */
  predicate LateSteps(steps: seq<Step>) {
    steps == [] || (
      var step := steps[|steps| - 1];
      LateSteps(steps[..|steps| - 1]) && (step.Batch? || step.Abort? ==> forall e :: e in step.events ==> e.ts >= MINUTE))
  }

  predicate Anchored(c: Clock, anchor: Time) {
    && (c.hwm == 0 || c.hwm >= MINUTE)
    && Aligned(c.cursor, MINUTE) && Aligned(anchor, MINUTE)
    && (anchor == 0 <==> c.cursor == 0)
    && 0 <= anchor <= c.cursor <= Truncate(c.hwm, MINUTE)
  }

  lemma AdvanceAnchored(c: Clock, anchor: Time, es: seq<Event>)
    requires Anchored(c, anchor) && forall e :: e in es ==> e.ts >= MINUTE
    ensures var c' := Advance(c, es);
            && Anchored(c', anchor) && c'.cursor == c.cursor
            && Anchored(AnomaliesStage.Flushed(c'), if anchor == 0 then AnomaliesStage.Flushed(c').cursor else anchor)
  {
    HighWaterPositive(es);
    var c' := Advance(c, es);
    TruncateMonotone(c.hwm, c'.hwm);
    TruncateAligned(c'.hwm, MINUTE);
    if c'.hwm != 0 {
      TruncateMonotone(MINUTE, c'.hwm);
    }
  }

  lemma {:induction false} RunAnchored(steps: seq<Step>)
    requires LateSteps(steps)
    ensures Anchored(ClockOf(steps), Anchor(steps))
  {
    if steps != [] {
      var init, step := steps[..|steps| - 1], steps[|steps| - 1];
      RunAnchored(init);
      if step.Batch? || step.Abort? {
        AdvanceAnchored(ClockOf(init), Anchor(init), step.events);
      }
    }
  }

  lemma DueAre(c: Clock, t: Time)
    requires Aligned(c.cursor, MINUTE)
    ensures t in Due(c) <==> c.hwm != 0 && c.cursor != 0 && c.cursor < t <= Truncate(c.hwm, MINUTE) && Aligned(t, MINUTE)
  {
    MinutesAre(c.cursor, Truncate(c.hwm, MINUTE), t);
  }

  /** Each minute after the anchor, up to the clock's, has been run in a commit, or in an
      attempt that failed after the anomaly stage, and then no commit of the process does. */
  lemma {:induction false} RunOrMissed(steps: seq<Step>, t: Time)
    requires LateSteps(steps)
    ensures t in Ran(steps, true) || t in Ran(steps, false)
            <==> Anchor(steps) != 0 && Anchor(steps) < t <= ClockOf(steps).cursor && Aligned(t, MINUTE)
    ensures !(t in Ran(steps, true) && t in Ran(steps, false))
  {
    if steps != [] {
      var init, step := steps[..|steps| - 1], steps[|steps| - 1];
      RunOrMissed(init, t);
      RunAnchored(init);
      if Ticks(step) {
        AdvanceAnchored(ClockOf(init), Anchor(init), step.events);
        DueAre(Advance(ClockOf(init), step.events), t);
      }
    }
  }

  /* ---------- spacing across restarts ---------- */

  /** A later lifetime runs a minute that lies behind one of an earlier lifetime by
      up to a window: it starts at least two minutes before the earlier one ends,
      and comes to within a window of where that one started. */
  predicate Overlaps(earlier: seq<seq<Event>>, later: seq<seq<Event>>) {
    && Start(earlier) < End(earlier) && Start(later) < End(later)
    && Start(later) + MINUTE < End(earlier)
    && Start(earlier) + MINUTE - End(later) <= DEDUP_WINDOW
  }

  predicate NoOverlaps(lives: seq<seq<seq<Event>>>) {
    forall i, j :: 0 <= i < j < |lives| ==> !Overlaps(lives[i], lives[j])
  }

  lemma LifeMinutes(life: seq<seq<Event>>, t: Time)
    requires forall e :: e in Flatten(life) ==> e.ts >= MINUTE
    ensures Aligned(Start(life), MINUTE) && Aligned(End(life), MINUTE)
    ensures t in Lifetime(life).1 <==> Start(life) < t <= End(life) && Aligned(t, MINUTE)
  {
    Schedule(life);
    TruncateAligned(FirstHigh(life), MINUTE);
    TruncateAligned(HighWater(Flatten(life)), MINUTE);
    MinutesAre(Start(life), End(life), t);
  }

  /** Two minutes, of an earlier and of a later lifetime, that are too close. */
  predicate Close(a: Time, b: Time) {
    0 < a - b <= DEDUP_WINDOW
  }

  lemma CloseMinutesOverlap(earlier: seq<seq<Event>>, later: seq<seq<Event>>, a: Time, b: Time)
    requires Late([earlier, later]) && a in Lifetime(earlier).1 && b in Lifetime(later).1 && Close(a, b)
    ensures Overlaps(earlier, later)
  {
    LifeMinutes(earlier, a);
    LifeMinutes(later, b);
    StepAligned(Start(later), b);
    StepAligned(Start(earlier), a);
    StepAligned(b, a);
  }

  lemma StepsApart(a: Time, b: Time)
    requires Aligned(a, MINUTE) && Aligned(b, MINUTE)
    ensures Aligned(a + MINUTE, MINUTE)
    ensures a < b ==> a + MINUTE <= b
  {}

  lemma OverlapHasCloseMinutes(earlier: seq<seq<Event>>, later: seq<seq<Event>>) returns (a: Time, b: Time)
    requires Late([earlier, later]) && Overlaps(earlier, later)
    ensures a in Lifetime(earlier).1 && b in Lifetime(later).1 && Close(a, b)
  {
    LifeMinutes(earlier, 0);
    LifeMinutes(later, 0);
    StepsApart(Start(earlier), End(earlier));
    StepsApart(Start(later), End(later));
    StepsApart(Start(earlier), End(later));
    StepsApart(Start(later) + MINUTE, End(earlier));
    if Start(earlier) >= End(later) {
      a, b := Start(earlier) + MINUTE, End(later);
    } else {
      b := if Start(earlier) > Start(later) + MINUTE then Start(earlier) else Start(later) + MINUTE;
      a := b + MINUTE;
      StepsApart(b, End(earlier));
    }
    LifeMinutes(earlier, a);
    LifeMinutes(later, b);
  }

  /** Without overlaps the minutes of a run never step back by up to a window. */
  lemma {:induction false} NoOverlapsNoStepBack(lives: seq<seq<seq<Event>>>)
    requires Late(lives) && NoOverlaps(lives)
    ensures NoStepBack(Minutes(lives))
    ensures forall t :: t in Minutes(lives) ==> exists i :: 0 <= i < |lives| && t in Lifetime(lives[i]).1
  {
    if lives != [] {
      var n := |lives| - 1;
      var init, life := lives[..n], lives[n];
      assert forall l :: l in init ==> l in lives;
      NoOverlapsNoStepBack(init);
      var before, now := Minutes(init), Lifetime(life).1;
      assert life in lives;
      Schedule(life);
      MinutesIncrease(Start(life), End(life));
      forall i, j | 0 <= i < j < |before + now|
        ensures !Close((before + now)[i], (before + now)[j])
      {
        if i < |before| <= j {
          var a, b := before[i], now[j - |before|];
          assert a in before;
          var l :| 0 <= l < |init| && a in Lifetime(init[l]).1;
          if Close(a, b) {
            assert init[l] == lives[l] && lives[l] in lives;
            CloseMinutesOverlap(lives[l], life, a, b);
          }
        }
      }
      forall t | t in Minutes(lives)
        ensures exists i :: 0 <= i < |lives| && t in Lifetime(lives[i]).1
      {
        if t in before {
          var i :| 0 <= i < |init| && t in Lifetime(init[i]).1;
          assert t in Lifetime(lives[i]).1;
        } else {
          assert t in Lifetime(lives[n]).1;
        }
      }
    }
  }

  /** Where the minutes of a lifetime are among those of the run. */
  lemma MinuteAt(lives: seq<seq<seq<Event>>>, i: nat, t: Time) returns (n: nat)
    requires i < |lives| && t in Lifetime(lives[i]).1
    ensures n < |Minutes(lives)| && Minutes(lives)[n] == t
    ensures |Minutes(lives[..i])| <= n < |Minutes(lives[..i + 1])|
  {
    assert lives[..i + 1] == lives[..i] + [lives[i]];
    MinutesSnoc(lives[..i], lives[i]);
    MinutesPrefix(lives, i + 1);
    n := IndexWithin(Minutes(lives[..i]), Lifetime(lives[i]).1, Minutes(lives), t);
  }

  lemma {:induction false} MinutesPrefix(lives: seq<seq<seq<Event>>>, j: nat)
    requires j <= |lives|
    ensures Minutes(lives[..j]) <= Minutes(lives)
  {
    if j == |lives| {
      assert lives[..j] == lives;
    } else {
      var init := lives[..|lives| - 1];
      assert init[..j] == lives[..j];
      MinutesPrefix(init, j);
    }
  }

  lemma IndexWithin(a: seq<Time>, b: seq<Time>, all: seq<Time>, t: Time) returns (n: nat)
    requires a + b <= all && t in b
    ensures n < |all| && all[n] == t && |a| <= n < |a + b|
  {
    var j :| 0 <= j < |b| && b[j] == t;
    n := |a| + j;
    assert (a + b)[n] == t;
  }

  lemma MinutesGrow(lives: seq<seq<seq<Event>>>, i: nat, j: nat)
    requires i <= j <= |lives|
    ensures |Minutes(lives[..i])| <= |Minutes(lives[..j])|
  {
    MinutesPrefix(lives[..j], i);
    assert lives[..j][..i] == lives[..i];
  }

  /** Overlapping lifetimes make the minutes of the run step back. */
  lemma OverlapStepsBack(lives: seq<seq<seq<Event>>>, i: nat, j: nat) returns (m: nat, n: nat)
    requires Late(lives) && i < j < |lives| && Overlaps(lives[i], lives[j])
    ensures m < n < |Minutes(lives)| && Close(Minutes(lives)[m], Minutes(lives)[n])
  {
    assert lives[i] in lives && lives[j] in lives;
    var a, b := OverlapHasCloseMinutes(lives[i], lives[j]);
    m := MinuteAt(lives, i, a);
    n := MinuteAt(lives, j, b);
    MinutesGrow(lives, i + 1, j);
  }

  /* ---------- every point is another one ---------- */

  ghost predicate AllDifferent(ps: seq<Point>) {
    forall i, j :: 0 <= i < j < |ps| ==> ps[i] != ps[j]
  }

  lemma {:induction false} PointsDiffer(cfg: Config, steps: seq<Step>)
    requires NoAborts(steps) && Advances(steps)
    ensures AllDifferent(Points(cfg, steps))
    ensures forall p :: p in Points(cfg, steps) ==> p.view.cursor < CursorOf(steps)
  {
    if steps != [] {
      var init, step := steps[..|steps| - 1], steps[|steps| - 1];
      PointsDiffer(cfg, init);
      if step.Batch? {
        var s := Run(cfg, init);
        var m := Apply(s.mem, step.events);
        RunCursor(cfg, init);
        NewPoints(View(m, s.tables), m.clock);
        Differ(Points(cfg, init), PointsAt(View(m, s.tables), Due(m.clock)));
      }
    }
  }

  lemma NewPoints(view: Tables, c: Clock)
    ensures var ps := PointsAt(view, Due(c));
            AllDifferent(ps) && forall p :: p in ps ==> p.view.cursor == view.cursor
  {
    MinutesIncrease(c.cursor, Truncate(c.hwm, MINUTE));
  }

  lemma Differ(a: seq<Point>, b: seq<Point>)
    requires AllDifferent(a) && AllDifferent(b)
    requires forall p, q :: p in a && q in b ==> p.view.cursor < q.view.cursor
    ensures AllDifferent(a + b)
  {
    forall i, j | 0 <= i < j < |a + b|
      ensures (a + b)[i] != (a + b)[j]
    {
      if i < |a| <= j {
        assert a[i] in a && b[j - |a|] in b;
      }
    }
  }

  /* ---------- the rules do not change what they are run on ---------- */

  function With(cfg: Config, ds: seq<Detector<Tables>>): Config {
    cfg.(detectors := ds)
  }

  lemma CommitUnderOtherRules(cfg: Config, ds: seq<Detector<Tables>>, m: Memory, t: Tables, t': Tables, cursor: nat, hwm: Time)
    requires t.(anomalies := []) == t'.(anomalies := [])
    ensures View(m, t) == View(m, t')
    ensures var s, s' := Commit(cfg, m, t, cursor, hwm), Commit(With(cfg, ds), m, t', cursor, hwm);
            s.mem == s'.mem && s.tables.(anomalies := []) == s'.tables.(anomalies := [])
  {}

  lemma {:induction false} OtherRules(cfg: Config, ds: seq<Detector<Tables>>, steps: seq<Step>)
    requires NoAborts(steps)
    ensures var s, s' := Run(cfg, steps), Run(With(cfg, ds), steps);
            s.mem == s'.mem && s.tables.(anomalies := []) == s'.tables.(anomalies := [])
    ensures Points(cfg, steps) == Points(With(cfg, ds), steps)
  {
    if steps != [] {
      var init, step := steps[..|steps| - 1], steps[|steps| - 1];
      OtherRules(cfg, ds, init);
      if step.Batch? {
        var s, s' := Run(cfg, init), Run(With(cfg, ds), init);
        CommitUnderOtherRules(cfg, ds, Apply(s.mem, step.events), s.tables, s'.tables, step.cursor, HighWater(step.events));
      }
    }
  }

  /* ---------- the theorem ---------- */

  /** A rule that finds the same thing at two points and nothing elsewhere. */
  function AtTwo(p: Point, q: Point): Detector<Tables> {
    Detector("kind", (view, t) => if Point(view, t) == p || Point(view, t) == q then [Finding(None, "warn")] else [])
  }

  const FOUND: Found := Found("kind", Finding(None, "warn"))

  lemma FoundByTwo(p: Point, q: Point, x: Point)
    ensures FoundAt([AtTwo(p, q)], x.view, x.t) == if x == p || x == q then [FOUND] else []
  {
    var d := AtTwo(p, q);
    assert [d][..0] == [] && FoundAt([d][..0], x.view, x.t) == [];
    assert Tag(d.kind, d.run(x.view, x.t)) == if x == p || x == q then [FOUND] else [];
  }

  lemma TicksOfTwo(ps: seq<Point>, m: nat, n: nat)
    requires AllDifferent(ps) && m < n < |ps|
    ensures TicksAt([AtTwo(ps[m], ps[n])], ps) == TwoTicks(PointTimes(ps), m, n, FOUND)
  {
    forall i | 0 <= i < |ps|
      ensures TicksAt([AtTwo(ps[m], ps[n])], ps)[i] == TwoTicks(PointTimes(ps), m, n, FOUND)[i]
    {
      FoundByTwo(ps[m], ps[n], ps[i]);
      assert ps[i] == ps[m] ==> i == m;
      assert ps[i] == ps[n] ==> i == n;
    }
  }

  /** Two points too close, the greater first, and a rule that finds something at both. */
  lemma TwoRowsTooClose(ps: seq<Point>, m: nat, n: nat)
    requires AllDifferent(ps) && m < n < |ps| && Close(ps[m].t, ps[n].t)
    ensures !Spaced(Ticked([], TicksAt([AtTwo(ps[m], ps[n])], ps)))
  {
    var times := PointTimes(ps);
    var ticks := TwoTicks(times, m, n, FOUND);
    TicksOfTwo(ps, m, n);
    TwoTicksEmit(times, m, n, FOUND, |times|);
    assert ticks[..|times|] == ticks;
    var t := Ticked([], ticks);
    assert t == [RowOf(times[m], FOUND), RowOf(times[n], FOUND)];
    assert Alike(t[1], t[0]) && t[1].ts < t[0].ts;
  }

  lemma TimesOfTicks(ds: seq<Detector<Tables>>, ps: seq<Point>)
    ensures Times(TicksAt(ds, ps)) == PointTimes(ps)
  {}

  /** Within and across the lifetimes of a run, rows of one kind and subject at
      different minutes are more than a window apart, whatever the rules find. */
  lemma NoOverlapsSpaced(cfg: Config, steps: seq<Step>)
    requires NoAborts(steps) && Late(Lives(steps)) && NoOverlaps(Lives(steps))
    ensures Spaced(Run(cfg, steps).tables.anomalies)
    ensures OnMinutes(Run(cfg, steps).tables.anomalies)
  {
    var ps, lives := Points(cfg, steps), Lives(steps);
    RunAnomalies(cfg, steps);
    RunMinutes(cfg, steps);
    NoOverlapsNoStepBack(lives);
    TimesOfTicks(cfg.detectors, ps);
    var ticks := TicksAt(cfg.detectors, ps);
    TickedSpaced(ticks);
    forall a | a in Run(cfg, steps).tables.anomalies
      ensures Aligned(a.ts, MINUTE)
    {
      var i :| 0 <= i < |ticks| && ticks[i].t == a.ts;
      assert Times(ticks)[i] == a.ts && a.ts in Minutes(lives);
      var l :| 0 <= l < |lives| && a.ts in Lifetime(lives[l]).1;
      assert lives[l] in lives;
      LifeMinutes(lives[l], a.ts);
    }
  }

  /** ... and only then: if a lifetime runs minutes behind those of an earlier one,
      some rule makes two rows of one kind and subject too close to each other. */
  lemma SpacedIffNoOverlaps(cfg: Config, steps: seq<Step>)
    requires NoAborts(steps) && Advances(steps) && Late(Lives(steps))
    ensures (forall ds :: Spaced(Run(With(cfg, ds), steps).tables.anomalies)) <==> NoOverlaps(Lives(steps))
  {
    if NoOverlaps(Lives(steps)) {
      forall ds
        ensures Spaced(Run(With(cfg, ds), steps).tables.anomalies)
      {
        NoOverlapsSpaced(With(cfg, ds), steps);
      }
    } else {
      var ps, lives := Points(cfg, steps), Lives(steps);
      var i, j :| 0 <= i < j < |lives| && Overlaps(lives[i], lives[j]);
      var m, n := OverlapStepsBack(lives, i, j);
      RunMinutes(cfg, steps);
      assert PointTimes(ps)[m] == ps[m].t && PointTimes(ps)[n] == ps[n].t;
      PointsDiffer(cfg, steps);
      TwoRowsTooClose(ps, m, n);
      var ds := [AtTwo(ps[m], ps[n])];
      OtherRules(cfg, ds, steps);
      RunAnomalies(With(cfg, ds), steps);
      assert !Spaced(Run(With(cfg, ds), steps).tables.anomalies);
    }
  }

  /** A status event at a minute. */
  function Sign(minute: nat): Event {
    Event(0, minute * MINUTE, [], "", Status(StatusPayload("", "", "", "", "", "", None, None, None, None, None, None, None, None)))
  }

  /** Minutes 11 to 13 are run, the process restarts, and the next events are older. */
  function RestartBehind(): seq<Step> {
    TwoByTwo([Sign(10)], [Sign(13)], [Sign(9)], [Sign(12)])
  }

  lemma SignLife(m: nat, n: nat)
    requires 0 < m < n
    ensures var life := [[Sign(m)], [Sign(n)]];
            && FirstHigh(life) == m * MINUTE && Flatten(life) == [Sign(m), Sign(n)] && HighWater(Flatten(life)) == n * MINUTE
            && Start(life) == m * MINUTE && End(life) == n * MINUTE
  {
    var life := [[Sign(m)], [Sign(n)]];
    var one := [[Sign(m)]];
    assert life[..1] == one && one[..0] == [] && [Sign(m)][..0] == [] && [Sign(n)][..0] == [];
    assert HighWater([Sign(m)]) == m * MINUTE && HighWater([Sign(n)]) == n * MINUTE;
    assert FirstHigh(one) == m * MINUTE && Flatten(one) == [Sign(m)];
    assert Flatten(life) == [Sign(m)] + [Sign(n)] == [Sign(m), Sign(n)];
    assert [Sign(m), Sign(n)][..1] == [Sign(m)];
    QuotientIs(m * MINUTE, m, MINUTE);
    QuotientIs(n * MINUTE, n, MINUTE);
  }

  lemma LivesSnoc(steps: seq<Step>, step: Step)
    ensures NoAborts(steps + [step]) <==> NoAborts(steps) && !step.Abort?
    ensures Advances(steps + [step]) <==> Advances(steps) && (step.Batch? ==> step.cursor > CursorOf(steps))
    ensures step.Batch? ==> CursorOf(steps + [step]) == step.cursor
    ensures step.Crash? ==> CursorOf(steps + [step]) == CursorOf(steps)
    ensures var lives := Lives(steps);
            && (step.Batch? ==> Lives(steps + [step]) == lives[|lives| - 1 := lives[|lives| - 1] + [step.events]])
            && (step.Crash? ==> Lives(steps + [step]) == lives + [[]])
  {
    assert (steps + [step])[..|steps|] == steps;
  }

  /** Two batches in a lifetime that has just begun. */
  lemma TwoBatches(steps: seq<Step>, a: seq<Event>, i: nat, b: seq<Event>, j: nat)
    requires NoAborts(steps) && Advances(steps) && CursorOf(steps) < i < j
    requires Lives(steps)[|Lives(steps)| - 1] == []
    ensures var all, lives := steps + [Batch(a, i)] + [Batch(b, j)], Lives(steps);
            NoAborts(all) && Advances(all) && CursorOf(all) == j && Lives(all) == lives[|lives| - 1 := [a, b]]
  {
    LivesSnoc(steps, Batch(a, i));
    LivesSnoc(steps + [Batch(a, i)], Batch(b, j));
    TwoInOne(a, b);
  }

  lemma TwoInOne(a: seq<Event>, b: seq<Event>)
    ensures ([] + [a]) + [b] == [a, b]
  {}

  /** Two batches, a restart, and two more. */
  function TwoByTwo(a: seq<Event>, b: seq<Event>, c: seq<Event>, d: seq<Event>): seq<Step> {
    [] + [Batch(a, 1)] + [Batch(b, 2)] + [Crash] + [Batch(c, 3)] + [Batch(d, 4)]
  }

  lemma TwoByTwoLives(a: seq<Event>, b: seq<Event>, c: seq<Event>, d: seq<Event>)
    ensures NoAborts(TwoByTwo(a, b, c, d)) && Advances(TwoByTwo(a, b, c, d))
    ensures Lives(TwoByTwo(a, b, c, d)) == [[a, b], [c, d]]
  {
    var none: seq<Step> := [];
    var two := none + [Batch(a, 1)] + [Batch(b, 2)];
    TwoBatches(none, a, 1, b, 2);
    LivesSnoc(two, Crash);
    TwoLives([a, b], [c, d]);
    TwoBatches(two + [Crash], c, 3, d, 4);
  }

  lemma TwoLives(x: seq<seq<Event>>, y: seq<seq<Event>>)
    ensures var none: seq<seq<seq<Event>>> := [[]];
            none[0 := x] == [x] && ([x] + [[]])[1 := y] == [x, y]
  {}

  lemma SomeRuleBreaksSpacing(cfg: Config, steps: seq<Step>)
    requires NoAborts(steps) && Advances(steps) && Late(Lives(steps)) && !NoOverlaps(Lives(steps))
    ensures exists ds :: !Spaced(Run(With(cfg, ds), steps).tables.anomalies)
  {
    SpacedIffNoOverlaps(cfg, steps);
  }

  lemma TwoLivesOverlap(a: seq<seq<Event>>, b: seq<seq<Event>>)
    requires Overlaps(a, b)
    ensures !NoOverlaps([a, b])
  {
    assert [a, b][0] == a && [a, b][1] == b;
  }

  lemma SignsOverlap()
    ensures Overlaps([[Sign(10)], [Sign(13)]], [[Sign(9)], [Sign(12)]])
  {
    SignLife(10, 13);
    SignLife(9, 12);
  }

  lemma SignsAreLate(a: seq<seq<Event>>, b: seq<seq<Event>>)
    requires a == [[Sign(10)], [Sign(13)]] && b == [[Sign(9)], [Sign(12)]]
    ensures Late([a, b])
  {
    SignLife(10, 13);
    SignLife(9, 12);
    assert forall l :: l in [a, b] ==> l == a || l == b;
  }

  lemma RestartOverlaps()
    ensures Late(Lives(RestartBehind())) && !NoOverlaps(Lives(RestartBehind()))
  {
    var a, b := [[Sign(10)], [Sign(13)]], [[Sign(9)], [Sign(12)]];
    TwoByTwoLives([Sign(10)], [Sign(13)], [Sign(9)], [Sign(12)]);
    SignsAreLate(a, b);
    SignsOverlap();
    TwoLivesOverlap(a, b);
  }

  /** A run that some rule makes rows too close in. */
  lemma RestartBreaksSpacing(cfg: Config)
    ensures exists ds :: !Spaced(Run(With(cfg, ds), RestartBehind()).tables.anomalies)
  {
    TwoByTwoLives([Sign(10)], [Sign(13)], [Sign(9)], [Sign(12)]);
    RestartOverlaps();
    SomeRuleBreaksSpacing(cfg, RestartBehind());
  }

  /** The rows of one kind and subject in n consecutive minutes of such a run. */
  lemma AnomaliesAreFew(cfg: Config, steps: seq<Step>, kind: string, subject: Option<Bytes>, from: Time, until: Time, n: nat)
    requires NoAborts(steps) && Late(Lives(steps)) && NoOverlaps(Lives(steps))
    requires Aligned(from, MINUTE) && until <= from + n * MINUTE
    ensures |TimesOf(Run(cfg, steps).tables.anomalies, kind, subject, from, until)| <= (n + 15) / 16
  {
    NoOverlapsSpaced(cfg, steps);
    RowsAreFew(Run(cfg, steps).tables.anomalies, kind, subject, from, until, n);
  }

  /** One process lifetime never overlaps itself. */
  lemma AnomaliesAreSpaced(cfg: Config, steps: seq<Step>)
    requires NoAborts(steps) && |Lives(steps)| == 1 && Late(Lives(steps))
    ensures Spaced(Run(cfg, steps).tables.anomalies)
  {
    NoOverlapsSpaced(cfg, steps);
  }
}
