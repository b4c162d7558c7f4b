/** Which rows the observer rollups have, and which reading their noise floor is, in
    every run: from the events, the failures and the retention alone. */
module Readings {
  import opened Events
  import opened Projection
  import opened Invariants
  import R = RollupObserverStage

  /* ---------- what memory remembers of a bucket ---------- */

  /** Whether the cache keeps the bucket after a batch. */
  predicate Remains(cfg: Config, es: seq<Event>, g: Grain, k: R.Key) {
    HighWater(es) == 0 || k.bucket + Span(g) >= HighWater(es) - Retention(g, cfg)
  }

  function NoteAfter(cfg: Config, n: Option<R.Note>, step: Step, g: Grain, k: R.Key): Option<R.Note> {
    match step
    case Batch(es, _) => if Remains(cfg, es, g, k) then R.Cleaned(R.Noting(Span(g), n, es, k), true) else None
    case Abort(es, f) => R.Cleaned(R.Noting(Span(g), n, es, k), R.MarksClean(RollupReach(g, f), k))
    case Crash => None
    case Reset => None
  }

  function NoteOf(cfg: Config, steps: seq<Step>, g: Grain, k: R.Key): Option<R.Note> {
    if steps == [] then None else NoteAfter(cfg, NoteOf(cfg, steps[..|steps| - 1], g, k), steps[|steps| - 1], g, k)
  }

  function HeldAfter(n: Option<R.Note>, held: Option<seq<Event>>, log: seq<Event>, step: Step, g: Grain, k: R.Key): Option<seq<Event>> {
    match step
    case Batch(es, _) => R.Held(R.Noting(Span(g), n, es, k), held, log + es)
    case Abort(_, _) => held
    case Crash => held
    case Reset => None
  }

  /** The part of the log whose newest reading is the row's noise floor, if a commit
      has written the row. */
  function HeldOf(cfg: Config, steps: seq<Step>, g: Grain, k: R.Key): Option<seq<Event>> {
    if steps == [] then None
    else
      var init := steps[..|steps| - 1];
      HeldAfter(NoteOf(cfg, init, g, k), HeldOf(cfg, init, g, k), Of(init).log, steps[|steps| - 1], g, k)
  }

  ghost predicate NotesOK(g: Grain, s: System, h: History, n: Option<R.Note>, held: Option<seq<Event>>, k: R.Key) {
    && R.NoteIn(Get(Cache(g, s.mem), k)) == n
    && R.Remembers(Span(g), Get(Cache(g, s.mem), k), Get(Rows(g, s.tables), k), h.log, h.last, k)
    && R.Holds(Span(g), Get(Rows(g, s.tables), k), h.log, held, k)
  }

  lemma NotesApplied(g: Grain, s: System, h: History, n: Option<R.Note>, held: Option<seq<Event>>, es: seq<Event>, k: R.Key)
    requires NotesOK(g, s, h, n, held, k) && AllWellTimed(es)
    ensures R.NoteIn(Get(R.ApplyAll(Span(g), Cache(g, s.mem), es), k)) == R.Noting(Span(g), n, es, k)
  {
    R.NewestBounds(Span(g), h.last, k);
    R.ApplyAllNotes(Span(g), Cache(g, s.mem), es, k);
  }

  lemma KeptNotes(cfg: Config, s: R.State, row: Option<R.Row>, log: seq<Event>, es: seq<Event>, g: Grain, k: R.Key)
    requires R.Remembers(Span(g), Get(s, k), row, log, [], k) && (k in s ==> !s[k].dirty) && HighWater(es) >= 0
    ensures var s' := R.Kept(Span(g), Retention(g, cfg), s, HighWater(es));
            && R.Remembers(Span(g), Get(s', k), row, log, [], k)
            && R.NoteIn(Get(s', k)) == if Remains(cfg, es, g, k) then R.NoteIn(Get(s, k)) else None
  {}

  lemma NotesBatch(cfg: Config, s: System, h: History, n: Option<R.Note>, held: Option<seq<Event>>, es: seq<Event>, cursor: nat, g: Grain, k: R.Key)
    requires NotesOK(g, s, h, n, held, k) && Allowed(h, Batch(es, cursor))
    ensures NotesOK(g, Next(cfg, s, Batch(es, cursor)), Recorded(h, Batch(es, cursor)), NoteAfter(cfg, n, Batch(es, cursor), g, k),
                    HeldAfter(n, held, h.log, Batch(es, cursor), g, k), k)
  {
    var m, po := Apply(s.mem, es), s.tables.observations;
    NotesApplied(g, s, h, n, held, es, k);
    R.CommitRemembers(Span(g), Cache(g, s.mem), Rows(g, s.tables), po, h.log, h.last, es, held, k);
    CommitRows(cfg, m, s.tables, cursor, HighWater(es), g);
    FlushCache(m, s.tables, g);
    KeptCache(cfg, FlushMemory(m, s.tables), HighWater(es), g);
    HighWaterSet(es);
    KeptNotes(cfg, R.FlushState(Span(g), Cache(g, m), Rows(g, s.tables), po),
              Get(R.FlushTable(Span(g), Cache(g, m), Rows(g, s.tables), po), k), h.log + es, es, g, k);
  }

  lemma NotesAbort(cfg: Config, s: System, h: History, n: Option<R.Note>, held: Option<seq<Event>>, es: seq<Event>, f: Failure, g: Grain, k: R.Key)
    requires NotesOK(g, s, h, n, held, k) && Allowed(h, Abort(es, f))
    ensures NotesOK(g, Next(cfg, s, Abort(es, f)), Recorded(h, Abort(es, f)), NoteAfter(cfg, n, Abort(es, f), g, k), held, k)
  {
    NotesApplied(g, s, h, n, held, es, k);
    R.AbortRemembers(Span(g), Cache(g, s.mem), Rows(g, s.tables), s.tables.observations, h.log, h.last, es, RollupReach(g, f), k);
  }

  lemma NotesStep(cfg: Config, s: System, h: History, n: Option<R.Note>, held: Option<seq<Event>>, step: Step, g: Grain, k: R.Key)
    requires NotesOK(g, s, h, n, held, k) && Allowed(h, step)
    ensures NotesOK(g, Next(cfg, s, step), Recorded(h, step), NoteAfter(cfg, n, step, g, k), HeldAfter(n, held, h.log, step, g, k), k)
  {
    match step
    case Batch(es, cursor) => NotesBatch(cfg, s, h, n, held, es, cursor, g, k);
    case Abort(es, f) => NotesAbort(cfg, s, h, n, held, es, f, g, k);
    case Crash =>
    case Reset =>
  }

  lemma {:induction false} RunNotes(cfg: Config, steps: seq<Step>, g: Grain, k: R.Key)
    requires Legal(steps)
    ensures NotesOK(g, Run(cfg, steps), Of(steps), NoteOf(cfg, steps, g, k), HeldOf(cfg, steps, g, k), k)
  {
    if steps != [] {
      var init := steps[..|steps| - 1];
      RunNotes(cfg, init, g, k);
      NotesStep(cfg, Run(cfg, init), Of(init), NoteOf(cfg, init, g, k), HeldOf(cfg, init, g, k), steps[|steps| - 1], g, k);
    }
  }

  /** In every run: there is a row exactly if some commit found the bucket to be
      written, and, if a reload cannot confuse the readings, its noise floor is the
      log's newest exactly if that is the newest of the part it holds. */
  lemma RowAndFloorIff(cfg: Config, steps: seq<Step>, g: Grain, k: R.Key)
    requires Legal(steps)
    ensures var rows, log, held := Rows(g, Run(cfg, steps).tables), Of(steps).log, HeldOf(cfg, steps, g, k);
            && (k in rows <==> held.Some?)
            && (k in rows && R.ReloadSafe(Span(g), log, k) ==>
                  (rows[k].noiseFloor == R.Floor(R.Noise(Span(g), log, k))
                   <==> R.Floor(R.Noise(Span(g), held.value, k)) == R.Floor(R.Noise(Span(g), log, k))))
  {
    RunNotes(cfg, steps, g, k);
  }

  /* ---------- runs that lose nothing ---------- */

  /** A failed attempt that touched the bucket and marked it clean. */
  predicate Cleans(es: seq<Event>, f: Failure, g: Grain, k: R.Key) {
    R.Touched(Span(g), es, k) && R.MarksClean(RollupReach(g, f), k)
  }

  /** The events of the last such attempt since the last commit, restart or reset. */
  function LastCleaned(steps: seq<Step>, g: Grain, k: R.Key): Option<seq<Event>> {
    if steps == [] then None
    else
      match steps[|steps| - 1]
      case Batch(_, _) => None
      case Abort(es, f) => if Cleans(es, f, g, k) then Some(es) else LastCleaned(steps[..|steps| - 1], g, k)
      case Crash => None
      case Reset => None
  }

  /** Some commit since the last reset followed such an attempt. */
  predicate Lossy(steps: seq<Step>, g: Grain, k: R.Key) {
    if steps == [] then false
    else
      var init := steps[..|steps| - 1];
      match steps[|steps| - 1]
      case Batch(_, _) => Lossy(init, g, k) || LastCleaned(init, g, k).Some?
      case Abort(_, _) => Lossy(init, g, k)
      case Crash => Lossy(init, g, k)
      case Reset => false
  }

  /** What a note says of the log and of the last failed attempt. */
  predicate Sequel(dur: Duration, n: Option<R.Note>, h: History, k: R.Key) {
    match n
    case None => !R.Touched(dur, h.last, k)
    case Some(m) =>
      && R.Newest(dur, h.last, k) <= m.newest
      && R.Touched(dur, h.log + h.last, k)
      && (m.unsaved ==> R.Touched(dur, h.last, k))
      && (m.newest > 0 ==> m.newest <= NewestOf(R.Noise(dur, h.log + h.last, k)))
  }

  function NewestOf(r: Option<R.Reading>): Time {
    if r.None? then 0 else r.value.ts
  }

  /** Nothing is missing from the row, and nothing but what is unsaved will be. */
  predicate Complete(dur: Duration, n: Option<R.Note>, held: Option<seq<Event>>, h: History, cleaned: bool, k: R.Key) {
    && (held.Some? <==> R.Touched(dur, h.log, k))
    && (held.Some? ==> R.Noise(dur, held.value, k) == R.Noise(dur, h.log, k))
    && (n.Some? && !cleaned && !n.value.unsaved
        ==> R.Touched(dur, h.log, k) && R.Noise(dur, h.log + h.last, k) == R.Noise(dur, h.log, k))
  }

  /** A batch with nothing newer does not change the newest reading. */
  lemma {:induction false} NoiseStays(dur: Duration, log: seq<Event>, es: seq<Event>, k: R.Key)
    requires AllWellTimed(es) && R.Newest(dur, es, k) <= NewestOf(R.Noise(dur, log, k))
    ensures R.Noise(dur, log + es, k) == R.Noise(dur, log, k)
  {
    if es == [] {
      assert log + es == log;
    } else {
      var init, e := es[..|es| - 1], es[|es| - 1];
      assert es == init + [e] && log + es == (log + init) + [e] && WellTimed(e);
      R.NewestGrows(dur, init, es, k);
      NoiseStays(dur, log, init, k);
      R.NewestBounds(dur, es, k);
      R.NoiseSnoc(dur, log + init, e, k);
    }
  }

  /** The newest reading only becomes newer, and is at least the batch's. */
  lemma {:induction false} NoiseReaches(dur: Duration, log: seq<Event>, es: seq<Event>, k: R.Key)
    requires AllWellTimed(es)
    ensures R.Newest(dur, es, k) > 0 ==> NewestOf(R.Noise(dur, log + es, k)) >= R.Newest(dur, es, k)
    ensures R.Noise(dur, log, k).Some? ==> NewestOf(R.Noise(dur, log + es, k)) >= NewestOf(R.Noise(dur, log, k))
  {
    if es == [] {
      assert log + es == log;
    } else {
      var init, e := es[..|es| - 1], es[|es| - 1];
      assert es == init + [e] && log + es == (log + init) + [e] && WellTimed(e);
      NoiseReaches(dur, log, init, k);
      R.NewestSnoc(dur, init, e, k);
      R.NoiseSnoc(dur, log + init, e, k);
    }
  }

  lemma TouchedSplit(dur: Duration, log: seq<Event>, es: seq<Event>, k: R.Key)
    ensures R.Touched(dur, log + es, k) <==> R.Touched(dur, log, k) || R.Touched(dur, es, k)
  {
    R.TouchedGrows(dur, log, es, k);
  }

  /** A batch that touches the bucket brings a packet or a reading. */
  lemma TouchedIsSeen(dur: Duration, es: seq<Event>, k: R.Key)
    requires AllWellTimed(es) && R.Touched(dur, es, k)
    ensures R.Carries(dur, es, k) || R.Newest(dur, es, k) > 0
  {
    var e :| e in es && R.Touches(dur, k, e);
    assert WellTimed(e);
    R.NewestBounds(dur, es, k);
  }

  lemma NotingSequel(dur: Duration, n: Option<R.Note>, h: History, es: seq<Event>, k: R.Key)
    requires Sequel(dur, n, h, k) && h.last <= es && AllWellTimed(es)
    ensures Sequel(dur, R.Noting(dur, n, es, k), h.(last := es), k)
  {
    R.NewestBounds(dur, h.last, k);
    R.UntouchedNewest(dur, es, k);
    R.NewestGrows(dur, h.last, es, k);
    TouchedSplit(dur, h.log, h.last, k);
    TouchedSplit(dur, h.log, es, k);
    NoiseOfRetry(dur, h, es, k);
  }

  lemma NoiseOfRetry(dur: Duration, h: History, es: seq<Event>, k: R.Key)
    requires h.last <= es && AllWellTimed(es)
    ensures var now := NewestOf(R.Noise(dur, h.log + es, k));
            && (R.Newest(dur, es, k) > 0 ==> now >= R.Newest(dur, es, k))
            && (R.Noise(dur, h.log + h.last, k).Some? ==> now >= NewestOf(R.Noise(dur, h.log + h.last, k)))
  {
    var rest := es[|h.last|..];
    assert h.log + es == (h.log + h.last) + rest && es == h.last + rest;
    NoiseReaches(dur, h.log, es, k);
    NoiseReaches(dur, h.log + h.last, rest, k);
  }

  lemma SequelStep(cfg: Config, n: Option<R.Note>, h: History, step: Step, g: Grain, k: R.Key)
    requires Sequel(Span(g), n, h, k) && Allowed(h, step)
    ensures Sequel(Span(g), NoteAfter(cfg, n, step, g, k), Recorded(h, step), k)
  {
    match step
    case Batch(es, _) =>
      NotingSequel(Span(g), n, h, es, k);
      R.NewestBounds(Span(g), es, k);
      assert (h.log + es) + [] == h.log + es;
    case Abort(es, _) => NotingSequel(Span(g), n, h, es, k);
    case Crash =>
    case Reset =>
  }

  /** A bucket that a retry leaves clean has nothing new in it. */
  lemma CleanStays(dur: Duration, n: Option<R.Note>, held: Option<seq<Event>>, h: History, es: seq<Event>, k: R.Key)
    requires Sequel(dur, n, h, k) && Complete(dur, n, held, h, false, k) && h.last <= es && AllWellTimed(es)
    ensures var m := R.Noting(dur, n, es, k);
            m.Some? && !m.value.unsaved ==> R.Touched(dur, h.log, k) && R.Noise(dur, h.log + es, k) == R.Noise(dur, h.log, k)
  {
    var m := R.Noting(dur, n, es, k);
    R.NewestBounds(dur, h.last, k);
    R.NewestBounds(dur, es, k);
    if R.Touched(dur, es, k) {
      TouchedIsSeen(dur, es, k);
    }
    if R.Newest(dur, es, k) <= 0 {
      NoReadings(dur, h.log, es, k);
    } else if m.Some? && !m.value.unsaved {
      NoiseStays(dur, h.log, es, k);
    }
  }

  lemma CompleteBatch(cfg: Config, n: Option<R.Note>, held: Option<seq<Event>>, h: History, es: seq<Event>, cursor: nat, g: Grain, k: R.Key)
    requires Sequel(Span(g), n, h, k) && Complete(Span(g), n, held, h, false, k) && h.last <= es && AllWellTimed(es)
    ensures Complete(Span(g), NoteAfter(cfg, n, Batch(es, cursor), g, k), HeldAfter(n, held, h.log, Batch(es, cursor), g, k),
                     Recorded(h, Batch(es, cursor)), false, k)
  {
    var m := R.Noting(Span(g), n, es, k);
    assert (h.log + es) + [] == h.log + es;
    CleanStays(Span(g), n, held, h, es, k);
    NotingSequel(Span(g), n, h, es, k);
    TouchedSplit(Span(g), h.log, es, k);
    R.UntouchedNoise(Span(g), h.log, k);
    R.NewestBounds(Span(g), es, k);
    if m.None? || m.value.newest <= 0 {
      NoReadings(Span(g), h.log, es, k);
    }
  }

  lemma {:induction false} NoReadings(dur: Duration, log: seq<Event>, es: seq<Event>, k: R.Key)
    requires AllWellTimed(es) && R.Newest(dur, es, k) <= 0
    ensures R.Noise(dur, log + es, k) == R.Noise(dur, log, k)
  {
    if es != [] {
      var init, e := es[..|es| - 1], es[|es| - 1];
      assert es == init + [e] && log + es == (log + init) + [e] && WellTimed(e);
      R.NewestGrows(dur, init, es, k);
      R.NewestBounds(dur, es, k);
      NoReadings(dur, log, init, k);
      R.NoiseSnoc(dur, log + init, e, k);
    } else {
      assert log + es == log;
    }
  }

  lemma CompleteAbort(cfg: Config, n: Option<R.Note>, held: Option<seq<Event>>, h: History, es: seq<Event>, f: Failure, cleaned: bool, g: Grain, k: R.Key)
    requires Sequel(Span(g), n, h, k) && Complete(Span(g), n, held, h, cleaned, k) && h.last <= es && AllWellTimed(es)
    ensures Complete(Span(g), NoteAfter(cfg, n, Abort(es, f), g, k), held, Recorded(h, Abort(es, f)), cleaned || Cleans(es, f, g, k), k)
  {
    if !cleaned && !Cleans(es, f, g, k) {
      CleanStays(Span(g), n, held, h, es, k);
      R.NewestGrows(Span(g), h.last, es, k);
    }
  }

  lemma CompleteStep(cfg: Config, n: Option<R.Note>, held: Option<seq<Event>>, h: History, cleaned: bool, step: Step, g: Grain, k: R.Key)
    requires Sequel(Span(g), n, h, k) && Complete(Span(g), n, held, h, cleaned, k) && Allowed(h, step) && (step.Batch? ==> !cleaned)
    ensures Complete(Span(g), NoteAfter(cfg, n, step, g, k), HeldAfter(n, held, h.log, step, g, k), Recorded(h, step),
                     step.Abort? && (cleaned || Cleans(step.events, step.failure, g, k)), k)
  {
    match step
    case Batch(es, cursor) => CompleteBatch(cfg, n, held, h, es, cursor, g, k);
    case Abort(es, f) => CompleteAbort(cfg, n, held, h, es, f, cleaned, g, k);
    case Crash =>
    case Reset =>
  }

  lemma {:induction false} RunComplete(cfg: Config, steps: seq<Step>, g: Grain, k: R.Key)
    requires Legal(steps)
    ensures Sequel(Span(g), NoteOf(cfg, steps, g, k), Of(steps), k)
    ensures !Lossy(steps, g, k) ==>
              Complete(Span(g), NoteOf(cfg, steps, g, k), HeldOf(cfg, steps, g, k), Of(steps), LastCleaned(steps, g, k).Some?, k)
  {
    if steps != [] {
      var init, step := steps[..|steps| - 1], steps[|steps| - 1];
      RunComplete(cfg, init, g, k);
      SequelStep(cfg, NoteOf(cfg, init, g, k), Of(init), step, g, k);
      if !Lossy(steps, g, k) && !step.Reset? {
        CompleteStep(cfg, NoteOf(cfg, init, g, k), HeldOf(cfg, init, g, k), Of(init), LastCleaned(init, g, k).Some?, step, g, k);
      }
    }
  }

  /** Unless a commit followed an attempt that had marked the bucket clean, a row is
      there for every bucket the log touches, and its noise floor is the newest one
      if a reload cannot confuse them. */
  lemma NothingIsMissing(cfg: Config, steps: seq<Step>, g: Grain, k: R.Key)
    requires Legal(steps) && !Lossy(steps, g, k)
    ensures var rows, log := Rows(g, Run(cfg, steps).tables), Of(steps).log;
            && (k in rows <==> R.Touched(Span(g), log, k))
            && (k in rows && R.ReloadSafe(Span(g), log, k) ==> rows[k].noiseFloor == R.Floor(R.Noise(Span(g), log, k)))
  {
    RowAndFloorIff(cfg, steps, g, k);
    RunComplete(cfg, steps, g, k);
  }

  /* ---------- exactly which buckets are lost ---------- */

  /** A batch that changes nothing in a clean accumulator. */
  predicate Passes(dur: Duration, n: Option<R.Note>, es: seq<Event>, k: R.Key) {
    n.Some? && !n.value.unsaved && !R.Carries(dur, es, k) && R.Newest(dur, es, k) <= n.value.newest
  }

  /** The bucket is touched and has no row: every commit that touched it passed by an
      accumulator that failed attempts had marked clean. */
  predicate Lost(cfg: Config, steps: seq<Step>, g: Grain, k: R.Key) {
    if steps == [] then false
    else
      var init := steps[..|steps| - 1];
      match steps[|steps| - 1]
      case Batch(es, _) =>
        if R.Touched(Span(g), es, k)
        then (Lost(cfg, init, g, k) || !R.Touched(Span(g), Of(init).log, k)) && Passes(Span(g), NoteOf(cfg, init, g, k), es, k)
        else Lost(cfg, init, g, k)
      case Abort(_, _) => Lost(cfg, init, g, k)
      case Crash => Lost(cfg, init, g, k)
      case Reset => false
  }

  lemma HeldBatch(dur: Duration, n: Option<R.Note>, held: Option<seq<Event>>, h: History, es: seq<Event>, k: R.Key)
    requires Sequel(dur, n, h, k) && h.last <= es && AllWellTimed(es)
    ensures R.Held(R.Noting(dur, n, es, k), held, h.log + es).None?
            <==> held.None? && (R.Touched(dur, es, k) ==> Passes(dur, n, es, k))
  {
    R.NewestGrows(dur, h.last, es, k);
    if R.Touched(dur, es, k) {
      TouchedIsSeen(dur, es, k);
    }
  }

  lemma {:induction false} LostIsUnheld(cfg: Config, steps: seq<Step>, g: Grain, k: R.Key)
    requires Legal(steps)
    ensures HeldOf(cfg, steps, g, k).Some? ==> R.Touched(Span(g), Of(steps).log, k)
    ensures Lost(cfg, steps, g, k) <==> R.Touched(Span(g), Of(steps).log, k) && HeldOf(cfg, steps, g, k).None?
  {
    if steps != [] {
      var init, step := steps[..|steps| - 1], steps[|steps| - 1];
      LostIsUnheld(cfg, init, g, k);
      RunComplete(cfg, init, g, k);
      if step.Batch? {
        HeldBatch(Span(g), NoteOf(cfg, init, g, k), HeldOf(cfg, init, g, k), Of(init), step.events, k);
        TouchedSplit(Span(g), Of(init).log, step.events, k);
      }
    }
  }

  lemma LostIff(cfg: Config, steps: seq<Step>, g: Grain, k: R.Key)
    requires Legal(steps)
    ensures R.Touched(Span(g), Of(steps).log, k) && k !in Rows(g, Run(cfg, steps).tables) <==> Lost(cfg, steps, g, k)
  {
    RowAndFloorIff(cfg, steps, g, k);
    LostIsUnheld(cfg, steps, g, k);
  }

  /* ---------- the first commit that touches a bucket ---------- */

  /** A bucket of failed attempts only. */
  predicate Unborn(dur: Duration, n: Option<R.Note>, last: seq<Event>, cleaned: Option<seq<Event>>, k: R.Key) {
    match n
    case None => !R.Touched(dur, last, k) && cleaned.None?
    case Some(m) =>
      && R.Touched(dur, last, k)
      && m.newest == R.Newest(dur, last, k)
      && (cleaned.Some? ==> cleaned.value <= last)
      && (!R.Carries(dur, last, k) ==>
            (m.unsaved <==> cleaned.None? || R.Newest(dur, last, k) > R.Newest(dur, cleaned.value, k)))
  }

  lemma UnbornAbort(cfg: Config, n: Option<R.Note>, last: seq<Event>, cleaned: Option<seq<Event>>, es: seq<Event>, f: Failure, g: Grain, k: R.Key)
    requires Unborn(Span(g), n, last, cleaned, k) && last <= es && AllWellTimed(es)
    ensures Unborn(Span(g), NoteAfter(cfg, n, Abort(es, f), g, k), es, if Cleans(es, f, g, k) then Some(es) else cleaned, k)
  {
    R.NewestGrows(Span(g), last, es, k);
    R.NewestBounds(Span(g), es, k);
    if cleaned.Some? {
      R.NewestGrows(Span(g), cleaned.value, last, k);
    }
    if R.Touched(Span(g), es, k) {
      TouchedIsSeen(Span(g), es, k);
    }
  }

  lemma {:induction false} RunUnborn(cfg: Config, steps: seq<Step>, g: Grain, k: R.Key)
    requires Legal(steps) && !R.Touched(Span(g), Of(steps).log, k)
    ensures Unborn(Span(g), NoteOf(cfg, steps, g, k), Of(steps).last, LastCleaned(steps, g, k), k)
  {
    if steps != [] {
      var init, step := steps[..|steps| - 1], steps[|steps| - 1];
      match step
      case Batch(es, _) =>
        TouchedSplit(Span(g), Of(init).log, es, k);
        RunUnborn(cfg, init, g, k);
        R.NewestGrows(Span(g), Of(init).last, es, k);
      case Abort(es, f) =>
        RunUnborn(cfg, init, g, k);
        UnbornAbort(cfg, NoteOf(cfg, init, g, k), Of(init).last, LastCleaned(init, g, k), es, f, g, k);
      case Crash =>
      case Reset =>
    }
  }

  /** The first commit that touches a bucket leaves it without a row exactly when a
      failed attempt of the same process had marked it clean, the batch has no
      packet for it, and no reading newer than those of the last such attempt. */
  lemma FirstCommitIff(cfg: Config, steps: seq<Step>, es: seq<Event>, cursor: nat, g: Grain, k: R.Key)
    requires Legal(steps + [Batch(es, cursor)]) && !R.Touched(Span(g), Of(steps).log, k) && R.Touched(Span(g), es, k)
    ensures var cleaned := LastCleaned(steps, g, k);
            k !in Rows(g, Run(cfg, steps + [Batch(es, cursor)]).tables)
            <==> cleaned.Some? && !R.Carries(Span(g), es, k) && R.Newest(Span(g), es, k) <= R.Newest(Span(g), cleaned.value, k)
  {
    SnocHistory(steps, Batch(es, cursor));
    LostSnoc(cfg, steps, es, cursor, g, k);
    LostIff(cfg, steps + [Batch(es, cursor)], g, k);
    TouchedSplit(Span(g), Of(steps).log, es, k);
    RunUnborn(cfg, steps, g, k);
    UnbornPasses(Span(g), NoteOf(cfg, steps, g, k), Of(steps).last, LastCleaned(steps, g, k), es, k);
  }

  lemma LostSnoc(cfg: Config, steps: seq<Step>, es: seq<Event>, cursor: nat, g: Grain, k: R.Key)
    requires !R.Touched(Span(g), Of(steps).log, k) && R.Touched(Span(g), es, k)
    ensures Lost(cfg, steps + [Batch(es, cursor)], g, k) <==> Passes(Span(g), NoteOf(cfg, steps, g, k), es, k)
  {
    assert (steps + [Batch(es, cursor)])[..|steps|] == steps;
  }

  lemma UnbornPasses(dur: Duration, n: Option<R.Note>, last: seq<Event>, cleaned: Option<seq<Event>>, es: seq<Event>, k: R.Key)
    requires Unborn(dur, n, last, cleaned, k) && last <= es
    ensures Passes(dur, n, es, k)
            <==> cleaned.Some? && !R.Carries(dur, es, k) && R.Newest(dur, es, k) <= R.Newest(dur, cleaned.value, k)
  {
    R.NewestGrows(dur, last, es, k);
    if cleaned.Some? {
      R.NewestGrows(dur, cleaned.value, last, k);
    }
  }
}
