/** The projector: catching up with the raw log from the stored cursor, starting
    over, and everything a projector's life can be made of. */
module ProjectorLoop {
  import opened Events
  import opened Projection
  import opened PipelineSteps
  import opened RawLog
  import R = RollupObserverStage
  import T = Transparency

  const BATCH_SIZE := 500

  /** Decoding is left open: some raw events are dropped, the cursor passes them. */
  type Decoder = RawEvent -> Option<Event>

  function Decoded(d: Decoder, rows: seq<RawEvent>): seq<Event> {
    if rows == [] then []
    else
      var init, e := Decoded(d, rows[..|rows| - 1]), d(rows[|rows| - 1]);
      if e.Some? then init + [e.value] else init
  }

  lemma {:induction false} DecodedConcat(d: Decoder, a: seq<RawEvent>, b: seq<RawEvent>)
    ensures Decoded(d, a + b) == Decoded(d, a) + Decoded(d, b)
  {
    if b == [] {
      assert a + b == a;
    } else {
      assert (a + b)[..|a + b| - 1] == a + b[..|b| - 1];
      DecodedConcat(d, a, b[..|b| - 1]);
    }
  }

  /** A page that starts with another decodes to events that start with its events. */
  lemma RetryDecodesPrefix(d: Decoder, page: seq<RawEvent>, page': seq<RawEvent>)
    requires page <= page'
    ensures Decoded(d, page) <= Decoded(d, page')
  {
    assert page' == page + page'[|page|..];
    DecodedConcat(d, page, page'[|page|..]);
  }

  /** What the decoder yields has a time after the zero time. */
  ghost predicate Timely(d: Decoder) {
    forall r :: d(r).Some? ==> WellTimed(d(r).value)
  }

  lemma {:induction false} DecodedIsTimely(d: Decoder, rows: seq<RawEvent>)
    requires Timely(d)
    ensures AllWellTimed(Decoded(d, rows))
  {
    if rows != [] {
      DecodedIsTimely(d, rows[..|rows| - 1]);
    }
  }

  /** The system after further steps. */
  function AfterSteps(cfg: Config, s: System, steps: seq<Step>): System {
    if steps == [] then s else Next(cfg, AfterSteps(cfg, s, steps[..|steps| - 1]), steps[|steps| - 1])
  }

  lemma AfterSnoc(cfg: Config, s: System, steps: seq<Step>, step: Step)
    ensures AfterSteps(cfg, s, steps + [step]) == Next(cfg, AfterSteps(cfg, s, steps), step)
    ensures (steps + [step])[..|steps|] == steps
  {
    var all := steps + [step];
    assert all[..|all| - 1] == steps;
  }

  predicate AllBatches(steps: seq<Step>) {
    forall s :: s in steps ==> s.Batch?
  }

  /* ---------- what a catch-up does ---------- */

  /** The cursor in memory after a catch-up's attempts. */
  function CursorAfter(start: nat, steps: seq<Step>): nat {
    if steps == [] then start
    else if steps[|steps| - 1].Batch? then steps[|steps| - 1].cursor
    else CursorAfter(start, steps[..|steps| - 1])
  }

  /** An attempt on the page after a cursor, whole or failed. */
  predicate Attempt(d: Decoder, rows: seq<RawEvent>, cursor: nat, step: Step) {
    var page := Page(rows, cursor, BATCH_SIZE);
    && page != []
    && match step
       case Batch(es, highest) => es == Decoded(d, page) && highest == page[|page| - 1].id
       case Abort(es, _) => es == Decoded(d, page)
       case Crash => false
       case Reset => false
  }

  /** Page after page, each from where the last one ended; a failure ends it. */
  predicate Attempts(d: Decoder, rows: seq<RawEvent>, start: nat, steps: seq<Step>) {
    steps == [] || (
      var init := steps[..|steps| - 1];
      && Attempts(d, rows, start, init) && AllBatches(init)
      && Attempt(d, rows, CursorAfter(start, init), steps[|steps| - 1]))
  }

  /** Step i commits exactly when the database works during it. */
  predicate AsFaulted(steps: seq<Step>, faults: nat -> Fault) {
    forall i :: 0 <= i < |steps| ==> (steps[i].Batch? <==> faults(i).Healthy?)
  }

  /** How far a catch-up has come with commits only ... */
  predicate Progress(d: Decoder, rows: seq<RawEvent>, faults: nat -> Fault, start: nat, steps: seq<Step>, cursor: nat) {
    Attempts(d, rows, start, steps) && AsFaulted(steps, faults) && AllBatches(steps) && cursor == CursorAfter(start, steps)
  }

  /** ... and how a failed attempt leaves it: the attempt was on the next page too. */
  predicate Failed(d: Decoder, rows: seq<RawEvent>, faults: nat -> Fault, start: nat, steps: seq<Step>, cursor: nat) {
    && Attempts(d, rows, start, steps) && AsFaulted(steps, faults) && cursor == CursorAfter(start, steps)
    && steps != [] && steps[|steps| - 1].Abort?
  }

  lemma PageDone(d: Decoder, rows: seq<RawEvent>, faults: nat -> Fault, start: nat, steps: seq<Step>, cursor: nat, step: Step)
    requires Progress(d, rows, faults, start, steps, cursor) && Attempt(d, rows, cursor, step)
    requires step.Batch? <==> faults(|steps|).Healthy?
    ensures step.Batch? ==> Progress(d, rows, faults, start, steps + [step], step.cursor)
    ensures step.Abort? ==> Failed(d, rows, faults, start, steps + [step], cursor)
  {
    assert (steps + [step])[..|steps|] == steps && step in steps + [step];
  }

  predicate AtEnd(rows: seq<RawEvent>, cursor: nat) {
    forall r :: r in rows ==> r.id <= cursor
  }

  lemma NothingAbove(rows: seq<RawEvent>, cursor: nat)
    requires Above(rows, cursor) == []
    ensures AtEnd(rows, cursor)
  {
    forall r | r in rows
      ensures r.id <= cursor
    {
      AboveMembers(rows, cursor);
    }
  }

  lemma {:induction false} NothingLeft(rows: seq<RawEvent>, cursor: nat)
    requires AtEnd(rows, cursor)
    ensures Above(rows, cursor) == []
  {
    if rows != [] {
      assert rows[0] in rows;
      NothingLeft(rows[1..], cursor);
    }
  }

  /** How many rows a catch-up has not come to. */
  ghost function Remaining(rows: seq<RawEvent>, cursor: nat): nat {
    |Above(rows, cursor)|
  }

  /** The loop's progress: a page leaves fewer rows, a short one none. */
  lemma NextPage(rows: seq<RawEvent>, cursor: nat, page: seq<RawEvent>)
    requires Ascending(rows) && page == Page(rows, cursor, BATCH_SIZE)
    ensures if page == [] then Remaining(rows, cursor) == 0
            else
              var highest := page[|page| - 1].id;
              && highest > cursor && Remaining(rows, highest) < Remaining(rows, cursor)
              && (|page| < BATCH_SIZE ==> Remaining(rows, highest) == 0)
  {
    if page != [] {
      PageMovesOn(rows, cursor, BATCH_SIZE);
    }
  }

  /** An attempt on a whole page that has rows is progress, or the failure that ends it. */
  lemma RoundDone(d: Decoder, rows: seq<RawEvent>, faults: nat -> Fault, start: nat, steps: seq<Step>, cursor: nat,
                  page: seq<RawEvent>, step: Step)
    requires Progress(d, rows, faults, start, steps, cursor)
    requires page == Page(rows, cursor, BATCH_SIZE) && page != []
    requires step == Batch(Decoded(d, page), page[|page| - 1].id) || (step.Abort? && step.events == Decoded(d, page))
    requires step.Batch? <==> faults(|steps|).Healthy?
    ensures step.Batch? ==> Progress(d, rows, faults, start, steps + [step], page[|page| - 1].id)
    ensures step.Abort? ==> Failed(d, rows, faults, start, steps + [step], cursor)
  {
    PageDone(d, rows, faults, start, steps, cursor, step);
  }

  class Projector {
    const events: RawStore
    const pipeline: Pipeline
    const decode: Decoder

    constructor (events: RawStore, pipeline: Pipeline, decode: Decoder)
      ensures this.events == events && this.pipeline == pipeline && this.decode == decode
    {
      this.events, this.pipeline, this.decode := events, pipeline, decode;
    }

    ghost function Sys(): System
      reads pipeline.Stages(), pipeline.db
    {
      System(pipeline.Mem(), pipeline.db.tables)
    }

    /** The raw log is no part of the projection. */
    lemma Apart()
      ensures (events as object) !in pipeline.Stages() && (events as object) != pipeline.db
    {}

    /** Attempts page after page from the cursor, until none is left or an attempt
        fails; every attempt is on the whole next page. */
    method CatchUp(start: nat, faults: nat -> Fault) returns (ok: bool, cursor: nat, ghost steps: seq<Step>)
      requires pipeline.Valid() && events.Valid()
      modifies pipeline.Stages(), pipeline.db
      ensures pipeline.Valid() && events.rows == old(events.rows)
      ensures Sys() == AfterSteps(pipeline.cfg, old(Sys()), steps)
      ensures ok ==> Progress(decode, events.rows, faults, start, steps, cursor) && AtEnd(events.rows, cursor)
      ensures !ok ==> Failed(decode, events.rows, faults, start, steps, cursor)
    {
      Apart();
      ghost var first, rows := Sys(), events.rows;
      var batches, more := 0, true;
      ok, cursor, steps := true, start, [];
      while more
        invariant pipeline.Valid() && events.rows == rows && Sys() == AfterSteps(pipeline.cfg, first, steps)
        invariant more ==> ok && batches == |steps|
        invariant ok ==> Progress(decode, rows, faults, start, steps, cursor) && (more || Remaining(rows, cursor) == 0)
        invariant !ok ==> Failed(decode, rows, faults, start, steps, cursor)
        decreases more, Remaining(rows, cursor)
      {
        ok, more, cursor, steps := NextAttempt(cursor, batches, faults, rows, start, first, steps);
        batches := batches + 1;
      }
      if ok {
        NothingAbove(rows, cursor);
      }
    }

    /** One round of the loop: fetch a page, and attempt it if it has rows. A page
        that is not full is the last. */
    method NextAttempt(cursor: nat, batches: nat, faults: nat -> Fault,
                       ghost rows: seq<RawEvent>, ghost start: nat, ghost first: System, ghost steps: seq<Step>)
      returns (ok: bool, more: bool, cursor': nat, ghost steps': seq<Step>)
      requires pipeline.Valid() && events.Valid() && events.rows == rows && Sys() == AfterSteps(pipeline.cfg, first, steps)
      requires Progress(decode, rows, faults, start, steps, cursor) && batches == |steps|
      modifies pipeline.Stages(), pipeline.db
      ensures pipeline.Valid() && events.rows == rows && Sys() == AfterSteps(pipeline.cfg, first, steps')
      ensures ok ==> Progress(decode, rows, faults, start, steps', cursor') && (more || Remaining(rows, cursor') == 0)
      ensures !ok ==> !more && Failed(decode, rows, faults, start, steps', cursor')
      ensures more ==> |steps'| == batches + 1 && Remaining(rows, cursor') < Remaining(rows, cursor)
    {
      var raw := events.FetchRawEventsAfter(cursor, BATCH_SIZE);
      NextPage(rows, cursor, raw);
      if |raw| == 0 {
        ok, more, cursor', steps' := true, false, cursor, steps;
      } else {
        ok, cursor', steps' := AttemptPage(raw, cursor, faults(batches), rows, faults, start, first, steps);
        more := ok && |raw| >= BATCH_SIZE;
      }
    }

    method AttemptPage(raw: seq<RawEvent>, cursor: nat, fault: Fault,
                       ghost rows: seq<RawEvent>, ghost faults: nat -> Fault, ghost start: nat, ghost first: System, ghost steps: seq<Step>)
      returns (ok: bool, cursor': nat, ghost steps': seq<Step>)
      requires pipeline.Valid() && events.rows == rows && Sys() == AfterSteps(pipeline.cfg, first, steps)
      requires raw == Page(rows, cursor, BATCH_SIZE) && raw != [] && raw[|raw| - 1].id > 0
      requires Progress(decode, rows, faults, start, steps, cursor) && fault == faults(|steps|)
      modifies pipeline.Stages(), pipeline.db
      ensures pipeline.Valid() && events.rows == rows && Sys() == AfterSteps(pipeline.cfg, first, steps')
      ensures ok ==> Progress(decode, rows, faults, start, steps', cursor') && |steps'| == |steps| + 1
      ensures !ok ==> Failed(decode, rows, faults, start, steps', cursor')
      ensures cursor' == if ok then raw[|raw| - 1].id else cursor
    {
      Apart();
      ghost var step;
      ok, step := CommitPage(raw, fault, first, steps);
      RoundDone(decode, rows, faults, start, steps, cursor, raw, step);
      steps' := steps + [step];
      cursor' := if ok then raw[|raw| - 1].id else cursor;
    }

    /** One page, as one more step of a run. */
    method CommitPage(raw: seq<RawEvent>, fault: Fault, ghost first: System, ghost steps: seq<Step>) returns (ok: bool, ghost step: Step)
      requires pipeline.Valid() && raw != [] && raw[|raw| - 1].id > 0
      requires Sys() == AfterSteps(pipeline.cfg, first, steps)
      modifies pipeline.Stages(), pipeline.db
      ensures pipeline.Valid() && events.rows == old(events.rows) && Sys() == AfterSteps(pipeline.cfg, first, steps + [step])
      ensures ok <==> fault.Healthy?
      ensures ok ==> step == Batch(Decoded(decode, raw), raw[|raw| - 1].id)
      ensures !ok ==> step.Abort? && step.events == Decoded(decode, raw)
    {
      ok, step := ProcessPage(raw, fault);
      AfterSnoc(pipeline.cfg, first, steps, step);
    }

    /** One page: decode, then one attempt with the page's highest id as cursor. */
    method ProcessPage(raw: seq<RawEvent>, fault: Fault) returns (ok: bool, ghost step: Step)
      requires pipeline.Valid() && raw != [] && raw[|raw| - 1].id > 0
      modifies pipeline.Stages(), pipeline.db
      ensures pipeline.Valid() && events.rows == old(events.rows) && Sys() == Next(pipeline.cfg, old(Sys()), step)
      ensures ok <==> fault.Healthy?
      ensures ok ==> step == Batch(Decoded(decode, raw), raw[|raw| - 1].id)
      ensures !ok ==> step.Abort? && step.events == Decoded(decode, raw)
    {
      Apart();
      var es := DecodeAll(raw);
      ghost var failure;
      ok, failure := pipeline.ProcessBatch(es, raw[|raw| - 1].id, fault);
      step := if ok then Batch(es, raw[|raw| - 1].id) else Abort(es, failure);
    }

    method DecodeAll(raw: seq<RawEvent>) returns (es: seq<Event>)
      ensures es == Decoded(decode, raw)
    {
      es := [];
      for i := 0 to |raw|
        invariant es == Decoded(decode, raw[..i])
      {
        assert raw[..i + 1][..i] == raw[..i];
        var e := decode(raw[i]);
        if e.Some? {
          es := es + [e.value];
        }
      }
      assert raw[..|raw|] == raw;
    }

    method Reset()
      requires pipeline.Valid()
      modifies pipeline.Stages(), pipeline.db
      ensures pipeline.Valid() && Sys() == Next(pipeline.cfg, old(Sys()), Step.Reset)
    {
      pipeline.db.tables := NO_TABLES;
      pipeline.Clear();
    }
  }

  /** Steps that follow a history are one run with it. */
  lemma {:induction false} RunThenAfter(cfg: Config, hist: seq<Step>, steps: seq<Step>)
    ensures Run(cfg, hist + steps) == AfterSteps(cfg, Run(cfg, hist), steps)
  {
    if steps == [] {
      assert hist + steps == hist;
    } else {
      var init, step := steps[..|steps| - 1], steps[|steps| - 1];
      assert hist + steps == (hist + init) + [step];
      RunThenAfter(cfg, hist, init);
      Snoc(cfg, hist + init, step);
    }
  }

  /* ---------- a projector's life ---------- */

  /** What can happen: rows are added at the end of the log, the projector catches
      up as far as it gets, it restarts and takes the cursor from the database, or
      it is reset. */
  datatype Move = Grow(more: seq<RawEvent>) | Attempted(steps: seq<Step>) | Restart | Clear

  datatype World = World(rows: seq<RawEvent>, cursor: nat, steps: seq<Step>)

  ghost predicate Possible(d: Decoder, w: World, move: Move) {
    match move
    case Grow(more) => Ascending(w.rows + more) && Positive(w.rows + more)
    case Attempted(steps) => Attempts(d, w.rows, w.cursor, steps)
    case Restart => true
    case Clear => true
  }

  function Moved(w: World, move: Move): World {
    match move
    case Grow(more) => w.(rows := w.rows + more)
    case Attempted(steps) => w.(cursor := CursorAfter(w.cursor, steps), steps := w.steps + steps)
    case Restart => w.(cursor := CursorOf(w.steps), steps := w.steps + [Crash])
    case Clear => w.(cursor := 0, steps := w.steps + [Reset])
  }

  function WorldAfter(moves: seq<Move>): World {
    if moves == [] then World([], 0, []) else Moved(WorldAfter(moves[..|moves| - 1]), moves[|moves| - 1])
  }

  ghost predicate Life(d: Decoder, moves: seq<Move>) {
    moves == [] || (
      var init := moves[..|moves| - 1];
      Life(d, init) && Possible(d, WorldAfter(init), moves[|moves| - 1]))
  }

  /** The steps taken are a legal run that has projected the log up to the cursor,
      and the next page starts with the one of a failed attempt. */
  ghost predicate Sound(d: Decoder, w: World) {
    && Ascending(w.rows) && Positive(w.rows) && IsCursor(w.rows, w.cursor)
    && Legal(w.steps) && Advances(w.steps) && CursorOf(w.steps) == w.cursor
    && Of(w.steps).log == Decoded(d, UpTo(w.rows, w.cursor))
    && Of(w.steps).last <= Decoded(d, Page(w.rows, w.cursor, BATCH_SIZE))
  }

  lemma AdvancesSnoc(steps: seq<Step>, step: Step)
    ensures Advances(steps + [step]) <==> Advances(steps) && (step.Batch? ==> step.cursor > CursorOf(steps))
    ensures CursorOf(steps + [step])
         == match step case Batch(_, c) => c case Abort(_, _) => CursorOf(steps) case Crash => CursorOf(steps) case Reset => 0
  {
    assert (steps + [step])[..|steps|] == steps;
  }

  lemma GrowIsSound(d: Decoder, w: World, more: seq<RawEvent>)
    requires Sound(d, w) && Possible(d, w, Grow(more))
    ensures Sound(d, Moved(w, Grow(more)))
  {
    UpToStays(w.rows, more, w.cursor);
    PageGrows(w.rows, more, w.cursor, BATCH_SIZE);
    RetryDecodesPrefix(d, Page(w.rows, w.cursor, BATCH_SIZE), Page(w.rows + more, w.cursor, BATCH_SIZE));
  }

  lemma AttemptIsSound(d: Decoder, w: World, step: Step)
    requires Timely(d) && Sound(d, w) && Attempt(d, w.rows, w.cursor, step)
    ensures Sound(d, World(w.rows, if step.Batch? then step.cursor else w.cursor, w.steps + [step]))
  {
    var page := Page(w.rows, w.cursor, BATCH_SIZE);
    DecodedIsTimely(d, page);
    SnocHistory(w.steps, step);
    AdvancesSnoc(w.steps, step);
    if step.Batch? {
      PageMovesOn(w.rows, w.cursor, BATCH_SIZE);
      DecodedConcat(d, UpTo(w.rows, w.cursor), page);
    }
  }

  lemma {:induction false} AttemptsAreSound(d: Decoder, w: World, steps: seq<Step>)
    requires Timely(d) && Sound(d, w) && Attempts(d, w.rows, w.cursor, steps)
    ensures Sound(d, Moved(w, Attempted(steps)))
  {
    if steps == [] {
      assert w.steps + steps == w.steps;
    } else {
      var init, step := steps[..|steps| - 1], steps[|steps| - 1];
      AttemptsAreSound(d, w, init);
      AttemptIsSound(d, Moved(w, Attempted(init)), step);
      assert w.steps + steps == (w.steps + init) + [step];
    }
  }

  lemma RestartIsSound(d: Decoder, w: World)
    requires Sound(d, w)
    ensures Sound(d, Moved(w, Restart)) && Sound(d, Moved(w, Clear))
  {
    SnocHistory(w.steps, Crash);
    AdvancesSnoc(w.steps, Crash);
    SnocHistory(w.steps, Reset);
    AdvancesSnoc(w.steps, Reset);
    NothingUpToZero(w.rows);
  }

  /** Whatever a projector's life, its steps are a legal run, whose commits move the
      cursor on, and what it has projected is the decoded log up to the cursor. */
  lemma {:induction false} LifeIsLegal(d: Decoder, moves: seq<Move>)
    requires Timely(d) && Life(d, moves)
    ensures Sound(d, WorldAfter(moves))
  {
    if moves != [] {
      var init, move := moves[..|moves| - 1], moves[|moves| - 1];
      var w := WorldAfter(init);
      LifeIsLegal(d, init);
      match move
      case Grow(more) => GrowIsSound(d, w, more);
      case Attempted(steps) => AttemptsAreSound(d, w, steps);
      case Restart => RestartIsSound(d, w);
      case Clear => RestartIsSound(d, w);
    }
  }

  /** ... so, if no attempt has failed, every rollup is the one-pass fold of the
      decoded raw log up to the stored cursor. */
  lemma LifeProjects(cfg: Config, d: Decoder, moves: seq<Move>, g: Grain, k: R.Key)
    requires Timely(d) && Life(d, moves) && T.NoAborts(WorldAfter(moves).steps)
    ensures var w := WorldAfter(moves);
            var s, log := Run(cfg, w.steps), Decoded(d, UpTo(w.rows, w.cursor));
            var t, exact := Rows(g, s.tables), R.Fold(Span(g), log, k);
            && s.tables.cursor == w.cursor
            && (k in t <==> R.Touched(Span(g), log, k))
            && (k in t ==> R.RowAgrees(t[k], exact))
            && (k in t && !R.Poisoned(Span(g), log, k) ==> t[k].unique == |exact.hashes|)
            && (k in t && R.ReloadSafe(Span(g), log, k) ==> t[k].noiseFloor == R.Floor(R.Noise(Span(g), log, k)))
  {
    LifeIsLegal(d, moves);
    RunCursor(cfg, WorldAfter(moves).steps);
    T.CacheTransparency(cfg, WorldAfter(moves).steps, g, k);
  }

  /** When the cursor is at the end that is the whole log. */
  lemma CaughtUp(d: Decoder, moves: seq<Move>)
    requires Timely(d) && Life(d, moves) && AtEnd(WorldAfter(moves).rows, WorldAfter(moves).cursor)
    ensures UpTo(WorldAfter(moves).rows, WorldAfter(moves).cursor) == WorldAfter(moves).rows
  {
    var w := WorldAfter(moves);
    LifeIsLegal(d, moves);
    UpToAndAbove(w.rows, w.cursor);
    NothingLeft(w.rows, w.cursor);
    assert UpTo(w.rows, w.cursor) + [] == UpTo(w.rows, w.cursor);
  }

  /** ... and every rollup is the one-pass fold of it. */
  lemma CaughtUpRollups(cfg: Config, d: Decoder, moves: seq<Move>, g: Grain, k: R.Key)
    requires Timely(d) && Life(d, moves) && T.NoAborts(WorldAfter(moves).steps)
    requires AtEnd(WorldAfter(moves).rows, WorldAfter(moves).cursor)
    ensures var log := Decoded(d, WorldAfter(moves).rows);
            var t, exact := Rows(g, Run(cfg, WorldAfter(moves).steps).tables), R.Fold(Span(g), log, k);
            && (k in t <==> R.Touched(Span(g), log, k))
            && (k in t ==> R.RowAgrees(t[k], exact))
            && (k in t && !R.Poisoned(Span(g), log, k) ==> t[k].unique == |exact.hashes|)
            && (k in t && R.ReloadSafe(Span(g), log, k) ==> t[k].noiseFloor == R.Floor(R.Noise(Span(g), log, k)))
  {
    CaughtUp(d, moves);
    LifeProjects(cfg, d, moves, g, k);
  }
}
