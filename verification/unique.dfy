/** PacketsUnique: one row per packet hash, with the set of observers that heard
    it. The cache is rebuilt from the row joined with packet_observations. */
module PacketsUniqueStage {
  import opened Events
  import opened PacketObservationsStage

  /** What is known about one hash. */
  datatype Summary = Summary(
    firstSeen: Time,
    lastSeen: Time,
    packetType: string,
    route: string,
    decodedType: Option<int>,
    source: Option<Bytes>,
    observers: set<Bytes>)

  datatype Entry = Entry(sum: Summary, loaded: bool, dirty: bool)

  datatype Row = Row(
    firstSeen: Time,
    lastSeen: Time,
    packetType: string,
    route: string,
    decodedType: Option<int>,
    source: Option<Bytes>,
    observerCount: nat)

  type State = map<Bytes, Entry>
  type Table = map<Bytes, Row>

  /* ---------- what the operations do ---------- */

  predicate Relevant(e: Event) {
    e.body.Packet? && e.body.packet.hash.Some? && e.body.packet.hash.value != []
  }

  function Coalesce<T>(a: Option<T>, b: Option<T>): Option<T> {
    if a.Some? then a else b
  }

  function NonEmpty(a: string, b: string): string {
    if a != "" then a else b
  }

  function Min(a: Time, b: Time): Time {
    if b < a then b else a
  }

  function Max(a: Time, b: Time): Time {
    if b > a then b else a
  }

  function First(e: Event): Summary
    requires Relevant(e)
  {
    var p := e.body.packet;
    Summary(e.ts, e.ts, p.packetType, p.route, p.decodedType,
            if p.sourcePrefix != [] then Some(p.sourcePrefix) else None, {e.observer})
  }

  /** `a` and then `b`: the latest non-empty labels, the earliest source. */
  function Then(a: Summary, b: Summary): Summary {
    Summary(Min(a.firstSeen, b.firstSeen), Max(a.lastSeen, b.lastSeen),
            NonEmpty(b.packetType, a.packetType), NonEmpty(b.route, a.route),
            Coalesce(b.decodedType, a.decodedType), Coalesce(a.source, b.source),
            a.observers + b.observers)
  }

  function ApplyEvent(s: State, e: Event): State {
    if !Relevant(e) then s
    else
      var h := e.body.packet.hash.value;
      s[h := if h in s then Entry(Then(s[h].sum, First(e)), s[h].loaded, true) else Entry(First(e), false, true)]
  }

  function ApplyAll(s: State, es: seq<Event>): State {
    if es == [] then s else ApplyEvent(ApplyAll(s, es[..|es| - 1]), es[|es| - 1])
  }

  /** The observers in the join's rows for a hash. */
  function Heard(po: seq<Observation>, h: Bytes): set<Bytes> {
    set i | 0 <= i < |po| && po[i].packet.hash == Some(h) :: po[i].observer
  }

  /** Those in the rows already read when the connection fails. */
  function HeardIn(po: seq<Observation>, read: set<nat>, h: Bytes): set<Bytes> {
    set i | i in read && i < |po| && po[i].packet.hash == Some(h) :: po[i].observer
  }

  /** Merging what was read for one hash; the join is empty without a row. */
  function Merge(en: Entry, row: Option<Row>, heard: set<Bytes>): Entry {
    if en.loaded || !en.dirty || row.None? || heard == {} then en
    else en.(sum := en.sum.(firstSeen := Min(en.sum.firstSeen, row.value.firstSeen),
                            observers := en.sum.observers + heard))
  }

  function Load(en: Entry, row: Option<Row>, heard: set<Bytes>): Entry {
    var m := Merge(en, row, heard);
    if m.dirty then m.(loaded := true) else m
  }

  function Upsert(u: Summary, row: Option<Row>): Row {
    if row.None? then
      Row(u.firstSeen, u.lastSeen, u.packetType, u.route, u.decodedType, u.source, |u.observers|)
    else
      var r := row.value;
      Row(Min(r.firstSeen, u.firstSeen), Max(r.lastSeen, u.lastSeen),
          NonEmpty(u.packetType, r.packetType), NonEmpty(u.route, r.route),
          Coalesce(u.decodedType, r.decodedType), Coalesce(r.source, u.source), |u.observers|)
  }

  function Settle(en: Entry, row: Option<Row>, heard: set<Bytes>): (Entry, Option<Row>) {
    var l := Load(en, row, heard);
    (l.(dirty := false), if l.dirty then Some(Upsert(l.sum, row)) else row)
  }

  function FlushState(s: State, t: Table, po: seq<Observation>): State {
    map h | h in s :: Settle(s[h], Get(t, h), Heard(po, h)).0
  }

  function FlushTable(s: State, t: Table, po: seq<Observation>): Table {
    t + map h | h in s && s[h].dirty :: Upsert(Load(s[h], Get(t, h), Heard(po, h)).sum, Get(t, h))
  }

  /** How far a flush got before the database failed: either the rows of the
      join it had read, or all of them and the hashes it had upserted. */
  datatype Tear = Reading(read: set<nat>) | Writing(written: set<Bytes>)

  function Torn(en: Entry, h: Bytes, row: Option<Row>, po: seq<Observation>, tear: Tear): Entry {
    match tear
    case Reading(read) => Merge(en, row, HeardIn(po, read, h))
    case Writing(written) =>
      var l := Load(en, row, Heard(po, h));
      if h in written then l.(dirty := false) else l
  }

  /** Memory after a failed flush; its table writes are rolled back. */
  function TornState(s: State, t: Table, po: seq<Observation>, tear: Tear): State {
    map h | h in s :: Torn(s[h], h, Get(t, h), po, tear)
  }

  function Evicted(retention: Time, s: State, hwm: Time): State {
    map h | h in s && (s[h].dirty || s[h].sum.lastSeen >= hwm - retention) :: s[h].(dirty := false)
  }

  /* ---------- the one-pass reference ---------- */

  predicate Hits(h: Bytes, e: Event) {
    Relevant(e) && e.body.packet.hash.value == h
  }

  function Append(a: Option<Summary>, b: Option<Summary>): Option<Summary> {
    if a.None? then b else if b.None? then a else Some(Then(a.value, b.value))
  }

  function Fold(es: seq<Event>, h: Bytes): Option<Summary> {
    if es == [] then None
    else
      var t, e := Fold(es[..|es| - 1], h), es[|es| - 1];
      if Hits(h, e) then Append(t, Some(First(e))) else t
  }

  function RowOf(u: Summary): Row {
    Row(u.firstSeen, u.lastSeen, u.packetType, u.route, u.decodedType, u.source, |u.observers|)
  }

  lemma FoldSnoc(es: seq<Event>, e: Event, h: Bytes)
    ensures Fold(es + [e], h) == if Hits(h, e) then Append(Fold(es, h), Some(First(e))) else Fold(es, h)
  {
    assert (es + [e])[..|es|] == es;
  }

  lemma ThenAssociative(a: Summary, b: Summary, c: Summary)
    ensures Then(Then(a, b), c) == Then(a, Then(b, c))
  {
    assert (a.observers + b.observers) + c.observers == a.observers + (b.observers + c.observers);
  }

  lemma AppendAssociative(a: Option<Summary>, b: Option<Summary>, c: Option<Summary>)
    ensures Append(Append(a, b), c) == Append(a, Append(b, c))
  {
    if a.Some? && b.Some? && c.Some? {
      ThenAssociative(a.value, b.value, c.value);
    }
  }

  lemma {:induction false} FoldConcat(a: seq<Event>, b: seq<Event>, h: Bytes)
    ensures Fold(a + b, h) == Append(Fold(a, h), Fold(b, h))
  {
    if b == [] {
      assert a + b == a;
    } else {
      var init, e := b[..|b| - 1], b[|b| - 1];
      assert a + b == (a + init) + [e] && b == init + [e];
      FoldConcat(a, init, h);
      FoldSnoc(a + init, e, h);
      FoldSnoc(init, e, h);
      if Hits(h, e) {
        AppendAssociative(Fold(a, h), Fold(init, h), Some(First(e)));
      }
    }
  }

  /** The observers of the fold are those of the log's hits, whatever their order. */
  lemma {:induction false} FoldObservers(es: seq<Event>, h: Bytes)
    ensures Fold(es, h).Some? <==> exists e :: e in es && Hits(h, e)
    ensures Fold(es, h).Some? ==> forall o :: o in Fold(es, h).value.observers
                                              <==> exists e :: e in es && Hits(h, e) && e.observer == o
  {
    if es != [] {
      var init, e := es[..|es| - 1], es[|es| - 1];
      assert es == init + [e];
      FoldObservers(init, h);
      FoldSnoc(init, e, h);
    }
  }

  /** What the packets with a hash say in one field, if they say something. */
  function TypeOf(h: Bytes): Event -> Option<string> {
    (e: Event) => if e.body.Packet? && e.body.packet.hash == Some(h) then Filled(e.body.packet.packetType) else None
  }

  function RouteOf(h: Bytes): Event -> Option<string> {
    (e: Event) => if e.body.Packet? && e.body.packet.hash == Some(h) then Filled(e.body.packet.route) else None
  }

  function DecodedTypeOf(h: Bytes): Event -> Option<int> {
    (e: Event) => if e.body.Packet? && e.body.packet.hash == Some(h) then e.body.packet.decodedType else None
  }

  function SourceOf(h: Bytes): Event -> Option<Bytes> {
    (e: Event) => if e.body.Packet? && e.body.packet.hash == Some(h) && e.body.packet.sourcePrefix != []
                  then Some(e.body.packet.sourcePrefix) else None
  }

  /** The labels of the fold are the last non-empty ones of the log, its source
      the first. */
  lemma {:induction false} FoldLabels(es: seq<Event>, h: Bytes)
    requires h != []
    ensures Fold(es, h).Some? ==>
              var u := Fold(es, h).value;
              && IsLast(Filled(u.packetType), es, TypeOf(h)) && IsLast(Filled(u.route), es, RouteOf(h))
              && IsLast(u.decodedType, es, DecodedTypeOf(h)) && IsFirst(u.source, es, SourceOf(h))
  {
    if Fold(es, h).Some? {
      var init, e := es[..|es| - 1], es[|es| - 1];
      assert es == init + [e];
      FoldLabels(init, h);
      LabelsSnoc(init, e, h);
    }
  }

  /** Its times are the least and the greatest, each that of some packet. */
  lemma {:induction false} FoldTimes(es: seq<Event>, h: Bytes)
    ensures Fold(es, h).None? ==> forall e :: e in es ==> !Hits(h, e)
    ensures Fold(es, h).Some? ==>
              var u := Fold(es, h).value;
              && (forall e :: e in es && Hits(h, e) ==> u.firstSeen <= e.ts <= u.lastSeen)
              && (exists e :: e in es && Hits(h, e) && e.ts == u.firstSeen)
              && (exists e :: e in es && Hits(h, e) && e.ts == u.lastSeen)
  {
    if es != [] {
      var init, e := es[..|es| - 1], es[|es| - 1];
      assert es == init + [e];
      FoldTimes(init, h);
      FoldSnoc(init, e, h);
    }
  }

  lemma LabelsSnoc(init: seq<Event>, e: Event, h: Bytes)
    requires h != [] && Fold(init + [e], h).Some?
    requires Fold(init, h).Some? ==>
               var u := Fold(init, h).value;
               && IsLast(Filled(u.packetType), init, TypeOf(h)) && IsLast(Filled(u.route), init, RouteOf(h))
               && IsLast(u.decodedType, init, DecodedTypeOf(h)) && IsFirst(u.source, init, SourceOf(h))
    ensures var u := Fold(init + [e], h).value;
            && IsLast(Filled(u.packetType), init + [e], TypeOf(h)) && IsLast(Filled(u.route), init + [e], RouteOf(h))
            && IsLast(u.decodedType, init + [e], DecodedTypeOf(h)) && IsFirst(u.source, init + [e], SourceOf(h))
  {
    FoldSnoc(init, e, h);
    var t := Fold(init, h);
    if t.None? {
      NothingSaid(init, h);
    }
    LastSnoc(if t.Some? then Filled(t.value.packetType) else None, init, e, TypeOf(h));
    LastSnoc(if t.Some? then Filled(t.value.route) else None, init, e, RouteOf(h));
    LastSnoc(if t.Some? then t.value.decodedType else None, init, e, DecodedTypeOf(h));
    FirstSnoc(if t.Some? then t.value.source else None, init, e, SourceOf(h));
  }

  /** Before the first packet with a hash nothing is said about it. */
  lemma NothingSaid(es: seq<Event>, h: Bytes)
    requires h != [] && Fold(es, h).None?
    ensures IsLast(None, es, TypeOf(h)) && IsLast(None, es, RouteOf(h)) && IsLast(None, es, DecodedTypeOf(h))
    ensures IsFirst(None, es, SourceOf(h))
  {
    FoldObservers(es, h);
    assert forall i :: 0 <= i < |es| ==> es[i] in es && !Hits(h, es[i]);
  }

  /** Memory absorbs a batch as one summary appended per hash. */
  lemma {:induction false} ApplyAllAppends(s: State, es: seq<Event>, h: Bytes)
    ensures var x, y := Get(s, h), Get(ApplyAll(s, es), h);
            if Fold(es, h).None? then y == x
            else y == Some(Entry(if x.None? then Fold(es, h).value else Then(x.value.sum, Fold(es, h).value),
                                 x.Some? && x.value.loaded, true))
  {
    if es != [] {
      var init, e := es[..|es| - 1], es[|es| - 1];
      assert es == init + [e];
      ApplyAllAppends(s, init, h);
      FoldSnoc(init, e, h);
      if Hits(h, e) && Fold(init, h).Some? && h in s {
        ThenAssociative(s[h].sum, Fold(init, h).value, First(e));
      }
    }
  }

  /* ---------- exactness through eviction, restart and retry ---------- */

  /** What a cached entry may contain when the tables hold `log` and memory has
      since absorbed attempts of which the longest is `tried`. */
  ghost predicate Cached(x: Option<Entry>, log: seq<Event>, tried: seq<Event>, h: Bytes) {
    var l, t, all := Fold(log, h), Fold(tried, h), Fold(log + tried, h);
    match x
    case None => t.None?
    case Some(en) =>
      && all.Some?
      && en.sum.observers <= all.value.observers
      && all.value.firstSeen <= en.sum.firstSeen
      && en.sum.lastSeen <= all.value.lastSeen
      && (en.loaded && l.Some? ==> l.value.observers <= en.sum.observers)
      && (!en.loaded || en.dirty ==> t.Some?)
      && Label(en.sum.packetType, if l.Some? then l.value.packetType else "", if t.Some? then t.value.packetType else "")
      && Label(en.sum.route, if l.Some? then l.value.route else "", if t.Some? then t.value.route else "")
      && (en.sum.decodedType.None? || (t.Some? && t.value.decodedType.Some?)
          || (l.Some? && en.sum.decodedType == l.value.decodedType))
      && (en.sum.source.None? || (l.Some? && l.value.source.Some?) || (t.Some? && en.sum.source == t.value.source))
  }

  /** A cached label is unset, about to be overwritten by a retry, or the stored one. */
  predicate Label(cached: string, stored: string, tried: string) {
    cached == "" || tried != "" || cached == stored
  }

  ghost predicate Stored(row: Option<Row>, log: seq<Event>, h: Bytes) {
    row == if Fold(log, h).Some? then Some(RowOf(Fold(log, h).value)) else None
  }

  /** The entry right after a whole attempt has been applied. */
  ghost predicate Complete(x: Option<Entry>, tried: seq<Event>, h: Bytes) {
    Fold(tried, h).Some? ==>
      var t := Fold(tried, h).value;
      && x.Some? && x.value.dirty
      && t.observers <= x.value.sum.observers
      && x.value.sum.firstSeen <= t.firstSeen
      && t.lastSeen <= x.value.sum.lastSeen
      && (t.packetType != "" ==> x.value.sum.packetType == t.packetType)
      && (t.route != "" ==> x.value.sum.route == t.route)
      && (t.decodedType.Some? ==> x.value.sum.decodedType == t.decodedType)
      && (t.source.Some? ==> x.value.sum.source.Some?)
  }

  /** Applying the failed batch again, or a longer one that starts with it,
      leaves an entry no different from a first application. */
  lemma RetryKeeps(s: State, log: seq<Event>, last: seq<Event>, es: seq<Event>, h: Bytes)
    requires Cached(Get(s, h), log, last, h)
    requires last <= es
    ensures Cached(Get(ApplyAll(s, es), h), log, es, h)
    ensures Complete(Get(ApplyAll(s, es), h), es, h)
  {
    var rest := es[|last|..];
    assert es == last + rest;
    FoldConcat(last, rest, h);
    FoldConcat(log, last, h);
    FoldConcat(log, es, h);
    ApplyAllAppends(s, es, h);
  }

  /** Reading the join, in part or in whole, adds only what the log holds. */
  lemma HeardIsFold(log: seq<Event>, absorbed: seq<Event>, h: Bytes)
    requires forall e :: e in absorbed <==> e in log
    requires h != []
    ensures var heard := Heard(Observed(absorbed), h);
            if Fold(log, h).None? then heard == {} else heard == Fold(log, h).value.observers
  {
    FoldObservers(log, h);
    ObservedMembers(absorbed);
    var po := Observed(absorbed);
    forall o | Fold(log, h).Some? && o in Fold(log, h).value.observers
      ensures o in Heard(po, h)
    {
      var e :| e in log && Hits(h, e) && e.observer == o;
      var ob := Observation(e.ts, e.observer, e.body.packet);
      assert e in absorbed && ob in po;
    }
    forall o | o in Heard(po, h)
      ensures exists e :: e in log && Hits(h, e) && e.observer == o
    {
      var i :| 0 <= i < |po| && po[i].packet.hash == Some(h) && po[i].observer == o;
      assert po[i] in po;
      var e :| e in absorbed && e.body.Packet? && po[i] == Observation(e.ts, e.observer, e.body.packet);
      assert e in log && Hits(h, e);
    }
  }

  lemma {:induction false} ObservedMembers(es: seq<Event>)
    ensures forall e :: e in es && e.body.Packet? ==> Observation(e.ts, e.observer, e.body.packet) in Observed(es)
    ensures forall o :: o in Observed(es) ==>
              exists e :: e in es && e.body.Packet? && o == Observation(e.ts, e.observer, e.body.packet)
  {
    if es != [] {
      var init, e := es[..|es| - 1], es[|es| - 1];
      assert es == init + [e];
      ObservedMembers(init);
    }
  }

  lemma TornKeeps(en: Entry, row: Option<Row>, po: seq<Observation>, tear: Tear, log: seq<Event>, absorbed: seq<Event>, tried: seq<Event>, h: Bytes)
    requires h != [] && po == Observed(absorbed) && forall e :: e in absorbed <==> e in log
    requires Cached(Some(en), log, tried, h) && Stored(row, log, h)
    ensures Cached(Some(Torn(en, h, row, po, tear)), log, tried, h)
  {
    HeardIsFold(log, absorbed, h);
    FoldConcat(log, tried, h);
    if tear.Reading? {
      assert HeardIn(po, tear.read, h) <= Heard(po, h);
    }
  }

  /** Once loaded, the entry's observers and first sighting are the log's. */
  lemma LoadIsExact(en: Entry, row: Option<Row>, heard: set<Bytes>, log: seq<Event>, es: seq<Event>, h: Bytes)
    requires Cached(Some(en), log, es, h) && Complete(Some(en), es, h) && Stored(row, log, h)
    requires if Fold(log, h).None? then heard == {} else heard == Fold(log, h).value.observers
    ensures var l := Load(en, row, heard);
            && (l.loaded || !l.dirty) && l.dirty == en.dirty
            && (l.dirty ==> l.sum.observers == Fold(log + es, h).value.observers)
            && l.sum == en.sum.(observers := l.sum.observers, firstSeen := l.sum.firstSeen)
            && Fold(log + es, h).value.firstSeen <= l.sum.firstSeen <= en.sum.firstSeen
  {
    FoldConcat(log, es, h);
  }

  lemma UpsertIsExact(u: Summary, row: Option<Row>, log: seq<Event>, es: seq<Event>, h: Bytes)
    requires Fold(es, h).Some? && Cached(Some(Entry(u, true, true)), log, es, h)
    requires Complete(Some(Entry(u, true, true)), es, h) && Stored(row, log, h)
    requires u.observers == Fold(log + es, h).value.observers
    ensures Stored(Some(Upsert(u, row)), log + es, h)
  {
    FoldConcat(log, es, h);
  }

  /** Committing stores the fold of the longer log, and leaves a clean entry. */
  lemma FlushKeeps(x: Option<Entry>, row: Option<Row>, po: seq<Observation>, log: seq<Event>, absorbed: seq<Event>, es: seq<Event>, h: Bytes)
    requires h != [] && po == Observed(absorbed) && forall e :: e in absorbed <==> e in log
    requires Cached(x, log, es, h) && Complete(x, es, h) && Stored(row, log, h)
    ensures x.None? ==> Stored(row, log + es, h)
    ensures x.Some? ==>
              var (x', row') := Settle(x.value, row, Heard(po, h));
              x'.loaded && !x'.dirty && Stored(row', log + es, h) && Cached(Some(x'), log + es, [], h)
  {
    HeardIsFold(log, absorbed, h);
    FoldConcat(log, es, h);
    assert (log + es) + [] == log + es;
    if x.Some? {
      LoadIsExact(x.value, row, Heard(po, h), log, es, h);
      if x.value.dirty {
        UpsertIsExact(Load(x.value, row, Heard(po, h)).sum, row, log, es, h);
      }
    }
  }

  lemma {:induction false} NoEmptyHash(es: seq<Event>)
    ensures Fold(es, []).None?
  {
    if es != [] {
      NoEmptyHash(es[..|es| - 1]);
    }
  }

  /** What Flush does to one hash. */
  lemma FlushAt(s: State, t: Table, po: seq<Observation>, h: Bytes)
    ensures Get(FlushState(s, t, po), h) == if h in s then Some(Settle(s[h], Get(t, h), Heard(po, h)).0) else None
    ensures Get(FlushTable(s, t, po), h) == if h in s then Settle(s[h], Get(t, h), Heard(po, h)).1 else Get(t, h)
  {}

  /** The entry may be evicted when its row holds the fold. */
  lemma EvictKeeps(retention: Time, s: State, hwm: Time, log: seq<Event>, h: Bytes)
    requires Cached(Get(s, h), log, [], h) && (h in s ==> !s[h].dirty)
    ensures Cached(Get(Evicted(retention, s, hwm), h), log, [], h)
  {
    assert Fold([], h).None?;
  }

  /** One committed batch, whether or not it retries a failed one. */
  lemma CommitKeeps(retention: Time, s: State, t: Table, po: seq<Observation>, log: seq<Event>, absorbed: seq<Event>, last: seq<Event>, es: seq<Event>, hwm: Time, h: Bytes)
    requires po == Observed(absorbed) && forall e :: e in absorbed <==> e in log
    requires Cached(Get(s, h), log, last, h) && Stored(Get(t, h), log, h) && last <= es
    ensures var applied := ApplyAll(s, es);
            var s' := FlushState(applied, t, po);
            && Stored(Get(FlushTable(applied, t, po), h), log + es, h)
            && Cached(Get(s', h), log + es, [], h)
            && Cached(Get(Evicted(retention, s', hwm), h), log + es, [], h)
            && (h in s' ==> s'[h].loaded && !s'[h].dirty)
  {
    var applied := ApplyAll(s, es);
    RetryKeeps(s, log, last, es, h);
    AppliedKeeps(applied, t, po, log, absorbed, es, h);
    EvictKeeps(retention, FlushState(applied, t, po), hwm, log + es, h);
  }

  lemma AppliedKeeps(s: State, t: Table, po: seq<Observation>, log: seq<Event>, absorbed: seq<Event>, es: seq<Event>, h: Bytes)
    requires po == Observed(absorbed) && forall e :: e in absorbed <==> e in log
    requires Cached(Get(s, h), log, es, h) && Complete(Get(s, h), es, h) && Stored(Get(t, h), log, h)
    ensures var s' := FlushState(s, t, po);
            && Stored(Get(FlushTable(s, t, po), h), log + es, h)
            && Cached(Get(s', h), log + es, [], h)
            && (h in s' ==> s'[h].loaded && !s'[h].dirty)
  {
    FlushAt(s, t, po, h);
    assert Fold([], h).None?;
    if h == [] {
      NoEmptyHash(log);
      NoEmptyHash(log + es);
    } else {
      FlushKeeps(Get(s, h), Get(t, h), po, log, absorbed, es, h);
    }
  }

  function Reached(s: State, t: Table, po: seq<Observation>, reach: Reach<Tear>): State {
    match reach
    case Before => s
    case Within(tear) => TornState(s, t, po, tear)
    case After => FlushState(s, t, po)
  }

  lemma AbortKeeps(s: State, t: Table, po: seq<Observation>, log: seq<Event>, absorbed: seq<Event>, last: seq<Event>, es: seq<Event>, reach: Reach<Tear>, h: Bytes)
    requires po == Observed(absorbed) && forall e :: e in absorbed <==> e in log
    requires Cached(Get(s, h), log, last, h) && Stored(Get(t, h), log, h) && last <= es
    ensures Cached(Get(Reached(ApplyAll(s, es), t, po, reach), h), log, es, h)
  {
    RetryKeeps(s, log, last, es, h);
    var applied := ApplyAll(s, es);
    NoEmptyHash(log + es);
    if h in applied && reach != Before {
      var tear := if reach.Within? then reach.tear else Writing({h});
      TornKeeps(applied[h], Get(t, h), po, tear, log, absorbed, es, h);
    }
  }

  /* ---------- the stage ---------- */

  lemma MergeAgain(en: Entry, row: Option<Row>, heard: set<Bytes>, o: Bytes)
    ensures Merge(Merge(en, row, heard), row, {o}) == Merge(en, row, heard + {o})
  {
    assert (en.sum.observers + heard) + {o} == en.sum.observers + (heard + {o});
    assert heard == {} ==> heard + {o} == {o};
  }

  lemma HeardInGrows(po: seq<Observation>, read: set<nat>, i: nat, h: Bytes)
    requires i < |po|
    ensures HeardIn(po, read + {i}, h)
         == HeardIn(po, read, h) + (if po[i].packet.hash == Some(h) then {po[i].observer} else {})
  {
    assert po[i].packet.hash == Some(h) ==> po[i].observer in HeardIn(po, read + {i}, h);
  }

  lemma HeardInAll(po: seq<Observation>, read: set<nat>, h: Bytes)
    requires forall j: nat :: j in read <==> j < |po|
    ensures HeardIn(po, read, h) == Heard(po, h)
  {
    forall i | 0 <= i < |po| && po[i].packet.hash == Some(h)
      ensures po[i].observer in HeardIn(po, read, h)
    {
      assert i in read;
    }
  }

  function Partial(s: State, t: Table, po: seq<Observation>, read: set<nat>): State {
    map h | h in s :: Merge(s[h], Get(t, h), HeardIn(po, read, h))
  }

  /** One more row of the join changes at most the entry of its hash. */
  lemma ReadOne(s: State, t: Table, po: seq<Observation>, read: set<nat>, i: nat)
    requires i < |po|
    ensures Partial(s, t, po, read + {i}) == AfterRow(s, t, Partial(s, t, po, read), po[i])
  {
    var p := Partial(s, t, po, read);
    forall h | h in s
      ensures Merge(s[h], Get(t, h), HeardIn(po, read + {i}, h))
           == if po[i].packet.hash == Some(h) then Merge(p[h], Get(t, h), {po[i].observer}) else p[h]
    {
      HeardInGrows(po, read, i, h);
      MergeAgain(s[h], Get(t, h), HeardIn(po, read, h), po[i].observer);
    }
  }

  function AfterRow(s: State, t: Table, p: State, o: Observation): State
    requires p.Keys == s.Keys
  {
    if o.packet.hash.None? then p
    else
      var h := o.packet.hash.value;
      if h in s && !s[h].loaded && s[h].dirty && h in t then p[h := Merge(p[h], Some(t[h]), {o.observer})] else p
  }

  function Loaded(s: State, t: Table, po: seq<Observation>): State {
    map h | h in s :: Load(s[h], Get(t, h), Heard(po, h))
  }

  lemma FlushOfLoaded(s: State, t: Table, po: seq<Observation>)
    ensures var l := Loaded(s, t, po);
            && FlushState(s, t, po) == Marked(l, s.Keys)
            && forall h :: Get(FlushTable(s, t, po), h)
                        == if h in l && l[h].dirty then Some(Upsert(l[h].sum, Get(t, h))) else Get(t, h)
  {
    var l := Loaded(s, t, po);
    assert forall h :: h in s ==> l[h].dirty == s[h].dirty;
    assert forall h :: h in s ==> Settle(s[h], Get(t, h), Heard(po, h)).0 == l[h].(dirty := false);
  }

  /** The entries of `done` marked clean. */
  function Marked(s: State, done: set<Bytes>): State {
    map h | h in s :: if h in done then s[h].(dirty := false) else s[h]
  }

  /** A table into which the dirty entries of `done` have been upserted. */
  ghost predicate Upserted(s: State, t: Table, t': Table, done: set<Bytes>) {
    forall h :: Get(t', h) == if h in s && h in done && s[h].dirty then Some(Upsert(s[h].sum, Get(t, h))) else Get(t, h)
  }

  lemma UpsertOne(s: State, t: Table, t': Table, done: set<Bytes>, h: Bytes)
    requires Upserted(s, t, t', done) && h in s && h !in done
    ensures Upserted(s, t, if s[h].dirty then t'[h := Upsert(s[h].sum, Get(t', h))] else t', done + {h})
    ensures Marked(s, done + {h}) == if s[h].dirty then Marked(s, done)[h := s[h].(dirty := false)] else Marked(s, done)
  {
    assert Get(t', h) == Get(t, h);
    assert !s[h].dirty ==> s[h].(dirty := false) == s[h];
  }

  /** Loading and then writing everything is the flush, writing less a torn one. */
  lemma MarkedIsTorn(s: State, t: Table, po: seq<Observation>, done: set<Bytes>)
    ensures Marked(Loaded(s, t, po), done) == TornState(s, t, po, Writing(done))
  {}

  lemma UpsertedIsFlushed(s: State, t: Table, po: seq<Observation>, t': Table)
    requires Upserted(Loaded(s, t, po), t, t', s.Keys)
    ensures t' == FlushTable(s, t, po)
  {
    FlushOfLoaded(s, t, po);
    forall h
      ensures Get(t', h) == Get(FlushTable(s, t, po), h)
    {}
    GetEqual(t', FlushTable(s, t, po));
  }

  class PacketsUnique {
    const retention: Time
    var state: State

    constructor (retention: Time)
      ensures this.retention == retention && state == map[]
    {
      this.retention, state := retention, map[];
    }

    method Apply(e: Event)
      modifies this
      ensures state == ApplyEvent(old(state), e)
    {
      if !e.body.Packet? {
        return;
      }
      var p := e.body.packet;
      if p.hash.None? || |p.hash.value| == 0 {
        return;
      }
      var key := p.hash.value;
      var st := if key in state then state[key]
                else Entry(Summary(e.ts, e.ts, "", "", None, None, {}), false, false);
      var u := st.sum;
      if e.ts < u.firstSeen {
        u := u.(firstSeen := e.ts);
      }
      if e.ts > u.lastSeen {
        u := u.(lastSeen := e.ts);
      }
      if p.packetType != "" {
        u := u.(packetType := p.packetType);
      }
      if p.route != "" {
        u := u.(route := p.route);
      }
      if p.decodedType.Some? {
        u := u.(decodedType := p.decodedType);
      }
      if |p.sourcePrefix| > 0 && u.source.None? {
        u := u.(source := Some(p.sourcePrefix));
      }
      u := u.(observers := u.observers + {e.observer});
      assert u == if key in state then Then(state[key].sum, First(e)) else First(e);
      state := state[key := Entry(u, st.loaded, true)];
    }

    /** `fault` counts the results the database still delivers before it fails;
        None is a database that does not fail. */
    method Flush(table: Table, po: seq<Observation>, fault: Option<nat>)
      returns (ok: bool, table': Table, ghost tear: Tear)
      modifies this
      ensures fault.None? ==> ok
      ensures ok ==> state == FlushState(old(state), table, po) && table' == FlushTable(old(state), table, po)
      ensures !ok ==> state == TornState(old(state), table, po, tear)
    {
      ghost var s0 := state;
      var left;
      table' := table;
      ok, left, tear := RehydrateUnloaded(table, po, fault);
      if ok {
        ghost var written;
        ok, table', written := WriteDirty(table, left);
        tear := Writing(written);
        MarkedIsTorn(s0, table, po, written);
        if ok {
          FlushOfLoaded(s0, table, po);
          UpsertedIsFlushed(s0, table, po, table');
        }
      }
    }

    method RehydrateUnloaded(table: Table, po: seq<Observation>, fault: Option<nat>)
      returns (ok: bool, left: Option<nat>, ghost tear: Tear)
      modifies this
      ensures fault.None? ==> ok && left.None?
      ensures ok ==> state == Loaded(old(state), table, po)
      ensures !ok ==> state == TornState(old(state), table, po, tear)
    {
      var pending := set h | h in state && !state[h].loaded && state[h].dirty;
      ghost var read;
      ok, left, read := ReadJoin(table, po, pending, fault);
      tear := Reading(read);
      if ok {
        forall h | h in state {
          HeardInAll(po, read, h);
        }
        state := map h | h in state :: if h in pending then state[h].(loaded := true) else state[h];
      }
    }

    /** The row loop over the join of packet_observations with packets_unique. */
    method ReadJoin(table: Table, po: seq<Observation>, pending: set<Bytes>, fault: Option<nat>)
      returns (ok: bool, left: Option<nat>, ghost read: set<nat>)
      requires pending == set h | h in state && !state[h].loaded && state[h].dirty
      modifies this
      ensures fault.None? ==> ok && left.None?
      ensures state == Partial(old(state), table, po, read)
      ensures ok ==> forall j: nat :: j in read <==> j < |po|
    {
      left, read := fault, {};
      for i := 0 to |po|
        invariant fault.None? ==> left.None?
        invariant forall j: nat :: j in read <==> j < i
        invariant state == Partial(old(state), table, po, read)
      {
        ReadOne(old(state), table, po, read, i);
        var o := po[i];
        if o.packet.hash.Some? && o.packet.hash.value in pending && o.packet.hash.value in table {
          if left == Some(0) {
            ok := false;
            return;
          }
          left := Spent(left);
          AddObserver(o.packet.hash.value, table[o.packet.hash.value], o.observer);
        }
        read := read + {i};
      }
      ok := true;
    }

    method AddObserver(h: Bytes, row: Row, observer: Bytes)
      requires h in state && !state[h].loaded && state[h].dirty
      modifies this
      ensures state == old(state)[h := Merge(old(state)[h], Some(row), {observer})]
    {
      var u := state[h].sum;
      if row.firstSeen < u.firstSeen {
        u := u.(firstSeen := row.firstSeen);
      }
      state := state[h := state[h].(sum := u.(observers := u.observers + {observer}))];
    }

    /** The upsert loop of Flush. */
    method WriteDirty(table: Table, fault: Option<nat>) returns (ok: bool, table': Table, ghost written: set<Bytes>)
      modifies this
      ensures fault.None? ==> ok
      ensures ok ==> written == old(state).Keys
      ensures state == Marked(old(state), written) && Upserted(old(state), table, table', written)
    {
      ghost var s0 := state;
      table', written := table, {};
      var left, todo := fault, state.Keys;
      while todo != {}
        invariant fault.None? ==> left.None?
        invariant written == s0.Keys - todo && todo <= s0.Keys
        invariant state == Marked(s0, written) && Upserted(s0, table, table', written)
      {
        var h :| h in todo;
        UpsertOne(s0, table, table', written, h);
        var st := state[h];
        if st.dirty {
          if left == Some(0) {
            ok := false;
            return;
          }
          left := Spent(left);
          table' := table'[h := Upsert(st.sum, Get(table', h))];
          state := state[h := st.(dirty := false)];
        }
        todo, written := todo - {h}, written + {h};
      }
      ok := true;
    }

    method Evict(hwm: Time)
      modifies this
      ensures state == Evicted(retention, old(state), hwm)
    {
      var cutoff := hwm - retention;
      var todo := state.Keys;
      while todo != {}
        invariant todo <= old(state).Keys
        invariant state == map h | h in old(state) && (h in todo || old(state)[h].dirty || old(state)[h].sum.lastSeen >= cutoff) ::
                             old(state)[h]
      {
        var h :| h in todo;
        if !state[h].dirty && state[h].sum.lastSeen < cutoff {
          state := state - {h};
        }
        todo := todo - {h};
      }
      state := map h | h in state :: state[h].(dirty := false);
    }

    method Clear()
      modifies this
      ensures state == map[]
    {
      state := map[];
    }
  }
}
