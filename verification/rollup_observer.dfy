/** RollupObserver: the write-back cache behind rollup_observer_1m and
    rollup_observer_1h. The first half says what each operation does to the
    cache and the table as functions of values; the class does it in place. */
module RollupObserverStage {
  import opened Events
  import opened RollupCore
  import opened PacketObservationsStage

  datatype Key = Key(observer: Bytes, bucket: Time)

  datatype Accum = Accum(
    core: Core,
    unique: set<Bytes>,
    flood: nat,
    direct: nat,
    noiseFloor: Option<int>,
    noiseTS: Time,
    loaded: bool,
    dirty: bool)

  datatype Row = Row(core: CoreRow, unique: nat, flood: nat, direct: nat, noiseFloor: Option<int>)

  type State = map<Key, Accum>
  type Table = map<Key, Row>

  const FRESH: Accum := Accum(EMPTY, {}, 0, 0, None, 0, false, false)

  /* ---------- what the operations do ---------- */

  function AddEvent(a: Accum, e: Event): Accum {
    match e.body
    case Packet(p) =>
      a.(core := AddPacket(a.core, p.rssi),
         unique := if p.hash.Some? && p.hash.value != [] then a.unique + {p.hash.value} else a.unique,
         flood := if p.route == "F" then a.flood + 1 else a.flood,
         direct := if p.route == "D" then a.direct + 1 else a.direct,
         dirty := true)
    case Status(s) =>
      if e.ts > a.noiseTS then a.(noiseFloor := s.noiseFloor, noiseTS := e.ts, dirty := true) else a
  }

  /** Events that touch an accumulator: packets, and statuses with a noise floor. */
  predicate Relevant(e: Event) {
    e.body.Packet? || e.body.status.noiseFloor.Some?
  }

  function KeyOf(dur: Duration, e: Event): Key
  {
    Key(e.observer, Truncate(e.ts, dur))
  }

  function ApplyEvent(dur: Duration, s: State, e: Event): State
  {
    if !Relevant(e) then s
    else
      var k := KeyOf(dur, e);
      s[k := AddEvent(if k in s then s[k] else FRESH, e)]
  }

  function ApplyAll(dur: Duration, s: State, es: seq<Event>): State
  {
    if es == [] then s else ApplyEvent(dur, ApplyAll(dur, s, es[..|es| - 1]), es[|es| - 1])
  }

  /** The packet hashes that the SQL range join finds for a bucket. */
  function History(dur: Duration, po: seq<Observation>, k: Key): set<Bytes> {
    set i | 0 <= i < |po| && InBucket(dur, po[i], k) :: po[i].packet.hash.value
  }

  predicate InBucket(dur: Duration, o: Observation, k: Key) {
    o.observer == k.observer && k.bucket <= o.ts < k.bucket + dur && o.packet.hash.Some?
  }

  /** loadRowTotals for one accumulator. */
  function MergeTotals(a: Accum, row: Option<Row>): Accum {
    if row.None? then a
    else
      var r := row.value;
      a.(core := MergeRow(a.core, r.core),
         flood := a.flood + r.flood,
         direct := a.direct + r.direct,
         noiseFloor := if a.noiseFloor.None? then r.noiseFloor else a.noiseFloor)
  }

  function Load(a: Accum, row: Option<Row>, hist: set<Bytes>): Accum {
    if a.loaded || !a.dirty then a
    else MergeTotals(a, row).(unique := a.unique + hist, loaded := true)
  }

  /** The upsert: every column is overwritten, the noise floor is coalesced. */
  function WriteRow(a: Accum, row: Option<Row>): Row {
    Row(ToRow(a.core), |a.unique|, a.flood, a.direct,
        if a.noiseFloor.None? && row.Some? then row.value.noiseFloor else a.noiseFloor)
  }

  /** Flush, seen from one key. */
  function Settle(a: Accum, row: Option<Row>, hist: set<Bytes>): (Accum, Option<Row>) {
    var l := Load(a, row, hist);
    (l.(dirty := false), if l.dirty then Some(WriteRow(l, row)) else row)
  }

  function Loaded(dur: Duration, s: State, t: Table, po: seq<Observation>): State {
    map k | k in s :: Load(s[k], Get(t, k), History(dur, po, k))
  }

  function FlushState(dur: Duration, s: State, t: Table, po: seq<Observation>): State {
    map k | k in s :: Settle(s[k], Get(t, k), History(dur, po, k)).0
  }

  function FlushTable(dur: Duration, s: State, t: Table, po: seq<Observation>): Table {
    t + map k | k in s && s[k].dirty :: WriteRow(Load(s[k], Get(t, k), History(dur, po, k)), Get(t, k))
  }

  lemma FlushOfLoaded(dur: Duration, s: State, t: Table, po: seq<Observation>)
    ensures var l := Loaded(dur, s, t, po);
            && FlushState(dur, s, t, po).Keys == l.Keys
            && (forall k :: k in l ==> FlushState(dur, s, t, po)[k] == l[k].(dirty := false))
            && (forall k :: Get(FlushTable(dur, s, t, po), k)
                         == if k in l && l[k].dirty then Some(WriteRow(l[k], Get(t, k))) else Get(t, k))
  {
    var l := Loaded(dur, s, t, po);
    assert forall k :: k in s ==> l[k].dirty == s[k].dirty;
    assert forall k :: k in s ==> Settle(s[k], Get(t, k), History(dur, po, k)).0 == l[k].(dirty := false);
  }

  /** How far a flush got before the database failed: it had merged the rows of
      some buckets; or all of them, and the hashes of some observations; or had
      loaded everything and written some buckets. */
  datatype Tear = Merging(merged: set<Key>) | Hashing(read: set<nat>) | Writing(written: set<Key>)

  /** The hashes in the rows of the join already read when the connection fails. */
  function HistoryIn(dur: Duration, po: seq<Observation>, read: set<nat>, k: Key): set<Bytes> {
    set i | i in read && i < |po| && InBucket(dur, po[i], k) :: po[i].packet.hash.value
  }

  /** A failed flush, seen from one key. `loaded` is only set once both queries are done. */
  function Torn(dur: Duration, a: Accum, k: Key, row: Option<Row>, po: seq<Observation>, tear: Tear): Accum {
    match tear
    case Merging(merged) => if a.loaded || !a.dirty || k !in merged then a else MergeTotals(a, row)
    case Hashing(read) =>
      if a.loaded || !a.dirty then a else MergeTotals(a, row).(unique := a.unique + HistoryIn(dur, po, read, k))
    case Writing(written) =>
      var l := Load(a, row, History(dur, po, k));
      if k in written then l.(dirty := false) else l
  }

  /** Memory after a failed flush; its table writes are rolled back. */
  function TornState(dur: Duration, s: State, t: Table, po: seq<Observation>, tear: Tear): State {
    map k | k in s :: Torn(dur, s[k], k, Get(t, k), po, tear)
  }

  function Reached(dur: Duration, s: State, t: Table, po: seq<Observation>, reach: Reach<Tear>): State {
    match reach
    case Before => s
    case Within(tear) => TornState(dur, s, t, po, tear)
    case After => FlushState(dur, s, t, po)
  }

  /** A load that fails before its first row leaves memory as it was. */
  lemma NothingTorn(dur: Duration, s: State, t: Table, po: seq<Observation>)
    ensures TornState(dur, s, t, po, Merging({})) == s
  {}

  /** Whether the failed attempt has merged the row of k but will load it again. */
  predicate Again(s: State, k: Key, reach: Reach<Tear>) {
    && k in s && !s[k].loaded && s[k].dirty
    && reach.Within? && (reach.tear.Hashing? || (reach.tear.Merging? && k in reach.tear.merged))
  }

  function Evicted(dur: Duration, retention: Time, s: State, hwm: Time): State {
    map k | k in s && (s[k].dirty || k.bucket + dur >= hwm - retention) :: s[k].(dirty := false)
  }

  /** Eviction follows a commit whose batch had a high-water mark. */
  function Kept(dur: Duration, retention: Time, s: State, hwm: Time): State {
    if hwm != 0 then Evicted(dur, retention, s, hwm) else s
  }

  /* ---------- the one-pass reference ---------- */

  /** The exact content of a bucket. */
  datatype Totals = Totals(core: Core, flood: nat, direct: nat, hashes: set<Bytes>)

  const ZERO: Totals := Totals(EMPTY, 0, 0, {})

  predicate Touches(dur: Duration, k: Key, e: Event) {
    Relevant(e) && KeyOf(dur, e) == k
  }

  predicate Hits(dur: Duration, k: Key, e: Event)
  {
    e.body.Packet? && KeyOf(dur, e) == k
  }

  function Count(t: Totals, p: PacketPayload): Totals {
    Totals(AddPacket(t.core, p.rssi),
           t.flood + (if p.route == "F" then 1 else 0),
           t.direct + (if p.route == "D" then 1 else 0),
           t.hashes + (if p.hash.Some? && p.hash.value != [] then {p.hash.value} else {}))
  }

  function Fold(dur: Duration, es: seq<Event>, k: Key): Totals
  {
    if es == [] then ZERO
    else
      var t, e := Fold(dur, es[..|es| - 1], k), es[|es| - 1];
      if Hits(dur, k, e) then Count(t, e.body.packet) else t
  }

  function Plus(a: Totals, b: Totals): Totals {
    Totals(Combine(a.core, b.core), a.flood + b.flood, a.direct + b.direct, a.hashes + b.hashes)
  }

  /** Some event of the log touches the bucket. */
  predicate Touched(dur: Duration, es: seq<Event>, k: Key) {
    exists e :: e in es && Touches(dur, k, e)
  }

  /** Some packet of the bucket carries the empty, non-nil hash. */
  predicate HasEmptyHash(dur: Duration, es: seq<Event>, k: Key) {
    exists i :: 0 <= i < |es| && EmptyHashed(dur, k, es[i])
  }

  predicate EmptyHashed(dur: Duration, k: Key, e: Event) {
    Hits(dur, k, e) && e.body.packet.hash == Some([])
  }

  /** ... and a later event touches the bucket, which a restart between the two
      turns into a reload that finds the empty hash in packet_observations. */
  predicate Poisoned(dur: Duration, es: seq<Event>, k: Key) {
    exists i, j :: 0 <= i < j < |es| && EmptyHashed(dur, k, es[i]) && Touches(dur, k, es[j])
  }

  lemma PoisonSpreads(dur: Duration, a: seq<Event>, b: seq<Event>, k: Key)
    ensures Poisoned(dur, a, k) ==> Poisoned(dur, a + b, k)
    ensures Poisoned(dur, b, k) ==> Poisoned(dur, a + b, k)
    ensures HasEmptyHash(dur, a, k) && Touched(dur, b, k) ==> Poisoned(dur, a + b, k)
  {
    var all := a + b;
    if Poisoned(dur, a, k) {
      var i, j :| 0 <= i < j < |a| && EmptyHashed(dur, k, a[i]) && Touches(dur, k, a[j]);
      assert all[i] == a[i] && all[j] == a[j];
    }
    if Poisoned(dur, b, k) {
      var i, j :| 0 <= i < j < |b| && EmptyHashed(dur, k, b[i]) && Touches(dur, k, b[j]);
      assert all[|a| + i] == b[i] && all[|a| + j] == b[j];
    }
    if HasEmptyHash(dur, a, k) && Touched(dur, b, k) {
      var i :| 0 <= i < |a| && EmptyHashed(dur, k, a[i]);
      var e :| e in b && Touches(dur, k, e);
      var j :| 0 <= j < |b| && b[j] == e;
      assert all[i] == a[i] && all[|a| + j] == b[j];
    }
  }

  lemma PlusZero(t: Totals)
    ensures Plus(t, ZERO) == t && Plus(ZERO, t) == t
  {
    assert t.hashes + {} == t.hashes && {} + t.hashes == t.hashes;
  }

  lemma CountPlus(a: Totals, b: Totals, p: PacketPayload)
    ensures Count(Plus(a, b), p) == Plus(a, Count(b, p))
  {
    var x, y := Count(Plus(a, b), p), Plus(a, Count(b, p));
    assert x.hashes == y.hashes;
    assert x.core == y.core;
  }

  lemma {:induction false} FoldConcat(dur: Duration, a: seq<Event>, b: seq<Event>, k: Key)
    ensures Fold(dur, a + b, k) == Plus(Fold(dur, a, k), Fold(dur, b, k))
  {
    if b == [] {
      assert a + b == a;
      PlusZero(Fold(dur, a, k));
    } else {
      var n := |b| - 1;
      assert (a + b)[..|a + b| - 1] == a + b[..n] && (a + b)[|a + b| - 1] == b[n];
      FoldConcat(dur, a, b[..n], k);
      if Hits(dur, k, b[n]) {
        CountPlus(Fold(dur, a, k), Fold(dur, b[..n], k), b[n].body.packet);
      }
    }
  }

  lemma {:induction false} FoldZero(dur: Duration, es: seq<Event>, k: Key)
    ensures Fold(dur, es, k).core.packets == 0 <==> Fold(dur, es, k) == ZERO
    ensures Fold(dur, es, k) == ZERO <==> forall e :: e in es ==> !Hits(dur, k, e)
  {
    if es != [] {
      var n := |es| - 1;
      FoldZero(dur, es[..n], k);
      assert es == es[..n] + [es[n]];
    }
  }

  lemma EmptyHashSnoc(dur: Duration, es: seq<Event>, e: Event, k: Key)
    ensures HasEmptyHash(dur, es + [e], k) <==> HasEmptyHash(dur, es, k) || EmptyHashed(dur, k, e)
  {
    var all := es + [e];
    assert forall i :: 0 <= i < |es| ==> all[i] == es[i];
    assert all[|es|] == e;
  }

  /** The range join returns the bucket's hashes, give or take the empty one. */
  lemma {:induction false} HistoryIsFold(dur: Duration, es: seq<Event>, k: Key)
    requires Aligned(k.bucket, dur)
    ensures History(dur, Observed(es), k) - {[]} == Fold(dur, es, k).hashes
    ensures [] in History(dur, Observed(es), k) <==> HasEmptyHash(dur, es, k)
  {
    if es != [] {
      var init, e := es[..|es| - 1], es[|es| - 1];
      HistoryIsFold(dur, init, k);
      assert es == init + [e];
      EmptyHashSnoc(dur, init, e, k);
      TruncateIsRange(e.ts, k.bucket, dur);
      if e.body.Packet? {
        HistorySnoc(dur, Observed(init), Observation(e.ts, e.observer, e.body.packet), k);
      }
    }
  }

  lemma HistorySnoc(dur: Duration, po: seq<Observation>, o: Observation, k: Key)
    ensures History(dur, po + [o], k)
         == History(dur, po, k) + (if InBucket(dur, o, k) then {o.packet.hash.value} else {})
  {
    var all := po + [o];
    forall h | h in History(dur, po, k) + (if InBucket(dur, o, k) then {o.packet.hash.value} else {})
      ensures h in History(dur, all, k)
    {
      if h in History(dur, po, k) {
        var i :| 0 <= i < |po| && InBucket(dur, po[i], k) && h == po[i].packet.hash.value;
        assert all[i] == po[i];
      } else {
        assert all[|po|] == o;
      }
    }
  }

  /* ---------- cache transparency, one key at a time ---------- */

  /** Agreement on every exact column but the hashes. */
  predicate Counts(a: Accum, t: Totals) {
    SameCounts(a.core, t.core) && a.flood == t.flood && a.direct == t.direct
  }

  predicate RowAgrees(r: Row, t: Totals) {
    && r.core.packets == t.core.packets
    && r.core.lo == t.core.lo
    && r.core.hi == t.core.hi
    && r.flood == t.flood
    && r.direct == t.direct
  }

  /** The hashes of an accumulator, but for the empty one. Those of the row are
      missing as long as it is not loaded. */
  predicate Hashes(dur: Duration, a: Accum, l: Ledger, k: Key) {
    && (a.unique - {[]}) + (if a.loaded then {} else Fold(dur, l.done, k).hashes) == Fold(dur, l.done + l.pending, k).hashes
    && ([] in a.unique ==> Poisoned(dur, l.done + l.pending, k))
  }

  /** The cached accumulator of k, when its row has counted `l.done`, memory has
      counted `l.pending` on top, and `current` is the last batch applied. */
  ghost predicate Cached(dur: Duration, acc: Option<Accum>, l: Ledger, current: seq<Event>, k: Key)
  {
    match acc
    case None => Fold(dur, l.pending, k) == ZERO
    case Some(a) =>
      && Aligned(k.bucket, dur)
      && Balanced(a.core)
      && (!a.loaded ==> a.dirty && Touched(dur, l.pending, k))
      && Counts(a, Fold(dur, if a.loaded then l.done + l.pending else l.pending, k))
      && Hashes(dur, a, l, k)
      && (!a.dirty ==> Fold(dur, current, k) == ZERO)
  }

  /** The stored row of k, when it has counted `done`. */
  ghost predicate Stored(dur: Duration, row: Option<Row>, done: seq<Event>, k: Key)
  {
    var t := Fold(dur, done, k);
    match row
    case None => t == ZERO
    case Some(r) =>
      && RowAgrees(r, t)
      && Ordered(r.core)
      && (r.unique == |t.hashes| || (r.unique == |t.hashes| + 1 && Poisoned(dur, done, k)))
  }

  /** packet_observations holds the hashes that the row has counted. */
  ghost predicate Reflects(dur: Duration, po: seq<Observation>, done: seq<Event>, k: Key) {
    && (Aligned(k.bucket, dur) ==> History(dur, po, k) - {[]} == Fold(dur, done, k).hashes)
    && (Aligned(k.bucket, dur) && [] in History(dur, po, k) ==> HasEmptyHash(dur, done, k))
  }

  /** It does when it holds the packets of the same events, however often. */
  lemma SameEventsReflect(dur: Duration, absorbed: seq<Event>, done: seq<Event>, k: Key)
    requires forall e :: e in absorbed <==> e in done
    ensures Reflects(dur, Observed(absorbed), done, k)
  {
    FoldHashes(dur, absorbed, k);
    FoldHashes(dur, done, k);
    if Aligned(k.bucket, dur) {
      HistoryIsFold(dur, absorbed, k);
      if HasEmptyHash(dur, absorbed, k) {
        var i :| 0 <= i < |absorbed| && EmptyHashed(dur, k, absorbed[i]);
        assert absorbed[i] in done;
      }
    }
  }

  lemma FoldSnoc(dur: Duration, es: seq<Event>, e: Event, k: Key)
    ensures Fold(dur, es + [e], k)
         == if Hits(dur, k, e) then Count(Fold(dur, es, k), e.body.packet) else Fold(dur, es, k)
  {
    assert (es + [e])[..|es|] == es;
  }

  /** The bucket's packets, or those of one route. */
  function InBucketWith(dur: Duration, k: Key, route: Option<string>): Event -> bool {
    e => Hits(dur, k, e) && (route.Some? ==> e.body.packet.route == route.value)
  }

  /** Some packet of the bucket carries this RSSI. */
  ghost predicate Heard(dur: Duration, es: seq<Event>, k: Key, v: int) {
    exists e :: e in es && Hits(dur, k, e) && e.body.packet.rssi == Some(v)
  }

  /** The fold counts the bucket's packets, and those of each route. */
  lemma {:induction false} FoldCounts(dur: Duration, es: seq<Event>, k: Key)
    ensures var t := Fold(dur, es, k);
            && t.core.packets == |Positions(es, InBucketWith(dur, k, None))|
            && t.flood == |Positions(es, InBucketWith(dur, k, Some("F")))|
            && t.direct == |Positions(es, InBucketWith(dur, k, Some("D")))|
  {
    if es != [] {
      var init, e := es[..|es| - 1], es[|es| - 1];
      assert es == init + [e];
      FoldCounts(dur, init, k);
      FoldSnoc(dur, init, e, k);
      PositionsSnoc(init, e, InBucketWith(dur, k, None));
      PositionsSnoc(init, e, InBucketWith(dur, k, Some("F")));
      PositionsSnoc(init, e, InBucketWith(dur, k, Some("D")));
    }
  }

  /** It holds the least and the greatest RSSI of the bucket, if it has any. */
  lemma {:induction false} FoldRange(dur: Duration, es: seq<Event>, k: Key)
    ensures var t := Fold(dur, es, k).core;
            && (t.lo.None? <==> t.hi.None?)
            && (forall v :: Heard(dur, es, k, v) ==> t.lo.Some? && t.lo.value <= v <= t.hi.value)
            && (t.lo.Some? ==> Heard(dur, es, k, t.lo.value) && Heard(dur, es, k, t.hi.value))
  {
    if es != [] {
      var init, e := es[..|es| - 1], es[|es| - 1];
      FoldRange(dur, init, k);
      HeardSnoc(dur, init, e, k);
      assert es == init + [e];
    }
  }

  lemma HeardSnoc(dur: Duration, es: seq<Event>, e: Event, k: Key)
    ensures forall v :: Heard(dur, es + [e], k, v) <==> Heard(dur, es, k, v) || (Hits(dur, k, e) && e.body.packet.rssi == Some(v))
  {
    forall v | Heard(dur, es, k, v) || (Hits(dur, k, e) && e.body.packet.rssi == Some(v))
      ensures Heard(dur, es + [e], k, v)
    {
      if Heard(dur, es, k, v) {
        var x :| x in es && Hits(dur, k, x) && x.body.packet.rssi == Some(v);
        assert x in es + [e];
      } else {
        assert e in es + [e];
      }
    }
  }

  /** Its hashes are the distinct non-empty ones of the bucket's packets. */
  lemma {:induction false} FoldHashes(dur: Duration, es: seq<Event>, k: Key)
    ensures forall h :: h in Fold(dur, es, k).hashes
                        <==> h != [] && exists e :: e in es && Hits(dur, k, e) && e.body.packet.hash == Some(h)
  {
    if es != [] {
      var init, e := es[..|es| - 1], es[|es| - 1];
      FoldHashes(dur, init, k);
      assert es == init + [e];
    }
  }

  /** An accumulator absorbs an event that its ledger absorbs. */
  lemma ApplyKeepsCached(dur: Duration, s: State, e: Event, l: Ledger, current: seq<Event>, k: Key)
    requires Cached(dur, Get(s, k), l, current, k)
    requires e.ts > 0
    ensures Cached(dur, Get(ApplyEvent(dur, s, e), k), Tried(l, [e], false), current + [e], k)
  {
    var a := if k in s then s[k] else FRESH;
    if Hits(dur, k, e) {
      AddKeepsCached(dur, Get(s, k), e, l, current, k);
      assert Get(ApplyEvent(dur, s, e), k) == Some(AddEvent(a, e));
    } else {
      OtherKeepsCached(dur, Get(s, k), e, l, current, k);
      if Touches(dur, k, e) {
        TruncateAligned(e.ts, dur);
        assert e in l.pending + [e];
        StatusKeepsCached(dur, Get(s, k), e, Tried(l, [e], false), current + [e], k);
      }
      assert Get(ApplyEvent(dur, s, e), k) == if Touches(dur, k, e) then Some(AddEvent(a, e)) else Get(s, k);
    }
  }

  /** One more event in the folds that a ledger is compared with. */
  lemma LedgerSnoc(dur: Duration, l: Ledger, e: Event, k: Key)
    ensures var l', hit := Tried(l, [e], false), Hits(dur, k, e);
            && Fold(dur, l'.pending, k) == (if hit then Count(Fold(dur, l.pending, k), e.body.packet) else Fold(dur, l.pending, k))
            && Fold(dur, l'.done + l'.pending, k)
               == (if hit then Count(Fold(dur, l.done + l.pending, k), e.body.packet) else Fold(dur, l.done + l.pending, k))
            && (Touched(dur, l.pending, k) || Touches(dur, k, e) ==> Touched(dur, l'.pending, k))
            && (Poisoned(dur, l.done + l.pending, k) ==> Poisoned(dur, l'.done + l'.pending, k))
  {
    assert l.done + (l.pending + [e]) == (l.done + l.pending) + [e];
    FoldSnoc(dur, l.done + l.pending, e, k);
    FoldSnoc(dur, l.pending, e, k);
    TouchedGrows(dur, l.pending, [e], k);
    assert e in l.pending + [e];
    PoisonSpreads(dur, l.done + l.pending, [e], k);
  }

  lemma OtherKeepsCached(dur: Duration, acc: Option<Accum>, e: Event, l: Ledger, current: seq<Event>, k: Key)
    requires !Hits(dur, k, e) && Cached(dur, acc, l, current, k)
    ensures Cached(dur, acc, Tried(l, [e], false), current + [e], k)
  {
    LedgerSnoc(dur, l, e, k);
    FoldSnoc(dur, current, e, k);
  }

  lemma StatusKeepsCached(dur: Duration, acc: Option<Accum>, e: Event, l: Ledger, current: seq<Event>, k: Key)
    requires e.body.Status? && e.ts > 0 && Aligned(k.bucket, dur) && Touched(dur, l.pending, k)
    requires Cached(dur, acc, l, current, k)
    ensures Cached(dur, Some(AddEvent(if acc.Some? then acc.value else FRESH, e)), l, current, k)
  {
    if acc.None? {
      FoldConcat(dur, l.done, l.pending, k);
      PlusZero(Fold(dur, l.done, k));
    }
  }

  lemma AddKeepsCached(dur: Duration, acc: Option<Accum>, e: Event, l: Ledger, current: seq<Event>, k: Key)
    requires Hits(dur, k, e) && Cached(dur, acc, l, current, k)
    ensures Cached(dur, Some(AddEvent(if acc.Some? then acc.value else FRESH, e)), Tried(l, [e], false), current + [e], k)
  {
    var a := if acc.Some? then acc.value else FRESH;
    LedgerSnoc(dur, l, e, k);
    TruncateAligned(e.ts, dur);
    AddPacketBalanced(a.core, e.body.packet.rssi);
    if acc.None? {
      FoldConcat(dur, l.done, l.pending, k);
      PlusZero(Fold(dur, l.done, k));
    }
    AddHashes(dur, a, e, l, k);
  }

  lemma AddHashes(dur: Duration, a: Accum, e: Event, l: Ledger, k: Key)
    requires Hits(dur, k, e) && Hashes(dur, a, l, k)
    ensures Hashes(dur, AddEvent(a, e), Tried(l, [e], false), k)
  {
    LedgerSnoc(dur, l, e, k);
    AddsHash(a.unique, e.body.packet.hash, if a.loaded then {} else Fold(dur, l.done, k).hashes);
  }

  lemma AddsHash(known: set<Bytes>, hash: Option<Bytes>, rest: set<Bytes>)
    ensures var more := if hash.Some? && hash.value != [] then {hash.value} else {};
            && ((known + more) - {[]}) + rest == ((known - {[]}) + rest) + more
            && known + {} == known
            && ([] in known + more <==> [] in known)
  {}

  lemma {:induction false} ApplyAllKeepsCached(dur: Duration, s: State, es: seq<Event>, l: Ledger, last: seq<Event>, k: Key)
    requires Cached(dur, Get(s, k), l, last, k)
    requires AllWellTimed(es)
    ensures Cached(dur, Get(ApplyAll(dur, s, es), k), Tried(l, es, false), es, k)
  {
    if es == [] {
      assert l.pending + es == l.pending;
    } else {
      var n := |es| - 1;
      assert es == es[..n] + [es[n]] && WellTimed(es[n]);
      ApplyAllKeepsCached(dur, s, es[..n], l, last, k);
      ApplyKeepsCached(dur, ApplyAll(dur, s, es[..n]), es[n], Tried(l, es[..n], false), es[..n], k);
      assert (l.pending + es[..n]) + [es[n]] == l.pending + es;
    }
  }

  /** Merging the row gives the counts of everything the ledger holds. */
  lemma MergeCountsAll(dur: Duration, a: Accum, row: Option<Row>, l: Ledger, k: Key)
    requires Counts(a, Fold(dur, l.pending, k)) && Balanced(a.core) && Stored(dur, row, l.done, k)
    ensures Counts(MergeTotals(a, row), Fold(dur, l.done + l.pending, k)) && Balanced(MergeTotals(a, row).core)
  {
    FoldConcat(dur, l.done, l.pending, k);
    if row.Some? {
      MergeRowBalanced(a.core, row.value.core);
      MergeCounts(a.core, row.value.core, Fold(dur, l.done, k).core);
    } else {
      PlusZero(Fold(dur, l.pending, k));
    }
  }

  /** Reading the hashes in the join, in part or in whole, adds only the row's. */
  lemma HistoryHashes(dur: Duration, a: Accum, po: seq<Observation>, hist: set<Bytes>, l: Ledger, k: Key)
    requires Hashes(dur, a, l, k) && Reflects(dur, po, l.done, k) && Aligned(k.bucket, dur)
    requires !a.loaded && Touched(dur, l.pending, k) && hist <= History(dur, po, k)
    ensures Hashes(dur, a.(unique := a.unique + hist), l, k)
    ensures hist == History(dur, po, k) ==> Hashes(dur, a.(unique := a.unique + hist, loaded := true), l, k)
  {
    assert (a.unique + hist) - {[]} == (a.unique - {[]}) + (hist - {[]});
    assert hist - {[]} <= Fold(dur, l.done, k).hashes;
    PoisonSpreads(dur, l.done, l.pending, k);
  }

  /** Rebuilding from the row and the observations gives the exact content of the ledger. */
  lemma LoadAgrees(dur: Duration, a: Accum, row: Option<Row>, po: seq<Observation>, l: Ledger, current: seq<Event>, k: Key)
    requires Cached(dur, Some(a), l, current, k) && Stored(dur, row, l.done, k) && Reflects(dur, po, l.done, k)
    ensures var b := Load(a, row, History(dur, po, k));
            && b.loaded && b.dirty == a.dirty && Balanced(b.core)
            && Counts(b, Fold(dur, l.done + l.pending, k)) && Hashes(dur, b, l, k)
  {
    if !a.loaded {
      MergeCountsAll(dur, a, row, l, k);
      HistoryHashes(dur, a, po, History(dur, po, k), l, k);
    }
  }

  lemma HashCount(u: set<Bytes>)
    ensures |u| == |u - {[]}| + (if [] in u then 1 else 0)
  {
    if [] in u {
      assert u == (u - {[]}) + {[]};
    } else {
      assert u == u - {[]};
    }
  }

  /** Events that hit nothing in the bucket change neither fold nor row. */
  lemma StoredExtends(dur: Duration, row: Option<Row>, done: seq<Event>, es: seq<Event>, k: Key)
    requires Stored(dur, row, done, k)
    requires Fold(dur, es, k) == ZERO
    ensures Stored(dur, row, done + es, k)
  {
    FoldConcat(dur, done, es, k);
    PlusZero(Fold(dur, done, k));
    PoisonSpreads(dur, done, es, k);
  }

  /** Writing an accumulator that agrees with the ledger gives a row that does. */
  lemma WriteStores(dur: Duration, b: Accum, row: Option<Row>, l: Ledger, k: Key)
    requires b.loaded && Balanced(b.core) && Counts(b, Fold(dur, l.done + l.pending, k)) && Hashes(dur, b, l, k)
    ensures Stored(dur, Some(WriteRow(b, row)), l.done + l.pending, k)
  {
    assert (b.unique - {[]}) + {} == b.unique - {[]};
    HashCount(b.unique);
    ToRowOrdered(b.core);
  }

  /** A batch with nothing to count can be moved from memory's side to the row's. */
  lemma NothingMoves(dur: Duration, l: Ledger, es: seq<Event>, k: Key)
    requires Fold(dur, es, k) == ZERO
    ensures var l', all := Committed(l, es, false, true), l.done + (l.pending + es);
            && Fold(dur, l'.done + l'.pending, k) == Fold(dur, all, k)
            && (Poisoned(dur, all, k) ==> Poisoned(dur, l'.done + l'.pending, k))
  {
    if l.pending == [] {
      assert l.pending + es == es && (l.done + es) + [] == l.done + es;
    } else {
      var rest := l.pending + es;
      FoldConcat(dur, l.done + es, rest, k);
      FoldConcat(dur, l.done, es, k);
      FoldConcat(dur, l.done, rest, k);
      PlusZero(Fold(dur, l.done, k));
      if Poisoned(dur, l.done + rest, k) {
        PoisonLonger(dur, l.done, es, rest, k);
      }
    }
  }

  /** A commit without anything to count for the bucket leaves row and memory as they were. */
  lemma UnwrittenKeeps(dur: Duration, a: Accum, row: Option<Row>, l: Ledger, es: seq<Event>, k: Key)
    requires Cached(dur, Some(a), Tried(l, es, false), es, k) && !a.dirty && Stored(dur, row, l.done, k)
    ensures Stored(dur, row, l.done + es, k)
    ensures Cached(dur, Some(a), Committed(l, es, false, true), [], k)
  {
    StoredExtends(dur, row, l.done, es, k);
    NothingMoves(dur, l, es, k);
  }

  lemma PoisonLonger(dur: Duration, a: seq<Event>, b: seq<Event>, c: seq<Event>, k: Key)
    requires Poisoned(dur, a + c, k)
    ensures Poisoned(dur, (a + b) + c, k)
  {
    var i, j :| 0 <= i < j < |a + c| && EmptyHashed(dur, k, (a + c)[i]) && Touches(dur, k, (a + c)[j]);
    var all := (a + b) + c;
    var i', j' := if i < |a| then i else i + |b|, if j < |a| then j else j + |b|;
    assert all[i'] == (a + c)[i] && all[j'] == (a + c)[j];
  }

  /** A loaded accumulator that agrees with the ledger may be marked clean, and its
      row may be said to hold what it holds. */
  lemma LoadedIsCached(dur: Duration, b: Accum, l: Ledger, k: Key)
    requires b.loaded && Aligned(k.bucket, dur) && Balanced(b.core)
    requires Counts(b, Fold(dur, l.done + l.pending, k)) && Hashes(dur, b, l, k)
    ensures Cached(dur, Some(b), l, [], k)
    ensures Cached(dur, Some(b.(dirty := false)), l, [], k)
    ensures Cached(dur, Some(b.(dirty := false)), Ledger(l.done + l.pending, []), [], k)
  {
    assert Fold(dur, [], k) == ZERO;
    assert (l.done + l.pending) + [] == l.done + l.pending;
  }

  /** A commit that writes the bucket: the row takes over the whole ledger. */
  lemma WrittenKeeps(dur: Duration, a: Accum, row: Option<Row>, po: seq<Observation>, l: Ledger, current: seq<Event>, k: Key)
    requires Cached(dur, Some(a), l, current, k) && a.dirty && Stored(dur, row, l.done, k) && Reflects(dur, po, l.done, k)
    ensures var (a', row') := Settle(a, row, History(dur, po, k));
            Stored(dur, row', l.done + l.pending, k) && Cached(dur, Some(a'), Ledger(l.done + l.pending, []), [], k)
  {
    var b := Load(a, row, History(dur, po, k));
    LoadAgrees(dur, a, row, po, l, current, k);
    WriteStores(dur, b, row, l, k);
    LoadedIsCached(dur, b, l, k);
  }

  /** What Flush does to one key. */
  lemma FlushAt(dur: Duration, s: State, t: Table, po: seq<Observation>, k: Key)
    ensures Get(FlushState(dur, s, t, po), k)
         == if k in s then Some(Settle(s[k], Get(t, k), History(dur, po, k)).0) else None
    ensures Get(FlushTable(dur, s, t, po), k)
         == if k in s && s[k].dirty then Settle(s[k], Get(t, k), History(dur, po, k)).1 else Get(t, k)
  {}

  lemma FlushIsClean(dur: Duration, s: State, t: Table, po: seq<Observation>, k: Key)
    ensures k in FlushState(dur, s, t, po) <==> k in s
    ensures k in s ==> !FlushState(dur, s, t, po)[k].dirty
  {}

  /** One committed batch, from one key: the row takes over what memory holds, or
      there was nothing to write. */
  lemma CommitKeeps(dur: Duration, s: State, t: Table, po: seq<Observation>, l: Ledger, es: seq<Event>, k: Key)
    requires Cached(dur, Get(s, k), l, [], k) && Stored(dur, Get(t, k), l.done, k) && Reflects(dur, po, l.done, k)
    requires AllWellTimed(es)
    ensures var applied := ApplyAll(dur, s, es);
            var l' := Committed(l, es, k in applied && applied[k].dirty, k in applied);
            && Stored(dur, Get(FlushTable(dur, applied, t, po), k), l'.done, k)
            && Cached(dur, Get(FlushState(dur, applied, t, po), k), l', [], k)
  {
    ApplyAllKeepsCached(dur, s, es, l, [], k);
    var applied, row := ApplyAll(dur, s, es), Get(t, k);
    FlushAt(dur, applied, t, po, k);
    if k !in applied {
      NothingApplied(dur, s, es, k);
      StoredExtends(dur, row, l.done, es, k);
      assert Fold(dur, [], k) == ZERO;
    } else if applied[k].dirty {
      WrittenKeeps(dur, applied[k], row, po, Tried(l, es, false), es, k);
    } else {
      UnwrittenKeeps(dur, applied[k], row, l, es, k);
    }
  }

  /** After a flush nothing is left to load or to write. */
  lemma FlushSettles(dur: Duration, s: State, t: Table, po: seq<Observation>, l: Ledger, current: seq<Event>, k: Key)
    requires k in s && Cached(dur, Some(s[k]), l, current, k)
    ensures var s' := FlushState(dur, s, t, po);
            k in s' && s'[k].loaded && !s'[k].dirty
  {}

  /** A batch that leaves its accumulator clean, or makes none, has nothing to count. */
  lemma CleanIsNothing(dur: Duration, s: State, l: Ledger, es: seq<Event>, k: Key)
    requires Cached(dur, Get(s, k), l, [], k) && AllWellTimed(es)
    ensures var applied := ApplyAll(dur, s, es);
            k !in applied || !applied[k].dirty ==> Fold(dur, es, k) == ZERO
  {
    ApplyAllKeepsCached(dur, s, es, l, [], k);
    NothingApplied(dur, s, es, k);
  }

  lemma {:induction false} NothingApplied(dur: Duration, s: State, es: seq<Event>, k: Key)
    ensures k !in ApplyAll(dur, s, es) ==> Fold(dur, es, k) == ZERO
    ensures k in s ==> k in ApplyAll(dur, s, es)
  {
    if es != [] {
      NothingApplied(dur, s, es[..|es| - 1], k);
    }
  }

  /** What is cached after a batch has been applied. */
  lemma {:induction false} AppliedKeys(dur: Duration, s: State, es: seq<Event>, k: Key)
    ensures k in ApplyAll(dur, s, es) <==> k in s || Touched(dur, es, k)
  {
    if es != [] {
      var init, e := es[..|es| - 1], es[|es| - 1];
      assert es == init + [e];
      AppliedKeys(dur, s, init, k);
      NoiseSnoc(dur, init, e, k);
    }
  }

  /** Evicting a settled accumulator forgets what it held beyond its row. */
  lemma EvictKeeps(dur: Duration, retention: Time, s: State, l: Ledger, es: seq<Event>, written: bool, hwm: Time, k: Key)
    requires Cached(dur, Get(s, k), Committed(l, es, written, k in s), [], k) && (k in s ==> !s[k].dirty)
    ensures var s' := Evicted(dur, retention, s, hwm);
            Cached(dur, Get(s', k), Committed(l, es, written, k in s'), [], k)
  {
    assert Fold(dur, [], k) == ZERO;
  }

  lemma KeptKeeps(dur: Duration, retention: Time, s: State, l: Ledger, es: seq<Event>, written: bool, hwm: Time, k: Key)
    requires Cached(dur, Get(s, k), Committed(l, es, written, k in s), [], k) && (k in s ==> !s[k].dirty)
    ensures var s' := Kept(dur, retention, s, hwm);
            Cached(dur, Get(s', k), Committed(l, es, written, k in s'), [], k)
  {
    if hwm != 0 {
      EvictKeeps(dur, retention, s, l, es, written, hwm, k);
    }
  }

  /** One committed batch, and what is kept of the cache after it. */
  lemma BatchKeeps(dur: Duration, retention: Time, s: State, t: Table, po: seq<Observation>, l: Ledger, es: seq<Event>, hwm: Time, k: Key)
    requires Cached(dur, Get(s, k), l, [], k) && Stored(dur, Get(t, k), l.done, k) && Reflects(dur, po, l.done, k)
    requires AllWellTimed(es)
    ensures var applied := ApplyAll(dur, s, es);
            var s' := Kept(dur, retention, FlushState(dur, applied, t, po), hwm);
            var l' := Committed(l, es, k in applied && applied[k].dirty, k in s');
            && Stored(dur, Get(FlushTable(dur, applied, t, po), k), l'.done, k)
            && Cached(dur, Get(s', k), l', [], k)
  {
    CommitKeeps(dur, s, t, po, l, es, k);
    var applied := ApplyAll(dur, s, es);
    FlushIsClean(dur, applied, t, po, k);
    KeptKeeps(dur, retention, FlushState(dur, applied, t, po), l, es, k in applied && applied[k].dirty, hwm, k);
  }

  /** A flush that fails within its rehydrate or its writes. */
  lemma TornKeeps(dur: Duration, a: Accum, row: Option<Row>, po: seq<Observation>, tear: Tear, l: Ledger, current: seq<Event>, k: Key)
    requires Cached(dur, Some(a), l, current, k) && Stored(dur, row, l.done, k) && Reflects(dur, po, l.done, k)
    ensures var l' := if Again(map[k := a], k, Within(tear)) then Ledger(l.done, l.done + l.pending) else l;
            Cached(dur, Some(Torn(dur, a, k, row, po, tear)), l', [], k)
  {
    if tear.Writing? {
      WriteTornKeeps(dur, a, row, po, tear, l, current, k);
    } else if Again(map[k := a], k, Within(tear)) {
      MergedAgain(dur, a, row, po, tear, l, current, k);
    } else {
      assert Torn(dur, a, k, row, po, tear) == a;
      assert Fold(dur, [], k) == ZERO;
    }
  }

  lemma WriteTornKeeps(dur: Duration, a: Accum, row: Option<Row>, po: seq<Observation>, tear: Tear, l: Ledger, current: seq<Event>, k: Key)
    requires Cached(dur, Some(a), l, current, k) && Stored(dur, row, l.done, k) && Reflects(dur, po, l.done, k) && tear.Writing?
    ensures Cached(dur, Some(Torn(dur, a, k, row, po, tear)), l, [], k)
  {
    LoadAgrees(dur, a, row, po, l, current, k);
    LoadedIsCached(dur, Load(a, row, History(dur, po, k)), l, k);
  }

  lemma MergedAgain(dur: Duration, a: Accum, row: Option<Row>, po: seq<Observation>, tear: Tear, l: Ledger, current: seq<Event>, k: Key)
    requires Cached(dur, Some(a), l, current, k) && Stored(dur, row, l.done, k) && Reflects(dur, po, l.done, k)
    requires Again(map[k := a], k, Within(tear))
    ensures Cached(dur, Some(Torn(dur, a, k, row, po, tear)), Ledger(l.done, l.done + l.pending), [], k)
  {
    var l' := Ledger(l.done, l.done + l.pending);
    MergeCountsAll(dur, a, row, l, k);
    TouchedGrows(dur, l.done, l.pending, k);
    HashesAgain(dur, a, l, k);
    assert Fold(dur, [], k) == ZERO;
    if tear.Hashing? {
      assert HistoryIn(dur, po, tear.read, k) <= History(dur, po, k);
      HistoryHashes(dur, a, po, HistoryIn(dur, po, tear.read, k), l', k);
    }
  }

  /** The hashes of a ledger are the same when it holds the row once more. */
  lemma HashesAgain(dur: Duration, a: Accum, l: Ledger, k: Key)
    requires Hashes(dur, a, l, k) && !a.loaded
    ensures Hashes(dur, a, Ledger(l.done, l.done + l.pending), k)
  {
    FoldConcat(dur, l.done, l.done + l.pending, k);
    FoldConcat(dur, l.done, l.pending, k);
    PoisonSpreads(dur, l.done, l.done + l.pending, k);
  }

  /** What an attempt that stopped somewhere has done to one key. */
  lemma ReachedAt(dur: Duration, s: State, t: Table, po: seq<Observation>, reach: Reach<Tear>, k: Key)
    requires k in s
    ensures var tear := if reach.Within? then reach.tear else Writing({k});
            && Get(Reached(dur, s, t, po, reach), k) == Some(if reach.Before? then s[k] else Torn(dur, s[k], k, Get(t, k), po, tear))
            && (Again(s, k, reach) <==> reach.Within? && Again(map[k := s[k]], k, Within(tear)))
  {}

  /** A failed attempt: memory absorbs the batch, the table does not. */
  lemma AbortKeeps(dur: Duration, s: State, t: Table, po: seq<Observation>, l: Ledger, es: seq<Event>, reach: Reach<Tear>, k: Key)
    requires Cached(dur, Get(s, k), l, [], k) && Stored(dur, Get(t, k), l.done, k) && Reflects(dur, po, l.done, k)
    requires AllWellTimed(es)
    ensures var applied := ApplyAll(dur, s, es);
            Cached(dur, Get(Reached(dur, applied, t, po, reach), k), Tried(l, es, Again(applied, k, reach)), [], k)
  {
    ApplyAllKeepsCached(dur, s, es, l, [], k);
    var applied := ApplyAll(dur, s, es);
    assert Fold(dur, [], k) == ZERO;
    if k in applied {
      ReachedAt(dur, applied, t, po, reach, k);
      if !reach.Before? {
        TornKeeps(dur, applied[k], Get(t, k), po, if reach.Within? then reach.tear else Writing({k}), Tried(l, es, false), es, k);
      }
    }
  }

  /* ---------- the average ---------- */

  /** The accumulator and the row of k have drifted from the one-pass core by at
      most `r` reloads. What is not loaded yet is exact. */
  ghost predicate Drifts(dur: Duration, acc: Option<Accum>, row: Option<Row>, done: seq<Event>, pending: seq<Event>, k: Key, r: nat) {
    && (acc.None? ==> Fold(dur, pending, k) == ZERO)
    && (acc.Some? && acc.value.loaded ==> Tracks(acc.value.core, Fold(dur, done + pending, k).core, r))
    && (acc.Some? && !acc.value.loaded ==> acc.value.dirty && acc.value.core == Fold(dur, pending, k).core)
    && (row.Some? ==> RowTracks(row.value.core, Fold(dur, done, k).core, r))
  }

  /** Whether a flush of `s` rebuilds the accumulator of k from its row. */
  function Reload(s: State, t: Table, k: Key): nat {
    if k in s && !s[k].loaded && s[k].dirty && k in t then 1 else 0
  }

  lemma {:induction false} FoldBalanced(dur: Duration, es: seq<Event>, k: Key)
    ensures Balanced(Fold(dur, es, k).core)
  {
    if es != [] {
      var init, e := es[..|es| - 1], es[|es| - 1];
      FoldBalanced(dur, init, k);
      if Hits(dur, k, e) {
        AddPacketBalanced(Fold(dur, init, k).core, e.body.packet.rssi);
      }
    }
  }

  lemma {:induction false} ApplyAllDrifts(dur: Duration, s: State, t: Table, es: seq<Event>, done: seq<Event>, k: Key, r: nat)
    requires Drifts(dur, Get(s, k), Get(t, k), done, [], k, r) && AllWellTimed(es)
    ensures Drifts(dur, Get(ApplyAll(dur, s, es), k), Get(t, k), done, es, k, r)
  {
    if es != [] {
      var init, e := es[..|es| - 1], es[|es| - 1];
      assert es == init + [e] && WellTimed(e);
      ApplyAllDrifts(dur, s, t, init, done, k, r);
      AddDrifts(dur, ApplyAll(dur, s, init), Get(t, k), e, done, init, k, r);
    }
  }

  lemma AddDrifts(dur: Duration, s: State, row: Option<Row>, e: Event, done: seq<Event>, init: seq<Event>, k: Key, r: nat)
    requires Drifts(dur, Get(s, k), row, done, init, k, r) && e.ts > 0
    ensures Drifts(dur, Get(ApplyEvent(dur, s, e), k), row, done, init + [e], k, r)
  {
    assert done + (init + [e]) == (done + init) + [e];
    FoldSnoc(dur, done + init, e, k);
    FoldSnoc(dur, init, e, k);
    if Hits(dur, k, e) {
      PacketDrifts(dur, Get(s, k), row, e, done, init, k, r);
    }
  }

  lemma PacketDrifts(dur: Duration, acc: Option<Accum>, row: Option<Row>, e: Event, done: seq<Event>, init: seq<Event>, k: Key, r: nat)
    requires Drifts(dur, acc, row, done, init, k, r) && Hits(dur, k, e)
    requires Fold(dur, done + (init + [e]), k) == Count(Fold(dur, done + init, k), e.body.packet)
    requires Fold(dur, init + [e], k) == Count(Fold(dur, init, k), e.body.packet)
    ensures Drifts(dur, Some(AddEvent(if acc.Some? then acc.value else FRESH, e)), row, done, init + [e], k, r)
  {
    if acc.Some? && acc.value.loaded {
      FoldBalanced(dur, done + init, k);
      AddTracks(acc.value.core, Fold(dur, done + init, k).core, e.body.packet.rssi, r);
    }
  }

  /** The accumulator after loading: one reload more if there was a row to load. */
  lemma LoadDrifts(dur: Duration, a: Accum, row: Option<Row>, hist: set<Bytes>, done: seq<Event>, es: seq<Event>, k: Key, r: nat)
    requires Drifts(dur, Some(a), row, done, es, k, r) && Stored(dur, row, done, k)
    ensures var reload := if !a.loaded && a.dirty && row.Some? then 1 else 0;
            Tracks(Load(a, row, hist).core, Fold(dur, done + es, k).core, r + reload)
  {
    if !a.loaded {
      FoldConcat(dur, done, es, k);
      FoldBalanced(dur, done, k);
      FoldBalanced(dur, es, k);
      FoldZero(dur, done, k);
      if row.Some? {
        LoadTracks(row.value.core, Fold(dur, done, k).core, a.core, r);
      } else {
        CombineEmpty(a.core);
        DriftZero(a.core.sum, a.core.packets, r);
      }
    }
  }

  /** One committed batch: the row and the accumulator drift by one reload more
      if the accumulator was rebuilt. */
  lemma CommitDrifts(dur: Duration, s: State, t: Table, po: seq<Observation>, done: seq<Event>, es: seq<Event>, k: Key, r: nat, r': nat)
    requires Drifts(dur, Get(s, k), Get(t, k), done, [], k, r) && Stored(dur, Get(t, k), done, k) && AllWellTimed(es)
    requires r' == r + Reload(ApplyAll(dur, s, es), t, k)
    requires var applied := ApplyAll(dur, s, es);
             k !in applied || !applied[k].dirty ==> Fold(dur, es, k) == ZERO
    ensures var applied := ApplyAll(dur, s, es);
            Drifts(dur, Get(FlushState(dur, applied, t, po), k), Get(FlushTable(dur, applied, t, po), k), done + es, [], k, r')
  {
    var applied, row := ApplyAll(dur, s, es), Get(t, k);
    ApplyAllDrifts(dur, s, t, es, done, k, r);
    FlushAt(dur, applied, t, po, k);
    OptionDrifts(dur, Get(applied, k), row, History(dur, po, k), done, es, k, r, r');
  }

  lemma OptionDrifts(dur: Duration, acc: Option<Accum>, row: Option<Row>, hist: set<Bytes>, done: seq<Event>, es: seq<Event>, k: Key, r: nat, r': nat)
    requires Drifts(dur, acc, row, done, es, k, r) && Stored(dur, row, done, k)
    requires acc.None? || !acc.value.dirty ==> Fold(dur, es, k) == ZERO
    requires r' == r + if acc.Some? && !acc.value.loaded && acc.value.dirty && row.Some? then 1 else 0
    ensures Drifts(dur, if acc.Some? then Some(Settle(acc.value, row, hist).0) else None,
                   if acc.Some? && acc.value.dirty then Settle(acc.value, row, hist).1 else row, done + es, [], k, r')
  {
    if acc.Some? {
      SettleDrifts(dur, acc.value, row, hist, done, es, k, r, r');
    } else {
      UntouchedDrifts(dur, row, done, es, k, r);
    }
  }

  lemma SettleDrifts(dur: Duration, a: Accum, row: Option<Row>, hist: set<Bytes>, done: seq<Event>, es: seq<Event>, k: Key, r: nat, r': nat)
    requires Drifts(dur, Some(a), row, done, es, k, r) && Stored(dur, row, done, k)
    requires !a.dirty ==> Fold(dur, es, k) == ZERO
    requires r' == r + if !a.loaded && a.dirty && row.Some? then 1 else 0
    ensures Drifts(dur, Some(Settle(a, row, hist).0), if a.dirty then Settle(a, row, hist).1 else row, done + es, [], k, r')
  {
    if a.dirty {
      WriteDrifts(dur, a, row, hist, done, es, k, r, r');
    } else {
      CleanDrifts(dur, a, row, done, es, k, r);
    }
  }

  lemma WriteDrifts(dur: Duration, a: Accum, row: Option<Row>, hist: set<Bytes>, done: seq<Event>, es: seq<Event>, k: Key, r: nat, r': nat)
    requires Drifts(dur, Some(a), row, done, es, k, r) && Stored(dur, row, done, k) && a.dirty
    requires r' == r + if !a.loaded && row.Some? then 1 else 0
    ensures Drifts(dur, Some(Settle(a, row, hist).0), Settle(a, row, hist).1, done + es, [], k, r')
  {
    var b := Load(a, row, hist);
    LoadDrifts(dur, a, row, hist, done, es, k, r);
    WriteTracks(b.core, Fold(dur, done + es, k).core, r');
    LoadedDrifts(dur, b, Some(WriteRow(b, row)), done + es, k, r');
  }

  lemma CleanDrifts(dur: Duration, a: Accum, row: Option<Row>, done: seq<Event>, es: seq<Event>, k: Key, r: nat)
    requires Drifts(dur, Some(a), row, done, es, k, r) && !a.dirty && Fold(dur, es, k) == ZERO
    ensures Drifts(dur, Some(a), row, done + es, [], k, r)
  {
    FoldConcat(dur, done, es, k);
    PlusZero(Fold(dur, done, k));
    assert a.(dirty := false) == a;
    LoadedDrifts(dur, a, row, done + es, k, r);
  }

  /** A loaded accumulator and a row that track the fold of everything. */
  lemma LoadedDrifts(dur: Duration, b: Accum, row: Option<Row>, all: seq<Event>, k: Key, r: nat)
    requires b.loaded && Tracks(b.core, Fold(dur, all, k).core, r)
    requires row.Some? ==> RowTracks(row.value.core, Fold(dur, all, k).core, r)
    ensures Drifts(dur, Some(b.(dirty := false)), row, all, [], k, r)
  {
    assert all + [] == all;
  }

  lemma UntouchedDrifts(dur: Duration, row: Option<Row>, done: seq<Event>, es: seq<Event>, k: Key, r: nat)
    requires Drifts(dur, None, row, done, es, k, r)
    ensures Drifts(dur, None, row, done + es, [], k, r)
  {
    FoldConcat(dur, done, es, k);
    PlusZero(Fold(dur, done, k));
  }

  /* ---------- presence and noise floor ---------- */

  datatype Reading = Reading(ts: Time, floor: int)

  predicate HitsNoise(dur: Duration, k: Key, e: Event) {
    e.body.Status? && e.body.status.noiseFloor.Some? && KeyOf(dur, e) == k
  }

  /** The most recent noise floor of the bucket; the first one wins a tie. */
  function Noise(dur: Duration, es: seq<Event>, k: Key): Option<Reading> {
    if es == [] then None
    else
      var n, e := Noise(dur, es[..|es| - 1], k), es[|es| - 1];
      if HitsNoise(dur, k, e) && (n.None? || e.ts > n.value.ts)
      then Some(Reading(e.ts, e.body.status.noiseFloor.value)) else n
  }

  function Floor(n: Option<Reading>): Option<int> {
    if n.None? then None else Some(n.value.floor)
  }

  /** Every noise floor is newer than all before it in its bucket, or repeats
      the value of the newest of them. */
  predicate ReloadSafe(dur: Duration, es: seq<Event>, k: Key) {
    es == [] || (
      var init, e := es[..|es| - 1], es[|es| - 1];
      ReloadSafe(dur, init, k) && Harmless(dur, init, e, k))
  }

  predicate Harmless(dur: Duration, before: seq<Event>, e: Event, k: Key) {
    var n := Noise(dur, before, k);
    HitsNoise(dur, k, e) && n.Some? ==> e.ts > n.value.ts || e.body.status.noiseFloor == Some(n.value.floor)
  }

  lemma NoiseSnoc(dur: Duration, es: seq<Event>, e: Event, k: Key)
    ensures Noise(dur, es + [e], k)
         == if HitsNoise(dur, k, e) && (Noise(dur, es, k).None? || e.ts > Noise(dur, es, k).value.ts)
            then Some(Reading(e.ts, e.body.status.noiseFloor.value)) else Noise(dur, es, k)
    ensures ReloadSafe(dur, es + [e], k) <==> ReloadSafe(dur, es, k) && Harmless(dur, es, e, k)
    ensures Touched(dur, es + [e], k) <==> Touched(dur, es, k) || Touches(dur, k, e)
  {
    var all := es + [e];
    assert all[..|es|] == es;
    if Touched(dur, es, k) {
      var x :| x in es && Touches(dur, k, x);
      assert x in all;
    }
    assert e in all;
  }

  /** An untouched bucket has no noise floor. */
  lemma {:induction false} UntouchedNoise(dur: Duration, es: seq<Event>, k: Key)
    ensures !Touched(dur, es, k) ==> Noise(dur, es, k).None?
  {
    if es != [] {
      var init, e := es[..|es| - 1], es[|es| - 1];
      assert es == init + [e];
      UntouchedNoise(dur, init, k);
      NoiseSnoc(dur, init, e, k);
    }
  }

  lemma {:induction false} SafePrefix(dur: Duration, log: seq<Event>, es: seq<Event>, k: Key)
    requires ReloadSafe(dur, log + es, k)
    ensures ReloadSafe(dur, log, k)
  {
    if es == [] {
      assert log + es == log;
    } else {
      assert (log + es)[..|log + es| - 1] == log + es[..|es| - 1];
      SafePrefix(dur, log, es[..|es| - 1], k);
    }
  }

  /** The time of the bucket's newest reading, 0 if it has none. */
  function Newest(dur: Duration, es: seq<Event>, k: Key): Time {
    if es == [] then 0
    else
      var t, e := Newest(dur, es[..|es| - 1], k), es[|es| - 1];
      if HitsNoise(dur, k, e) && e.ts > t then e.ts else t
  }

  /** Some packet of the log is in the bucket. */
  predicate Carries(dur: Duration, es: seq<Event>, k: Key) {
    exists e :: e in es && Hits(dur, k, e)
  }

  /** What an accumulator remembers of readings, and whether the next flush writes it. */
  datatype Note = Note(newest: Time, unsaved: bool)

  function NoteIn(acc: Option<Accum>): Option<Note> {
    if acc.None? then None else Some(Note(acc.value.noiseTS, acc.value.dirty))
  }

  /** A batch changes it by a packet, or by a reading newer than those it has seen. */
  function Noting(dur: Duration, n: Option<Note>, es: seq<Event>, k: Key): Option<Note> {
    if !Touched(dur, es, k) then n
    else
      var m, t := if n.Some? then n.value else Note(0, false), Newest(dur, es, k);
      Some(Note(if t > m.newest then t else m.newest, m.unsaved || Carries(dur, es, k) || t > m.newest))
  }

  lemma NewestSnoc(dur: Duration, es: seq<Event>, e: Event, k: Key)
    ensures Newest(dur, es + [e], k) == if HitsNoise(dur, k, e) && e.ts > Newest(dur, es, k) then e.ts else Newest(dur, es, k)
    ensures Carries(dur, es + [e], k) <==> Carries(dur, es, k) || Hits(dur, k, e)
  {
    var all := es + [e];
    assert all[..|es|] == es;
    if Carries(dur, es, k) {
      var x :| x in es && Hits(dur, k, x);
      assert x in all;
    }
    assert e in all;
  }

  lemma {:induction false} NewestBounds(dur: Duration, es: seq<Event>, k: Key)
    ensures Newest(dur, es, k) >= 0
    ensures forall e :: e in es && HitsNoise(dur, k, e) ==> e.ts <= Newest(dur, es, k)
    ensures Newest(dur, es, k) > 0 ==> Touched(dur, es, k)
  {
    if es != [] {
      var init, e := es[..|es| - 1], es[|es| - 1];
      assert es == init + [e];
      NewestBounds(dur, init, k);
      NewestSnoc(dur, init, e, k);
      NoiseSnoc(dur, init, e, k);
    }
  }

  lemma {:induction false} NewestGrows(dur: Duration, a: seq<Event>, b: seq<Event>, k: Key)
    requires a <= b
    ensures Newest(dur, a, k) <= Newest(dur, b, k)
    ensures Carries(dur, a, k) ==> Carries(dur, b, k)
    ensures Touched(dur, a, k) ==> Touched(dur, b, k)
  {
    if a != b {
      var init, e := b[..|b| - 1], b[|b| - 1];
      assert b == init + [e];
      NewestGrows(dur, a, init, k);
      NewestSnoc(dur, init, e, k);
      NoiseSnoc(dur, init, e, k);
    }
  }

  /** The same, event by event. */
  function NoteEvent(dur: Duration, n: Option<Note>, e: Event, k: Key): Option<Note> {
    if !Touches(dur, k, e) then n
    else
      var m := if n.Some? then n.value else Note(0, false);
      if e.body.Packet? then Some(m.(unsaved := true)) else if e.ts > m.newest then Some(Note(e.ts, true)) else Some(m)
  }

  lemma NotingSnoc(dur: Duration, n: Option<Note>, es: seq<Event>, e: Event, k: Key)
    requires n.Some? ==> n.value.newest >= 0
    ensures Noting(dur, n, es + [e], k) == NoteEvent(dur, Noting(dur, n, es, k), e, k)
  {
    NewestBounds(dur, es, k);
    NewestSnoc(dur, es, e, k);
    NoiseSnoc(dur, es, e, k);
    UntouchedNewest(dur, es, k);
  }

  lemma UntouchedNewest(dur: Duration, es: seq<Event>, k: Key)
    ensures !Touched(dur, es, k) ==> Newest(dur, es, k) == 0 && !Carries(dur, es, k)
  {
    NewestBounds(dur, es, k);
    if Carries(dur, es, k) {
      var e :| e in es && Hits(dur, k, e);
      assert Touches(dur, k, e);
    }
  }

  lemma ApplyNotes(dur: Duration, s: State, e: Event, k: Key)
    ensures NoteIn(Get(ApplyEvent(dur, s, e), k)) == NoteEvent(dur, NoteIn(Get(s, k)), e, k)
  {}

  lemma {:induction false} ApplyAllNotes(dur: Duration, s: State, es: seq<Event>, k: Key)
    requires k in s ==> s[k].noiseTS >= 0
    ensures NoteIn(Get(ApplyAll(dur, s, es), k)) == Noting(dur, NoteIn(Get(s, k)), es, k)
  {
    if es != [] {
      var init, e := es[..|es| - 1], es[|es| - 1];
      assert es == init + [e];
      ApplyAllNotes(dur, s, init, k);
      ApplyNotes(dur, ApplyAll(dur, s, init), e, k);
      NotingSnoc(dur, NoteIn(Get(s, k)), init, e, k);
    }
  }

  function RowFloor(row: Option<Row>): Option<int> {
    if row.None? then None else row.value.noiseFloor
  }

  /** What a cached accumulator knows of the readings in `log` and in the attempt
      `last` that has been applied to memory only. */
  ghost predicate Remembers(dur: Duration, acc: Option<Accum>, row: Option<Row>, log: seq<Event>, last: seq<Event>, k: Key) {
    match acc
    case None => !Touched(dur, last, k)
    case Some(a) =>
      && Newest(dur, last, k) <= a.noiseTS
      && (!a.loaded ==> a.dirty)
      && Knows(dur, a, row, log + last, k)
  }

  /** Its floor is the newest one of `es` if it has taken a reading, and otherwise
      the row's, or still to be loaded. */
  ghost predicate Knows(dur: Duration, a: Accum, row: Option<Row>, es: seq<Event>, k: Key) {
    var now := Noise(dur, es, k);
    if a.noiseTS > 0 then
      now.Some? && a.noiseTS <= now.value.ts && (ReloadSafe(dur, es, k) ==> a.noiseFloor == Floor(now))
    else
      a.noiseFloor == RowFloor(row) || (!a.loaded && a.noiseFloor.None?)
  }

  /** A new event. */
  lemma AddKnows(dur: Duration, a: Accum, row: Option<Row>, es: seq<Event>, e: Event, k: Key)
    requires a.noiseTS >= 0 && Knows(dur, a, row, es, k) && e.ts > 0
    ensures Knows(dur, if Touches(dur, k, e) then AddEvent(a, e) else a, row, es + [e], k)
  {
    NoiseSnoc(dur, es, e, k);
  }

  /** An event of the failed attempt, applied again. */
  lemma AgainKnows(dur: Duration, a: Accum, row: Option<Row>, es: seq<Event>, e: Event, k: Key)
    requires Knows(dur, a, row, es, k) && (HitsNoise(dur, k, e) ==> e.ts <= a.noiseTS)
    ensures Knows(dur, if Touches(dur, k, e) then AddEvent(a, e) else a, row, es, k)
  {}

  /** What memory has seen when `es`, which starts with the failed attempt, has been
      applied again up to some event. */
  function Seen(last: seq<Event>, applied: seq<Event>): seq<Event> {
    if |applied| <= |last| then last else applied
  }

  lemma AgainRemembers(dur: Duration, s: State, row: Option<Row>, e: Event, log: seq<Event>, last: seq<Event>, k: Key)
    requires Remembers(dur, Get(s, k), row, log, last, k) && e in last
    ensures Remembers(dur, Get(ApplyEvent(dur, s, e), k), row, log, last, k)
  {
    NewestBounds(dur, last, k);
    if k in s {
      AgainKnows(dur, s[k], row, log + last, e, k);
    }
  }

  lemma NextRemembers(dur: Duration, s: State, row: Option<Row>, e: Event, log: seq<Event>, done: seq<Event>, k: Key)
    requires Remembers(dur, Get(s, k), row, log, done, k) && WellTimed(e)
    ensures Remembers(dur, Get(ApplyEvent(dur, s, e), k), row, log, done + [e], k)
  {
    assert log + (done + [e]) == (log + done) + [e];
    NewestBounds(dur, done, k);
    NewestSnoc(dur, done, e, k);
    NoiseSnoc(dur, done, e, k);
    if k in s {
      AddKnows(dur, s[k], row, log + done, e, k);
    } else if Touches(dur, k, e) {
      FirstKnows(dur, e, row, log, done, k);
    }
  }

  lemma FirstKnows(dur: Duration, e: Event, row: Option<Row>, log: seq<Event>, done: seq<Event>, k: Key)
    requires Touches(dur, k, e) && WellTimed(e)
    ensures Knows(dur, AddEvent(FRESH, e), row, (log + done) + [e], k)
  {
    NoiseSnoc(dur, log + done, e, k);
  }

  lemma ApplyRemembers(dur: Duration, s: State, row: Option<Row>, e: Event, log: seq<Event>, last: seq<Event>, done: seq<Event>, k: Key)
    requires Remembers(dur, Get(s, k), row, log, Seen(last, done), k) && WellTimed(e)
    requires if |done| < |last| then e == last[|done|] else last <= done
    ensures Remembers(dur, Get(ApplyEvent(dur, s, e), k), row, log, Seen(last, done + [e]), k)
  {
    if |done| < |last| {
      AgainRemembers(dur, s, row, e, log, last, k);
    } else {
      assert Seen(last, done) == done;
      NextRemembers(dur, s, row, e, log, done, k);
    }
  }

  lemma {:induction false} ApplyAllRemembers(dur: Duration, s: State, row: Option<Row>, es: seq<Event>, log: seq<Event>, last: seq<Event>, k: Key)
    requires Remembers(dur, Get(s, k), row, log, last, k) && AllWellTimed(es) && (es <= last || last <= es)
    ensures Remembers(dur, Get(ApplyAll(dur, s, es), k), row, log, Seen(last, es), k)
  {
    if es != [] {
      var init, e := es[..|es| - 1], es[|es| - 1];
      assert es == init + [e] && WellTimed(e);
      ApplyAllRemembers(dur, s, row, init, log, last, k);
      ApplyRemembers(dur, ApplyAll(dur, s, init), row, e, log, last, init, k);
    }
  }

  /** The row's floor is the newest one of the log it was last written for, `held`. */
  ghost predicate Holds(dur: Duration, row: Option<Row>, log: seq<Event>, held: Option<seq<Event>>, k: Key) {
    && (row.Some? <==> held.Some?)
    && (row.Some? && ReloadSafe(dur, log, k) ==> row.value.noiseFloor == Floor(Noise(dur, held.value, k)))
  }

  /** The log whose newest reading a commit leaves in the row: the whole log if memory
      has taken a reading; otherwise the row keeps the one it has. */
  function Held(n: Option<Note>, held: Option<seq<Event>>, log: seq<Event>): Option<seq<Event>> {
    if n.None? || !n.value.unsaved then held
    else if n.value.newest > 0 then Some(log)
    else if held.Some? then held else Some([])
  }

  /** A committed flush. */
  lemma SettleRemembers(dur: Duration, a: Accum, row: Option<Row>, hist: set<Bytes>, log: seq<Event>, es: seq<Event>,
                        held: Option<seq<Event>>, k: Key)
    requires Remembers(dur, Some(a), row, log, es, k) && Holds(dur, row, log, held, k)
    ensures var row' := if a.dirty then Settle(a, row, hist).1 else row;
            && Remembers(dur, Some(Settle(a, row, hist).0), row', log + es, [], k)
            && Holds(dur, row', log + es, Held(NoteIn(Some(a)), held, log + es), k)
  {
    assert (log + es) + [] == log + es;
    NewestBounds(dur, es, k);
    HoldsLonger(dur, row, log, es, held, k);
    assert Noise(dur, [], k).None?;
  }

  lemma HoldsLonger(dur: Duration, row: Option<Row>, log: seq<Event>, es: seq<Event>, held: Option<seq<Event>>, k: Key)
    requires Holds(dur, row, log, held, k)
    ensures Holds(dur, row, log + es, held, k)
  {
    if ReloadSafe(dur, log + es, k) {
      SafePrefix(dur, log, es, k);
    }
  }

  /** One committed batch, from one key. */
  lemma CommitRemembers(dur: Duration, s: State, t: Table, po: seq<Observation>, log: seq<Event>, last: seq<Event>, es: seq<Event>,
                        held: Option<seq<Event>>, k: Key)
    requires Remembers(dur, Get(s, k), Get(t, k), log, last, k) && Holds(dur, Get(t, k), log, held, k)
    requires last <= es && AllWellTimed(es)
    ensures var applied := ApplyAll(dur, s, es);
            var s', row' := FlushState(dur, applied, t, po), Get(FlushTable(dur, applied, t, po), k);
            && Remembers(dur, Get(s', k), row', log + es, [], k)
            && Holds(dur, row', log + es, Held(NoteIn(Get(applied, k)), held, log + es), k)
            && (k in s' <==> k in applied) && (k in s' ==> !s'[k].dirty && s'[k].noiseTS == applied[k].noiseTS)
  {
    var applied := ApplyAll(dur, s, es);
    ApplyAllRemembers(dur, s, Get(t, k), es, log, last, k);
    FlushAt(dur, applied, t, po, k);
    if k in applied {
      assert Seen(last, es) == es;
      SettleRemembers(dur, applied[k], Get(t, k), History(dur, po, k), log, es, held, k);
    } else {
      HoldsLonger(dur, Get(t, k), log, es, held, k);
    }
  }

  /** Where an attempt stopped after it had marked the bucket clean. */
  predicate MarksClean(reach: Reach<Tear>, k: Key) {
    reach.After? || (reach.Within? && reach.tear.Writing? && k in reach.tear.written)
  }

  lemma TornRemembers(dur: Duration, a: Accum, row: Option<Row>, po: seq<Observation>, tear: Tear, log: seq<Event>, es: seq<Event>, k: Key)
    requires Remembers(dur, Some(a), row, log, es, k)
    ensures var b := Torn(dur, a, k, row, po, tear);
            && Remembers(dur, Some(b), row, log, es, k)
            && b.noiseTS == a.noiseTS && b.dirty == (a.dirty && !MarksClean(Within(tear), k))
  {
    NewestBounds(dur, es, k);
  }

  /** A failed attempt, from one key. */
  lemma AbortRemembers(dur: Duration, s: State, t: Table, po: seq<Observation>, log: seq<Event>, last: seq<Event>, es: seq<Event>,
                       reach: Reach<Tear>, k: Key)
    requires Remembers(dur, Get(s, k), Get(t, k), log, last, k) && last <= es && AllWellTimed(es)
    ensures var applied := ApplyAll(dur, s, es);
            var acc := Get(Reached(dur, applied, t, po, reach), k);
            && Remembers(dur, acc, Get(t, k), log, es, k)
            && NoteIn(acc) == Cleaned(NoteIn(Get(applied, k)), MarksClean(reach, k))
  {
    var applied := ApplyAll(dur, s, es);
    ApplyAllRemembers(dur, s, Get(t, k), es, log, last, k);
    assert Seen(last, es) == es;
    if k in applied {
      ReachedAt(dur, applied, t, po, reach, k);
      if !reach.Before? {
        TornRemembers(dur, applied[k], Get(t, k), po, if reach.Within? then reach.tear else Writing({k}), log, es, k);
      }
    }
  }

  function Cleaned(n: Option<Note>, clean: bool): Option<Note> {
    if n.Some? && clean then Some(n.value.(unsaved := false)) else n
  }

  lemma TouchedGrows(dur: Duration, log: seq<Event>, es: seq<Event>, k: Key)
    ensures Touched(dur, log, k) || Touched(dur, es, k) ==> Touched(dur, log + es, k)
  {
    if Touched(dur, log, k) {
      var e :| e in log && Touches(dur, k, e);
      assert e in log + es;
    }
    if Touched(dur, es, k) {
      var e :| e in es && Touches(dur, k, e);
      assert e in log + es;
    }
  }

  /* ---------- what a reload cannot get right ---------- */

  lemma {:induction false} FreshStart(dur: Duration, es: seq<Event>, k: Key)
    ensures k in ApplyAll(dur, map[], es) <==> Touched(dur, es, k)
    ensures k in ApplyAll(dur, map[], es) ==> !ApplyAll(dur, map[], es)[k].loaded
  {
    if es != [] {
      var init, e := es[..|es| - 1], es[|es| - 1];
      assert es == init + [e];
      FreshStart(dur, init, k);
      NoiseSnoc(dur, init, e, k);
    }
  }

  /** After a restart, a bucket with an empty hash in its history counts it. */
  lemma ReloadCountsEmptyHash(dur: Duration, t: Table, done: seq<Event>, es: seq<Event>, k: Key)
    requires Stored(dur, Get(t, k), done, k) && AllWellTimed(es)
    requires HasEmptyHash(dur, done, k) && Touched(dur, es, k)
    ensures var t' := FlushTable(dur, ApplyAll(dur, map[], es), t, Observed(done));
            k in t' && t'[k].unique == |Fold(dur, done + es, k).hashes| + 1
  {
    var applied, l := ApplyAll(dur, map[], es), Ledger(done, []);
    FreshStart(dur, es, k);
    ApplyAllKeepsCached(dur, map[], es, l, [], k);
    assert [] + es == es && Tried(l, es, false) == Ledger(done, es);
    SameEventsReflect(dur, done, done, k);
    HistoryIsFold(dur, done, k);
    var b := Load(applied[k], Get(t, k), History(dur, Observed(done), k));
    LoadAgrees(dur, applied[k], Get(t, k), Observed(done), Ledger(done, es), es, k);
    assert (b.unique - {[]}) + {} == b.unique - {[]};
    HashCount(b.unique);
  }

  /** After a restart, the first noise floor of a bucket is taken whatever its time. */
  lemma ReloadTakesAnyFloor(dur: Duration, t: Table, po: seq<Observation>, e: Event, k: Key)
    requires HitsNoise(dur, k, e) && e.ts > 0
    ensures var t' := FlushTable(dur, ApplyAll(dur, map[], [e]), t, po);
            k in t' && t'[k].noiseFloor == e.body.status.noiseFloor
  {
    assert [e][..0] == [];
    assert ApplyAll(dur, map[], [e]) == ApplyEvent(dur, ApplyAll(dur, map[], []), e);
    assert ApplyAll(dur, map[], []) == map[];
  }

  /** Every cached key starts a bucket. */
  ghost predicate AlignedKeys(dur: Duration, s: State) {
    forall k :: k in s ==> Aligned(k.bucket, dur)
  }

  lemma {:induction false} ApplyAllAligned(dur: Duration, s: State, es: seq<Event>)
    requires AlignedKeys(dur, s)
    ensures AlignedKeys(dur, ApplyAll(dur, s, es))
  {
    if es != [] {
      var n := |es| - 1;
      ApplyAllAligned(dur, s, es[..n]);
      TruncateAligned(es[n].ts, dur);
    }
  }

  /* ---------- the stage ---------- */

  lemma HistoryInAll(dur: Duration, po: seq<Observation>, read: set<nat>, k: Key)
    requires forall j: nat :: j in read <==> j < |po|
    ensures HistoryIn(dur, po, read, k) == History(dur, po, k)
  {
    forall h | h in History(dur, po, k)
      ensures h in HistoryIn(dur, po, read, k)
    {
      var i: nat :| i < |po| && InBucket(dur, po[i], k) && h == po[i].packet.hash.value;
      assert i in read;
    }
  }

  lemma HistoryInGrows(dur: Duration, po: seq<Observation>, read: set<nat>, i: nat, k: Key)
    requires i < |po|
    ensures HistoryIn(dur, po, read + {i}, k)
         == HistoryIn(dur, po, read, k) + (if InBucket(dur, po[i], k) then {po[i].packet.hash.value} else {})
  {
    if InBucket(dur, po[i], k) {
      assert i in read + {i};
    }
  }

  /** Memory when some rows of the join have been read. */
  function Hashed(dur: Duration, s: State, pending: set<Key>, po: seq<Observation>, read: set<nat>): State {
    map k | k in s :: if k in pending then s[k].(unique := s[k].unique + HistoryIn(dur, po, read, k)) else s[k]
  }

  lemma ReadNone(dur: Duration, s: State, pending: set<Key>, po: seq<Observation>)
    ensures Hashed(dur, s, pending, po, {}) == s
  {
    forall k | k in s
      ensures s[k].(unique := s[k].unique + HistoryIn(dur, po, {}, k)) == s[k]
    {
      assert s[k].unique + HistoryIn(dur, po, {}, k) == s[k].unique;
    }
  }

  /** A row of the join belongs to exactly the pending bucket its time truncates to. */
  lemma RowsBucket(dur: Duration, s: State, pending: set<Key>, o: Observation)
    requires AlignedKeys(dur, s) && pending <= s.Keys
    ensures forall p :: p in pending && InBucket(dur, o, p) ==> p == Key(o.observer, Truncate(o.ts, dur))
  {
    forall p | p in pending && InBucket(dur, o, p)
      ensures p == Key(o.observer, Truncate(o.ts, dur))
    {
      TruncateIsRange(o.ts, p.bucket, dur);
    }
  }

  lemma ReadOne(dur: Duration, s: State, pending: set<Key>, po: seq<Observation>, read: set<nat>, i: nat)
    requires AlignedKeys(dur, s) && pending <= s.Keys && i < |po|
    ensures var o, h, h' := po[i], Hashed(dur, s, pending, po, read), Hashed(dur, s, pending, po, read + {i});
            var k := Key(o.observer, Truncate(o.ts, dur));
            if exists p :: p in pending && InBucket(dur, o, p)
            then k in s && h' == h[k := h[k].(unique := h[k].unique + {o.packet.hash.value})]
            else h' == h
  {
    var o, h, h' := po[i], Hashed(dur, s, pending, po, read), Hashed(dur, s, pending, po, read + {i});
    RowsBucket(dur, s, pending, o);
    forall p | p in s
      ensures h'[p] == if p in pending && InBucket(dur, o, p) then h[p].(unique := h[p].unique + {o.packet.hash.value}) else h[p]
    {
      HistoryInGrows(dur, po, read, i, p);
      var u, v := HistoryIn(dur, po, read, p), if InBucket(dur, o, p) then {o.packet.hash.value} else {};
      assert s[p].unique + (u + v) == (s[p].unique + u) + v;
    }
  }

  /** The accumulators of `done` marked clean. */
  function Marked(s: State, done: set<Key>): State {
    map k | k in s :: if k in done then s[k].(dirty := false) else s[k]
  }

  /** A table into which the dirty accumulators of `done` have been upserted. */
  ghost predicate Upserted(s: State, t: Table, t': Table, done: set<Key>) {
    forall k :: Get(t', k) == if k in s && k in done && s[k].dirty then Some(WriteRow(s[k], Get(t, k))) else Get(t, k)
  }

  lemma UpsertOne(s: State, t: Table, t': Table, done: set<Key>, k: Key)
    requires Upserted(s, t, t', done) && k in s && k !in done
    ensures Upserted(s, t, if s[k].dirty then t'[k := WriteRow(s[k], Get(t', k))] else t', done + {k})
    ensures Marked(s, done + {k}) == if s[k].dirty then Marked(s, done)[k := s[k].(dirty := false)] else Marked(s, done)
  {
    assert Get(t', k) == Get(t, k);
    assert !s[k].dirty ==> s[k].(dirty := false) == s[k];
  }

  /** Loading and then writing everything is the flush, writing less a torn one. */
  lemma MarkedIsTorn(dur: Duration, s: State, t: Table, po: seq<Observation>, done: set<Key>)
    ensures Marked(Loaded(dur, s, t, po), done) == TornState(dur, s, t, po, Writing(done))
  {}

  lemma MarkedIsFlushed(dur: Duration, s: State, t: Table, po: seq<Observation>, done: set<Key>)
    requires s.Keys <= done
    ensures Marked(Loaded(dur, s, t, po), done) == FlushState(dur, s, t, po)
  {}

  lemma UpsertedIsFlushed(dur: Duration, s: State, t: Table, po: seq<Observation>, t': Table, done: set<Key>)
    requires Upserted(Loaded(dur, s, t, po), t, t', done) && s.Keys <= done
    ensures t' == FlushTable(dur, s, t, po)
  {
    FlushOfLoaded(dur, s, t, po);
    forall k
      ensures Get(t', k) == Get(FlushTable(dur, s, t, po), k)
    {}
    GetEqual(t', FlushTable(dur, s, t, po));
  }

  /** The buckets that a rehydrate loads. */
  function Unloaded(s: State): set<Key> {
    set k | k in s && !s[k].loaded && s[k].dirty
  }

  /** Memory when the rows of some of them have been merged. */
  function Totalled(s: State, t: Table, merged: set<Key>): State {
    map k | k in s :: if k in Unloaded(s) && k in merged then MergeTotals(s[k], Get(t, k)) else s[k]
  }

  lemma TotalOne(s: State, t: Table, rows: set<Key>, k: Key)
    requires rows <= Unloaded(s) && k in rows && k in t
    ensures var before := Totalled(s, t, Unloaded(s) - rows);
            Totalled(s, t, Unloaded(s) - (rows - {k})) == before[k := MergeTotals(before[k], Some(t[k]))]
  {}

  lemma TotalledIsTorn(dur: Duration, s: State, t: Table, po: seq<Observation>, merged: set<Key>)
    ensures Totalled(s, t, merged) == TornState(dur, s, t, po, Merging(merged))
  {}

  /** ... and when the hashes of all of them have been read too, or of some. */
  lemma HashedIsTorn(dur: Duration, s: State, t: Table, po: seq<Observation>, read: set<nat>)
    ensures Hashed(dur, Totalled(s, t, Unloaded(s)), Unloaded(s), po, read) == TornState(dur, s, t, po, Hashing(read))
  {}

  lemma HashedIsLoaded(dur: Duration, s: State, t: Table, po: seq<Observation>, read: set<nat>)
    requires forall j: nat :: j in read <==> j < |po|
    ensures MarkLoaded(Hashed(dur, Totalled(s, t, Unloaded(s)), Unloaded(s), po, read), Unloaded(s)) == Loaded(dur, s, t, po)
  {
    forall k | k in s {
      HistoryInAll(dur, po, read, k);
    }
  }

  function MarkLoaded(s: State, pending: set<Key>): State {
    map k | k in s :: if k in pending then s[k].(loaded := true) else s[k]
  }

  /** With nothing to load there is nothing to do. */
  lemma NothingUnloaded(dur: Duration, s: State, t: Table, po: seq<Observation>)
    requires Unloaded(s) == {}
    ensures Loaded(dur, s, t, po) == s
  {
    assert forall k :: k in s ==> k !in Unloaded(s);
  }

  class RollupObserver {
    const bucketDur: Duration
    const retention: Time
    var state: State

    constructor (bucketDur: Duration, retention: Time)
      ensures this.bucketDur == bucketDur && this.retention == retention
      ensures state == map[]
    {
      this.bucketDur, this.retention, state := bucketDur, retention, map[];
    }

    method Apply(e: Event)
      modifies this
      ensures state == ApplyEvent(bucketDur, old(state), e)
    {
      match e.body {
        case Packet(p) => ApplyPacket(e, p);
        case Status(s) => ApplyStatus(e, s);
      }
    }

    method ApplyPacket(e: Event, p: PacketPayload)
      requires e.body == Packet(p)
      modifies this
      ensures state == ApplyEvent(bucketDur, old(state), e)
    {
      var k := Touch(e.observer, Truncate(e.ts, bucketDur));
      var acc := state[k];
      var core := CountPacket(acc.core, p.rssi);
      if p.hash.Some? && |p.hash.value| > 0 {
        acc := acc.(unique := acc.unique + {p.hash.value});
      }
      if p.route == "F" {
        acc := acc.(flood := acc.flood + 1);
      } else if p.route == "D" {
        acc := acc.(direct := acc.direct + 1);
      }
      acc := acc.(core := core, dirty := true);
      state := state[k := acc];
    }

    method ApplyStatus(e: Event, s: StatusPayload)
      requires e.body == Status(s)
      modifies this
      ensures state == ApplyEvent(bucketDur, old(state), e)
    {
      if s.noiseFloor.None? {
        return;
      }
      var k := Touch(e.observer, Truncate(e.ts, bucketDur));
      if e.ts > state[k].noiseTS {
        state := state[k := state[k].(noiseFloor := s.noiseFloor, noiseTS := e.ts, dirty := true)];
      }
    }

    method Touch(observer: Bytes, bucket: Time) returns (k: Key)
      modifies this
      ensures k == Key(observer, bucket)
      ensures state == old(state)[k := if k in old(state) then old(state)[k] else FRESH]
    {
      k := Key(observer, bucket);
      if k !in state {
        state := state[k := FRESH];
      }
    }

    /** `fault` counts the answers the database still gives before it fails: one per
        query, one per row, one per write. None is a database that does not fail. */
    method Flush(table: Table, po: seq<Observation>, fault: Option<nat>) returns (ok: bool, table': Table, ghost tear: Tear)
      requires AlignedKeys(bucketDur, state)
      modifies this
      ensures fault.None? ==> ok
      ensures ok ==> state == FlushState(bucketDur, old(state), table, po) && table' == FlushTable(bucketDur, old(state), table, po)
      ensures !ok ==> state == TornState(bucketDur, old(state), table, po, tear)
    {
      ghost var s0 := state;
      var left;
      table' := table;
      ok, left, tear := RehydrateUnloaded(table, po, fault);
      if ok {
        ghost var written;
        ok, table', written := WriteDirty(table, left);
        tear := Writing(written);
        MarkedIsTorn(bucketDur, s0, table, po, written);
        if ok {
          MarkedIsFlushed(bucketDur, s0, table, po, written);
          UpsertedIsFlushed(bucketDur, s0, table, po, table', written);
        }
      }
    }

    /** The upsert loop of Flush. */
    method WriteDirty(table: Table, fault: Option<nat>) returns (ok: bool, table': Table, ghost written: set<Key>)
      modifies this
      ensures fault.None? ==> ok
      ensures ok ==> written == old(state).Keys
      ensures state == Marked(old(state), written) && Upserted(old(state), table, table', written)
    {
      ghost var s0 := state;
      table', written := table, {};
      var left, todo := fault, state.Keys;
      while todo != {}
        invariant fault.None? ==> left.None?
        invariant written == s0.Keys - todo && todo <= s0.Keys
        invariant state == Marked(s0, written) && Upserted(s0, table, table', written)
      {
        var k :| k in todo;
        UpsertOne(s0, table, table', written, k);
        var acc := state[k];
        if acc.dirty {
          if left == Some(0) {
            ok := false;
            return;
          }
          left := Spent(left);
          table' := table'[k := WriteRow(acc, Get(table', k))];
          state := state[k := acc.(dirty := false)];
        }
        todo, written := todo - {k}, written + {k};
      }
      ok := true;
    }

    method RehydrateUnloaded(table: Table, po: seq<Observation>, fault: Option<nat>)
      returns (ok: bool, left: Option<nat>, ghost tear: Tear)
      requires AlignedKeys(bucketDur, state)
      modifies this
      ensures fault.None? ==> ok && left.None?
      ensures ok ==> state == Loaded(bucketDur, old(state), table, po)
      ensures !ok ==> state == TornState(bucketDur, old(state), table, po, tear)
    {
      ghost var s0 := state;
      var pending := Unloaded(state);
      ok, left, tear := true, fault, Merging({});
      if pending == {} {
        NothingUnloaded(bucketDur, s0, table, po);
        return;
      }
      ghost var merged, read;
      ok, left, merged := LoadRowTotals(table, pending, left);
      if !ok {
        tear := Merging(merged);
        TotalledIsTorn(bucketDur, s0, table, po, merged);
        return;
      }
      ok, left, read := LoadHistoricalHashes(po, pending, left);
      if !ok {
        tear := Hashing(read);
        HashedIsTorn(bucketDur, s0, table, po, read);
        return;
      }
      HashedIsLoaded(bucketDur, s0, table, po, read);
      state := map k | k in state :: if k in pending then state[k].(loaded := true) else state[k];
    }

    /** One row of the SELECT per pending bucket that has been written before. */
    method LoadRowTotals(table: Table, pending: set<Key>, fault: Option<nat>)
      returns (ok: bool, left: Option<nat>, ghost merged: set<Key>)
      requires pending == Unloaded(state)
      modifies this
      ensures fault.None? ==> ok && left.None?
      ensures ok ==> merged == pending
      ensures state == Totalled(old(state), table, merged)
    {
      ok, left, merged := false, fault, {};
      var rows := set k | k in pending && k in table;
      if left == Some(0) {
        return;
      }
      left := Spent(left);
      while rows != {}
        invariant fault.None? ==> left.None?
        invariant rows <= pending && rows <= table.Keys
        invariant state == Totalled(old(state), table, pending - rows)
      {
        if left == Some(0) {
          merged := pending - rows;
          return;
        }
        left := Spent(left);
        var k :| k in rows;
        TotalOne(old(state), table, rows, k);
        state := state[k := MergeTotals(state[k], Some(table[k]))];
        rows := rows - {k};
      }
      ok, merged := true, pending;
      assert pending - rows == pending;
    }

    /** The join returns each observation with a hash in some pending bucket;
        its own truncated time then says which accumulator it belongs to. */
    method LoadHistoricalHashes(po: seq<Observation>, pending: set<Key>, fault: Option<nat>)
      returns (ok: bool, left: Option<nat>, ghost read: set<nat>)
      requires pending <= state.Keys && AlignedKeys(bucketDur, state)
      modifies this
      ensures fault.None? ==> ok && left.None?
      ensures ok ==> forall j: nat :: j in read <==> j < |po|
      ensures state == Hashed(bucketDur, old(state), pending, po, read)
    {
      ok, left, read := false, fault, {};
      ReadNone(bucketDur, state, pending, po);
      if left == Some(0) {
        return;
      }
      left := Spent(left);
      for i := 0 to |po|
        invariant fault.None? ==> left.None?
        invariant forall j: nat :: j in read <==> j < i
        invariant state == Hashed(bucketDur, old(state), pending, po, read)
      {
        var o := po[i];
        ReadOne(bucketDur, old(state), pending, po, read, i);
        if exists p :: p in pending && InBucket(bucketDur, o, p) {
          if left == Some(0) {
            return;
          }
          left := Spent(left);
          var k := Key(o.observer, Truncate(o.ts, bucketDur));
          if k in state {
            state := state[k := state[k].(unique := state[k].unique + {o.packet.hash.value})];
          }
        }
        read := read + {i};
      }
      ok := true;
    }

    method Evict(hwm: Time)
      modifies this
      ensures state == Evicted(bucketDur, retention, old(state), hwm)
    {
      var cutoff := hwm - retention;
      var todo := state.Keys;
      while todo != {}
        invariant todo <= old(state).Keys
        invariant state == map k | k in old(state) && (k in todo || old(state)[k].dirty || k.bucket + bucketDur >= cutoff) ::
                             old(state)[k]
      {
        var k :| k in todo;
        if !state[k].dirty && k.bucket + bucketDur < cutoff {
          state := state - {k};
        }
        todo := todo - {k};
      }
      state := map k | k in state :: state[k].(dirty := false);
    }

    method Clear()
      modifies this
      ensures state == map[]
    {
      state := map[];
    }
  }
}
