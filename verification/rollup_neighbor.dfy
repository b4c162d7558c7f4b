/** RollupNeighbor1m: the write-back cache behind rollup_neighbor_1m, one
    accumulator per observer, source prefix and minute. */
module RollupNeighborStage {
  import opened Events
  import opened RollupCore

  datatype Key = Key(observer: Bytes, source: Bytes, bucket: Time)

  datatype Accum = Accum(core: Core, loaded: bool, dirty: bool)

  type State = map<Key, Accum>
  type Table = map<Key, CoreRow>

  const FRESH: Accum := Accum(EMPTY, false, false)

  /* ---------- what the operations do ---------- */

  /** Packets with a source prefix; nil and empty prefixes are skipped alike. */
  predicate Relevant(e: Event) {
    e.body.Packet? && e.body.packet.sourcePrefix != []
  }

  function KeyOf(dur: Duration, e: Event): Key
    requires Relevant(e)
  {
    Key(e.observer, e.body.packet.sourcePrefix, Truncate(e.ts, dur))
  }

  function AddEvent(a: Accum, p: PacketPayload): Accum {
    a.(core := AddPacket(a.core, p.rssi), dirty := true)
  }

  function ApplyEvent(dur: Duration, s: State, e: Event): State {
    if !Relevant(e) then s
    else
      var k := KeyOf(dur, e);
      s[k := AddEvent(if k in s then s[k] else FRESH, e.body.packet)]
  }

  function ApplyAll(dur: Duration, s: State, es: seq<Event>): State {
    if es == [] then s else ApplyEvent(dur, ApplyAll(dur, s, es[..|es| - 1]), es[|es| - 1])
  }

  function Load(a: Accum, row: Option<CoreRow>): Accum {
    if a.loaded || !a.dirty then a
    else a.(core := if row.None? then a.core else MergeRow(a.core, row.value), loaded := true)
  }

  /** Flush, seen from one key. */
  function Settle(a: Accum, row: Option<CoreRow>): (Accum, Option<CoreRow>) {
    var l := Load(a, row);
    (l.(dirty := false), if l.dirty then Some(ToRow(l.core)) else row)
  }

  function Loaded(s: State, t: Table): State {
    map k | k in s :: Load(s[k], Get(t, k))
  }

  function FlushState(s: State, t: Table): State {
    map k | k in s :: Settle(s[k], Get(t, k)).0
  }

  function FlushTable(s: State, t: Table): Table {
    t + map k | k in s && s[k].dirty :: ToRow(Load(s[k], Get(t, k)).core)
  }

  lemma FlushOfLoaded(s: State, t: Table)
    ensures var l := Loaded(s, t);
            && FlushState(s, t).Keys == l.Keys
            && (forall k :: k in l ==> FlushState(s, t)[k] == l[k].(dirty := false))
            && (forall k :: Get(FlushTable(s, t), k)
                         == if k in l && l[k].dirty then Some(ToRow(l[k].core)) else Get(t, k))
  {
    var l := Loaded(s, t);
    assert forall k :: k in s ==> l[k].dirty == s[k].dirty;
    assert forall k :: k in s ==> Settle(s[k], Get(t, k)).0 == l[k].(dirty := false);
  }

  /** How far a flush got before the database failed: it had merged some rows, or
      had loaded everything and written some of it. */
  datatype Tear = Merging(merged: set<Key>) | Writing(written: set<Key>)

  /** A failed flush, seen from one key. `loaded` is only set once the query is done. */
  function Torn(a: Accum, k: Key, row: Option<CoreRow>, tear: Tear): Accum {
    match tear
    case Merging(merged) =>
      if a.loaded || !a.dirty || k !in merged || row.None? then a else a.(core := MergeRow(a.core, row.value))
    case Writing(written) => if k in written then Load(a, row).(dirty := false) else Load(a, row)
  }

  /** Memory after a failed flush; its table writes are rolled back. */
  function TornState(s: State, t: Table, tear: Tear): State {
    map k | k in s :: Torn(s[k], k, Get(t, k), tear)
  }

  function Reached(s: State, t: Table, reach: Reach<Tear>): State {
    match reach
    case Before => s
    case Within(tear) => TornState(s, t, tear)
    case After => FlushState(s, t)
  }

  /** A load that fails before its first row leaves memory as it was. */
  lemma NothingTorn(s: State, t: Table)
    ensures TornState(s, t, Merging({})) == s
  {}

  /** Whether the failed attempt has merged the row of k but will load it again. */
  predicate Again(s: State, k: Key, reach: Reach<Tear>) {
    k in s && !s[k].loaded && s[k].dirty && reach.Within? && reach.tear.Merging? && k in reach.tear.merged
  }

  function Evicted(dur: Duration, retention: Time, s: State, hwm: Time): State {
    map k | k in s && (s[k].dirty || k.bucket + dur >= hwm - retention) :: s[k].(dirty := false)
  }

  /** Eviction follows a commit whose batch had a high-water mark. */
  function Kept(dur: Duration, retention: Time, s: State, hwm: Time): State {
    if hwm != 0 then Evicted(dur, retention, s, hwm) else s
  }

  /* ---------- the one-pass reference ---------- */

  predicate Hits(dur: Duration, k: Key, e: Event) {
    Relevant(e) && KeyOf(dur, e) == k
  }

  function Fold(dur: Duration, es: seq<Event>, k: Key): Core {
    if es == [] then EMPTY
    else
      var t, e := Fold(dur, es[..|es| - 1], k), es[|es| - 1];
      if Hits(dur, k, e) then AddPacket(t, e.body.packet.rssi) else t
  }

  lemma FoldSnoc(dur: Duration, es: seq<Event>, e: Event, k: Key)
    ensures Fold(dur, es + [e], k) == if Hits(dur, k, e) then AddPacket(Fold(dur, es, k), e.body.packet.rssi) else Fold(dur, es, k)
  {
    assert (es + [e])[..|es|] == es;
  }

  lemma {:induction false} FoldConcat(dur: Duration, a: seq<Event>, b: seq<Event>, k: Key)
    ensures Fold(dur, a + b, k) == Combine(Fold(dur, a, k), Fold(dur, b, k))
  {
    if b == [] {
      assert a + b == a;
    } else {
      var init, e := b[..|b| - 1], b[|b| - 1];
      assert a + b == (a + init) + [e] && b == init + [e];
      FoldConcat(dur, a, init, k);
      FoldSnoc(dur, a + init, e, k);
      FoldSnoc(dur, init, e, k);
      if Hits(dur, k, e) {
        AddCombine(Fold(dur, a, k), Fold(dur, init, k), e.body.packet.rssi);
      }
    }
  }

  lemma {:induction false} FoldZero(dur: Duration, es: seq<Event>, k: Key)
    ensures Fold(dur, es, k).packets == 0 <==> Fold(dur, es, k) == EMPTY
    ensures Fold(dur, es, k) == EMPTY <==> forall e :: e in es ==> !Hits(dur, k, e)
  {
    if es != [] {
      var n := |es| - 1;
      FoldZero(dur, es[..n], k);
      assert es == es[..n] + [es[n]];
    }
  }

  /* ---------- cache transparency, one key at a time ---------- */

  /** The cached accumulator of k, when its row has counted `l.done`, memory has
      counted `l.pending` on top, and `current` is the last batch applied. */
  ghost predicate Cached(dur: Duration, acc: Option<Accum>, l: Ledger, current: seq<Event>, k: Key) {
    match acc
    case None => Fold(dur, l.pending, k) == EMPTY
    case Some(a) =>
      && a.core.packets > 0
      && Balanced(a.core)
      && (!a.loaded ==> a.dirty && l.pending != [])
      && SameCounts(a.core, Fold(dur, if a.loaded then l.done + l.pending else l.pending, k))
      && (!a.dirty ==> Fold(dur, current, k) == EMPTY)
  }

  ghost predicate Stored(dur: Duration, row: Option<CoreRow>, done: seq<Event>, k: Key) {
    var t := Fold(dur, done, k);
    match row
    case None => t == EMPTY
    case Some(r) => Ordered(r) && r.packets == t.packets && r.packets > 0 && r.lo == t.lo && r.hi == t.hi
  }

  /** One more event in the folds that a ledger is compared with. */
  lemma LedgerSnoc(dur: Duration, l: Ledger, e: Event, k: Key)
    ensures var l', hit := Tried(l, [e], false), Hits(dur, k, e);
            && Fold(dur, l'.pending, k) == (if hit then AddPacket(Fold(dur, l.pending, k), e.body.packet.rssi) else Fold(dur, l.pending, k))
            && Fold(dur, l'.done + l'.pending, k)
               == (if hit then AddPacket(Fold(dur, l.done + l.pending, k), e.body.packet.rssi) else Fold(dur, l.done + l.pending, k))
  {
    assert l.done + (l.pending + [e]) == (l.done + l.pending) + [e];
    FoldSnoc(dur, l.done + l.pending, e, k);
    FoldSnoc(dur, l.pending, e, k);
  }

  lemma ApplyKeepsCached(dur: Duration, s: State, e: Event, l: Ledger, current: seq<Event>, k: Key)
    requires Cached(dur, Get(s, k), l, current, k)
    ensures Cached(dur, Get(ApplyEvent(dur, s, e), k), Tried(l, [e], false), current + [e], k)
  {
    if Hits(dur, k, e) {
      AddKeepsCached(dur, Get(s, k), e, l, current, k);
    } else {
      OtherKeepsCached(dur, Get(s, k), e, l, current, k);
      assert Get(ApplyEvent(dur, s, e), k) == Get(s, k);
    }
  }

  lemma OtherKeepsCached(dur: Duration, acc: Option<Accum>, e: Event, l: Ledger, current: seq<Event>, k: Key)
    requires !Hits(dur, k, e) && Cached(dur, acc, l, current, k)
    ensures Cached(dur, acc, Tried(l, [e], false), current + [e], k)
  {
    LedgerSnoc(dur, l, e, k);
    FoldSnoc(dur, current, e, k);
  }

  lemma AddKeepsCached(dur: Duration, acc: Option<Accum>, e: Event, l: Ledger, current: seq<Event>, k: Key)
    requires Hits(dur, k, e) && Cached(dur, acc, l, current, k)
    ensures Cached(dur, Some(AddEvent(if acc.Some? then acc.value else FRESH, e.body.packet)), Tried(l, [e], false), current + [e], k)
  {
    LedgerSnoc(dur, l, e, k);
    AddPacketBalanced(if acc.Some? then acc.value.core else EMPTY, e.body.packet.rssi);
  }

  lemma {:induction false} ApplyAllKeepsCached(dur: Duration, s: State, es: seq<Event>, l: Ledger, last: seq<Event>, k: Key)
    requires Cached(dur, Get(s, k), l, last, k)
    ensures Cached(dur, Get(ApplyAll(dur, s, es), k), Tried(l, es, false), es, k)
  {
    if es == [] {
      assert l.pending + es == l.pending;
    } else {
      var init, e := es[..|es| - 1], es[|es| - 1];
      assert es == init + [e] && (l.pending + init) + [e] == l.pending + es;
      ApplyAllKeepsCached(dur, s, init, l, last, k);
      ApplyKeepsCached(dur, ApplyAll(dur, s, init), e, Tried(l, init, false), init, k);
    }
  }

  /** Merging the row gives the counts of everything the ledger holds. */
  lemma MergeCountsAll(dur: Duration, c: Core, row: Option<CoreRow>, l: Ledger, k: Key)
    requires SameCounts(c, Fold(dur, l.pending, k)) && Balanced(c) && Stored(dur, row, l.done, k)
    ensures var m := if row.Some? then MergeRow(c, row.value) else c;
            SameCounts(m, Fold(dur, l.done + l.pending, k)) && Balanced(m) && m.packets >= c.packets
  {
    FoldConcat(dur, l.done, l.pending, k);
    if row.Some? {
      MergeRowBalanced(c, row.value);
      MergeCounts(c, row.value, Fold(dur, l.done, k));
    }
  }

  /** Rebuilding from the row gives the exact columns of the ledger. */
  lemma LoadAgrees(dur: Duration, a: Accum, row: Option<CoreRow>, l: Ledger, current: seq<Event>, k: Key)
    requires Cached(dur, Some(a), l, current, k) && Stored(dur, row, l.done, k)
    ensures var b := Load(a, row);
            && b.loaded && b.dirty == a.dirty && b.core.packets > 0 && Balanced(b.core)
            && SameCounts(b.core, Fold(dur, l.done + l.pending, k))
  {
    if !a.loaded {
      MergeCountsAll(dur, a.core, row, l, k);
    }
  }

  lemma StoredExtends(dur: Duration, row: Option<CoreRow>, done: seq<Event>, es: seq<Event>, k: Key)
    requires Stored(dur, row, done, k) && Fold(dur, es, k) == EMPTY
    ensures Stored(dur, row, done + es, k)
  {
    FoldConcat(dur, done, es, k);
    CombineEmpty(Fold(dur, done, k));
  }

  lemma WriteStores(dur: Duration, c: Core, all: seq<Event>, k: Key)
    requires c.packets > 0 && SameCounts(c, Fold(dur, all, k)) && Balanced(c)
    ensures Stored(dur, Some(ToRow(c)), all, k)
  {
    ToRowOrdered(c);
  }

  /** A loaded accumulator that agrees with the ledger may be marked clean, and its
      row may be said to hold what it holds. */
  lemma LoadedIsCached(dur: Duration, b: Accum, l: Ledger, k: Key)
    requires b.loaded && b.core.packets > 0 && Balanced(b.core) && SameCounts(b.core, Fold(dur, l.done + l.pending, k))
    ensures Cached(dur, Some(b), l, [], k)
    ensures Cached(dur, Some(b.(dirty := false)), l, [], k)
    ensures Cached(dur, Some(b.(dirty := false)), Ledger(l.done + l.pending, []), [], k)
  {
    assert Fold(dur, [], k) == EMPTY;
    assert (l.done + l.pending) + [] == l.done + l.pending;
  }

  /** A batch with nothing to count can be moved from memory's side to the row's. */
  lemma NothingMoves(dur: Duration, l: Ledger, es: seq<Event>, k: Key)
    requires Fold(dur, es, k) == EMPTY
    ensures var l' := Committed(l, es, false, true);
            Fold(dur, l'.done + l'.pending, k) == Fold(dur, l.done + (l.pending + es), k)
  {
    if l.pending == [] {
      assert l.pending + es == es && (l.done + es) + [] == l.done + es;
    } else {
      var rest := l.pending + es;
      FoldConcat(dur, l.done + es, rest, k);
      FoldConcat(dur, l.done, es, k);
      FoldConcat(dur, l.done, rest, k);
      CombineEmpty(Fold(dur, l.done, k));
    }
  }

  /** A commit without anything to count for the bucket leaves row and memory as they were. */
  lemma UnwrittenKeeps(dur: Duration, a: Accum, row: Option<CoreRow>, l: Ledger, es: seq<Event>, k: Key)
    requires Cached(dur, Some(a), Tried(l, es, false), es, k) && !a.dirty && Stored(dur, row, l.done, k)
    ensures Stored(dur, row, l.done + es, k)
    ensures Cached(dur, Some(a), Committed(l, es, false, true), [], k)
  {
    StoredExtends(dur, row, l.done, es, k);
    NothingMoves(dur, l, es, k);
  }

  /** A commit that writes the bucket: the row takes over the whole ledger. */
  lemma WrittenKeeps(dur: Duration, a: Accum, row: Option<CoreRow>, l: Ledger, current: seq<Event>, k: Key)
    requires Cached(dur, Some(a), l, current, k) && a.dirty && Stored(dur, row, l.done, k)
    ensures var (a', row') := Settle(a, row);
            Stored(dur, row', l.done + l.pending, k) && Cached(dur, Some(a'), Ledger(l.done + l.pending, []), [], k)
  {
    LoadAgrees(dur, a, row, l, current, k);
    WriteStores(dur, Load(a, row).core, l.done + l.pending, k);
    LoadedIsCached(dur, Load(a, row), l, k);
  }

  /** What Flush does to one key. */
  lemma FlushAt(s: State, t: Table, k: Key)
    ensures Get(FlushState(s, t), k) == if k in s then Some(Settle(s[k], Get(t, k)).0) else None
    ensures Get(FlushTable(s, t), k) == if k in s && s[k].dirty then Settle(s[k], Get(t, k)).1 else Get(t, k)
  {}

  /** One committed batch, from one key. */
  lemma CommitKeeps(dur: Duration, s: State, t: Table, l: Ledger, es: seq<Event>, k: Key)
    requires Cached(dur, Get(s, k), l, [], k) && Stored(dur, Get(t, k), l.done, k)
    ensures var applied := ApplyAll(dur, s, es);
            var l' := Committed(l, es, k in applied && applied[k].dirty, k in applied);
            && Stored(dur, Get(FlushTable(applied, t), k), l'.done, k)
            && Cached(dur, Get(FlushState(applied, t), k), l', [], k)
  {
    ApplyAllKeepsCached(dur, s, es, l, [], k);
    var applied, row := ApplyAll(dur, s, es), Get(t, k);
    FlushAt(applied, t, k);
    if k !in applied {
      NothingApplied(dur, s, es, k);
      StoredExtends(dur, row, l.done, es, k);
      assert Fold(dur, [], k) == EMPTY;
    } else if applied[k].dirty {
      WrittenKeeps(dur, applied[k], row, Tried(l, es, false), es, k);
    } else {
      UnwrittenKeeps(dur, applied[k], row, l, es, k);
    }
  }

  lemma {:induction false} NothingApplied(dur: Duration, s: State, es: seq<Event>, k: Key)
    ensures k !in ApplyAll(dur, s, es) ==> Fold(dur, es, k) == EMPTY
    ensures k in s ==> k in ApplyAll(dur, s, es)
  {
    if es != [] {
      NothingApplied(dur, s, es[..|es| - 1], k);
    }
  }

  /** After a flush nothing is left to load or to write. */
  lemma FlushSettles(dur: Duration, s: State, t: Table, l: Ledger, current: seq<Event>, k: Key)
    requires k in s && Cached(dur, Some(s[k]), l, current, k)
    ensures var s' := FlushState(s, t);
            k in s' && s'[k].loaded && !s'[k].dirty
  {}

  /** A batch that leaves its accumulator clean, or makes none, has nothing to count. */
  lemma CleanIsNothing(dur: Duration, s: State, l: Ledger, es: seq<Event>, k: Key)
    requires Cached(dur, Get(s, k), l, [], k)
    ensures var applied := ApplyAll(dur, s, es);
            k !in applied || !applied[k].dirty ==> Fold(dur, es, k) == EMPTY
  {
    ApplyAllKeepsCached(dur, s, es, l, [], k);
    NothingApplied(dur, s, es, k);
  }

  /** What is cached after a batch has been applied. */
  lemma {:induction false} AppliedKeys(dur: Duration, s: State, es: seq<Event>, k: Key)
    ensures k in ApplyAll(dur, s, es) <==> k in s || exists e :: e in es && Hits(dur, k, e)
  {
    if es != [] {
      var init, e := es[..|es| - 1], es[|es| - 1];
      assert forall x :: x in es <==> x in init || x == e;
      AppliedKeys(dur, s, init, k);
      assert k in ApplyAll(dur, s, es) <==> k in ApplyAll(dur, s, init) || Hits(dur, k, e);
      if x :| x in init && Hits(dur, k, x) {
        assert x in es;
      }
    }
  }

  /** Evicting a settled accumulator forgets what it held beyond its row. */
  lemma EvictKeeps(dur: Duration, retention: Time, s: State, l: Ledger, es: seq<Event>, written: bool, hwm: Time, k: Key)
    requires Cached(dur, Get(s, k), Committed(l, es, written, k in s), [], k) && (k in s ==> !s[k].dirty)
    ensures var s' := Evicted(dur, retention, s, hwm);
            Cached(dur, Get(s', k), Committed(l, es, written, k in s'), [], k)
  {
    assert Fold(dur, [], k) == EMPTY;
  }

  /** One committed batch, and what is kept of the cache after it. */
  lemma BatchKeeps(dur: Duration, retention: Time, s: State, t: Table, l: Ledger, es: seq<Event>, hwm: Time, k: Key)
    requires Cached(dur, Get(s, k), l, [], k) && Stored(dur, Get(t, k), l.done, k)
    ensures var applied := ApplyAll(dur, s, es);
            var s' := Kept(dur, retention, FlushState(applied, t), hwm);
            var l' := Committed(l, es, k in applied && applied[k].dirty, k in s');
            && Stored(dur, Get(FlushTable(applied, t), k), l'.done, k)
            && Cached(dur, Get(s', k), l', [], k)
  {
    CommitKeeps(dur, s, t, l, es, k);
    var applied := ApplyAll(dur, s, es);
    FlushAt(applied, t, k);
    EvictKeeps(dur, retention, FlushState(applied, t), l, es, k in applied && applied[k].dirty, hwm, k);
  }

  /** A flush that fails within its rehydrate or its writes. */
  lemma TornKeeps(dur: Duration, a: Accum, row: Option<CoreRow>, tear: Tear, l: Ledger, current: seq<Event>, k: Key)
    requires Cached(dur, Some(a), l, current, k) && Stored(dur, row, l.done, k)
    ensures var l' := if Again(map[k := a], k, Within(tear)) then Ledger(l.done, l.done + l.pending) else l;
            Cached(dur, Some(Torn(a, k, row, tear)), l', [], k)
  {
    assert Fold(dur, [], k) == EMPTY;
    if tear.Writing? {
      LoadAgrees(dur, a, row, l, current, k);
      LoadedIsCached(dur, Load(a, row), l, k);
    } else if Again(map[k := a], k, Within(tear)) {
      MergeCountsAll(dur, a.core, row, l, k);
    }
  }

  /** What an attempt that stopped somewhere has done to one key. */
  lemma ReachedAt(s: State, t: Table, reach: Reach<Tear>, k: Key)
    requires k in s
    ensures var tear := if reach.Within? then reach.tear else Writing({k});
            && Get(Reached(s, t, reach), k) == Some(if reach.Before? then s[k] else Torn(s[k], k, Get(t, k), tear))
            && (Again(s, k, reach) <==> reach.Within? && Again(map[k := s[k]], k, Within(tear)))
  {}

  /** A failed attempt: memory absorbs the batch, the table does not. */
  lemma AbortKeeps(dur: Duration, s: State, t: Table, l: Ledger, es: seq<Event>, reach: Reach<Tear>, k: Key)
    requires Cached(dur, Get(s, k), l, [], k) && Stored(dur, Get(t, k), l.done, k)
    ensures var applied := ApplyAll(dur, s, es);
            Cached(dur, Get(Reached(applied, t, reach), k), Tried(l, es, Again(applied, k, reach)), [], k)
  {
    ApplyAllKeepsCached(dur, s, es, l, [], k);
    var applied := ApplyAll(dur, s, es);
    assert Fold(dur, [], k) == EMPTY;
    if k in applied {
      ReachedAt(applied, t, reach, k);
      if !reach.Before? {
        TornKeeps(dur, applied[k], Get(t, k), if reach.Within? then reach.tear else Writing({k}), Tried(l, es, false), es, k);
      }
    }
  }

  /* ---------- the average ---------- */

  ghost predicate Drifts(dur: Duration, acc: Option<Accum>, row: Option<CoreRow>, done: seq<Event>, pending: seq<Event>, k: Key, r: nat) {
    && (acc.None? ==> Fold(dur, pending, k) == EMPTY)
    && (acc.Some? && acc.value.loaded ==> Tracks(acc.value.core, Fold(dur, done + pending, k), r))
    && (acc.Some? && !acc.value.loaded ==> acc.value.dirty && acc.value.core == Fold(dur, pending, k))
    && (row.Some? ==> RowTracks(row.value, Fold(dur, done, k), r))
  }

  /** Whether a flush of `s` rebuilds the accumulator of k from its row. */
  function Reload(s: State, t: Table, k: Key): nat {
    if k in s && !s[k].loaded && s[k].dirty && k in t then 1 else 0
  }

  lemma {:induction false} FoldBalanced(dur: Duration, es: seq<Event>, k: Key)
    ensures Balanced(Fold(dur, es, k))
  {
    if es != [] {
      var init, e := es[..|es| - 1], es[|es| - 1];
      FoldBalanced(dur, init, k);
      if Hits(dur, k, e) {
        AddPacketBalanced(Fold(dur, init, k), e.body.packet.rssi);
      }
    }
  }

  lemma {:induction false} ApplyAllDrifts(dur: Duration, s: State, t: Table, es: seq<Event>, done: seq<Event>, k: Key, r: nat)
    requires Drifts(dur, Get(s, k), Get(t, k), done, [], k, r)
    ensures Drifts(dur, Get(ApplyAll(dur, s, es), k), Get(t, k), done, es, k, r)
  {
    if es != [] {
      var init, e := es[..|es| - 1], es[|es| - 1];
      assert es == init + [e];
      ApplyAllDrifts(dur, s, t, init, done, k, r);
      AddDrifts(dur, ApplyAll(dur, s, init), Get(t, k), e, done, init, k, r);
    }
  }

  lemma AddDrifts(dur: Duration, s: State, row: Option<CoreRow>, e: Event, done: seq<Event>, init: seq<Event>, k: Key, r: nat)
    requires Drifts(dur, Get(s, k), row, done, init, k, r)
    ensures Drifts(dur, Get(ApplyEvent(dur, s, e), k), row, done, init + [e], k, r)
  {
    assert done + (init + [e]) == (done + init) + [e];
    FoldSnoc(dur, done + init, e, k);
    FoldSnoc(dur, init, e, k);
    FoldBalanced(dur, done + init, k);
    if Hits(dur, k, e) && k in s && s[k].loaded {
      AddTracks(s[k].core, Fold(dur, done + init, k), e.body.packet.rssi, r);
    }
  }

  /** The accumulator after loading: one reload more if there was a row to load. */
  lemma LoadDrifts(dur: Duration, a: Accum, row: Option<CoreRow>, done: seq<Event>, es: seq<Event>, k: Key, r: nat)
    requires Drifts(dur, Some(a), row, done, es, k, r) && Stored(dur, row, done, k)
    ensures var reload := if !a.loaded && a.dirty && row.Some? then 1 else 0;
            Tracks(Load(a, row).core, Fold(dur, done + es, k), r + reload)
  {
    if !a.loaded {
      FoldConcat(dur, done, es, k);
      FoldBalanced(dur, done, k);
      FoldBalanced(dur, es, k);
      FoldZero(dur, done, k);
      if row.Some? {
        LoadTracks(row.value, Fold(dur, done, k), a.core, r);
      } else {
        CombineEmpty(a.core);
        DriftZero(a.core.sum, a.core.packets, r);
      }
    }
  }

  /** One committed batch: the row and the accumulator drift by one reload more
      if the accumulator was rebuilt. */
  lemma CommitDrifts(dur: Duration, s: State, t: Table, done: seq<Event>, es: seq<Event>, k: Key, r: nat, r': nat)
    requires Drifts(dur, Get(s, k), Get(t, k), done, [], k, r) && Stored(dur, Get(t, k), done, k)
    requires r' == r + Reload(ApplyAll(dur, s, es), t, k)
    requires var applied := ApplyAll(dur, s, es);
             k !in applied || !applied[k].dirty ==> Fold(dur, es, k) == EMPTY
    ensures var applied := ApplyAll(dur, s, es);
            Drifts(dur, Get(FlushState(applied, t), k), Get(FlushTable(applied, t), k), done + es, [], k, r')
  {
    var applied, row := ApplyAll(dur, s, es), Get(t, k);
    ApplyAllDrifts(dur, s, t, es, done, k, r);
    FlushAt(applied, t, k);
    OptionDrifts(dur, Get(applied, k), row, done, es, k, r, r');
  }

  lemma OptionDrifts(dur: Duration, acc: Option<Accum>, row: Option<CoreRow>, done: seq<Event>, es: seq<Event>, k: Key, r: nat, r': nat)
    requires Drifts(dur, acc, row, done, es, k, r) && Stored(dur, row, done, k)
    requires acc.None? || !acc.value.dirty ==> Fold(dur, es, k) == EMPTY
    requires r' == r + if acc.Some? && !acc.value.loaded && acc.value.dirty && row.Some? then 1 else 0
    ensures Drifts(dur, if acc.Some? then Some(Settle(acc.value, row).0) else None,
                   if acc.Some? && acc.value.dirty then Settle(acc.value, row).1 else row, done + es, [], k, r')
  {
    if acc.Some? {
      SettleDrifts(dur, acc.value, row, done, es, k, r, r');
    } else {
      UntouchedDrifts(dur, row, done, es, k, r);
    }
  }

  lemma UntouchedDrifts(dur: Duration, row: Option<CoreRow>, done: seq<Event>, es: seq<Event>, k: Key, r: nat)
    requires Drifts(dur, None, row, done, es, k, r)
    ensures Drifts(dur, None, row, done + es, [], k, r)
  {
    FoldConcat(dur, done, es, k);
    CombineEmpty(Fold(dur, done, k));
  }

  lemma SettleDrifts(dur: Duration, a: Accum, row: Option<CoreRow>, done: seq<Event>, es: seq<Event>, k: Key, r: nat, r': nat)
    requires Drifts(dur, Some(a), row, done, es, k, r) && Stored(dur, row, done, k)
    requires !a.dirty ==> Fold(dur, es, k) == EMPTY
    requires r' == r + if !a.loaded && a.dirty && row.Some? then 1 else 0
    ensures Drifts(dur, Some(Settle(a, row).0), if a.dirty then Settle(a, row).1 else row, done + es, [], k, r')
  {
    if a.dirty {
      WriteDrifts(dur, a, row, done, es, k, r, r');
    } else {
      CleanDrifts(dur, a, row, done, es, k, r);
    }
  }

  lemma WriteDrifts(dur: Duration, a: Accum, row: Option<CoreRow>, done: seq<Event>, es: seq<Event>, k: Key, r: nat, r': nat)
    requires Drifts(dur, Some(a), row, done, es, k, r) && Stored(dur, row, done, k) && a.dirty
    requires r' == r + if !a.loaded && row.Some? then 1 else 0
    ensures Drifts(dur, Some(Settle(a, row).0), Settle(a, row).1, done + es, [], k, r')
  {
    var b := Load(a, row);
    LoadDrifts(dur, a, row, done, es, k, r);
    WriteTracks(b.core, Fold(dur, done + es, k), r');
    LoadedDrifts(dur, b, Some(ToRow(b.core)), done + es, k, r');
  }

  lemma CleanDrifts(dur: Duration, a: Accum, row: Option<CoreRow>, done: seq<Event>, es: seq<Event>, k: Key, r: nat)
    requires Drifts(dur, Some(a), row, done, es, k, r) && !a.dirty && Fold(dur, es, k) == EMPTY
    ensures Drifts(dur, Some(a), row, done + es, [], k, r)
  {
    FoldConcat(dur, done, es, k);
    CombineEmpty(Fold(dur, done, k));
    assert a.(dirty := false) == a;
    LoadedDrifts(dur, a, row, done + es, k, r);
  }

  /** A loaded accumulator and a row that track the fold of everything. */
  lemma LoadedDrifts(dur: Duration, b: Accum, row: Option<CoreRow>, all: seq<Event>, k: Key, r: nat)
    requires b.loaded && Tracks(b.core, Fold(dur, all, k), r) && (row.Some? ==> RowTracks(row.value, Fold(dur, all, k), r))
    ensures Drifts(dur, Some(b.(dirty := false)), row, all, [], k, r)
  {
    assert all + [] == all;
  }

  /* ---------- the stage ---------- */

  /** The accumulators of `done` marked clean. */
  function Marked(s: State, done: set<Key>): State {
    map k | k in s :: if k in done then s[k].(dirty := false) else s[k]
  }

  /** A table into which the dirty accumulators of `done` have been upserted. */
  ghost predicate Upserted(s: State, t: Table, t': Table, done: set<Key>) {
    forall k :: Get(t', k) == if k in s && k in done && s[k].dirty then Some(ToRow(s[k].core)) else Get(t, k)
  }

  lemma UpsertOne(s: State, t: Table, t': Table, done: set<Key>, k: Key)
    requires Upserted(s, t, t', done) && k in s && k !in done
    ensures Upserted(s, t, if s[k].dirty then t'[k := ToRow(s[k].core)] else t', done + {k})
    ensures Marked(s, done + {k}) == if s[k].dirty then Marked(s, done)[k := s[k].(dirty := false)] else Marked(s, done)
  {
    assert Get(t', k) == Get(t, k);
    assert !s[k].dirty ==> s[k].(dirty := false) == s[k];
  }

  /** Loading and then writing everything is the flush, writing less a torn one. */
  lemma MarkedIsTorn(s: State, t: Table, done: set<Key>)
    ensures Marked(Loaded(s, t), done) == TornState(s, t, Writing(done))
  {}

  lemma MarkedIsFlushed(s: State, t: Table, done: set<Key>)
    requires s.Keys <= done
    ensures Marked(Loaded(s, t), done) == FlushState(s, t)
  {}

  lemma UpsertedIsFlushed(s: State, t: Table, t': Table, done: set<Key>)
    requires Upserted(Loaded(s, t), t, t', done) && s.Keys <= done
    ensures t' == FlushTable(s, t)
  {
    FlushOfLoaded(s, t);
    forall k
      ensures Get(t', k) == Get(FlushTable(s, t), k)
    {}
    GetEqual(t', FlushTable(s, t));
  }

  class RollupNeighbor1m {
    const retention: Time
    var state: State

    constructor (retention: Time)
      ensures this.retention == retention && state == map[]
    {
      this.retention, state := retention, map[];
    }

    method Apply(e: Event)
      modifies this
      ensures state == ApplyEvent(MINUTE, old(state), e)
    {
      if !e.body.Packet? {
        return;
      }
      var p := e.body.packet;
      if |p.sourcePrefix| == 0 {
        return;
      }
      var k := Key(e.observer, p.sourcePrefix, Truncate(e.ts, MINUTE));
      var acc := if k in state then state[k] else FRESH;
      var core := CountPacket(acc.core, p.rssi);
      state := state[k := acc.(core := core, dirty := true)];
    }

    /** `fault` counts the answers the database still gives before it fails: one per
        query, one per row, one per write. None is a database that does not fail. */
    method Flush(table: Table, fault: Option<nat>) returns (ok: bool, table': Table, ghost tear: Tear)
      modifies this
      ensures fault.None? ==> ok
      ensures ok ==> state == FlushState(old(state), table) && table' == FlushTable(old(state), table)
      ensures !ok ==> state == TornState(old(state), table, tear)
    {
      ghost var s0 := state;
      var left;
      table' := table;
      ok, left, tear := RehydrateUnloaded(table, fault);
      if ok {
        ghost var written;
        ok, table', written := WriteDirty(table, left);
        tear := Writing(written);
        MarkedIsTorn(s0, table, written);
        if ok {
          MarkedIsFlushed(s0, table, written);
          UpsertedIsFlushed(s0, table, table', written);
        }
      }
    }

    /** The upsert loop of Flush. */
    method WriteDirty(table: Table, fault: Option<nat>) returns (ok: bool, table': Table, ghost written: set<Key>)
      modifies this
      ensures fault.None? ==> ok
      ensures ok ==> written == old(state).Keys
      ensures state == Marked(old(state), written) && Upserted(old(state), table, table', written)
    {
      ghost var s0 := state;
      table', written := table, {};
      var left, todo := fault, state.Keys;
      while todo != {}
        invariant fault.None? ==> left.None?
        invariant written == s0.Keys - todo && todo <= s0.Keys
        invariant state == Marked(s0, written) && Upserted(s0, table, table', written)
      {
        var k :| k in todo;
        UpsertOne(s0, table, table', written, k);
        var acc := state[k];
        if acc.dirty {
          if left == Some(0) {
            ok := false;
            return;
          }
          left := Spent(left);
          table' := table'[k := ToRow(acc.core)];
          state := state[k := acc.(dirty := false)];
        }
        todo, written := todo - {k}, written + {k};
      }
      ok := true;
    }

    method RehydrateUnloaded(table: Table, fault: Option<nat>) returns (ok: bool, left: Option<nat>, ghost tear: Tear)
      modifies this
      ensures fault.None? ==> ok && left.None?
      ensures ok ==> state == Loaded(old(state), table)
      ensures !ok ==> state == TornState(old(state), table, tear)
    {
      var pending := set k | k in state && !state[k].loaded && state[k].dirty;
      var rows := set k | k in pending && k in table;
      ok, left, tear := pending == {}, fault, Merging({});
      if ok || left == Some(0) {
        assert forall k :: k in state && pending == {} ==> k !in pending;
        return;
      }
      left := Spent(left);
      while rows != {}
        invariant fault.None? ==> left.None?
        invariant rows <= pending && rows <= table.Keys
        invariant state.Keys == old(state).Keys
        invariant forall k :: k in state ==>
          state[k] == if k in pending && k !in rows && k in table
                      then old(state)[k].(core := MergeRow(old(state)[k].core, table[k])) else old(state)[k]
      {
        if left == Some(0) {
          tear := Merging(pending - rows);
          return;
        }
        left := Spent(left);
        var k :| k in rows;
        state := state[k := state[k].(core := MergeRow(state[k].core, table[k]))];
        rows := rows - {k};
      }
      state := map k | k in state :: if k in pending then state[k].(loaded := true) else state[k];
      ok := true;
    }

    method Evict(hwm: Time)
      modifies this
      ensures state == Evicted(MINUTE, retention, old(state), hwm)
    {
      var cutoff := hwm - retention;
      var todo := state.Keys;
      while todo != {}
        invariant todo <= old(state).Keys
        invariant state == map k | k in old(state) && (k in todo || old(state)[k].dirty || k.bucket + MINUTE >= cutoff) ::
                             old(state)[k]
      {
        var k :| k in todo;
        if !state[k].dirty && k.bucket + MINUTE < cutoff {
          state := state - {k};
        }
        todo := todo - {k};
      }
      state := map k | k in state :: state[k].(dirty := false);
    }

    method Clear()
      modifies this
      ensures state == map[]
    {
      state := map[];
    }
  }
}
