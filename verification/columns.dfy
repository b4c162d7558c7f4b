/** What each column of each table is, in every run, in terms of the fields of the
    log's events and nothing else. */
module Columns {
  import opened Events
  import opened RollupCore
  import opened PacketObservationsStage
  import opened Projection
  import opened Invariants
  import opened Readings
  import opened Transparency
  import opened Averages
  import O = ObserversStage
  import S = ObserverStatusStage
  import N = NodesStage
  import U = PacketsUniqueStage
  import R = RollupObserverStage
  import B = RollupNeighborStage

  /* ---------- observers and observer_status: every run ---------- */

  /** An observer has a row exactly if it has sent a status, and each column is the last
      non-empty value of its field, or the first or last time. */
  lemma ObserverColumns(cfg: Config, steps: seq<Step>, k: Bytes)
    requires Legal(steps)
    ensures var rows, log := Run(cfg, steps).tables.observers, Of(steps).log;
            && (k in rows <==> exists e :: e in log && e.body.Status? && e.observer == k)
            && (k in rows ==> O.Describes(rows[k], log, k))
  {
    RunObservers(cfg, steps);
    assert Get(Run(cfg, steps).tables.observers, k) == O.Fold(Of(steps).log, k);
    O.FoldMeaning(Of(steps).log, k);
  }

  /** A status of this observer at this time. */
  predicate Sends(e: Event, k: S.Key) {
    e.body.Status? && e.observer == k.observer && e.ts == k.ts
  }

  lemma {:induction false} FirstIs(es: seq<Event>, k: S.Key)
    ensures S.First(S.Samples(es), k).None? <==> forall e :: e in es ==> !Sends(e, k)
    ensures S.First(S.Samples(es), k).Some? ==>
              exists i :: 0 <= i < |es| && Sends(es[i], k) && S.First(S.Samples(es), k) == Some(es[i].body.status)
                          && forall j :: 0 <= j < i ==> !Sends(es[j], k)
  {
    if es != [] {
      var init, e := es[..|es| - 1], es[|es| - 1];
      assert es == init + [e];
      FirstIs(init, k);
      if S.First(S.Samples(init), k).Some? {
        var i :| 0 <= i < |init| && Sends(init[i], k) && S.First(S.Samples(init), k) == Some(init[i].body.status)
                 && forall j :: 0 <= j < i ==> !Sends(init[j], k);
        assert es[i] == init[i] && forall j :: 0 <= j < i ==> es[j] == init[j];
      } else if Sends(e, k) {
        assert forall j :: 0 <= j < |init| ==> es[j] in init;
        assert es[|init|] == e;
      }
    }
  }

  /** A row holds the whole payload of the first status of its observer and time. */
  lemma StatusColumns(cfg: Config, steps: seq<Step>, k: S.Key)
    requires Legal(steps)
    ensures var rows, log := Run(cfg, steps).tables.status, Of(steps).log;
            && (k in rows <==> exists e :: e in log && Sends(e, k))
            && (k in rows ==> exists i :: 0 <= i < |log| && Sends(log[i], k) && rows[k] == log[i].body.status
                                          && forall j :: 0 <= j < i ==> !Sends(log[j], k))
  {
    RunStatus(cfg, steps);
    assert Get(Run(cfg, steps).tables.status, k) == S.First(S.Samples(Of(steps).log), k);
    FirstIs(Of(steps).log, k);
  }

  /* ---------- packets_unique: every run ---------- */

  /** A packet with this hash. */
  predicate Carries(e: Event, h: Bytes) {
    e.body.Packet? && e.body.packet.hash == Some(h)
  }

  function HeardBy(log: seq<Event>, h: Bytes): set<Bytes> {
    set e | e in log && Carries(e, h) :: e.observer
  }

  /** What a row of packets_unique says of the packets with its hash: its first and last
      time, the last non-empty labels, the first source, and how many observers heard it. */
  ghost predicate Gathers(r: U.Row, log: seq<Event>, h: Bytes) {
    && (forall e :: e in log && Carries(e, h) ==> r.firstSeen <= e.ts <= r.lastSeen)
    && (exists e :: e in log && Carries(e, h) && e.ts == r.firstSeen)
    && (exists e :: e in log && Carries(e, h) && e.ts == r.lastSeen)
    && IsLast(Filled(r.packetType), log, U.TypeOf(h)) && IsLast(Filled(r.route), log, U.RouteOf(h))
    && IsLast(r.decodedType, log, U.DecodedTypeOf(h)) && IsFirst(r.source, log, U.SourceOf(h))
    && r.observerCount == |HeardBy(log, h)|
  }

  lemma FoldGathers(log: seq<Event>, h: Bytes)
    requires h != []
    ensures U.Fold(log, h).Some? <==> exists e :: e in log && Carries(e, h)
    ensures U.Fold(log, h).Some? ==> Gathers(U.RowOf(U.Fold(log, h).value), log, h)
  {
    assert forall e :: U.Hits(h, e) <==> Carries(e, h);
    U.FoldObservers(log, h);
    if U.Fold(log, h).Some? {
      U.FoldTimes(log, h);
      U.FoldLabels(log, h);
      assert U.Fold(log, h).value.observers == HeardBy(log, h);
    }
  }

  /** A non-empty hash has a row exactly if a packet carries it. */
  lemma UniqueColumns(cfg: Config, steps: seq<Step>, h: Bytes)
    requires Legal(steps) && h != []
    ensures var rows, log := Run(cfg, steps).tables.unique, Of(steps).log;
            && (h in rows <==> exists e :: e in log && Carries(e, h))
            && (h in rows ==> Gathers(rows[h], log, h))
  {
    RunUnique(cfg, steps);
    assert U.Stored(Get(Run(cfg, steps).tables.unique, h), Of(steps).log, h);
    FoldGathers(Of(steps).log, h);
  }

  /* ---------- packet_observations and nodes: runs without failed attempts ---------- */

  function IsPacket(): Event -> bool {
    (e: Event) => e.body.Packet?
  }

  lemma {:induction false} ObservedAt(es: seq<Event>, i: nat)
    requires i < |es| && es[i].body.Packet?
    ensures |Observed(es)| == |Positions(es, IsPacket())|
    ensures var n := |Positions(es[..i], IsPacket())|;
            n < |Observed(es)| && Observed(es)[n] == Observation(es[i].ts, es[i].observer, es[i].body.packet)
  {
    ObservedCount(es);
    var before, after := es[..i], es[i + 1..];
    assert es == before + ([es[i]] + after);
    ObservedConcat(before, [es[i]] + after);
    ObservedConcat([es[i]], after);
    ObservedCount(before);
    assert [es[i]][..0] == [];
    assert Observed([es[i]]) == [Observation(es[i].ts, es[i].observer, es[i].body.packet)];
  }

  lemma {:induction false} ObservedCount(es: seq<Event>)
    ensures |Observed(es)| == |Positions(es, IsPacket())|
  {
    if es == [] {
      assert Positions(es, IsPacket()) == {};
    } else {
      var init, e := es[..|es| - 1], es[|es| - 1];
      assert es == init + [e];
      ObservedCount(init);
      PositionsSnoc(init, e, IsPacket());
    }
  }

  /** The n-th row is the n-th packet of the log, with its time, observer and payload. */
  lemma ObservationColumns(cfg: Config, steps: seq<Step>, i: nat)
    requires Legal(steps) && NoAborts(steps) && i < |Of(steps).log| && Of(steps).log[i].body.Packet?
    ensures var rows, log := Run(cfg, steps).tables.observations, Of(steps).log;
            var n := |Positions(log[..i], IsPacket())|;
            && |rows| == |Positions(log, IsPacket())| && n < |rows|
            && rows[n].ts == log[i].ts && rows[n].observer == log[i].observer && rows[n].packet == log[i].body.packet
  {
    RunObservations(cfg, steps);
    AbsorbedOnce(steps);
    ObservedAt(Of(steps).log, i);
  }

  /** A packet that carries an advert of this key. */
  predicate Advertises(e: Event, k: Bytes) {
    e.body.Packet? && e.body.packet.advert.Some? && e.body.packet.advert.value.publicKey == k && k != []
  }

  function Adverts(k: Bytes): Event -> bool {
    (e: Event) => Advertises(e, k)
  }

  function Stamp(e: Event): Time
    requires e.body.Packet? && e.body.packet.advert.Some?
  {
    e.body.packet.advert.value.timestamp
  }

  /** What a node's row says of the adverts in a log. */
  ghost predicate Tells(r: N.Row, es: seq<Event>, k: Bytes) {
    && r.count == |Positions(es, Adverts(k))|
    && r.advertTS.Some? && r.receivedAt.Some?
    && (forall e :: e in es && Advertises(e, k) ==>
          && r.firstSeen <= e.ts <= r.lastSeen
          && Stamp(e) <= r.advertTS.value
          && (Stamp(e) == r.advertTS.value ==> r.receivedAt.value <= e.ts))
    && (exists e :: e in es && Advertises(e, k) && e.ts == r.firstSeen)
    && (exists e :: e in es && Advertises(e, k) && e.ts == r.lastSeen)
    && ReceivedFrom(r.advertTS.value, r.receivedAt.value, es, k)
    && DescribedFrom(r.advertTS.value, r.description, es, k)
  }

  /** Some advert with this timestamp was received then. */
  ghost predicate ReceivedFrom(stamp: Time, at: Time, es: seq<Event>, k: Bytes) {
    exists i :: 0 <= i < |es| && Advertises(es[i], k) && Stamp(es[i]) == stamp && es[i].ts == at
  }

  /** The first advert with this timestamp, none before it having as great a one, is
      described so. */
  ghost predicate DescribedFrom(stamp: Time, description: Description, es: seq<Event>, k: Bytes) {
    exists i :: 0 <= i < |es| && Advertises(es[i], k) && Stamp(es[i]) == stamp
                && es[i].body.packet.advert.value.description == description
                && forall j :: 0 <= j < i && Advertises(es[j], k) ==> Stamp(es[j]) < stamp
  }

  lemma NodeReceived(n: N.Node, es: seq<Event>, k: Bytes)
    requires N.ReceivedFromOne(n, es, k)
    ensures ReceivedFrom(n.advertTS, n.receivedAt, es, k)
  {
    var i: nat :| N.Received(n, es, k, i);
    assert Advertises(es[i], k) && Stamp(es[i]) == n.advertTS;
  }

  lemma NodeDescribed(n: N.Node, es: seq<Event>, k: Bytes)
    requires N.DescribedByFirst(n, es, k)
    ensures DescribedFrom(n.advertTS, n.description, es, k)
  {
    var i: nat :| N.Describes(n, es, k, i) && forall j :: 0 <= j < i && N.Hits(k, es[j]) ==> N.One(es[j]).advertTS < n.advertTS;
    assert Advertises(es[i], k) && Stamp(es[i]) == n.advertTS;
    assert forall j :: 0 <= j < i && Advertises(es[j], k) ==> N.Hits(k, es[j]);
  }

  lemma NodeTells(es: seq<Event>, k: Bytes)
    ensures N.Fold(es, k).Some? <==> exists e :: e in es && Advertises(e, k)
    ensures N.Fold(es, k).Some? ==> Tells(N.RowOf(N.Fold(es, k).value), es, k)
  {
    N.FoldBounds(es, k);
    N.FoldCounts(es, k);
    SamePositions(es, Adverts(k), e => N.Hits(k, e));
    if N.Fold(es, k).Some? {
      N.FoldDescribed(es, k);
      N.FoldReceived(es, k);
      NodeReceived(N.Fold(es, k).value, es, k);
      NodeDescribed(N.Fold(es, k).value, es, k);
    }
  }

  lemma NodeColumns(cfg: Config, steps: seq<Step>, k: Bytes)
    requires Legal(steps) && NoAborts(steps)
    ensures var rows, log := Run(cfg, steps).tables.nodes, Of(steps).log;
            && (k in rows <==> exists e :: e in log && Advertises(e, k))
            && (k in rows ==> Tells(rows[k], log, k))
  {
    RunNodes(cfg, steps);
    AbsorbedOnce(steps);
    assert NodeStored(Run(cfg, steps).tables.nodes, Of(steps).absorbed, k);
    NodeTells(Of(steps).log, k);
  }

  /* ---------- the rollups: runs without failed attempts ---------- */

  /** Null together without values, else the least and the greatest value, each that
      of some event. */
  ghost predicate Extremes(lo: Option<int>, hi: Option<int>, es: seq<Event>, v: Event -> Option<int>) {
    && (lo.Some? <==> hi.Some?)
    && (forall e :: e in es && v(e).Some? ==> lo.Some? && lo.value <= v(e).value <= hi.value)
    && (lo.Some? ==> exists e :: e in es && v(e) == lo)
    && (hi.Some? ==> exists e :: e in es && v(e) == hi)
  }

  lemma ExtremesSnoc(c: Core, es: seq<Event>, e: Event, v: Event -> Option<int>)
    requires Extremes(c.lo, c.hi, es, v)
    ensures Extremes(AddPacket(c, v(e)).lo, AddPacket(c, v(e)).hi, es + [e], v)
  {
    var all := es + [e];
    assert e in all;
    if c.lo.Some? {
      var x :| x in es && v(x) == c.lo;
      var y :| y in es && v(y) == c.hi;
      assert x in all && y in all;
    }
  }

  function RssiIn(dur: Duration, k: R.Key): Event -> Option<int> {
    (e: Event) => if InBucket(dur, k)(e) && e.body.Packet? then e.body.packet.rssi else None
  }

  lemma {:induction false} FoldExtremes(dur: Duration, es: seq<Event>, k: R.Key)
    requires Aligned(k.bucket, dur)
    ensures Extremes(R.Fold(dur, es, k).core.lo, R.Fold(dur, es, k).core.hi, es, RssiIn(dur, k))
  {
    if es != [] {
      var init, e := es[..|es| - 1], es[|es| - 1];
      assert es == init + [e];
      FoldExtremes(dur, init, k);
      TruncateIsRange(e.ts, k.bucket, dur);
      var c, v := R.Fold(dur, init, k).core, RssiIn(dur, k);
      assert R.Hits(dur, k, e) <==> InBucket(dur, k)(e);
      R.FoldSnoc(dur, init, e, k);
      ExtremesSnoc(c, init, e, v);
      assert R.Fold(dur, es, k).core.lo == AddPacket(c, v(e)).lo && R.Fold(dur, es, k).core.hi == AddPacket(c, v(e)).hi;
    }
  }

  function Routed(dur: Duration, k: R.Key, route: string): Event -> bool {
    (e: Event) => InBucket(dur, k)(e) && e.body.Packet? && e.body.packet.route == route
  }

  /** The distinct non-empty hashes of the bucket's packets. */
  function HashesOf(dur: Duration, es: seq<Event>, k: R.Key): set<Bytes> {
    set e | e in es && InBucket(dur, k)(e) && e.body.Packet? && e.body.packet.hash.Some? && e.body.packet.hash.value != [] :: e.body.packet.hash.value
  }

  /** A status of the bucket with a noise floor. */
  predicate Reports(dur: Duration, k: R.Key, e: Event) {
    e.body.Status? && e.body.status.noiseFloor.Some? && e.observer == k.observer && k.bucket <= e.ts < k.bucket + dur
  }

  /** The noise floor of the newest such status, of the first one among equals. */
  ghost predicate IsNewest(floor: Option<int>, dur: Duration, es: seq<Event>, k: R.Key) {
    if floor.None? then forall i :: 0 <= i < |es| ==> !Reports(dur, k, es[i])
    else exists i :: NewestAt(dur, es, k, i) && es[i].body.status.noiseFloor == floor
  }

  predicate NewestAt(dur: Duration, es: seq<Event>, k: R.Key, i: int) {
    && 0 <= i < |es| && Reports(dur, k, es[i])
    && forall j :: 0 <= j < |es| && Reports(dur, k, es[j]) ==> es[j].ts <= es[i].ts && (j < i ==> es[j].ts < es[i].ts)
  }

  lemma {:induction false} NoiseIsNewest(dur: Duration, es: seq<Event>, k: R.Key)
    requires Aligned(k.bucket, dur)
    ensures IsNewest(R.Floor(R.Noise(dur, es, k)), dur, es, k)
    ensures R.Noise(dur, es, k).Some? ==>
              exists i :: NewestAt(dur, es, k, i) && es[i].ts == R.Noise(dur, es, k).value.ts
                          && es[i].body.status.noiseFloor == R.Floor(R.Noise(dur, es, k))
  {
    if es != [] {
      var init, e := es[..|es| - 1], es[|es| - 1];
      assert es == init + [e];
      NoiseIsNewest(dur, init, k);
      TruncateIsRange(e.ts, k.bucket, dur);
      R.NoiseSnoc(dur, init, e, k);
      var n := R.Noise(dur, init, k);
      if n.Some? {
        var i :| NewestAt(dur, init, k, i) && init[i].ts == n.value.ts && init[i].body.status.noiseFloor == R.Floor(n);
        if Reports(dur, k, e) && e.ts > n.value.ts {
          assert NewestAt(dur, es, k, |init|);
        } else {
          assert NewestAt(dur, es, k, i);
        }
      } else if Reports(dur, k, e) {
        assert NewestAt(dur, es, k, |init|);
      }
    }
  }

  /** What the counting columns of a row say of the log. */
  ghost predicate RowCounts(dur: Duration, r: R.Row, es: seq<Event>, k: R.Key) {
    && r.core.packets == |Positions(es, InBucket(dur, k))|
    && r.flood == |Positions(es, Routed(dur, k, "F"))|
    && r.direct == |Positions(es, Routed(dur, k, "D"))|
    && Extremes(r.core.lo, r.core.hi, es, RssiIn(dur, k))
  }

  lemma FoldRow(dur: Duration, r: R.Row, es: seq<Event>, k: R.Key)
    requires Aligned(k.bucket, dur) && R.RowAgrees(r, R.Fold(dur, es, k))
    ensures RowCounts(dur, r, es, k)
  {
    FoldSamples(dur, es, k);
    FoldExtremes(dur, es, k);
    R.FoldCounts(dur, es, k);
    forall e | e in es
      ensures R.InBucketWith(dur, k, Some("F"))(e) == Routed(dur, k, "F")(e)
      ensures R.InBucketWith(dur, k, Some("D"))(e) == Routed(dur, k, "D")(e)
    {
      TruncateIsRange(e.ts, k.bucket, dur);
    }
    SamePositions(es, R.InBucketWith(dur, k, Some("F")), Routed(dur, k, "F"));
    SamePositions(es, R.InBucketWith(dur, k, Some("D")), Routed(dur, k, "D"));
  }

  lemma FoldDistinct(dur: Duration, es: seq<Event>, k: R.Key)
    requires Aligned(k.bucket, dur)
    ensures R.Fold(dur, es, k).hashes == HashesOf(dur, es, k)
  {
    R.FoldHashes(dur, es, k);
    forall e
      ensures R.Hits(dur, k, e) <==> InBucket(dur, k)(e)
    {
      TruncateIsRange(e.ts, k.bucket, dur);
    }
  }

  lemma TouchedIs(dur: Duration, es: seq<Event>, k: R.Key)
    requires Aligned(k.bucket, dur)
    ensures R.Touched(dur, es, k) <==> exists e :: e in es && (InBucket(dur, k)(e) || Reports(dur, k, e))
  {
    forall e
      ensures R.Touches(dur, k, e) <==> InBucket(dur, k)(e) || Reports(dur, k, e)
    {
      TruncateIsRange(e.ts, k.bucket, dur);
    }
  }

  /** A bucket has a row exactly if a packet or a noise floor falls into it, and its
      columns are those of the packets and statuses in its time range. */
  lemma RollupColumns(cfg: Config, steps: seq<Step>, g: Grain, k: R.Key)
    requires Legal(steps) && NoAborts(steps) && Aligned(k.bucket, Span(g))
    ensures var rows, log := Rows(g, Run(cfg, steps).tables), Of(steps).log;
            && (k in rows <==> exists e :: e in log && (InBucket(Span(g), k)(e) || Reports(Span(g), k, e)))
            && (k in rows ==> RowCounts(Span(g), rows[k], log, k))
            && (k in rows && !R.Poisoned(Span(g), log, k) ==> rows[k].unique == |HashesOf(Span(g), log, k)|)
            && (k in rows && R.ReloadSafe(Span(g), log, k) ==> IsNewest(rows[k].noiseFloor, Span(g), log, k))
  {
    var rows, log := Rows(g, Run(cfg, steps).tables), Of(steps).log;
    CacheTransparency(cfg, steps, g, k);
    TouchedIs(Span(g), log, k);
    FoldDistinct(Span(g), log, k);
    NoiseIsNewest(Span(g), log, k);
    if k in rows {
      FoldRow(Span(g), rows[k], log, k);
    }
  }

  function RssiOf(k: B.Key): Event -> Option<int> {
    (e: Event) => if FromSource(k)(e) && e.body.Packet? then e.body.packet.rssi else None
  }

  lemma {:induction false} NeighborExtremes(es: seq<Event>, k: B.Key)
    requires Aligned(k.bucket, MINUTE)
    ensures Extremes(B.Fold(MINUTE, es, k).lo, B.Fold(MINUTE, es, k).hi, es, RssiOf(k))
  {
    if es != [] {
      var init, e := es[..|es| - 1], es[|es| - 1];
      assert es == init + [e];
      NeighborExtremes(init, k);
      TruncateIsRange(e.ts, k.bucket, MINUTE);
      var c, v := B.Fold(MINUTE, init, k), RssiOf(k);
      assert B.Hits(MINUTE, k, e) <==> FromSource(k)(e);
      B.FoldSnoc(MINUTE, init, e, k);
      ExtremesSnoc(c, init, e, v);
      assert B.Fold(MINUTE, es, k).lo == AddPacket(c, v(e)).lo && B.Fold(MINUTE, es, k).hi == AddPacket(c, v(e)).hi;
    }
  }

  lemma NeighborHits(es: seq<Event>, k: B.Key)
    requires Aligned(k.bucket, MINUTE)
    ensures B.Fold(MINUTE, es, k).packets > 0 <==> exists e :: e in es && FromSource(k)(e)
  {
    B.FoldZero(MINUTE, es, k);
    forall e
      ensures B.Hits(MINUTE, k, e) <==> FromSource(k)(e)
    {
      TruncateIsRange(e.ts, k.bucket, MINUTE);
    }
  }

  /** A neighbor row is there exactly if an observer heard that source in the minute,
      and counts the packets it heard. */
  lemma NeighborColumns(cfg: Config, steps: seq<Step>, k: B.Key)
    requires Legal(steps) && NoAborts(steps) && Aligned(k.bucket, MINUTE)
    ensures var rows, log := Run(cfg, steps).tables.neighbor, Of(steps).log;
            && (k in rows <==> exists e :: e in log && FromSource(k)(e))
            && (k in rows ==> rows[k].packets == |Positions(log, FromSource(k))| && Extremes(rows[k].lo, rows[k].hi, log, RssiOf(k)))
  {
    NeighborTransparency(cfg, steps, k);
    NeighborHits(Of(steps).log, k);
    NeighborFoldSamples(Of(steps).log, k);
    NeighborExtremes(Of(steps).log, k);
  }
}
