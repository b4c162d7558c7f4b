/** The decoded event log that every projection stage consumes, and the clock
    arithmetic the stages share. Decoding itself is not part of this model. */
module Events {

  datatype Option<+T> = None | Some(value: T)

  newtype Byte = b: int | 0 <= b < 256
  type Bytes = seq<Byte>

  /** Microseconds since the zero value of Go's time.Time, so that 0 is "unset". */
  type Time = int

  type Duration = d: Time | d > 0 witness 1

  const MINUTE: Duration := 60_000_000
  const HOUR: Duration := 3_600_000_000

  /** Advert.Timestamp and the advert's descriptive payload. */
  datatype Description = Description(
    nodeType: string,
    name: string,
    latLon: Option<(int, int)>,
    feat1: Option<int>,
    feat2: Option<int>)

  datatype Advert = Advert(publicKey: Bytes, timestamp: Time, description: Description)

  datatype StatusPayload = StatusPayload(
    status: string,
    origin: string,
    model: string,
    firmwareVersion: string,
    clientVersion: string,
    source: string,
    radioFreqKHz: Option<int>,
    radioSF: Option<int>,
    radioCR: Option<int>,
    uptimeSecs: Option<int>,
    batteryMV: Option<int>,
    queueLen: Option<int>,
    noiseFloor: Option<int>,
    lastRSSI: Option<int>)

  /** A hash of None is the nil slice, stored as NULL; Some([]) is the empty
      but non-nil slice, which is stored as an empty bytea. */
  datatype PacketPayload = PacketPayload(
    hash: Option<Bytes>,
    packetType: string,
    route: string,
    rssi: Option<int>,
    decodedType: Option<int>,
    sourcePrefix: Bytes,
    advert: Option<Advert>)

  datatype Body = Status(status: StatusPayload) | Packet(packet: PacketPayload)

  datatype Event = Event(rawId: nat, ts: Time, observer: Bytes, region: string, body: Body)

  /** What the stages rely on: a wall-clock reception time is after the zero
      time, and an advert's timestamp is a Unix time, so it is too. */
  predicate WellTimed(e: Event) {
    && e.ts > 0
    && (e.body.Packet? && e.body.packet.advert.Some? ==> e.body.packet.advert.value.timestamp > 0)
  }

  predicate AllWellTimed(es: seq<Event>) {
    forall e :: e in es ==> WellTimed(e)
  }

  /** Where a failed attempt stopped: before a stage's flush, in it, or after it. */
  datatype Reach<T> = Before | Within(tear: T) | After

  /** One answer of a database that fails after some number of them, or never. */
  function Spent(left: Option<nat>): Option<nat>
    requires left != Some(0)
  {
    if left.Some? then Some(left.value - 1) else None
  }

  /** time.Truncate for times after the zero time. */
  function Truncate(t: Time, d: Duration): Time {
    d * (t / d)
  }

  /** A bucket start: a time that Truncate leaves alone. */
  predicate Aligned(start: Time, d: Duration) {
    start == Truncate(start, d)
  }

  lemma {:induction false} MultipleGrows(d: int, m: int)
    requires d > 0 && m > 0
    ensures d * m >= d
    decreases m
  {
    if m > 1 {
      MultipleGrows(d, m - 1);
      assert d * m == d * (m - 1) + d;
    }
  }

  lemma SmallMultiple(d: int, m: int)
    requires d > 0 && -d < d * m < d
    ensures m == 0
  {
    assert d * -m == -(d * m);
    if m > 0 {
      MultipleGrows(d, m);
    } else if m < 0 {
      MultipleGrows(d, -m);
    }
  }

  lemma QuotientIs(t: int, q: int, d: int)
    requires d > 0 && d * q <= t < d * q + d
    ensures t / d == q
  {
    assert t == d * (t / d) + t % d;
    assert d * (t / d - q) == d * (t / d) - d * q;
    SmallMultiple(d, t / d - q);
  }

  lemma TruncateAligned(t: Time, d: Duration)
    ensures Aligned(Truncate(t, d), d)
    ensures Truncate(t, d) <= t < Truncate(t, d) + d
  {
    assert t == d * (t / d) + t % d;
    QuotientIs(Truncate(t, d), t / d, d);
  }

  /** A time is in the bucket that starts at `start` exactly when it truncates
      to it: the range test of the SQL and the Go key agree. */
  lemma TruncateIsRange(t: Time, start: Time, d: Duration)
    requires Aligned(start, d)
    ensures Truncate(t, d) == start <==> start <= t < start + d
  {
    TruncateAligned(t, d);
    if start <= t < start + d {
      QuotientIs(t, start / d, d);
    }
  }

  /** The greatest event time of a batch, 0 for a batch without events. */
  function HighWater(es: seq<Event>): Time {
    if es == [] then 0
    else
      var h := HighWater(es[..|es| - 1]);
      if es[|es| - 1].ts > h then es[|es| - 1].ts else h
  }

  function Get<K, V>(m: map<K, V>, k: K): Option<V> {
    if k in m then Some(m[k]) else None
  }

  lemma GetEqual<K(!new), V>(m: map<K, V>, n: map<K, V>)
    requires forall k :: Get(m, k) == Get(n, k)
    ensures m == n
  {
    forall k
      ensures k in m <==> k in n
      ensures k in m ==> m[k] == n[k]
    {
      assert Get(m, k) == Get(n, k);
    }
  }

  /** The last value that f reads from the log, if it reads any. */
  ghost predicate IsLast<T>(v: Option<T>, es: seq<Event>, f: Event -> Option<T>) {
    if v.None? then forall i :: 0 <= i < |es| ==> f(es[i]).None?
    else exists i :: 0 <= i < |es| && f(es[i]) == v && forall j :: i < j < |es| ==> f(es[j]).None?
  }

  ghost predicate IsFirst<T>(v: Option<T>, es: seq<Event>, f: Event -> Option<T>) {
    if v.None? then forall i :: 0 <= i < |es| ==> f(es[i]).None?
    else exists i :: 0 <= i < |es| && f(es[i]) == v && forall j :: 0 <= j < i ==> f(es[j]).None?
  }

  lemma LastSnoc<T>(v: Option<T>, es: seq<Event>, e: Event, f: Event -> Option<T>)
    requires IsLast(v, es, f)
    ensures IsLast(if f(e).Some? then f(e) else v, es + [e], f)
  {
    var all := es + [e];
    assert all[|es|] == e;
    if f(e).None? && v.Some? {
      var i :| 0 <= i < |es| && f(es[i]) == v && forall j :: i < j < |es| ==> f(es[j]).None?;
      assert f(all[i]) == v && forall j :: i < j < |all| ==> f(all[j]).None?;
    }
  }

  lemma FirstSnoc<T>(v: Option<T>, es: seq<Event>, e: Event, f: Event -> Option<T>)
    requires IsFirst(v, es, f)
    ensures IsFirst(if v.Some? then v else f(e), es + [e], f)
  {
    var all := es + [e];
    assert all[|es|] == e;
    if v.Some? {
      var i :| 0 <= i < |es| && f(es[i]) == v && forall j :: 0 <= j < i ==> f(es[j]).None?;
      assert f(all[i]) == v && forall j :: 0 <= j < i ==> f(all[j]).None?;
    } else if f(e).Some? {
      assert forall j :: 0 <= j < |es| ==> f(all[j]).None?;
    }
  }

  /** Where in a sequence the elements with a property are. */
  function Positions<T>(s: seq<T>, p: T -> bool): set<nat> {
    set i | 0 <= i < |s| && p(s[i]) :: i
  }

  lemma PositionsSnoc<T>(s: seq<T>, x: T, p: T -> bool)
    ensures |Positions(s + [x], p)| == |Positions(s, p)| + if p(x) then 1 else 0
  {
    var all, n := s + [x], |s|;
    assert all[n] == x && forall i :: 0 <= i < n ==> all[i] == s[i];
    assert Positions(all, p) == Positions(s, p) + (if p(x) then {n} else {});
  }

  lemma SamePositions<T>(s: seq<T>, p: T -> bool, q: T -> bool)
    requires forall x :: x in s ==> p(x) == q(x)
    ensures Positions(s, p) == Positions(s, q)
  {}

  /** The total of a number that each element has. */
  function Total<T>(s: seq<T>, f: T -> int): int {
    if s == [] then 0 else Total(s[..|s| - 1], f) + f(s[|s| - 1])
  }

  lemma TotalSnoc<T>(s: seq<T>, x: T, f: T -> int)
    ensures Total(s + [x], f) == Total(s, f) + f(x)
  {
    assert (s + [x])[..|s|] == s;
  }

  lemma {:induction false} Concat<T>(a: seq<T>, b: seq<T>, p: T -> bool, f: T -> int)
    ensures |Positions(a + b, p)| == |Positions(a, p)| + |Positions(b, p)|
    ensures Total(a + b, f) == Total(a, f) + Total(b, f)
  {
    if b == [] {
      assert a + b == a && Positions(b, p) == {};
    } else {
      var init, last := b[..|b| - 1], b[|b| - 1];
      assert a + b == (a + init) + [last] && b == init + [last];
      Concat(a, init, p, f);
      PositionsSnoc(a + init, last, p);
      PositionsSnoc(init, last, p);
      TotalSnoc(a + init, last, f);
    }
  }

  lemma {:induction false} SameTotal<T>(s: seq<T>, f: T -> int, g: T -> int)
    requires forall x :: x in s ==> f(x) == g(x)
    ensures Total(s, f) == Total(s, g)
  {
    if s != [] {
      SameTotal(s[..|s| - 1], f, g);
    }
  }

  /** A text column with content. */
  function Filled(s: string): Option<string> {
    if s == "" then None else Some(s)
  }

  function Least(a: Option<int>, b: Option<int>): Option<int> {
    if a.None? then b else if b.None? then a else if b.value < a.value then b else a
  }

  function Greatest(a: Option<int>, b: Option<int>): Option<int> {
    if a.None? then b else if b.None? then a else if b.value > a.value then b else a
  }
}
