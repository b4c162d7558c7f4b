/** The packet count and RSSI columns that the observer and the neighbor
    rollups share: a running accumulator, the row it is written as, and the
    lossy way back. Averages are kept in the column's unit, hundredths. */
module RollupCore {
  import opened Events

  datatype Core = Core(packets: nat, sum: int, n: nat, lo: Option<int>, hi: Option<int>)

  datatype CoreRow = CoreRow(packets: nat, avg: Option<int>, lo: Option<int>, hi: Option<int>)

  const EMPTY: Core := Core(0, 0, 0, None, None)

  /** One packet, with or without an RSSI sample. */
  function AddPacket(c: Core, rssi: Option<int>): Core {
    if rssi.None? then c.(packets := c.packets + 1)
    else
      var v := rssi.value;
      Core(c.packets + 1, c.sum + v, c.n + 1,
           if c.lo.None? || v < c.lo.value then Some(v) else c.lo,
           if c.hi.None? || v > c.hi.value then Some(v) else c.hi)
  }

  /** The same, step by step. */
  method CountPacket(c: Core, rssi: Option<int>) returns (core: Core)
    ensures core == AddPacket(c, rssi)
  {
    core := c.(packets := c.packets + 1);
    if rssi.Some? {
      var v := rssi.value;
      core := core.(sum := core.sum + v, n := core.n + 1);
      if core.lo.None? || v < core.lo.value {
        core := core.(lo := Some(v));
      }
      if core.hi.None? || v > core.hi.value {
        core := core.(hi := Some(v));
      }
    }
  }

  /** Storing num/den in a numeric column of scale 0: nearest, ties away from zero. */
  function RoundDiv(num: int, den: nat): int
    requires den > 0
  {
    if num >= 0 then (2 * num + den) / (2 * den) else -((-2 * num + den) / (2 * den))
  }

  /** Go's float-to-integer conversion of num/den: toward zero. */
  function TruncDiv(num: int, den: nat): int
    requires den > 0
  {
    if num >= 0 then num / den else -(-num / den)
  }

  function ToRow(c: Core): CoreRow {
    CoreRow(c.packets, if c.n > 0 then Some(RoundDiv(100 * c.sum, c.n)) else None, c.lo, c.hi)
  }

  /** Adds the history in a stored row: the sum comes back as avg * packets. */
  function MergeRow(c: Core, r: CoreRow): Core {
    var weighted := r.avg.Some? && r.packets > 0;
    Core(c.packets + r.packets,
         if weighted then c.sum + TruncDiv(r.avg.value * r.packets, 100) else c.sum,
         if weighted then c.n + r.packets else c.n,
         if r.lo.Some? && (c.lo.None? || r.lo.value < c.lo.value) then r.lo else c.lo,
         if r.hi.Some? && (c.hi.None? || r.hi.value > c.hi.value) then r.hi else c.hi)
  }

  /** What one row has counted, and what the accumulator in memory has counted
      beyond it. A failed load that has merged the row makes memory count once
      more everything the row holds. */
  datatype Ledger = Ledger(done: seq<Event>, pending: seq<Event>)

  /** A failed attempt: memory absorbs the batch, and the row again if it was merged. */
  function Tried(l: Ledger, es: seq<Event>, again: bool): Ledger {
    Ledger(l.done, if again then l.done + (l.pending + es) else l.pending + es)
  }

  /** A commit: the row takes over what memory holds if it is written. If not, the
      batch had nothing to count, and memory goes on as it was if it is kept. */
  function Committed(l: Ledger, es: seq<Event>, written: bool, kept: bool): Ledger {
    if written then Ledger(l.done + (l.pending + es), [])
    else Ledger(l.done + es, if kept && l.pending != [] then l.pending + es else [])
  }

  /** Two disjoint batches of packets, taken together. */
  function Combine(c: Core, d: Core): Core {
    Core(c.packets + d.packets, c.sum + d.sum, c.n + d.n, Least(c.lo, d.lo), Greatest(c.hi, d.hi))
  }

  lemma AddCombine(c: Core, d: Core, rssi: Option<int>)
    ensures AddPacket(Combine(c, d), rssi) == Combine(c, AddPacket(d, rssi))
  {}

  lemma CombineEmpty(c: Core)
    ensures Combine(c, EMPTY) == c && Combine(EMPTY, c) == c
  {}

  /** Agreement on the columns that survive a reload exactly. */
  predicate SameCounts(c: Core, d: Core) {
    c.packets == d.packets && c.lo == d.lo && c.hi == d.hi
  }

  /** A reload is exact on those columns. */
  lemma MergeCounts(c: Core, r: CoreRow, past: Core)
    requires r.packets == past.packets && r.lo == past.lo && r.hi == past.hi
    ensures SameCounts(MergeRow(c, r), Combine(past, c))
  {}

  /* ---------- min <= avg <= max ---------- */

  /** What every accumulator satisfies, reloaded or not. */
  predicate Balanced(c: Core) {
    && c.n <= c.packets
    && (c.n == 0 <==> c.lo.None?)
    && (c.n == 0 <==> c.hi.None?)
    && (c.n == 0 ==> c.sum == 0)
    && (c.n > 0 ==> c.n * c.lo.value <= c.sum <= c.n * c.hi.value)
  }

  /** The three RSSI columns are null together and otherwise in order. */
  predicate Ordered(r: CoreRow) {
    && (r.avg.None? <==> r.lo.None?)
    && (r.avg.None? <==> r.hi.None?)
    && (r.avg.Some? ==> r.packets > 0 && 100 * r.lo.value <= r.avg.value <= 100 * r.hi.value)
  }

  lemma MulMono(k: nat, a: int, b: int)
    requires a <= b
    ensures k * a <= k * b
  {
    assert k * b - k * a == k * (b - a);
  }

  lemma AddPacketBalanced(c: Core, rssi: Option<int>)
    requires Balanced(c)
    ensures Balanced(AddPacket(c, rssi))
  {
    if rssi.Some? {
      var v, d := rssi.value, AddPacket(c, rssi);
      if c.n > 0 {
        MulMono(c.n, d.lo.value, c.lo.value);
        MulMono(c.n, c.hi.value, d.hi.value);
      }
      assert d.n * d.lo.value == c.n * d.lo.value + d.lo.value;
      assert d.n * d.hi.value == c.n * d.hi.value + d.hi.value;
    }
  }

  /** Rounding is within half a unit, and so never crosses an integer bound. */
  lemma RoundDivNear(num: int, den: nat)
    requires den > 0
    ensures -(den as int) <= 2 * (RoundDiv(num, den) * den - num) <= den
  {
    var a := if num >= 0 then 2 * num + den else -2 * num + den;
    var q := a / (2 * den);
    assert a == (2 * den) * q + a % (2 * den);
    assert (2 * den) * q == 2 * (q * den);
    assert -q * den == -(q * den);
  }

  lemma RoundDivBetween(num: int, den: nat, lo: int, hi: int)
    requires den > 0 && den * lo <= num <= den * hi
    ensures lo <= RoundDiv(num, den) <= hi
  {
    RoundDivNear(num, den);
    var r := RoundDiv(num, den);
    assert den * (hi + 1) == den * hi + den && den * (lo - 1) == den * lo - den;
    if r > hi {
      MulMono(den, hi + 1, r);
    }
    if r < lo {
      MulMono(den, r, lo - 1);
    }
  }

  lemma TruncDivNear(num: int, den: nat)
    requires den > 0
    ensures -(den as int) < den * TruncDiv(num, den) - num < den
    ensures num >= 0 ==> den * TruncDiv(num, den) <= num
    ensures num <= 0 ==> den * TruncDiv(num, den) >= num
  {
    var a := if num >= 0 then num else -num;
    assert a == den * (a / den) + a % den;
    assert den * -(a / den) == -(den * (a / den));
  }

  /** Truncation toward zero never crosses an integer bound either. */
  lemma TruncDivBetween(num: int, lo: int, hi: int)
    requires 100 * lo <= num <= 100 * hi
    ensures lo <= TruncDiv(num, 100) <= hi
  {
    TruncDivNear(num, 100);
  }

  lemma ToRowOrdered(c: Core)
    requires Balanced(c)
    ensures Ordered(ToRow(c))
  {
    if c.n > 0 {
      assert c.n * (100 * c.lo.value) == 100 * (c.n * c.lo.value);
      assert c.n * (100 * c.hi.value) == 100 * (c.n * c.hi.value);
      RoundDivBetween(100 * c.sum, c.n, 100 * c.lo.value, 100 * c.hi.value);
    }
  }

  /** Two samples bounded by their own minima are bounded by any smaller one. */
  lemma BoundsAdd(n: nat, s: int, lo: int, p: nat, t: int, lo': int, least: int)
    requires n * lo <= s && p * lo' <= t && least <= lo && least <= lo'
    ensures (n + p) * least <= s + t
  {
    MulMono(n, least, lo);
    MulMono(p, least, lo');
    assert (n + p) * least == n * least + p * least;
  }

  /** The reloaded sum lies between packets * min and packets * max of its row. */
  lemma ReloadBetween(r: CoreRow)
    requires Ordered(r) && r.avg.Some?
    ensures r.packets * r.lo.value <= TruncDiv(r.avg.value * r.packets, 100) <= r.packets * r.hi.value
  {
    var p := r.packets;
    MulMono(p, 100 * r.lo.value, r.avg.value);
    MulMono(p, r.avg.value, 100 * r.hi.value);
    assert p * (100 * r.lo.value) == 100 * (p * r.lo.value);
    assert p * (100 * r.hi.value) == 100 * (p * r.hi.value);
    TruncDivBetween(r.avg.value * p, p * r.lo.value, p * r.hi.value);
  }

  lemma MergeRowBalanced(c: Core, r: CoreRow)
    requires Balanced(c) && Ordered(r)
    ensures Balanced(MergeRow(c, r))
  {
    if r.avg.Some? {
      var d := MergeRow(c, r);
      var s := TruncDiv(r.avg.value * r.packets, 100);
      ReloadBetween(r);
      var lo, hi := if c.n > 0 then c.lo.value else d.lo.value, if c.n > 0 then c.hi.value else d.hi.value;
      BoundsAdd(c.n, c.sum, lo, r.packets, s, r.lo.value, d.lo.value);
      UpperBoundsAdd(c.n, c.sum, hi, r.packets, s, r.hi.value, d.hi.value);
    }
  }

  lemma UpperBoundsAdd(n: nat, s: int, hi: int, p: nat, t: int, hi': int, greatest: int)
    requires n * hi >= s && p * hi' >= t && greatest >= hi && greatest >= hi'
    ensures (n + p) * greatest >= s + t
  {
    MulMono(n, hi, greatest);
    MulMono(p, hi', greatest);
    assert (n + p) * greatest == n * greatest + p * greatest;
  }

  /* ---------- drift of the average ---------- */

  /** `sum` is off from the true RSSI total by at most what `reloads` reloads of
      a bucket of at most `n` packets can add, counted in units of 1/200. */
  predicate Drift(sum: int, truth: int, n: nat, reloads: nat) {
    -(reloads * (n + 200)) <= 200 * (sum - truth) <= reloads * (n + 200)
  }

  /** The stored average, as 2 * (avg * n - 100 * truth), carries one rounding more. */
  predicate RowDrift(avg: int, truth: int, n: nat, reloads: nat) {
    -(n + reloads * (n + 200)) <= 2 * (avg * n - 100 * truth) <= n + reloads * (n + 200)
  }

  lemma DriftGrows(sum: int, truth: int, n: nat, m: nat, r: nat, r': nat)
    requires Drift(sum, truth, n, r) && n <= m && r <= r'
    ensures Drift(sum, truth, m, r')
  {
    MulMono(r, n + 200, m + 200);
    MulMono(m + 200, r, r');
    assert r * (m + 200) == (m + 200) * r && r' * (m + 200) == (m + 200) * r';
  }

  /** A bucket in which every packet carries an RSSI sample. */
  predicate Sampled(truth: Core) {
    truth.n == truth.packets
  }

  /** An accumulator whose sum has drifted from the one-pass core by `r` reloads. */
  predicate Tracks(c: Core, truth: Core, r: nat) {
    Sampled(truth) ==> c.n == c.packets == truth.packets && Drift(c.sum, truth.sum, truth.packets, r)
  }

  predicate RowTracks(row: CoreRow, truth: Core, r: nat) {
    Sampled(truth) && truth.packets > 0 ==>
      row.packets == truth.packets && row.avg.Some? && RowDrift(row.avg.value, truth.sum, truth.packets, r)
  }

  lemma AddTracks(c: Core, truth: Core, rssi: Option<int>, r: nat)
    requires Tracks(c, truth, r) && Balanced(truth)
    ensures Tracks(AddPacket(c, rssi), AddPacket(truth, rssi), r)
  {
    if Sampled(truth) && rssi.Some? {
      DriftGrows(c.sum, truth.sum, truth.packets, truth.packets + 1, r, r);
      DriftShift(c.sum, truth.sum, rssi.value, truth.packets + 1, r);
    }
  }

  lemma WriteTracks(c: Core, truth: Core, r: nat)
    requires Tracks(c, truth, r)
    ensures RowTracks(ToRow(c), truth, r)
  {
    if Sampled(truth) && truth.packets > 0 {
      RowDriftOf(c.sum, truth.sum, c.n, r);
    }
  }

  /** A reload of the row of `past` under the exact accumulator of `recent`. */
  lemma LoadTracks(row: CoreRow, past: Core, recent: Core, r: nat)
    requires RowTracks(row, past, r) && row.packets == past.packets
    requires Balanced(past) && Balanced(recent)
    requires past.packets == 0 ==> past == EMPTY
    ensures Tracks(MergeRow(recent, row), Combine(past, recent), r + 1)
  {
    var truth := Combine(past, recent);
    if Sampled(truth) {
      assert Sampled(past) && Sampled(recent);
      if past.packets > 0 {
        ReloadDrift(row.avg.value, past.sum, past.packets, r);
        var s := TruncDiv(row.avg.value * row.packets, 100);
        DriftGrows(s, past.sum, past.packets, truth.packets, r + 1, r + 1);
        DriftShift(s, past.sum, recent.sum, truth.packets, r + 1);
      } else {
        DriftZero(recent.sum, truth.packets, r + 1);
      }
    }
  }

  lemma DriftZero(sum: int, n: nat, r: nat)
    ensures Drift(sum, sum, n, r)
  {
    MulMono(r, 0, n + 200);
  }

  lemma DriftShift(sum: int, truth: int, v: int, n: nat, r: nat)
    requires Drift(sum, truth, n, r)
    ensures Drift(sum + v, truth + v, n, r)
  {}

  lemma RowDriftOf(sum: int, truth: int, n: nat, r: nat)
    requires n > 0 && Drift(sum, truth, n, r)
    ensures RowDrift(RoundDiv(100 * sum, n), truth, n, r)
  {
    RoundDivNear(100 * sum, n);
  }

  lemma ReloadDrift(avg: int, truth: int, n: nat, r: nat)
    requires n > 0 && RowDrift(avg, truth, n, r)
    ensures Drift(TruncDiv(avg * n, 100), truth, n, r + 1)
  {
    TruncDivNear(avg * n, 100);
    assert (r + 1) * (n + 200) == r * (n + 200) + n + 200;
  }
}
