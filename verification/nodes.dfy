/** Nodes: one row per advertised public key. A batch is folded in memory and
    then merged into the table, both by the advert's own timestamp. */
module NodesStage {
  import opened Events

  /** A touched node; a time of 0 is unset. */
  datatype Node = Node(
    description: Description,
    advertTS: Time,
    receivedAt: Time,
    count: nat,
    firstSeen: Time,
    lastSeen: Time)

  datatype Row = Row(
    description: Description,
    advertTS: Option<Time>,
    receivedAt: Option<Time>,
    count: nat,
    firstSeen: Time,
    lastSeen: Time)

  type State = map<Bytes, Node>
  type Table = map<Bytes, Row>

  const BLANK: Description := Description("", "", None, None, None)

  /* ---------- what the operations do ---------- */

  predicate Relevant(e: Event) {
    e.body.Packet? && e.body.packet.advert.Some? && e.body.packet.advert.value.publicKey != []
  }

  function KeyOf(e: Event): Bytes
    requires Relevant(e)
  {
    e.body.packet.advert.value.publicKey
  }

  /** The in-memory fold of one advert received at `ts`. */
  function AddAdvert(n: Node, ts: Time, a: Advert): Node {
    var m := n.(count := n.count + 1,
                firstSeen := if ts < n.firstSeen then ts else n.firstSeen,
                lastSeen := if ts > n.lastSeen then ts else n.lastSeen);
    if a.timestamp == m.advertTS then
      if m.receivedAt == 0 || ts < m.receivedAt then m.(receivedAt := ts) else m
    else if a.timestamp > m.advertTS then
      m.(advertTS := a.timestamp, receivedAt := ts, description := a.description)
    else m
  }

  function ApplyEvent(s: State, e: Event): State {
    if !Relevant(e) then s
    else
      var k := KeyOf(e);
      s[k := AddAdvert(if k in s then s[k] else Node(BLANK, 0, 0, 0, e.ts, e.ts), e.ts, e.body.packet.advert.value)]
  }

  function ApplyAll(s: State, es: seq<Event>): State {
    if es == [] then s else ApplyEvent(ApplyAll(s, es[..|es| - 1]), es[|es| - 1])
  }

  function Nullable(t: Time): Option<Time> {
    if t == 0 then None else Some(t)
  }

  /** The upsert. LEAST and GREATEST ignore nulls, as in Postgres. */
  function Upsert(n: Node, row: Option<Row>): Row {
    var ts, at := Nullable(n.advertTS), Nullable(n.receivedAt);
    if row.None? then Row(n.description, ts, at, n.count, n.firstSeen, n.lastSeen)
    else
      var r := row.value;
      var newer := ts.Some? && (r.advertTS.None? || ts.value > r.advertTS.value);
      Row(if newer then n.description else r.description,
          Greatest(r.advertTS, ts),
          if ts.None? then r.receivedAt
          else if newer then at
          else if ts == r.advertTS then Least(r.receivedAt, at)
          else r.receivedAt,
          r.count + n.count,
          if n.firstSeen < r.firstSeen then n.firstSeen else r.firstSeen,
          if n.lastSeen > r.lastSeen then n.lastSeen else r.lastSeen)
  }

  function FlushTable(s: State, t: Table): Table {
    t + map k | k in s :: Upsert(s[k], Get(t, k))
  }

  /* ---------- the one-pass reference ---------- */

  predicate Hits(k: Bytes, e: Event) {
    Relevant(e) && KeyOf(e) == k
  }

  function One(e: Event): Node
    requires Relevant(e)
  {
    var a := e.body.packet.advert.value;
    Node(a.description, a.timestamp, e.ts, 1, e.ts, e.ts)
  }

  /** Earlier adverts `a`, then later ones `b`: the greater timestamp describes
      the node, the earlier description wins a tie, the earliest reception of
      the winning advert is kept. */
  function Then(a: Node, b: Node): Node {
    Node(if b.advertTS > a.advertTS then b.description else a.description,
         if b.advertTS > a.advertTS then b.advertTS else a.advertTS,
         if b.advertTS > a.advertTS then b.receivedAt
         else if b.advertTS == a.advertTS && b.receivedAt < a.receivedAt then b.receivedAt
         else a.receivedAt,
         a.count + b.count,
         if b.firstSeen < a.firstSeen then b.firstSeen else a.firstSeen,
         if b.lastSeen > a.lastSeen then b.lastSeen else a.lastSeen)
  }

  function Append(a: Option<Node>, b: Option<Node>): Option<Node> {
    if a.None? then b else if b.None? then a else Some(Then(a.value, b.value))
  }

  function Fold(es: seq<Event>, k: Bytes): Option<Node> {
    if es == [] then None
    else
      var n, e := Fold(es[..|es| - 1], k), es[|es| - 1];
      if Hits(k, e) then Append(n, Some(One(e))) else n
  }

  function RowOf(n: Node): Row {
    Row(n.description, Some(n.advertTS), Some(n.receivedAt), n.count, n.firstSeen, n.lastSeen)
  }

  lemma FoldSnoc(es: seq<Event>, e: Event, k: Bytes)
    ensures Fold(es + [e], k) == if Hits(k, e) then Append(Fold(es, k), Some(One(e))) else Fold(es, k)
  {
    assert (es + [e])[..|es|] == es;
  }

  lemma AppendAssociative(a: Option<Node>, b: Option<Node>, c: Option<Node>)
    ensures Append(Append(a, b), c) == Append(a, Append(b, c))
  {}

  lemma {:induction false} FoldConcat(a: seq<Event>, b: seq<Event>, k: Bytes)
    ensures Fold(a + b, k) == Append(Fold(a, k), Fold(b, k))
  {
    if b == [] {
      assert a + b == a;
    } else {
      var init, e := b[..|b| - 1], b[|b| - 1];
      assert a + b == (a + init) + [e] && b == init + [e];
      FoldConcat(a, init, k);
      FoldSnoc(a + init, e, k);
      FoldSnoc(init, e, k);
      AppendAssociative(Fold(a, k), Fold(init, k), if Hits(k, e) then Some(One(e)) else None);
    }
  }

  /** In a well-timed log every node has an advert, and was received. */
  lemma {:induction false} FoldIsSet(es: seq<Event>, k: Bytes)
    requires AllWellTimed(es)
    ensures Fold(es, k).Some? ==> Fold(es, k).value.advertTS > 0 && Fold(es, k).value.receivedAt > 0
  {
    if es != [] {
      var init, e := es[..|es| - 1], es[|es| - 1];
      assert es == init + [e] && WellTimed(e);
      FoldIsSet(init, k);
      FoldSnoc(init, e, k);
    }
  }

  /* ---------- batch independence ---------- */

  lemma ApplyAppends(s: State, e: Event, k: Bytes)
    requires WellTimed(e) && (k in s ==> s[k].advertTS > 0 && s[k].receivedAt > 0)
    ensures Get(ApplyEvent(s, e), k) == if Hits(k, e) then Append(Get(s, k), Some(One(e))) else Get(s, k)
  {
    if Hits(k, e) {
      var a := e.body.packet.advert.value;
      assert AddAdvert(Node(BLANK, 0, 0, 0, e.ts, e.ts), e.ts, a) == One(e);
      assert k in s ==> AddAdvert(s[k], e.ts, a) == Then(s[k], One(e));
    }
  }

  /** Memory holds the fold of what it has absorbed since the last commit. */
  lemma {:induction false} ApplyAllIsFold(s: State, pending: seq<Event>, es: seq<Event>, k: Bytes)
    requires AllWellTimed(pending) && AllWellTimed(es)
    requires Get(s, k) == Fold(pending, k)
    ensures Get(ApplyAll(s, es), k) == Fold(pending + es, k)
  {
    if es == [] {
      assert pending + es == pending;
    } else {
      var init, e := es[..|es| - 1], es[|es| - 1];
      assert es == init + [e] && (pending + init) + [e] == pending + es && WellTimed(e);
      ApplyAllIsFold(s, pending, init, k);
      FoldSnoc(pending + init, e, k);
      FoldIsSet(pending + init, k);
      ApplyAppends(ApplyAll(s, init), e, k);
    }
  }

  /** The upsert merges a batch as if its adverts had been folded one by one. */
  lemma UpsertIsFold(done: seq<Event>, pending: seq<Event>, k: Bytes, row: Option<Row>)
    requires AllWellTimed(done) && AllWellTimed(pending)
    requires row == if Fold(done, k).Some? then Some(RowOf(Fold(done, k).value)) else None
    ensures if Fold(pending, k).None? then Fold(done + pending, k) == Fold(done, k)
            else Fold(done + pending, k).Some?
                 && Upsert(Fold(pending, k).value, row) == RowOf(Fold(done + pending, k).value)
  {
    FoldConcat(done, pending, k);
    FoldIsSet(done, k);
    FoldIsSet(pending, k);
  }

  /* ---------- what the fold means, and order independence ---------- */

  /** The adverts of k in a log, by position. */
  ghost predicate Describes(n: Node, es: seq<Event>, k: Bytes, i: nat) {
    && i < |es| && Hits(k, es[i])
    && es[i].body.packet.advert.value.timestamp == n.advertTS
    && es[i].body.packet.advert.value.description == n.description
  }

  /** No advert of k is newer, was heard before firstSeen or after lastSeen, or is
      equally new and was received before receivedAt. */
  ghost predicate Bounds(n: Node, es: seq<Event>, k: Bytes) {
    forall i :: 0 <= i < |es| && Hits(k, es[i]) ==>
      && One(es[i]).advertTS <= n.advertTS
      && n.firstSeen <= es[i].ts <= n.lastSeen
      && (One(es[i]).advertTS == n.advertTS ==> n.receivedAt <= es[i].ts)
  }

  /** The description is that of the first advert with the greatest timestamp. */
  ghost predicate DescribedByFirst(n: Node, es: seq<Event>, k: Bytes) {
    exists i :: Describes(n, es, k, i) && forall j :: 0 <= j < i && Hits(k, es[j]) ==> One(es[j]).advertTS < n.advertTS
  }

  /** Some advert with that timestamp was received at receivedAt. */
  ghost predicate ReceivedFromOne(n: Node, es: seq<Event>, k: Bytes) {
    exists i :: Received(n, es, k, i)
  }

  ghost predicate Received(n: Node, es: seq<Event>, k: Bytes, i: nat) {
    i < |es| && Hits(k, es[i]) && One(es[i]).advertTS == n.advertTS && es[i].ts == n.receivedAt
  }

  lemma {:induction false} FoldBounds(es: seq<Event>, k: Bytes)
    ensures Fold(es, k).None? <==> forall i :: 0 <= i < |es| ==> !Hits(k, es[i])
    ensures Fold(es, k).Some? ==> Bounds(Fold(es, k).value, es, k)
  {
    if es != [] {
      var init, e := es[..|es| - 1], es[|es| - 1];
      assert es == init + [e];
      FoldBounds(init, k);
      FoldSnoc(init, e, k);
    }
  }

  lemma {:induction false} FoldDescribed(es: seq<Event>, k: Bytes)
    ensures Fold(es, k).Some? ==> DescribedByFirst(Fold(es, k).value, es, k)
  {
    if es != [] {
      var init, e := es[..|es| - 1], es[|es| - 1];
      assert es == init + [e];
      FoldDescribed(init, k);
      FoldBounds(init, k);
      FoldSnoc(init, e, k);
      if Hits(k, e) && (Fold(init, k).None? || One(e).advertTS > Fold(init, k).value.advertTS) {
        assert Describes(Fold(es, k).value, es, k, |init|);
      } else if Fold(es, k).Some? {
        var m := Fold(init, k).value;
        var i: nat :| Describes(m, init, k, i) && forall j :: 0 <= j < i && Hits(k, init[j]) ==> One(init[j]).advertTS < m.advertTS;
        assert Describes(Fold(es, k).value, es, k, i);
      }
    }
  }

  lemma ReceivedSnoc(n: Node, es: seq<Event>, e: Event, k: Bytes, i: nat)
    requires Received(n, es, k, i)
    ensures ReceivedFromOne(if Hits(k, e) then Then(n, One(e)) else n, es + [e], k)
  {
    var all, m := es + [e], if Hits(k, e) then Then(n, One(e)) else n;
    assert Received(m, all, k, i) || Received(m, all, k, |es|);
  }

  lemma {:induction false} FoldReceived(es: seq<Event>, k: Bytes)
    ensures Fold(es, k).Some? ==> ReceivedFromOne(Fold(es, k).value, es, k)
  {
    if es != [] {
      var init, e := es[..|es| - 1], es[|es| - 1];
      assert es == init + [e];
      FoldReceived(init, k);
      FoldSnoc(init, e, k);
      if Fold(init, k).Some? {
        var r: nat :| Received(Fold(init, k).value, init, k, r);
        ReceivedSnoc(Fold(init, k).value, init, e, k, r);
      } else if Hits(k, e) {
        assert Received(Fold(es, k).value, es, k, |init|);
      }
    }
  }

  /** The description comes from the earliest advert with the greatest timestamp,
      and receivedAt is the earliest reception of an advert with that timestamp. */
  lemma FoldMeaning(es: seq<Event>, k: Bytes)
    ensures Fold(es, k).None? <==> forall i :: 0 <= i < |es| ==> !Hits(k, es[i])
    ensures Fold(es, k).Some? ==>
              var n := Fold(es, k).value;
              Bounds(n, es, k) && DescribedByFirst(n, es, k) && ReceivedFromOne(n, es, k)
  {
    FoldBounds(es, k);
    FoldDescribed(es, k);
    FoldReceived(es, k);
  }

  /** advert_count is the number of the key's adverts, and the first and the last
      sighting are times of some of them. */
  lemma {:induction false} FoldCounts(es: seq<Event>, k: Bytes)
    ensures |Positions(es, e => Hits(k, e))| == if Fold(es, k).Some? then Fold(es, k).value.count else 0
    ensures Fold(es, k).Some? ==>
              && (exists e :: e in es && Hits(k, e) && e.ts == Fold(es, k).value.firstSeen)
              && (exists e :: e in es && Hits(k, e) && e.ts == Fold(es, k).value.lastSeen)
  {
    if es != [] {
      var init, e := es[..|es| - 1], es[|es| - 1];
      assert es == init + [e];
      FoldCounts(init, k);
      FoldSnoc(init, e, k);
      PositionsSnoc(init, e, x => Hits(k, x));
    }
  }

  /** Two receptions of the same advert agree on what it says. */
  ghost predicate Consistent(es: seq<Event>) {
    forall i, j :: 0 <= i < |es| && 0 <= j < |es| && Relevant(es[i]) && Relevant(es[j])
      && KeyOf(es[i]) == KeyOf(es[j]) && One(es[i]).advertTS == One(es[j]).advertTS
      ==> One(es[i]).description == One(es[j]).description
  }

  /** An advert commutes with the later ones of a consistent log. */
  lemma Commutes(e: Event, v: seq<Event>, k: Bytes)
    requires Consistent([e] + v) && Hits(k, e)
    ensures Append(Some(One(e)), Fold(v, k)) == Append(Fold(v, k), Some(One(e)))
  {
    if Fold(v, k).Some? {
      FoldDescribed(v, k);
      var n := Fold(v, k).value;
      var i: nat :| Describes(n, v, k, i);
      assert ([e] + v)[0] == e && ([e] + v)[1 + i] == v[i];
      assert n.advertTS == One(e).advertTS ==> n.description == One(e).description;
    }
  }

  /** An event may be moved from the middle of a consistent log to its end. */
  lemma MoveToEnd(u: seq<Event>, e: Event, v: seq<Event>, k: Bytes)
    requires Consistent(u + [e] + v)
    ensures Fold(u + [e] + v, k) == Fold((u + v) + [e], k)
  {
    FoldConcat(u + [e], v, k);
    FoldConcat(u, v, k);
    FoldSnoc(u, e, k);
    FoldSnoc(u + v, e, k);
    if Hits(k, e) {
      ConsistentEnd(u, [e] + v, u + [e] + v);
      Commutes(e, v, k);
      AppendAssociative(Fold(u, k), Some(One(e)), Fold(v, k));
      AppendAssociative(Fold(u, k), Fold(v, k), Some(One(e)));
    }
  }

  lemma ConsistentEnd(u: seq<Event>, v: seq<Event>, all: seq<Event>)
    requires all == u + v && Consistent(all)
    ensures Consistent(v)
  {
    assert forall i :: 0 <= i < |v| ==> v[i] == all[|u| + i];
  }

  /** Where the last element of `a` sits in its reordering `b`. */
  lemma Locate(a: seq<Event>, b: seq<Event>, init: seq<Event>, e: Event) returns (j: nat)
    requires multiset(a) == multiset(b) && a == init + [e]
    ensures j < |b| && b[j] == e && multiset(init) == multiset(b[..j] + b[j + 1..])
  {
    assert multiset(a) == multiset(init) + multiset{e};
    assert e in multiset(b);
    j :| 0 <= j < |b| && b[j] == e;
    assert b == b[..j] + [e] + b[j + 1..];
    assert multiset(b) == multiset(b[..j]) + multiset{e} + multiset(b[j + 1..]);
    assert multiset(b[..j] + b[j + 1..]) == multiset(b[..j]) + multiset(b[j + 1..]);
    assert multiset(init) == multiset(a) - multiset{e};
  }

  /** Any reordering of a consistent log gives the same node. */
  lemma {:induction false} OrderIndependent(a: seq<Event>, b: seq<Event>, k: Bytes)
    requires multiset(a) == multiset(b) && Consistent(b)
    ensures Fold(a, k) == Fold(b, k)
    decreases |a|
  {
    if a == [] {
      assert |multiset(b)| == |b| && |multiset(a)| == 0;
    } else {
      var init, e := a[..|a| - 1], a[|a| - 1];
      assert a == init + [e];
      var j := Locate(a, b, init, e);
      var u, v := b[..j], b[j + 1..];
      assert b == u + [e] + v;
      assert Consistent(u + v) by {
        assert forall i :: 0 <= i < |u + v| ==> (u + v)[i] == b[if i < j then i else i + 1];
      }
      OrderIndependent(init, u + v, k);
      FoldSnoc(init, e, k);
      FoldSnoc(u + v, e, k);
      MoveToEnd(u, e, v, k);
    }
  }

  /* ---------- the stage ---------- */

  class Nodes {
    var touched: State

    constructor ()
      ensures touched == map[]
    {
      touched := map[];
    }

    method Apply(e: Event)
      modifies this
      ensures touched == ApplyEvent(old(touched), e)
    {
      if !e.body.Packet? || e.body.packet.advert.None? {
        return;
      }
      var adv := e.body.packet.advert.value;
      if |adv.publicKey| == 0 {
        return;
      }
      var key := adv.publicKey;
      var row := if key in touched then touched[key] else Node(BLANK, 0, 0, 0, e.ts, e.ts);
      row := row.(count := row.count + 1);
      if e.ts < row.firstSeen {
        row := row.(firstSeen := e.ts);
      }
      if e.ts > row.lastSeen {
        row := row.(lastSeen := e.ts);
      }
      if adv.timestamp == row.advertTS {
        if row.receivedAt == 0 || e.ts < row.receivedAt {
          row := row.(receivedAt := e.ts);
        }
      } else if adv.timestamp > row.advertTS {
        row := row.(advertTS := adv.timestamp, receivedAt := e.ts, description := adv.description);
      }
      touched := touched[key := row];
    }

    method Flush(table: Table) returns (table': Table)
      ensures table' == FlushTable(touched, table)
    {
      table' := table;
      var todo := touched.Keys;
      while todo != {}
        invariant todo <= touched.Keys
        invariant forall k :: Get(table', k) == if k in touched && k !in todo then Some(Upsert(touched[k], Get(table, k)))
                                                else Get(table, k)
      {
        var k :| k in todo;
        table' := table'[k := Upsert(touched[k], Get(table', k))];
        todo := todo - {k};
      }
      GetEqual(table', FlushTable(touched, table));
    }

    method Evict(hwm: Time)
      modifies this
      ensures touched == map[]
    {
      touched := map[];
    }

    method Clear()
      modifies this
      ensures touched == map[]
    {
      touched := map[];
    }
  }
}
