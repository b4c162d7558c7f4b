/** Observers: one row per observer that has sent a status; non-empty fields win
    over empty ones, later ones over earlier ones. */
module ObserversStage {
  import opened Events

  /** A touched row and a stored row have the same columns. */
  datatype Row = Row(
    originName: string,
    region: string,
    model: string,
    firmwareVersion: string,
    clientVersion: string,
    source: string,
    radioFreqKHz: Option<int>,
    radioSF: Option<int>,
    radioCR: Option<int>,
    firstSeen: Time,
    lastSeen: Time)

  type State = map<Bytes, Row>
  type Table = map<Bytes, Row>

  /* ---------- what the operations do ---------- */

  function NonEmpty(a: string, b: string): string {
    if a != "" then a else b
  }

  function Coalesce(a: Option<int>, b: Option<int>): Option<int> {
    if a.Some? then a else b
  }

  function One(e: Event): Row
    requires e.body.Status?
  {
    var p := e.body.status;
    Row(p.origin, e.region, p.model, p.firmwareVersion, p.clientVersion, p.source,
        p.radioFreqKHz, p.radioSF, p.radioCR, e.ts, e.ts)
  }

  /** What `a` said, updated by what `b` says later. */
  function Then(a: Row, b: Row): Row {
    Row(NonEmpty(b.originName, a.originName), NonEmpty(b.region, a.region), NonEmpty(b.model, a.model),
        NonEmpty(b.firmwareVersion, a.firmwareVersion), NonEmpty(b.clientVersion, a.clientVersion),
        NonEmpty(b.source, a.source),
        Coalesce(b.radioFreqKHz, a.radioFreqKHz), Coalesce(b.radioSF, a.radioSF), Coalesce(b.radioCR, a.radioCR),
        if b.firstSeen < a.firstSeen then b.firstSeen else a.firstSeen,
        if b.lastSeen > a.lastSeen then b.lastSeen else a.lastSeen)
  }

  function ApplyEvent(s: State, e: Event): State {
    if !e.body.Status? then s
    else s[e.observer := if e.observer in s then Then(s[e.observer], One(e)) else One(e)]
  }

  function ApplyAll(s: State, es: seq<Event>): State {
    if es == [] then s else ApplyEvent(ApplyAll(s, es[..|es| - 1]), es[|es| - 1])
  }

  function FlushTable(s: State, t: Table): Table {
    t + map k | k in s :: if k in t then Then(t[k], s[k]) else s[k]
  }

  /* ---------- the one-pass reference ---------- */

  predicate Hits(k: Bytes, e: Event) {
    e.body.Status? && e.observer == k
  }

  function Append(a: Option<Row>, b: Option<Row>): Option<Row> {
    if a.None? then b else if b.None? then a else Some(Then(a.value, b.value))
  }

  function Fold(es: seq<Event>, k: Bytes): Option<Row> {
    if es == [] then None
    else
      var r, e := Fold(es[..|es| - 1], k), es[|es| - 1];
      if Hits(k, e) then Append(r, Some(One(e))) else r
  }

  lemma FoldSnoc(es: seq<Event>, e: Event, k: Bytes)
    ensures Fold(es + [e], k) == if Hits(k, e) then Append(Fold(es, k), Some(One(e))) else Fold(es, k)
  {
    assert (es + [e])[..|es|] == es;
  }

  lemma AppendAssociative(a: Option<Row>, b: Option<Row>, c: Option<Row>)
    ensures Append(Append(a, b), c) == Append(a, Append(b, c))
  {}

  lemma AppendAgain(a: Option<Row>, b: Option<Row>)
    ensures Append(a, Append(a, b)) == Append(a, b)
  {}

  lemma {:induction false} FoldConcat(a: seq<Event>, b: seq<Event>, k: Bytes)
    ensures Fold(a + b, k) == Append(Fold(a, k), Fold(b, k))
  {
    if b == [] {
      assert a + b == a;
    } else {
      var init, e := b[..|b| - 1], b[|b| - 1];
      assert a + b == (a + init) + [e] && b == init + [e];
      FoldConcat(a, init, k);
      FoldSnoc(a + init, e, k);
      FoldSnoc(init, e, k);
      AppendAssociative(Fold(a, k), Fold(init, k), if Hits(k, e) then Some(One(e)) else None);
    }
  }

  /** What a status of observer k says in one field, if it says something. */
  function TextOf(k: Bytes, read: Event -> string): Event -> Option<string> {
    (e: Event) => if e.body.Status? && e.observer == k then Filled(read(e)) else None
  }

  function NumberOf(k: Bytes, read: StatusPayload -> Option<int>): Event -> Option<int> {
    (e: Event) => if e.body.Status? && e.observer == k then read(e.body.status) else None
  }

  function Payload(read: StatusPayload -> string): Event -> string {
    (e: Event) => if e.body.Status? then read(e.body.status) else ""
  }

  /** A text column that a later non-empty value overwrites, and the field it is read from. */
  ghost predicate Overwrites(f: Row -> string, read: Event -> string) {
    && (forall a, b :: f(Then(a, b)) == NonEmpty(f(b), f(a)))
    && (forall e: Event :: e.body.Status? ==> f(One(e)) == read(e))
  }

  ghost predicate Coalesces(f: Row -> Option<int>, read: StatusPayload -> Option<int>) {
    && (forall a, b :: f(Then(a, b)) == Coalesce(f(b), f(a)))
    && (forall e: Event :: e.body.Status? ==> f(One(e)) == read(e.body.status))
  }

  /** Such a column of the fold is the log's last non-empty value of the field. */
  lemma {:induction false} TextIsLast(es: seq<Event>, k: Bytes, f: Row -> string, read: Event -> string)
    requires Overwrites(f, read)
    ensures IsLast(if Fold(es, k).Some? then Filled(f(Fold(es, k).value)) else None, es, TextOf(k, read))
  {
    if es != [] {
      var init, e := es[..|es| - 1], es[|es| - 1];
      assert es == init + [e];
      TextIsLast(init, k, f, read);
      FoldSnoc(init, e, k);
      LastSnoc(if Fold(init, k).Some? then Filled(f(Fold(init, k).value)) else None, init, e, TextOf(k, read));
    }
  }

  lemma {:induction false} NumberIsLast(es: seq<Event>, k: Bytes, f: Row -> Option<int>, read: StatusPayload -> Option<int>)
    requires Coalesces(f, read)
    ensures IsLast(if Fold(es, k).Some? then f(Fold(es, k).value) else None, es, NumberOf(k, read))
  {
    if es != [] {
      var init, e := es[..|es| - 1], es[|es| - 1];
      assert es == init + [e];
      NumberIsLast(init, k, f, read);
      FoldSnoc(init, e, k);
      LastSnoc(if Fold(init, k).Some? then f(Fold(init, k).value) else None, init, e, NumberOf(k, read));
    }
  }

  /** What each column of an observer's row is, in terms of the statuses in a log: the
      last non-empty value of its field, and the least and the greatest time. */
  ghost predicate Describes(r: Row, es: seq<Event>, k: Bytes) {
    && IsLast(Filled(r.region), es, TextOf(k, (e: Event) => e.region))
    && IsLast(Filled(r.originName), es, TextOf(k, Payload((p: StatusPayload) => p.origin)))
    && IsLast(Filled(r.model), es, TextOf(k, Payload((p: StatusPayload) => p.model)))
    && IsLast(Filled(r.firmwareVersion), es, TextOf(k, Payload((p: StatusPayload) => p.firmwareVersion)))
    && IsLast(Filled(r.clientVersion), es, TextOf(k, Payload((p: StatusPayload) => p.clientVersion)))
    && IsLast(Filled(r.source), es, TextOf(k, Payload((p: StatusPayload) => p.source)))
    && IsLast(r.radioFreqKHz, es, NumberOf(k, (p: StatusPayload) => p.radioFreqKHz))
    && IsLast(r.radioSF, es, NumberOf(k, (p: StatusPayload) => p.radioSF))
    && IsLast(r.radioCR, es, NumberOf(k, (p: StatusPayload) => p.radioCR))
    && (forall e :: e in es && e.body.Status? && e.observer == k ==> r.firstSeen <= e.ts <= r.lastSeen)
    && (exists e :: e in es && e.body.Status? && e.observer == k && e.ts == r.firstSeen)
    && (exists e :: e in es && e.body.Status? && e.observer == k && e.ts == r.lastSeen)
  }

  /** The fold has a row exactly for the observers of the log's statuses, and its
      columns are read from them. */
  lemma FoldMeaning(es: seq<Event>, k: Bytes)
    ensures Fold(es, k).Some? <==> exists e :: e in es && e.body.Status? && e.observer == k
    ensures Fold(es, k).Some? ==> Describes(Fold(es, k).value, es, k)
  {
    TextIsLast(es, k, (r: Row) => r.region, (e: Event) => e.region);
    TextIsLast(es, k, (r: Row) => r.originName, Payload((p: StatusPayload) => p.origin));
    TextIsLast(es, k, (r: Row) => r.model, Payload((p: StatusPayload) => p.model));
    TextIsLast(es, k, (r: Row) => r.firmwareVersion, Payload((p: StatusPayload) => p.firmwareVersion));
    TextIsLast(es, k, (r: Row) => r.clientVersion, Payload((p: StatusPayload) => p.clientVersion));
    TextIsLast(es, k, (r: Row) => r.source, Payload((p: StatusPayload) => p.source));
    NumberIsLast(es, k, (r: Row) => r.radioFreqKHz, (p: StatusPayload) => p.radioFreqKHz);
    NumberIsLast(es, k, (r: Row) => r.radioSF, (p: StatusPayload) => p.radioSF);
    NumberIsLast(es, k, (r: Row) => r.radioCR, (p: StatusPayload) => p.radioCR);
    SeenIsRange(es, k);
  }

  lemma {:induction false} SeenIsRange(es: seq<Event>, k: Bytes)
    ensures Fold(es, k).None? ==> forall e :: e in es ==> !Hits(k, e)
    ensures Fold(es, k).Some? ==>
              var r := Fold(es, k).value;
              && (forall e :: e in es && Hits(k, e) ==> r.firstSeen <= e.ts <= r.lastSeen)
              && (exists e :: e in es && Hits(k, e) && e.ts == r.firstSeen)
              && (exists e :: e in es && Hits(k, e) && e.ts == r.lastSeen)
  {
    if es != [] {
      var init, e := es[..|es| - 1], es[|es| - 1];
      assert es == init + [e];
      SeenIsRange(init, k);
      FoldSnoc(init, e, k);
    }
  }

  lemma {:induction false} ApplyAllAppends(s: State, es: seq<Event>, k: Bytes)
    ensures Get(ApplyAll(s, es), k) == Append(Get(s, k), Fold(es, k))
  {
    if es != [] {
      var init, e := es[..|es| - 1], es[|es| - 1];
      assert es == init + [e];
      ApplyAllAppends(s, init, k);
      FoldSnoc(init, e, k);
      AppendAssociative(Get(s, k), Fold(init, k), if Hits(k, e) then Some(One(e)) else None);
    }
  }

  /** A retry that starts with the failed attempt absorbs it: memory ends as if
      only the retry had been applied. */
  lemma RetryAbsorbs(s: State, last: seq<Event>, es: seq<Event>, k: Bytes)
    requires Get(s, k) == Fold(last, k) && last <= es
    ensures Get(ApplyAll(s, es), k) == Fold(es, k)
  {
    var rest := es[|last|..];
    assert es == last + rest;
    FoldConcat(last, rest, k);
    ApplyAllAppends(s, es, k);
    AppendAgain(Fold(last, k), Fold(rest, k));
  }

  /** The upsert continues the fold. */
  lemma FlushIsFold(s: State, t: Table, log: seq<Event>, es: seq<Event>, k: Bytes)
    requires Get(s, k) == Fold(es, k) && Get(t, k) == Fold(log, k)
    ensures Get(FlushTable(s, t), k) == Fold(log + es, k)
  {
    FoldConcat(log, es, k);
  }

  /* ---------- the stage ---------- */

  class Observers {
    var touched: State

    constructor ()
      ensures touched == map[]
    {
      touched := map[];
    }

    method Apply(e: Event)
      modifies this
      ensures touched == ApplyEvent(old(touched), e)
    {
      if !e.body.Status? {
        return;
      }
      var p := e.body.status;
      var row := if e.observer in touched then touched[e.observer]
                 else Row("", e.region, "", "", "", "", None, None, None, e.ts, e.ts);
      if e.ts < row.firstSeen {
        row := row.(firstSeen := e.ts);
      }
      if e.ts > row.lastSeen {
        row := row.(lastSeen := e.ts);
      }
      row := row.(region := NonEmpty(e.region, row.region),
                  originName := NonEmpty(p.origin, row.originName),
                  model := NonEmpty(p.model, row.model),
                  firmwareVersion := NonEmpty(p.firmwareVersion, row.firmwareVersion),
                  clientVersion := NonEmpty(p.clientVersion, row.clientVersion),
                  source := NonEmpty(p.source, row.source));
      row := row.(radioFreqKHz := Coalesce(p.radioFreqKHz, row.radioFreqKHz),
                  radioSF := Coalesce(p.radioSF, row.radioSF),
                  radioCR := Coalesce(p.radioCR, row.radioCR));
      assert row == if e.observer in touched then Then(touched[e.observer], One(e)) else One(e);
      touched := touched[e.observer := row];
    }

    method Flush(table: Table) returns (table': Table)
      ensures table' == FlushTable(touched, table)
    {
      table' := table;
      var todo := touched.Keys;
      while todo != {}
        invariant todo <= touched.Keys
        invariant forall k :: Get(table', k) == if k in touched && k !in todo
                                                then Some(if k in table then Then(table[k], touched[k]) else touched[k]) else Get(table, k)
      {
        var k :| k in todo;
        assert Get(table', k) == Get(table, k);
        table' := table'[k := if k in table' then Then(table'[k], touched[k]) else touched[k]];
        todo := todo - {k};
      }
      GetEqual(table', FlushTable(touched, table));
    }

    method Evict(hwm: Time)
      modifies this
      ensures touched == map[]
    {
      touched := map[];
    }

    method Clear()
      modifies this
      ensures touched == map[]
    {
      touched := map[];
    }
  }
}
