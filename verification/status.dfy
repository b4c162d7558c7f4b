/** ObserverStatus: one row per observer and time, the first one inserted wins.
    Every row refers to a row of observers. */
module ObserverStatusStage {
  import opened Events

  datatype Key = Key(observer: Bytes, ts: Time)

  datatype Sample = Sample(observer: Bytes, ts: Time, status: StatusPayload)

  type Table = map<Key, StatusPayload>

  function KeyOf(r: Sample): Key {
    Key(r.observer, r.ts)
  }

  /** The rows a log of events appends to the buffer. */
  function Samples(es: seq<Event>): seq<Sample> {
    if es == [] then []
    else
      var init, e := Samples(es[..|es| - 1]), es[|es| - 1];
      if e.body.Status? then init + [Sample(e.observer, e.ts, e.body.status)] else init
  }

  /** INSERT ... ON CONFLICT DO NOTHING, row by row. */
  function InsertAll(t: Table, buf: seq<Sample>): Table {
    if buf == [] then t
    else
      var u, r := InsertAll(t, buf[..|buf| - 1]), buf[|buf| - 1];
      if KeyOf(r) in u then u else u[KeyOf(r) := r.status]
  }

  /** The reference: the first status of the log with that observer and time. */
  function First(buf: seq<Sample>, k: Key): Option<StatusPayload> {
    if buf == [] then None
    else if First(buf[..|buf| - 1], k).Some? then First(buf[..|buf| - 1], k)
    else if KeyOf(buf[|buf| - 1]) == k then Some(buf[|buf| - 1].status)
    else None
  }

  function OrElse(a: Option<StatusPayload>, b: Option<StatusPayload>): Option<StatusPayload> {
    if a.Some? then a else b
  }

  lemma {:induction false} FirstConcat(a: seq<Sample>, b: seq<Sample>, k: Key)
    ensures First(a + b, k) == OrElse(First(a, k), First(b, k))
  {
    if b == [] {
      assert a + b == a;
    } else {
      var init := b[..|b| - 1];
      assert (a + b)[..|a + b| - 1] == a + init;
      FirstConcat(a, init, k);
    }
  }

  lemma {:induction false} SamplesConcat(a: seq<Event>, b: seq<Event>)
    ensures Samples(a + b) == Samples(a) + Samples(b)
  {
    if b == [] {
      assert a + b == a;
    } else {
      var init := b[..|b| - 1];
      assert (a + b)[..|a + b| - 1] == a + init;
      SamplesConcat(a, init);
    }
  }

  lemma {:induction false} InsertAllIsFirst(t: Table, buf: seq<Sample>, k: Key)
    ensures Get(InsertAll(t, buf), k) == OrElse(Get(t, k), First(buf, k))
  {
    if buf != [] {
      InsertAllIsFirst(t, buf[..|buf| - 1], k);
    }
  }

  /** A retry that starts with the failed attempt inserts the same rows. */
  lemma RetryAbsorbs(buf: seq<Sample>, last: seq<Event>, es: seq<Event>, k: Key)
    requires last <= es
    requires First(buf, k).Some? ==> First(buf, k) == First(Samples(last), k)
    ensures First(buf + Samples(es), k) == First(Samples(es), k)
  {
    var rest := es[|last|..];
    assert es == last + rest;
    SamplesConcat(last, rest);
    FirstConcat(Samples(last), Samples(rest), k);
    FirstConcat(buf, Samples(es), k);
  }

  /** Inserting continues the first-wins reading of the log. */
  lemma FlushIsFirst(t: Table, buf: seq<Sample>, log: seq<Event>, es: seq<Event>, k: Key)
    requires Get(t, k) == First(Samples(log), k) && First(buf, k) == First(Samples(es), k)
    ensures Get(InsertAll(t, buf), k) == First(Samples(log + es), k)
  {
    SamplesConcat(log, es);
    FirstConcat(Samples(log), Samples(es), k);
    InsertAllIsFirst(t, buf, k);
  }

  class ObserverStatus {
    var buf: seq<Sample>
    var touched: set<Bytes>

    constructor ()
      ensures buf == [] && touched == {}
    {
      buf, touched := [], {};
    }

    method Apply(e: Event)
      modifies this
      ensures buf == old(buf) + Samples([e])
      ensures touched == old(touched) + (if e.body.Status? then {e.observer} else {})
    {
      assert [e][..0] == [];
      if e.body.Status? {
        buf := buf + [Sample(e.observer, e.ts, e.body.status)];
        touched := touched + {e.observer};
      }
    }

    /** `observers` is the key column of the referenced table in the same
        transaction; a row without one violates the foreign key. */
    method Flush(table: Table, observers: set<Bytes>) returns (ok: bool, table': Table)
      ensures ok <==> forall r :: r in buf ==> r.observer in observers
      ensures ok ==> table' == InsertAll(table, buf)
    {
      table' := table;
      for i := 0 to |buf|
        invariant table' == InsertAll(table, buf[..i])
        invariant forall j :: 0 <= j < i ==> buf[j].observer in observers
      {
        var r := buf[i];
        if r.observer !in observers {
          ok := false;
          return;
        }
        assert buf[..i + 1][..i] == buf[..i];
        if KeyOf(r) !in table' {
          table' := table'[KeyOf(r) := r.status];
        }
      }
      assert buf[..|buf|] == buf;
      ok := true;
    }

    method Evict(hwm: Time)
      modifies this
      ensures buf == [] && touched == {}
    {
      buf, touched := [], {};
    }

    method Clear()
      modifies this
      ensures buf == [] && touched == {}
    {
      buf, touched := [], {};
    }
  }
}
