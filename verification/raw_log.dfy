/** The write side: raw_events with its id sequence, and the ingest loop that
    batches messages into it. */
module RawLog {
  import opened Events

  /** A captured message, and the row it becomes. */
  datatype Message = Message(broker: string, topic: string, payload: Bytes, receivedAt: Time)
  datatype RawEvent = RawEvent(id: nat, message: Message)

  ghost predicate Ascending(rows: seq<RawEvent>) {
    forall i, j :: 0 <= i < j < |rows| ==> rows[i].id < rows[j].id
  }

  /** Consecutive ids from the sequence. */
  function Numbered(msgs: seq<Message>, first: nat): seq<RawEvent> {
    seq(|msgs|, i requires 0 <= i < |msgs| => RawEvent(first + i, msgs[i]))
  }

  /** The rows with an id above `since`, in id order. */
  function Above(rows: seq<RawEvent>, since: nat): seq<RawEvent> {
    if rows == [] then []
    else if rows[0].id > since then [rows[0]] + Above(rows[1..], since)
    else Above(rows[1..], since)
  }

  function Page(rows: seq<RawEvent>, since: nat, limit: nat): seq<RawEvent> {
    var all := Above(rows, since);
    if |all| <= limit then all else all[..limit]
  }

  lemma {:induction false} AboveIsSuffix(rows: seq<RawEvent>, since: nat, n: nat)
    requires Ascending(rows) && n < |Above(rows, since)|
    ensures Above(rows, since)[n].id > since
    ensures Above(rows, Above(rows, since)[n].id) == Above(rows, since)[n + 1..]
  {
    var all := Above(rows, since);
    var rest := rows[1..];
    if rows[0].id > since {
      if n == 0 {
        AllAbove(rest, rows[0].id);
        AllAbove(rest, since);
      } else {
        AboveIsSuffix(rest, since, n - 1);
        AboveMembers(rest, since);
        assert all[n] == Above(rest, since)[n - 1];
        assert all[n] in Above(rest, since);
      }
    } else {
      AboveIsSuffix(rest, since, n);
    }
  }

  lemma {:induction false} AboveMembers(rows: seq<RawEvent>, since: nat)
    ensures forall r :: r in Above(rows, since) <==> r in rows && r.id > since
  {
    if rows != [] {
      assert rows == [rows[0]] + rows[1..];
      AboveMembers(rows[1..], since);
    }
  }

  function UpTo(rows: seq<RawEvent>, last: nat): seq<RawEvent> {
    if rows == [] || rows[0].id > last then [] else [rows[0]] + UpTo(rows[1..], last)
  }

  /** A cursor cuts the log in two. */
  lemma {:induction false} UpToAndAbove(rows: seq<RawEvent>, cursor: nat)
    requires Ascending(rows)
    ensures rows == UpTo(rows, cursor) + Above(rows, cursor)
  {
    if rows != [] {
      if rows[0].id > cursor {
        AllAbove(rows, cursor);
      } else {
        UpToAndAbove(rows[1..], cursor);
      }
    }
  }

  predicate Positive(rows: seq<RawEvent>) {
    forall r :: r in rows ==> r.id > 0
  }

  /** A cursor at which a projector can be: that of a row, or none yet. */
  ghost predicate IsCursor(rows: seq<RawEvent>, cursor: nat) {
    cursor == 0 || exists r :: r in rows && r.id == cursor
  }

  lemma {:induction false} AboveConcat(a: seq<RawEvent>, b: seq<RawEvent>, since: nat)
    ensures Above(a + b, since) == Above(a, since) + Above(b, since)
  {
    if a == [] {
      assert a + b == b;
    } else {
      assert (a + b)[1..] == a[1..] + b;
      AboveConcat(a[1..], b, since);
    }
  }

  /** When the log grows at its end, the page after a cursor only grows ... */
  lemma PageGrows(rows: seq<RawEvent>, more: seq<RawEvent>, cursor: nat, limit: nat)
    ensures Page(rows, cursor, limit) <= Page(rows + more, cursor, limit)
  {
    AboveConcat(rows, more, cursor);
  }

  /** ... and what lies up to the cursor stays. */
  lemma UpToStays(rows: seq<RawEvent>, more: seq<RawEvent>, cursor: nat)
    requires Ascending(rows + more) && Positive(rows + more) && IsCursor(rows, cursor)
    ensures UpTo(rows + more, cursor) == UpTo(rows, cursor)
  {
    assert rows <= rows + more;
    forall r | r in more
      ensures r.id > cursor
    {
      var j :| 0 <= j < |more| && more[j] == r;
      assert (rows + more)[|rows| + j] == r;
      if cursor > 0 {
        var c :| c in rows && c.id == cursor;
        var i :| 0 <= i < |rows| && rows[i] == c;
        assert (rows + more)[i] == c;
      } else {
        assert r in rows + more;
      }
    }
    AllAbove(more, cursor);
    AboveConcat(rows, more, cursor);
    PrefixAscends(rows, more);
    UpToAndAbove(rows, cursor);
    UpToAndAbove(rows + more, cursor);
    assert rows + more == UpTo(rows, cursor) + Above(rows + more, cursor);
    SameSuffix(UpTo(rows, cursor), UpTo(rows + more, cursor), Above(rows + more, cursor));
  }

  lemma PrefixAscends(a: seq<RawEvent>, b: seq<RawEvent>)
    requires Ascending(a + b)
    ensures Ascending(a)
  {
    assert forall i :: 0 <= i < |a| ==> a[i] == (a + b)[i];
  }

  lemma SameSuffix(a: seq<RawEvent>, b: seq<RawEvent>, rest: seq<RawEvent>)
    requires a + rest == b + rest
    ensures a == b
  {
    assert |a| == |b|;
    assert a == (a + rest)[..|a|] == (b + rest)[..|b|] == b;
  }

  lemma NothingUpToZero(rows: seq<RawEvent>)
    requires Positive(rows)
    ensures UpTo(rows, 0) == []
  {
    if rows != [] {
      assert rows[0] in rows;
    }
  }

  /** A page moves the cut to its last id. */
  lemma PageMovesOn(rows: seq<RawEvent>, cursor: nat, limit: nat)
    requires Ascending(rows) && Page(rows, cursor, limit) != []
    ensures var page := Page(rows, cursor, limit);
            var highest := page[|page| - 1].id;
            && highest > cursor && page[|page| - 1] in rows
            && Above(rows, cursor) == page + Above(rows, highest)
            && UpTo(rows, highest) == UpTo(rows, cursor) + page
            && (|page| < limit ==> Above(rows, highest) == [])
  {
    var page := Page(rows, cursor, limit);
    PageIsHead(rows, cursor, limit);
    CutMovesOn(rows, cursor, page[|page| - 1].id, page);
  }

  lemma PageIsHead(rows: seq<RawEvent>, cursor: nat, limit: nat)
    requires Ascending(rows) && Page(rows, cursor, limit) != []
    ensures var page := Page(rows, cursor, limit);
            var highest := page[|page| - 1].id;
            && highest > cursor && page[|page| - 1] in rows
            && Above(rows, cursor) == page + Above(rows, highest)
            && (|page| < limit ==> Above(rows, highest) == [])
  {
    var page, all := Page(rows, cursor, limit), Above(rows, cursor);
    AboveIsSuffix(rows, cursor, |page| - 1);
    AboveMembers(rows, cursor);
    assert page[|page| - 1] == all[|page| - 1] && all[|page| - 1] in all;
    assert all == page + all[|page|..];
  }

  lemma CutMovesOn(rows: seq<RawEvent>, cursor: nat, highest: nat, page: seq<RawEvent>)
    requires Ascending(rows) && Above(rows, cursor) == page + Above(rows, highest)
    ensures UpTo(rows, highest) == UpTo(rows, cursor) + page
  {
    UpToAndAbove(rows, cursor);
    UpToAndAbove(rows, highest);
    assert UpTo(rows, cursor) + (page + Above(rows, highest)) == (UpTo(rows, cursor) + page) + Above(rows, highest);
    SameSuffix(UpTo(rows, highest), UpTo(rows, cursor) + page, Above(rows, highest));
  }

  lemma {:induction false} AllAbove(rows: seq<RawEvent>, since: nat)
    requires forall r :: r in rows ==> r.id > since
    ensures Above(rows, since) == rows
  {
    if rows != [] {
      AllAbove(rows[1..], since);
    }
  }

  class RawStore {
    var rows: seq<RawEvent>
    var nextId: nat

    ghost predicate Valid()
      reads this
    {
      && nextId > 0
      && Ascending(rows)
      && forall r :: r in rows ==> 0 < r.id < nextId
    }

    constructor ()
      ensures Valid() && rows == []
    {
      rows, nextId := [], 1;
    }

    /** The ids are drawn first; a failed copy leaves a gap in them. */
    method InsertRawEvents(msgs: seq<Message>, fails: bool) returns (n: nat, ok: bool)
      requires Valid()
      modifies this
      ensures Valid() && nextId == old(nextId) + |msgs|
      ensures ok <==> msgs == [] || !fails
      ensures rows == if ok then old(rows) + Numbered(msgs, old(nextId)) else old(rows)
      ensures n == if ok then |msgs| else 0
    {
      if |msgs| == 0 {
        return 0, true;
      }
      var first := nextId;
      nextId := nextId + |msgs|;
      if fails {
        return 0, false;
      }
      rows := rows + Numbered(msgs, first);
      return |msgs|, true;
    }

    method FetchRawEventsAfter(since: nat, limit: nat) returns (out: seq<RawEvent>)
      ensures out == Page(rows, since, limit)
    {
      out := [];
      var i := 0;
      while i < |rows| && |out| < limit
        invariant 0 <= i <= |rows| && |out| <= limit
        invariant Above(rows, since) == out + Above(rows[i..], since)
      {
        if rows[i].id > since {
          out := out + [rows[i]];
        }
        i := i + 1;
      }
      assert |out| == limit ==> Above(rows, since)[..limit] == out;
    }
  }

  /* ---------- the ingest loop ---------- */

  /** What the select delivers; the loop ends when the context is done or the
      channel is closed, and flushes in both cases. */
  datatype Signal = Tick | Received(message: Message)

  /** One write: the messages it carried and whether they were stored. */
  datatype Write = Write(messages: seq<Message>, stored: bool)

  function Messages(signals: seq<Signal>): seq<Message> {
    if signals == [] then []
    else
      var init, s := Messages(signals[..|signals| - 1]), signals[|signals| - 1];
      if s.Received? then init + [s.message] else init
  }

  function Carried(writes: seq<Write>): seq<Message> {
    if writes == [] then [] else Carried(writes[..|writes| - 1]) + writes[|writes| - 1].messages
  }

  function Stored(writes: seq<Write>): seq<Message> {
    if writes == [] then []
    else Stored(writes[..|writes| - 1]) + if writes[|writes| - 1].stored then writes[|writes| - 1].messages else []
  }

  function Contents(rows: seq<RawEvent>): seq<Message> {
    seq(|rows|, i requires 0 <= i < |rows| => rows[i].message)
  }

  /** Writes of one to `size` messages, of which the database failed those it does. */
  predicate Attempted(writes: seq<Write>, size: nat, fails: nat -> bool) {
    forall i :: 0 <= i < |writes| ==> 0 < |writes[i].messages| <= size && writes[i].stored == !fails(i)
  }

  /** A log that has grown by what was stored, and grows by more. */
  lemma Grows(first: seq<Message>, stored: seq<Message>, before: seq<Message>, after: seq<Message>)
    requires before == first + stored && before <= after
    ensures after == first + (stored + after[|before|..])
  {}

  class Ingester {
    const store: RawStore
    const batchSize: nat
    var batch: seq<Message>

    constructor (store: RawStore, batchSize: nat)
      requires batchSize > 0
      ensures this.store == store && this.batchSize == batchSize && batch == []
    {
      this.store, this.batchSize, batch := store, batchSize, [];
    }

    /** Every message received is carried by exactly one write, in order, in writes of
        at most batchSize; the log grows by exactly the writes that did not fail.
        `fails(n)` says whether the database fails the n-th write. */
    method Run(signals: seq<Signal>, fails: nat -> bool) returns (ghost writes: seq<Write>)
      requires store.Valid() && batch == [] && batchSize > 0
      modifies this, store
      ensures store.Valid() && batch == []
      ensures Carried(writes) == Messages(signals)
      ensures Attempted(writes, batchSize, fails)
      ensures Contents(store.rows) == Contents(old(store.rows)) + Stored(writes)
    {
      writes := [];
      var count := 0;
      ghost var first := Contents(store.rows);
      assert first + Stored([]) == first;
      for i := 0 to |signals|
        invariant store.Valid() && |batch| < batchSize
        invariant count == |writes| && Attempted(writes, batchSize, fails)
        invariant Carried(writes) + batch == Messages(signals[..i])
        invariant Contents(store.rows) == first + Stored(writes)
      {
        assert signals[..i + 1][..i] == signals[..i];
        ghost var before, stored := Contents(store.rows), Stored(writes);
        count, writes := Handle(signals[i], fails, count, writes);
        Grows(first, stored, before, Contents(store.rows));
      }
      assert signals[..|signals|] == signals;
      ghost var before, stored := Contents(store.rows), Stored(writes);
      count, writes := Flush(fails, count, writes);
      Grows(first, stored, before, Contents(store.rows));
    }

    /** One turn of the select: a full batch or a tick is flushed. */
    method Handle(s: Signal, fails: nat -> bool, count: nat, ghost writes: seq<Write>) returns (count': nat, ghost writes': seq<Write>)
      requires store.Valid() && |batch| < batchSize && count == |writes| && Attempted(writes, batchSize, fails)
      modifies this, store
      ensures store.Valid() && |batch| < batchSize && count' == |writes'| && Attempted(writes', batchSize, fails)
      ensures Carried(writes') + batch == Carried(writes) + old(batch) + (if s.Received? then [s.message] else [])
      ensures if s.Tick? || |old(batch)| + 1 == batchSize then batch == [] else writes' == writes
      ensures Contents(old(store.rows)) <= Contents(store.rows)
      ensures Stored(writes') == Stored(writes) + Contents(store.rows)[|old(store.rows)|..]
    {
      count', writes' := count, writes;
      if s.Received? {
        batch := batch + [s.message];
      }
      if s.Tick? || |batch| >= batchSize {
        count', writes' := Flush(fails, count, writes);
      }
    }

    /** An empty batch is not written; a failed write is logged and its batch dropped. */
    method Flush(fails: nat -> bool, count: nat, ghost writes: seq<Write>) returns (count': nat, ghost writes': seq<Write>)
      requires store.Valid() && |batch| <= batchSize && count == |writes| && Attempted(writes, batchSize, fails)
      modifies this, store
      ensures store.Valid() && batch == [] && count' == |writes'| && Attempted(writes', batchSize, fails)
      ensures Carried(writes') == Carried(writes) + old(batch)
      ensures |writes'| == |writes| + (if old(batch) == [] then 0 else 1) && writes <= writes'
      ensures Contents(old(store.rows)) <= Contents(store.rows)
      ensures Stored(writes') == Stored(writes) + Contents(store.rows)[|old(store.rows)|..]
    {
      count', writes' := count, writes;
      if |batch| == 0 {
        return;
      }
      var n, ok := store.InsertRawEvents(batch, fails(count));
      count', writes' := count + 1, writes + [Write(batch, ok)];
      assert writes'[..|writes|] == writes;
      assert Contents(store.rows) == Contents(old(store.rows)) + (if ok then batch else []);
      batch := [];
    }
  }
}
