/** PacketObservations: the append-only table the caches rebuild themselves from. */
module PacketObservationsStage {
  import opened Events

  /** One row of packet_observations; the surrogate id is not modelled. */
  datatype Observation = Observation(ts: Time, observer: Bytes, packet: PacketPayload)

  /** The observations a log gives rise to: one per packet event, in log order. */
  function Observed(es: seq<Event>): seq<Observation> {
    if es == [] then []
    else
      var init, e := Observed(es[..|es| - 1]), es[|es| - 1];
      if e.body.Packet? then init + [Observation(e.ts, e.observer, e.body.packet)] else init
  }

  lemma {:induction false} ObservedConcat(a: seq<Event>, b: seq<Event>)
    ensures Observed(a + b) == Observed(a) + Observed(b)
  {
    if b == [] {
      assert a + b == a;
    } else {
      var n := |b| - 1;
      assert (a + b)[..|a + b| - 1] == a + b[..n];
      ObservedConcat(a, b[..n]);
    }
  }

  class PacketObservations {
    var buf: seq<Observation>
    var touched: set<Bytes>
    var count: nat

    constructor ()
      ensures buf == [] && touched == {} && count == 0
    {
      buf, touched, count := [], {}, 0;
    }

    method Apply(e: Event)
      modifies this
      ensures buf == old(buf) + Observed([e])
      ensures touched == old(touched) + (if e.body.Packet? then {e.observer} else {})
      ensures count == old(count)
    {
      assert [e][..0] == [];
      if e.body.Packet? {
        buf := buf + [Observation(e.ts, e.observer, e.body.packet)];
        touched := touched + {e.observer};
      }
    }

    method Flush(table: seq<Observation>) returns (table': seq<Observation>)
      modifies this
      ensures table' == table + buf
      ensures buf == old(buf) && touched == old(touched)
      ensures count == if buf == [] then old(count) else |buf|
    {
      table' := table;
      if |buf| != 0 {
        table' := table + buf;
        count := |buf|;
      }
    }

    method Evict(hwm: Time)
      modifies this
      ensures buf == [] && touched == {} && count == 0
    {
      buf, touched, count := [], {}, 0;
    }

    method Clear()
      modifies this
      ensures buf == [] && touched == {} && count == 0
    {
      buf, touched, count := [], {}, 0;
    }
  }
}
