/** Ingest and projector as one interleaved protocol over raw_events. An insert
    draws its ids from a sequence first and makes its rows visible later, so an
    id can become visible after a greater one. */
module CursorProtocol {

  /** An insert under way: how many messages it holds, and the ids drawn so far. */
  datatype Flight = Flight(size: nat, ids: seq<nat>)

  datatype State = State(
    visible: set<nat>,
    nextId: nat,
    flights: map<nat, Flight>,
    cursor: nat,
    page: seq<nat>,
    projected: seq<nat>)

  const START: State := State({}, 1, map[], 0, [], [])

  datatype Action =
    | Begin(ingester: nat, size: nat)
    | Draw(ingester: nat)
    | Copy(ingester: nat)
    | Fail(ingester: nat)
    | Fetch(limit: nat, page: seq<nat>)
    | Commit
    | Drop

  predicate Ascending(s: seq<nat>) {
    forall i, j :: 0 <= i < j < |s| ==> s[i] < s[j]
  }

  /** The result of SELECT ... WHERE id > since ORDER BY id LIMIT limit. */
  ghost predicate IsPage(ids: set<nat>, since: nat, limit: nat, page: seq<nat>) {
    && Ascending(page) && |page| <= limit
    && (forall id :: id in page ==> id in ids && id > since)
    && (forall id :: id in ids && id > since && id !in page ==> |page| == limit && (limit > 0 ==> id > page[limit - 1]))
  }

  ghost predicate Enabled(s: State, a: Action) {
    match a
    case Begin(i, size) => i !in s.flights && size > 0
    case Draw(i) => i in s.flights && |s.flights[i].ids| < s.flights[i].size
    case Copy(i) => i in s.flights && |s.flights[i].ids| == s.flights[i].size
    case Fail(i) => i in s.flights
    case Fetch(limit, page) => s.page == [] && limit > 0 && IsPage(s.visible, s.cursor, limit, page)
    case Commit => s.page != []
    case Drop => true
  }

  ghost function Next(s: State, a: Action): State
    requires Enabled(s, a)
  {
    match a
    case Begin(i, size) => s.(flights := s.flights[i := Flight(size, [])])
    case Draw(i) => s.(nextId := s.nextId + 1, flights := s.flights[i := s.flights[i].(ids := s.flights[i].ids + [s.nextId])])
    case Copy(i) => s.(visible := s.visible + (set id | id in s.flights[i].ids), flights := s.flights - {i})
    case Fail(i) => s.(flights := s.flights - {i})
    case Fetch(_, page) => s.(page := page)
    case Commit => s.(projected := s.projected + s.page, cursor := s.page[|s.page| - 1], page := [])
    case Drop => s.(page := [])
  }

  predicate By(a: Action, ingesters: nat) {
    (a.Begin? || a.Draw? || a.Copy? || a.Fail?) ==> a.ingester < ingesters
  }

  /** The states that the actions lead to, one after the other. */
  ghost predicate Trace(states: seq<State>, actions: seq<Action>, ingesters: nat) {
    && |states| == |actions| + 1 && states[0] == START
    && forall i :: 0 <= i < |actions| ==>
         By(actions[i], ingesters) && Enabled(states[i], actions[i]) && states[i + 1] == Next(states[i], actions[i])
  }

  /** Every visible event up to the cursor has been projected exactly once, in id order. */
  ghost predicate ExactlyOnce(s: State) {
    Ascending(s.projected) && forall id :: id in s.projected <==> id in s.visible && id <= s.cursor
  }

  /* ---------- one ingester ---------- */

  ghost predicate Ordered(s: State) {
    && ExactlyOnce(s)
    && s.nextId > 0
    && (forall id :: id in s.visible ==> 0 < id < s.nextId)
    && (s.cursor == 0 || s.cursor in s.visible)
    && (forall i :: i in s.flights ==> i == 0)
    && (0 in s.flights ==> InFlight(s, s.flights[0].ids))
    && (s.page != [] ==> PageFits(s))
  }

  /** A lone ingester's ids are all greater than any that is visible. */
  ghost predicate InFlight(s: State, ids: seq<nat>) {
    && Ascending(ids)
    && (forall id :: id in ids ==> 0 < id < s.nextId)
    && (forall id, v :: id in ids && v in s.visible ==> v < id)
  }

  ghost predicate PageFits(s: State)
    requires s.page != []
  {
    && Ascending(s.page)
    && (forall id :: id in s.page ==> id in s.visible && id > s.cursor)
    && (forall id :: id in s.visible && s.cursor < id <= s.page[|s.page| - 1] ==> id in s.page)
  }

  lemma StepKeepsOrdered(s: State, a: Action)
    requires Ordered(s) && Enabled(s, a) && By(a, 1)
    ensures Ordered(Next(s, a))
  {
    match a
    case Begin(_, _) =>
    case Draw(_) => DrawKeepsOrdered(s);
    case Copy(i) => CopyKeepsOrdered(s);
    case Fail(_) =>
    case Fetch(limit, page) => FetchFits(s, limit, page);
    case Commit => CommitKeepsOrdered(s);
    case Drop =>
  }

  lemma DrawKeepsOrdered(s: State)
    requires Ordered(s) && Enabled(s, Draw(0))
    ensures Ordered(Next(s, Draw(0)))
  {
    var ids := s.flights[0].ids;
    forall i, j | 0 <= i < j < |ids| + 1
      ensures (ids + [s.nextId])[i] < (ids + [s.nextId])[j]
    {
      assert ids[i] in ids;
    }
  }

  lemma CopyKeepsOrdered(s: State)
    requires Ordered(s) && Enabled(s, Copy(0))
    ensures Ordered(Next(s, Copy(0)))
  {
    var ids := s.flights[0].ids;
    forall id | id in ids
      ensures id > s.cursor
      ensures s.page != [] ==> id > s.page[|s.page| - 1]
    {
      if s.page != [] {
        assert s.page[|s.page| - 1] in s.page;
      }
    }
  }

  lemma FetchFits(s: State, limit: nat, page: seq<nat>)
    requires Ordered(s) && Enabled(s, Fetch(limit, page))
    ensures Ordered(Next(s, Fetch(limit, page)))
  {
    if page != [] {
      forall id | id in s.visible && s.cursor < id <= page[|page| - 1]
        ensures id in page
      {}
    }
  }

  lemma CommitKeepsOrdered(s: State)
    requires Ordered(s) && Enabled(s, Commit)
    ensures Ordered(Next(s, Commit))
  {
    var all, last := s.projected + s.page, s.page[|s.page| - 1];
    assert last in s.page;
    forall i, j | 0 <= i < j < |all|
      ensures all[i] < all[j]
    {
      if i < |s.projected| <= j {
        assert s.projected[i] in s.projected && s.page[j - |s.projected|] in s.page;
      }
    }
    forall id
      ensures id in all <==> id in s.visible && id <= last
    {
      if id in s.page {
        var i :| 0 <= i < |s.page| && s.page[i] == id;
      }
    }
  }

  lemma {:induction false} OneIngesterIsExact(states: seq<State>, actions: seq<Action>, n: nat)
    requires Trace(states, actions, 1) && n < |states|
    ensures Ordered(states[n])
  {
    if n > 0 {
      OneIngesterIsExact(states, actions, n - 1);
      StepKeepsOrdered(states[n - 1], actions[n - 1]);
    }
  }

  /* ---------- two ingesters ---------- */

  /** The second insert draws the greater id and becomes visible first; the
      projector passes both; the first insert's row is never projected. */
  function Overtaking(): seq<Action> {
    [Begin(0, 1), Draw(0), Begin(1, 1), Draw(1), Copy(1), Fetch(1, [2]), Commit, Copy(0)]
  }

  function OvertakingStates(): seq<State> {
    var a, b := Flight(1, [1]), Flight(1, [2]);
    [START,
     State({}, 1, map[0 := Flight(1, [])], 0, [], []),
     State({}, 2, map[0 := a], 0, [], []),
     State({}, 2, map[0 := a, 1 := Flight(1, [])], 0, [], []),
     State({}, 3, map[0 := a, 1 := b], 0, [], []),
     State({2}, 3, map[0 := a], 0, [], []),
     State({2}, 3, map[0 := a], 0, [2], []),
     State({2}, 3, map[0 := a], 2, [], [2]),
     State({1, 2}, 3, map[], 2, [], [2])]
  }

  ghost predicate Leads(s: State, a: Action, s': State) {
    Enabled(s, a) && s' == Next(s, a)
  }

  lemma BothDraw()
    ensures var s, t := OvertakingStates(), Overtaking();
            forall i :: 0 <= i < 4 ==> Leads(s[i], t[i], s[i + 1])
  {
    var s, t := OvertakingStates(), Overtaking();
    assert [] + [1] == [1] && [] + [2] == [2];
    assert Next(s[1], t[1]).flights == s[2].flights;
    assert Next(s[3], t[3]).flights == s[4].flights;
  }

  lemma SecondOvertakes()
    ensures var s, t := OvertakingStates(), Overtaking();
            forall i :: 4 <= i < 8 ==> Leads(s[i], t[i], s[i + 1])
  {
    var s, t := OvertakingStates(), Overtaking();
    assert (set id | id in s[4].flights[1].ids) == {2};
    assert s[4].flights - {1} == map[0 := Flight(1, [1])];
    assert Leads(s[4], t[4], s[5]);
    assert Leads(s[5], t[5], s[6]);
    assert (set id | id in s[7].flights[0].ids) == {1};
    assert s[7].flights - {0} == map[];
  }

  lemma OvertakingIsTrace(ingesters: nat)
    requires ingesters >= 2
    ensures Trace(OvertakingStates(), Overtaking(), ingesters)
  {
    BothDraw();
    SecondOvertakes();
    var s, t := OvertakingStates(), Overtaking();
    assert forall i :: 0 <= i < 8 ==> Leads(s[i], t[i], s[i + 1]);
  }

  /** Whatever the interleaving, each visible event is projected exactly once and in
      id order, exactly when there is at most one ingester. */
  lemma ExactlyOnceIffOneIngester(ingesters: nat)
    ensures (forall states, actions, n :: Trace(states, actions, ingesters) && 0 <= n < |states| ==> ExactlyOnce(states[n]))
            <==> ingesters <= 1
  {
    if ingesters <= 1 {
      forall states, actions, n | Trace(states, actions, ingesters) && 0 <= n < |states|
        ensures ExactlyOnce(states[n])
      {
        OneIngesterIsExact(states, actions, n);
      }
    } else {
      OvertakingIsTrace(ingesters);
      var states := OvertakingStates();
      assert 1 in states[8].visible && 1 <= states[8].cursor && 1 !in states[8].projected;
      assert !ExactlyOnce(states[8]);
    }
  }

  /** An id strictly between two neighbours of an ascending page is not on it. */
  lemma NotOnPage(page: seq<nat>, i: nat, id: nat)
    requires Ascending(page) && i <= |page|
    requires (i > 0 ==> page[i - 1] < id) && (i < |page| ==> id < page[i])
    ensures id !in page
  {
    forall j | 0 <= j < |page|
      ensures page[j] != id
    {
      assert j < i ==> page[j] <= page[i - 1];
      assert j > i ==> page[i] < page[j];
    }
  }

  /** What is smaller than an entry of the earlier page was visible then, and is on it. */
  lemma EarlierIsOnPage(ids: set<nat>, ids': set<nat>, since: nat, limit: nat, page: seq<nat>, i: nat, id: nat)
    requires ids <= ids' && forall id, v :: id in ids' - ids && v in ids ==> v < id
    requires IsPage(ids, since, limit, page) && i < |page|
    requires id in ids' && since < id < page[i]
    ensures id in page
  {
    assert page[i] in page && page[i] <= page[|page| - 1];
    assert id !in ids' - ids;
  }

  lemma {:induction false} PagesAgree(ids: set<nat>, ids': set<nat>, since: nat, limit: nat, page: seq<nat>, page': seq<nat>, n: nat)
    requires ids <= ids' && forall id, v :: id in ids' - ids && v in ids ==> v < id
    requires IsPage(ids, since, limit, page) && IsPage(ids', since, limit, page') && n <= |page|
    ensures n <= |page'| && page[..n] == page'[..n]
  {
    if n > 0 {
      var i := n - 1;
      PagesAgree(ids, ids', since, limit, page, page', i);
      assert i > 0 ==> page[i - 1] == page[..i][i - 1] == page'[..i][i - 1] == page'[i - 1];
      assert page[i] in page && page[i] in ids && page[i] <= page[|page| - 1];
      if |page'| == i {
        NotOnPage(page', i, page[i]);
      } else if page'[i] < page[i] {
        assert page'[i] in page';
        NotOnPage(page, i, page'[i]);
        EarlierIsOnPage(ids, ids', since, limit, page, i, page'[i]);
      } else if page[i] < page'[i] {
        NotOnPage(page', i, page[i]);
      }
    }
  }

  /** Between two states of one ingester, visible ids are only added above all others. */
  lemma {:induction false} VisibleGrows(states: seq<State>, actions: seq<Action>, i: nat, j: nat)
    requires Trace(states, actions, 1) && i <= j < |states|
    ensures states[i].visible <= states[j].visible
    ensures forall id, v :: id in states[j].visible - states[i].visible && v in states[i].visible ==> v < id
  {
    if i < j {
      VisibleGrows(states, actions, i, j - 1);
      OneIngesterIsExact(states, actions, j - 1);
      StepAddsAbove(states[j - 1], actions[j - 1]);
      AboveAbove(states[i].visible, states[j - 1].visible, states[j].visible);
    }
  }

  lemma AboveAbove(a: set<nat>, b: set<nat>, c: set<nat>)
    requires a <= b <= c
    requires forall id, v :: id in b - a && v in a ==> v < id
    requires forall id, v :: id in c - b && v in b ==> v < id
    ensures forall id, v :: id in c - a && v in a ==> v < id
  {
    forall id, v | id in c - a && v in a
      ensures v < id
    {
      assert v in b && (id in b - a || id in c - b);
    }
  }

  lemma StepAddsAbove(s: State, a: Action)
    requires Ordered(s) && Enabled(s, a) && By(a, 1)
    ensures s.visible <= Next(s, a).visible
    ensures forall id, v :: id in Next(s, a).visible - s.visible && v in s.visible ==> v < id
  {}

  /** The rows of the log, in id order. */
  ghost predicate IsLog(s: State, ids: seq<nat>) {
    Ascending(ids) && forall id :: id in ids <==> id in s.visible
  }

  lemma LogIsPage(s: State, ids: seq<nat>, limit: nat)
    requires Ordered(s) && IsLog(s, ids) && limit >= |ids|
    ensures IsPage(s.visible, 0, limit, ids)
  {}

  /** So with one ingester the log only grows at its end. */
  lemma LogGrows(states: seq<State>, actions: seq<Action>, i: nat, j: nat, rows: seq<nat>, rows': seq<nat>)
    requires Trace(states, actions, 1) && i <= j < |states| && IsLog(states[i], rows) && IsLog(states[j], rows')
    ensures rows <= rows' && forall id :: id in rows' ==> id > 0
  {
    VisibleGrows(states, actions, i, j);
    OneIngesterIsExact(states, actions, i);
    OneIngesterIsExact(states, actions, j);
    LogIsPage(states[i], rows, |rows| + |rows'|);
    LogIsPage(states[j], rows', |rows| + |rows'|);
    PagesAgree(states[i].visible, states[j].visible, 0, |rows| + |rows'|, rows, rows', |rows|);
  }

  /** ... and a page fetched again from the same cursor, as after a failed attempt,
      starts with the page fetched before. */
  lemma RetryPageExtends(states: seq<State>, actions: seq<Action>, i: nat, j: nat)
    requires Trace(states, actions, 1) && i <= j < |actions| && actions[i].Fetch? && actions[j].Fetch?
    requires states[i].cursor == states[j].cursor && actions[i].limit == actions[j].limit
    ensures actions[i].page <= actions[j].page
  {
    VisibleGrows(states, actions, i, j);
    PagesAgree(states[i].visible, states[j].visible, states[i].cursor, actions[i].limit, actions[i].page, actions[j].page, |actions[i].page|);
  }
}
