/** Requests for the data of single messages, sent together (`apiwrap.cpp`). */
module MessageData {

  // Channel 0 stands for messages outside of channels.
  type Channel = nat
  type MsgId = int
  type ReqId = nat
  type Callback = nat

  const NONE: Channel := 0

  // A table is sorted by message id, like the flat map it stands for; a request id of 0
  // marks an entry that was not sent yet.
  datatype Entry = Entry(id: MsgId, requestId: ReqId, callbacks: seq<Callback>)
  type Table = seq<Entry>

  datatype Sent = Sent(channel: Channel, ids: seq<MsgId>)
  datatype Call = Call(channel: Channel, id: MsgId, callback: Callback)

  // `queued` tells that `resolveMessageDatas` is about to be called; `ran` is the order in
  // which callbacks were called.
  datatype State = State(
    tables: map<Channel, Table>, queued: bool, flight: map<ReqId, Sent>, last: ReqId, ran: seq<Call>)

  const INITIAL := State(map[NONE := []], false, map[], 0, [])

  // ----- The operations on a table

  ghost predicate Sorted(t: Table) { forall i, j :: 0 <= i < j < |t| ==> t[i].id < t[j].id }

  function LowerBound(t: Table, id: MsgId): (i: nat)
    ensures i <= |t|
    ensures forall k :: 0 <= k < i ==> t[k].id < id
    ensures i < |t| ==> t[i].id >= id
  {
    if t == [] || t[0].id >= id then 0 else 1 + LowerBound(t[1..], id)
  }

  function Added(t: Table, id: MsgId, done: seq<Callback>): Table {
    var i := LowerBound(t, id);
    if i < |t| && t[i].id == id then t[i := t[i].(callbacks := t[i].callbacks + done)]
    else t[..i] + [Entry(id, 0, done)] + t[i..]
  }

  // The messages of one request.
  function IdsOf(t: Table, r: ReqId): seq<MsgId> {
    if t == [] then []
    else IdsOf(t[..|t| - 1], r) + (if t[|t| - 1].requestId == r then [t[|t| - 1].id] else [])
  }

  function Marked(t: Table, r: ReqId): Table {
    seq(|t|, i requires 0 <= i < |t| => if t[i].requestId == 0 then t[i].(requestId := r) else t[i])
  }

  function Remaining(t: Table, r: ReqId): Table {
    if t == [] then []
    else Remaining(t[..|t| - 1], r) + (if t[|t| - 1].requestId == r then [] else [t[|t| - 1]])
  }

  function CallsFor(c: Channel, id: MsgId, callbacks: seq<Callback>): seq<Call> {
    seq(|callbacks|, i requires 0 <= i < |callbacks| => Call(c, id, callbacks[i]))
  }

  function Calls(c: Channel, t: Table, r: ReqId): seq<Call> {
    if t == [] then []
    else
      var e := t[|t| - 1];
      Calls(c, t[..|t| - 1], r) + (if e.requestId == r then CallsFor(c, e.id, e.callbacks) else [])
  }

  // ----- The operations of the whole

  function TableOf(s: State, c: Channel): Table { if c in s.tables then s.tables[c] else [] }

  // Whether the entry of a message was sent; a given one was not.
  function RequestOf(t: Table, id: MsgId): ReqId {
    var i := LowerBound(t, id);
    if i < |t| && t[i].id == id then t[i].requestId else 0
  }

  function Request(s: State, c: Channel, id: MsgId, done: seq<Callback>): State {
    var t := TableOf(s, c);
    s.(tables := s.tables[c := Added(t, id, done)], queued := s.queued || RequestOf(t, id) == 0)
  }

  function ResolveOne(s: State, c: Channel): State {
    if c !in s.tables then s
    else if s.tables[c] == [] && c != NONE then s.(tables := s.tables - {c})
    else if IdsOf(s.tables[c], 0) == [] then s
    else
      var r := s.last + 1;
      s.(tables := s.tables[c := Marked(s.tables[c], r)],
         flight := s.flight[r := Sent(c, IdsOf(s.tables[c], 0))],
         last := r)
  }

  // The channels are walked in the order of their addresses, which is not known.
  function ResolveAll(s: State, order: seq<Channel>): State {
    if order == [] then ResolveOne(s, NONE)
    else ResolveOne(ResolveAll(s, order[..|order| - 1]), order[|order| - 1])
  }

  function Finalize(s: State, c: Channel, r: ReqId): State {
    if c !in s.tables then s
    else
      var t := s.tables[c];
      var rest := Remaining(t, r);
      s.(tables := if rest == [] && c != NONE then s.tables - {c} else s.tables[c := rest],
         ran := s.ran + Calls(c, t, r))
  }

  datatype Event =
    | Requested(channel: Channel, id: MsgId, done: seq<Callback>)
    | Resolved(order: seq<Channel>)
    | Replied(requestId: ReqId)

  // `done` holds at most one callback, and the queued call walks all channels.
  ghost predicate Possible(s: State, e: Event) {
    match e
    case Requested(_, _, done) => |done| <= 1
    case Resolved(order) => s.queued && forall c :: c in s.tables && c != NONE ==> c in order
    case Replied(r) => r in s.flight
  }

  function Step(s: State, e: Event): State {
    match e
    case Requested(c, id, done) => Request(s, c, id, done)
    case Resolved(order) => ResolveAll(s.(queued := false), order)
    case Replied(r) =>
      if r in s.flight then Finalize(s.(flight := s.flight - {r}), s.flight[r].channel, r) else s
  }

  function Run(events: seq<Event>): State
    decreases |events|
  {
    if events == [] then INITIAL else Step(Run(events[..|events| - 1]), events[|events| - 1])
  }

  ghost predicate PossibleRun(events: seq<Event>)
    decreases |events|
  {
    events == [] ||
    (PossibleRun(events[..|events| - 1]) && Possible(Run(events[..|events| - 1]), events[|events| - 1]))
  }

  // ----- What the operations do to the messages of a request

  lemma {:induction false} IdsConcat(a: Table, b: Table, r: ReqId)
    ensures IdsOf(a + b, r) == IdsOf(a, r) + IdsOf(b, r)
  {
    if b == [] {
      assert a + b == a && IdsOf(a, r) + [] == IdsOf(a, r);
    } else {
      var n := |b| - 1;
      assert (a + b)[..|a + b| - 1] == a + b[..n];
      IdsConcat(a, b[..n], r);
    }
  }

  lemma SplitIds(a: Table, e: Entry, b: Table, r: ReqId)
    ensures IdsOf(a + [e] + b, r) == IdsOf(a, r) + (if e.requestId == r then [e.id] else []) + IdsOf(b, r)
  {
    IdsConcat(a + [e], b, r);
    assert (a + [e])[..|a|] == a;
  }

  lemma AddedIds(t: Table, id: MsgId, done: seq<Callback>, r: ReqId)
    requires r != 0 || RequestOf(t, id) != 0
    ensures IdsOf(Added(t, id, done), r) == IdsOf(t, r)
  {
    var i := LowerBound(t, id);
    if i < |t| && t[i].id == id {
      var a, e, b := t[..i], t[i], t[i + 1..];
      var f := e.(callbacks := e.callbacks + done);
      assert t == a + [e] + b && Added(t, id, done) == a + [f] + b;
      SplitIds(a, e, b, r);
      SplitIds(a, f, b, r);
    } else {
      var a, f, b := t[..i], Entry(id, 0, done), t[i..];
      SplitIds(a, f, b, r);
      assert t == a + b;
      IdsConcat(a, b, r);
      assert IdsOf(a, r) + [] == IdsOf(a, r);
    }
  }

  lemma {:induction false} MarkedIds(t: Table, given: ReqId, r: ReqId)
    requires given != 0 && IdsOf(t, given) == []
    ensures IdsOf(Marked(t, given), r) == if r == 0 then [] else if r == given then IdsOf(t, 0) else IdsOf(t, r)
  {
    if t != [] {
      var n := |t| - 1;
      MarkedIds(t[..n], given, r);
      assert Marked(t, given)[..n] == Marked(t[..n], given);
    }
  }

  lemma {:induction false} RemainingIds(t: Table, gone: ReqId, r: ReqId)
    ensures IdsOf(Remaining(t, gone), r) == if r == gone then [] else IdsOf(t, r)
  {
    if t != [] {
      var n := |t| - 1;
      RemainingIds(t[..n], gone, r);
      IdsConcat(Remaining(t[..n], gone), if t[n].requestId == gone then [] else [t[n]], r);
    }
  }

  // Exactly the entries of the request go.
  lemma {:induction false} RemainingExactly(t: Table, r: ReqId)
    ensures forall e :: e in Remaining(t, r) <==> e in t && e.requestId != r
  {
    if t != [] {
      var n := |t| - 1;
      RemainingExactly(t[..n], r);
      assert t == t[..n] + [t[n]];
      assert forall e :: e in t <==> e in t[..n] || e == t[n];
    }
  }

  lemma {:induction false} RemainingSorted(t: Table, r: ReqId)
    requires Sorted(t)
    ensures Sorted(Remaining(t, r))
  {
    if t != [] {
      var n := |t| - 1;
      var u := Remaining(t[..n], r);
      RemainingSorted(t[..n], r);
      RemainingExactly(t[..n], r);
      forall i | 0 <= i < |u| ensures u[i].id < t[n].id {
        assert u[i] in t[..n];
      }
    }
  }

  lemma {:induction false} IdIn(t: Table, r: ReqId, id: MsgId)
    ensures id in IdsOf(t, r) <==> exists e :: e in t && e.requestId == r && e.id == id
  {
    if t != [] {
      var n := |t| - 1;
      IdIn(t[..n], r, id);
      assert t == t[..n] + [t[n]];
      assert forall e :: e in t <==> e in t[..n] || e == t[n];
    }
  }

  // ----- What the operations do to the callbacks of a message

  function WaitingAt(t: Table, id: MsgId): seq<Callback> {
    var i := LowerBound(t, id);
    if i < |t| && t[i].id == id then t[i].callbacks else []
  }

  function RanAt(ran: seq<Call>, c: Channel, id: MsgId): seq<Callback> {
    if ran == [] then []
    else
      var call := ran[|ran| - 1];
      RanAt(ran[..|ran| - 1], c, id) + (if call.channel == c && call.id == id then [call.callback] else [])
  }

  lemma WaitingIs(t: Table, e: Entry)
    requires Sorted(t) && e in t
    ensures WaitingAt(t, e.id) == e.callbacks && RequestOf(t, e.id) == e.requestId
  {}

  lemma AddedSorted(t: Table, id: MsgId, done: seq<Callback>)
    requires Sorted(t)
    ensures Sorted(Added(t, id, done))
  {}

  lemma AddedWaiting(t: Table, id: MsgId, done: seq<Callback>)
    requires Sorted(t)
    ensures WaitingAt(Added(t, id, done), id) == WaitingAt(t, id) + done
  {
    var u, i := Added(t, id, done), LowerBound(t, id);
    AddedSorted(t, id, done);
    assert u[i].id == id && u[i].callbacks == WaitingAt(t, id) + done;
    WaitingIs(u, u[i]);
  }

  lemma SameWaiting(t: Table, u: Table, id: MsgId)
    requires Sorted(t) && Sorted(u) && forall e: Entry :: e.id == id ==> (e in t <==> e in u)
    ensures WaitingAt(t, id) == WaitingAt(u, id)
  {
    var j, k := LowerBound(t, id), LowerBound(u, id);
    if j < |t| && t[j].id == id {
      WaitingIs(u, t[j]);
    } else if k < |u| && u[k].id == id {
      WaitingIs(t, u[k]);
    }
  }

  lemma AddedEntries(t: Table, id: MsgId, done: seq<Callback>, e: Entry)
    requires e.id != id
    ensures e in Added(t, id, done) <==> e in t
  {
    var i := LowerBound(t, id);
    assert t == t[..i] + t[i..];
    if i < |t| && t[i].id == id {
      assert Added(t, id, done) == t[..i] + [t[i].(callbacks := t[i].callbacks + done)] + t[i + 1..];
      assert t[i..] == [t[i]] + t[i + 1..];
    }
  }

  lemma AddedElsewhere(t: Table, id: MsgId, done: seq<Callback>, k: MsgId)
    requires Sorted(t) && k != id
    ensures WaitingAt(Added(t, id, done), k) == WaitingAt(t, k)
  {
    AddedSorted(t, id, done);
    forall e: Entry | e.id == k ensures e in Added(t, id, done) <==> e in t {
      AddedEntries(t, id, done, e);
    }
    SameWaiting(Added(t, id, done), t, k);
  }

  lemma MarkedWaiting(t: Table, r: ReqId, id: MsgId)
    requires Sorted(t)
    ensures Sorted(Marked(t, r)) && WaitingAt(Marked(t, r), id) == WaitingAt(t, id)
  {
    var j := LowerBound(t, id);
    if j < |t| && t[j].id == id {
      WaitingIs(Marked(t, r), Marked(t, r)[j]);
    }
  }

  lemma {:induction false} RanConcat(a: seq<Call>, b: seq<Call>, c: Channel, id: MsgId)
    ensures RanAt(a + b, c, id) == RanAt(a, c, id) + RanAt(b, c, id)
  {
    if b == [] {
      assert a + b == a && RanAt(a, c, id) + [] == RanAt(a, c, id);
    } else {
      var n := |b| - 1;
      assert (a + b)[..|a + b| - 1] == a + b[..n];
      RanConcat(a, b[..n], c, id);
    }
  }

  lemma {:induction false} RanCalls(c: Channel, of: MsgId, callbacks: seq<Callback>, d: Channel, id: MsgId)
    ensures RanAt(CallsFor(c, of, callbacks), d, id) == if c == d && of == id then callbacks else []
  {
    if callbacks != [] {
      var n := |callbacks| - 1;
      RanCalls(c, of, callbacks[..n], d, id);
      assert CallsFor(c, of, callbacks)[..n] == CallsFor(c, of, callbacks[..n]);
    }
  }

  lemma CallsMore(c: Channel, t: Table, e: Entry, r: ReqId, d: Channel, id: MsgId)
    ensures RanAt(Calls(c, t + [e], r), d, id) ==
      RanAt(Calls(c, t, r), d, id) + (if e.requestId == r && c == d && e.id == id then e.callbacks else [])
  {
    assert (t + [e])[..|t|] == t;
    RanConcat(Calls(c, t, r), if e.requestId == r then CallsFor(c, e.id, e.callbacks) else [], d, id);
    RanCalls(c, e.id, e.callbacks, d, id);
  }

  // Of all messages, just those of the request are called back.
  lemma {:induction false} CallsAt(c: Channel, t: Table, r: ReqId, d: Channel, id: MsgId)
    requires Sorted(t) && r != 0
    ensures RanAt(Calls(c, t, r), d, id) == if c == d && RequestOf(t, id) == r then WaitingAt(t, id) else []
  {
    if t != [] {
      var n := |t| - 1;
      CallsAt(c, t[..n], r, d, id);
      assert t == t[..n] + [t[n]];
      CallsMore(c, t[..n], t[n], r, d, id);
      if t[n].id == id {
        WaitingIs(t, t[n]);
      } else {
        SameEntry(t, id);
      }
    }
  }

  // The last entry says nothing of other messages.
  lemma SameEntry(t: Table, id: MsgId)
    requires Sorted(t) && t != [] && t[|t| - 1].id != id
    ensures WaitingAt(t[..|t| - 1], id) == WaitingAt(t, id) && RequestOf(t[..|t| - 1], id) == RequestOf(t, id)
  {
    var j := LowerBound(t, id);
    if j < |t| - 1 && t[j].id == id {
      WaitingIs(t[..|t| - 1], t[j]);
    }
  }

  lemma RemainingWaiting(t: Table, r: ReqId, id: MsgId)
    requires Sorted(t) && r != 0
    ensures WaitingAt(Remaining(t, r), id) == if RequestOf(t, id) == r then [] else WaitingAt(t, id)
  {
    var u := Remaining(t, r);
    RemainingExactly(t, r);
    RemainingSorted(t, r);
    var j, k := LowerBound(t, id), LowerBound(u, id);
    if k < |u| && u[k].id == id {
      WaitingIs(t, u[k]);
    } else if j < |t| && t[j].id == id && t[j].requestId != r {
      WaitingIs(u, t[j]);
    }
  }

  lemma RequestedIn(t: Table, r: ReqId, id: MsgId)
    requires Sorted(t) && r != 0
    ensures id in IdsOf(t, r) <==> RequestOf(t, id) == r
  {
    IdIn(t, r, id);
    var j := LowerBound(t, id);
    if j < |t| && t[j].id == id {
      WaitingIs(t, t[j]);
    }
  }

  // ----- What holds in every reachable state

  ghost function Expected(flight: map<ReqId, Sent>, c: Channel, r: ReqId): seq<MsgId> {
    if r in flight && flight[r].channel == c then flight[r].ids else []
  }

  ghost predicate Matches(s: State, c: Channel, r: ReqId) { IdsOf(TableOf(s, c), r) == Expected(s.flight, c, r) }

  // The entries marked with a request are just those it asked for.
  ghost predicate Consistent(s: State) {
    && NONE in s.tables
    && (forall c :: c in s.tables ==> Sorted(s.tables[c]))
    && (forall r :: r in s.flight ==> 0 < r <= s.last && s.flight[r].ids != [])
    && (forall c: Channel, r: ReqId :: r != 0 ==> Matches(s, c, r))
  }

  ghost predicate Unsent(s: State, c: Channel) { IdsOf(TableOf(s, c), 0) != [] }

  // An entry that was not sent yet will be, because a resolve call is queued.
  ghost predicate Inv(s: State) { Consistent(s) && (s.queued || forall c :: !Unsent(s, c)) }

  ghost function Kept(s: State, c: Channel, id: MsgId): seq<Callback> {
    RanAt(s.ran, c, id) + WaitingAt(TableOf(s, c), id)
  }

  lemma RequestKeepsInv(s: State, c: Channel, id: MsgId, done: seq<Callback>)
    requires Inv(s)
    ensures Inv(Request(s, c, id, done))
  {
    var t, u := TableOf(s, c), Request(s, c, id, done);
    AddedSorted(t, id, done);
    forall r: ReqId ensures r != 0 || RequestOf(t, id) != 0 ==> IdsOf(u.tables[c], r) == IdsOf(t, r) {
      if r != 0 || RequestOf(t, id) != 0 { AddedIds(t, id, done, r); }
    }
    forall d: Channel, r: ReqId | r != 0 ensures Matches(u, d, r) {
      assert Matches(s, d, r);
    }
    forall d: Channel | !u.queued ensures !Unsent(u, d) {
      assert !Unsent(s, d);
    }
  }

  lemma ResolveOneIds(s: State, c: Channel, d: Channel, r: ReqId)
    requires Consistent(s)
    ensures var u := ResolveOne(s, c);
      IdsOf(TableOf(u, d), r) == if d == c && r == 0 then [] else if r == 0 then IdsOf(TableOf(s, d), 0) else Expected(u.flight, d, r)
  {
    assert r != 0 ==> Matches(s, d, r);
    if ResolveOne(s, c).last != s.last {
      ResolveSentIds(s, c, d, r);
    }
  }

  lemma ResolveSentIds(s: State, c: Channel, d: Channel, r: ReqId)
    requires Consistent(s) && ResolveOne(s, c).last != s.last && (r != 0 ==> Matches(s, d, r))
    ensures var u := ResolveOne(s, c);
      IdsOf(TableOf(u, d), r) == if d == c && r == 0 then [] else if r == 0 then IdsOf(TableOf(s, d), 0) else Expected(u.flight, d, r)
  {
    var u := ResolveOne(s, c);
    assert u.tables == s.tables[c := Marked(s.tables[c], u.last)];
    if d == c {
      assert Matches(s, c, u.last);
      MarkedIds(s.tables[c], u.last, r);
    }
  }

  lemma ResolveOneKeeps(s: State, c: Channel)
    requires Consistent(s)
    ensures Consistent(ResolveOne(s, c))
    ensures forall d :: Unsent(ResolveOne(s, c), d) <==> d != c && Unsent(s, d)
  {
    var u := ResolveOne(s, c);
    forall d: Channel, r: ReqId ensures
      IdsOf(TableOf(u, d), r) == if d == c && r == 0 then [] else if r == 0 then IdsOf(TableOf(s, d), 0) else Expected(u.flight, d, r)
    {
      ResolveOneIds(s, c, d, r);
    }
    if u.last != s.last {
      MarkedWaiting(s.tables[c], u.last, 0);
    }
  }

  lemma {:induction false} ResolveAllKeeps(s: State, order: seq<Channel>)
    requires Consistent(s)
    ensures Consistent(ResolveAll(s, order))
    ensures forall d :: Unsent(ResolveAll(s, order), d) <==> d != NONE && d !in order && Unsent(s, d)
  {
    if order == [] {
      ResolveOneKeeps(s, NONE);
    } else {
      var n := |order| - 1;
      ResolveAllKeeps(s, order[..n]);
      ResolveOneKeeps(ResolveAll(s, order[..n]), order[n]);
      assert order == order[..n] + [order[n]];
    }
  }

  // What resolving makes of the table of a channel it comes to: an empty one goes, and what
  // was not sent is sent together.
  ghost predicate Resolves(s: State, t: State, c: Channel) {
    if c !in s.tables || (c != NONE && s.tables[c] == []) then c !in t.tables
    else
      c in t.tables &&
      var ids := IdsOf(s.tables[c], 0);
      if ids == [] then t.tables[c] == s.tables[c]
      else exists r :: s.last < r <= t.last && r in t.flight && t.flight[r] == Sent(c, ids) && t.tables[c] == Marked(s.tables[c], r)
  }

  ghost predicate Untouched(s: State, t: State, c: Channel) {
    (c in t.tables <==> c in s.tables) && (c in s.tables ==> t.tables[c] == s.tables[c])
  }

  // Requests that are in flight stay as they are.
  ghost predicate Grows(s: State, t: State) {
    s.last <= t.last && (forall r :: r in s.flight ==> r in t.flight && t.flight[r] == s.flight[r])
    && (forall r :: r in t.flight ==> r in s.flight || s.last < r <= t.last)
  }

  lemma ResolveOneExactly(s: State, d: Channel, c: Channel)
    requires Consistent(s)
    ensures Grows(s, ResolveOne(s, d))
    ensures if c == d then Resolves(s, ResolveOne(s, d), c) else Untouched(s, ResolveOne(s, d), c)
  {
    var t := ResolveOne(s, d);
    assert c == d && t.last > s.last ==> t.last in t.flight;
  }

  // A table that was resolved stays so.
  lemma ResolvesAgain(s: State, m: State, t: State, c: Channel)
    requires Consistent(s) && Resolves(s, m, c) && Grows(s, m) && Grows(m, t) && (Resolves(m, t, c) || Untouched(m, t, c))
    ensures Resolves(s, t, c)
  {
    if c in s.tables && !(c != NONE && s.tables[c] == []) && IdsOf(s.tables[c], 0) != [] {
      var r :| s.last < r <= m.last && r in m.flight && m.flight[r] == Sent(c, IdsOf(s.tables[c], 0))
        && m.tables[c] == Marked(s.tables[c], r);
      assert Matches(s, c, r);
      MarkedIds(s.tables[c], r, 0);
      assert r in t.flight && t.tables[c] == m.tables[c];
    }
  }

  lemma {:induction false} ResolveAllExactly(s: State, order: seq<Channel>, c: Channel)
    requires Consistent(s)
    ensures Grows(s, ResolveAll(s, order))
    ensures if c == NONE || c in order then Resolves(s, ResolveAll(s, order), c) else Untouched(s, ResolveAll(s, order), c)
  {
    if order == [] {
      ResolveOneExactly(s, NONE, c);
    } else {
      var n := |order| - 1;
      var m, t := ResolveAll(s, order[..n]), ResolveAll(s, order);
      ResolveAllKeeps(s, order[..n]);
      ResolveAllExactly(s, order[..n], c);
      ResolveOneExactly(m, order[n], c);
      assert order == order[..n] + [order[n]];
      if c == NONE || c in order[..n] {
        ResolvesAgain(s, m, t, c);
      } else if c == order[n] {
        assert Resolves(m, t, c);
      }
    }
  }

  // The queued call sends what is not sent yet of every channel, in one request each, drops
  // channels without entries, and keeps all requests in flight.
  lemma ResolvedExactly(s: State, order: seq<Channel>, c: Channel)
    requires Inv(s) && Possible(s, Resolved(order))
    ensures var t := Step(s, Resolved(order)); !t.queued && Grows(s, t) && Resolves(s, t, c) && t.ran == s.ran
  {
    var u := s.(queued := false);
    forall d: Channel, r: ReqId | r != 0 ensures Matches(u, d, r) {
      assert Matches(s, d, r);
    }
    ResolveAllExactly(u, order, c);
    ResolveAllWaiting(u, order, c, 0);
    ResolveAllQueue(u, order);
  }

  lemma {:induction false} ResolveAllQueue(s: State, order: seq<Channel>)
    ensures ResolveAll(s, order).queued == s.queued
  {
    if order != [] {
      ResolveAllQueue(s, order[..|order| - 1]);
    }
  }

  // A reply takes just the entries of its request away, and a channel with the last of them.
  lemma RepliedExactly(s: State, r: ReqId, c: Channel)
    requires Inv(s) && r in s.flight
    ensures var t, d := Step(s, Replied(r)), s.flight[r].channel;
      && t.flight == s.flight - {r} && t.last == s.last && t.queued == s.queued
      && (c != d ==> Untouched(s, t, c))
      && (c == d && c in s.tables ==>
            var rest := Remaining(s.tables[c], r);
            if rest == [] && c != NONE then c !in t.tables else c in t.tables && t.tables[c] == rest)
  {}

  lemma ResolveOneWaiting(s: State, d: Channel, c: Channel, id: MsgId)
    requires Consistent(s)
    ensures ResolveOne(s, d).ran == s.ran && WaitingAt(TableOf(ResolveOne(s, d), c), id) == WaitingAt(TableOf(s, c), id)
  {
    var u := ResolveOne(s, d);
    if u.last != s.last && c == d {
      assert TableOf(u, c) == Marked(s.tables[d], u.last);
      MarkedWaiting(s.tables[d], u.last, id);
    } else {
      assert TableOf(u, c) == TableOf(s, c);
    }
  }

  lemma {:induction false} ResolveAllWaiting(s: State, order: seq<Channel>, c: Channel, id: MsgId)
    requires Consistent(s)
    ensures ResolveAll(s, order).ran == s.ran && WaitingAt(TableOf(ResolveAll(s, order), c), id) == WaitingAt(TableOf(s, c), id)
  {
    if order == [] {
      ResolveOneWaiting(s, NONE, c, id);
    } else {
      var n := |order| - 1;
      ResolveAllKeeps(s, order[..n]);
      ResolveAllWaiting(s, order[..n], c, id);
      ResolveOneWaiting(ResolveAll(s, order[..n]), order[n], c, id);
    }
  }

  lemma ReplyTable(s: State, r: ReqId, c: Channel)
    requires Inv(s) && r in s.flight
    ensures TableOf(Step(s, Replied(r)), c) ==
      if c == s.flight[r].channel then Remaining(TableOf(s, c), r) else TableOf(s, c)
  {
    assert Matches(s, s.flight[r].channel, r);
  }

  lemma ReplyIds(s: State, r: ReqId, c: Channel, k: ReqId)
    requires Inv(s) && r in s.flight
    ensures var u := Step(s, Replied(r)); (k != 0 ==> Matches(u, c, k)) && (k == 0 && !u.queued ==> !Unsent(u, c))
  {
    ReplyTable(s, r, c);
    RemainingIds(TableOf(s, c), r, k);
    if k != 0 {
      assert Matches(s, c, k);
    } else if !s.queued {
      assert !Unsent(s, c);
    }
  }

  lemma FinalizeKeepsInv(s: State, r: ReqId)
    requires Inv(s) && r in s.flight
    ensures Inv(Step(s, Replied(r)))
  {
    var u := Step(s, Replied(r));
    forall c: Channel, k: ReqId | k != 0 ensures Matches(u, c, k) {
      ReplyIds(s, r, c, k);
    }
    forall c: Channel | !u.queued ensures !Unsent(u, c) {
      ReplyIds(s, r, c, 0);
    }
    RemainingSorted(TableOf(s, s.flight[r].channel), r);
  }

  // The reply to a request calls just the callbacks of its messages.
  lemma ReplyCalls(s: State, r: ReqId, c: Channel, id: MsgId)
    requires Inv(s) && r in s.flight
    ensures RanAt(Step(s, Replied(r)).ran, c, id) == RanAt(s.ran, c, id) +
      (if s.flight[r].channel == c && id in s.flight[r].ids then WaitingAt(TableOf(s, c), id) else [])
  {
    var d := s.flight[r].channel;
    var t := TableOf(s, d);
    assert Matches(s, d, r);
    RanConcat(s.ran, Calls(d, t, r), c, id);
    CallsAt(d, t, r, c, id);
    RequestedIn(t, r, id);
  }

  lemma ReplyLeaves(s: State, r: ReqId, c: Channel, id: MsgId)
    requires Inv(s) && r in s.flight
    ensures WaitingAt(TableOf(Step(s, Replied(r)), c), id) ==
      if s.flight[r].channel == c && id in s.flight[r].ids then [] else WaitingAt(TableOf(s, c), id)
  {
    ReplyTable(s, r, c);
    if c == s.flight[r].channel {
      assert Matches(s, c, r);
      RemainingWaiting(TableOf(s, c), r, id);
      RequestedIn(TableOf(s, c), r, id);
    }
  }

  lemma RequestWaiting(s: State, d: Channel, k: MsgId, done: seq<Callback>, c: Channel, id: MsgId)
    requires Inv(s)
    ensures Kept(Request(s, d, k, done), c, id) == Kept(s, c, id) + (if c == d && k == id then done else [])
  {
    var u := Request(s, d, k, done);
    if c == d {
      if k == id { AddedWaiting(TableOf(s, d), k, done); } else { AddedElsewhere(TableOf(s, d), k, done, id); }
    } else {
      assert TableOf(u, c) == TableOf(s, c);
    }
    var x, w := RanAt(s.ran, c, id), WaitingAt(TableOf(s, c), id);
    assert x + w + [] == x + w && x + (w + done) == x + w + done;
  }

  lemma ResolvedKeepsInv(s: State, order: seq<Channel>, c: Channel, id: MsgId)
    requires Inv(s) && Possible(s, Resolved(order))
    ensures Inv(Step(s, Resolved(order))) && Kept(Step(s, Resolved(order)), c, id) == Kept(s, c, id)
  {
    var u := s.(queued := false);
    forall d: Channel, r: ReqId | r != 0 ensures Matches(u, d, r) {
      assert Matches(s, d, r);
    }
    ResolveAllKeeps(u, order);
    ResolveAllWaiting(u, order, c, id);
  }

  lemma StepKeeps(s: State, e: Event, c: Channel, id: MsgId)
    requires Inv(s) && Possible(s, e)
    ensures Inv(Step(s, e))
    ensures Kept(Step(s, e), c, id) == Kept(s, c, id) + (if e.Requested? && e.channel == c && e.id == id then e.done else [])
  {
    match e
    case Requested(d, k, done) =>
      RequestKeepsInv(s, d, k, done);
      RequestWaiting(s, d, k, done, c, id);
    case Resolved(order) =>
      ResolvedKeepsInv(s, order, c, id);
      assert Kept(s, c, id) + [] == Kept(s, c, id);
    case Replied(r) =>
      FinalizeKeepsInv(s, r);
      ReplyCalls(s, r, c, id);
      ReplyLeaves(s, r, c, id);
      var x, w := RanAt(s.ran, c, id), WaitingAt(TableOf(s, c), id);
      assert x + w == x + w + [] && x + [] == x;
  }

  // The callbacks given for a message, in order.
  function Given(events: seq<Event>, c: Channel, id: MsgId): seq<Callback>
    decreases |events|
  {
    if events == [] then []
    else
      var e := events[|events| - 1];
      Given(events[..|events| - 1], c, id) + (if e.Requested? && e.channel == c && e.id == id then e.done else [])
  }

  // Every callback is either called or waiting, once, in the order they were given.
  lemma {:induction false} RunKeeps(events: seq<Event>, c: Channel, id: MsgId)
    requires PossibleRun(events)
    ensures Inv(Run(events)) && Kept(Run(events), c, id) == Given(events, c, id)
    decreases |events|
  {
    if events == [] {
    } else {
      RunKeeps(events[..|events| - 1], c, id);
      StepKeeps(Run(events[..|events| - 1]), events[|events| - 1], c, id);
    }
  }

  // No message is asked for twice at the same time.
  lemma AskedOnce(s: State, r: ReqId, q: ReqId, id: MsgId)
    requires Inv(s) && r in s.flight && q in s.flight && s.flight[r].channel == s.flight[q].channel
    requires id in s.flight[r].ids && id in s.flight[q].ids
    ensures r == q
  {
    var c := s.flight[r].channel;
    assert Matches(s, c, r) && Matches(s, c, q);
    IdIn(TableOf(s, c), r, id);
    IdIn(TableOf(s, c), q, id);
  }

  // When nothing is on its way, every callback was called.
  lemma AllCalled(events: seq<Event>, c: Channel, id: MsgId)
    requires PossibleRun(events) && !Run(events).queued && Run(events).flight == map[]
    ensures RanAt(Run(events).ran, c, id) == Given(events, c, id)
  {
    var s := Run(events);
    RunKeeps(events, c, id);
    var t := TableOf(s, c);
    if t != [] {
      var r := t[0].requestId;
      assert !Unsent(s, c) && (r != 0 ==> Matches(s, c, r));
      IdIn(t, r, t[0].id);
    }
    assert RanAt(s.ran, c, id) + [] == RanAt(s.ran, c, id);
  }

  // ----- `ApiWrap`, updated in place

  class ApiWrap {
    var messageDataRequests: Table
    var channelMessageDataRequests: map<Channel, Table>
    var resolveQueued: bool
    var flight: map<ReqId, Sent>
    var last: ReqId
    var ran: seq<Call>

    ghost predicate Valid()
      reads this
    {
      NONE !in channelMessageDataRequests
    }

    function Value(): State
      reads this
    {
      State(channelMessageDataRequests[NONE := messageDataRequests], resolveQueued, flight, last, ran)
    }

    constructor ()
      ensures Valid() && Value() == INITIAL
    {
      messageDataRequests, channelMessageDataRequests, resolveQueued := [], map[], false;
      flight, last, ran := map[], 0, [];
    }

    method RequestMessageData(channel: Channel, id: MsgId, done: seq<Callback>)
      requires Valid()
      modifies this
      ensures Valid() && Value() == Request(old(Value()), channel, id, done)
    {
      if channel != NONE && channel !in channelMessageDataRequests {
        channelMessageDataRequests := channelMessageDataRequests[channel := []];
      }
      var t := if channel == NONE then messageDataRequests else channelMessageDataRequests[channel];
      assert t == TableOf(old(Value()), channel);
      var added, requestId := AddRequest(t, id, done);
      if channel == NONE {
        messageDataRequests := added;
      } else {
        channelMessageDataRequests := channelMessageDataRequests[channel := added];
      }
      assert Value().tables == old(Value()).tables[channel := added];
      if requestId == 0 {
        resolveQueued := true;
      }
    }

    static method AddRequest(t: Table, id: MsgId, done: seq<Callback>) returns (r: Table, requestId: ReqId)
      ensures r == Added(t, id, done) && requestId == RequestOf(t, id)
    {
      var i := 0;
      while i < |t| && t[i].id < id
        invariant i <= |t| && LowerBound(t, id) == i + LowerBound(t[i..], id)
      {
        i := i + 1;
      }
      assert i == LowerBound(t, id);
      r := t;
      if i == |t| || t[i].id != id {
        r := t[..i] + [Entry(id, 0, [])] + t[i..];
        assert [] + done == done;
        assert r[i := Entry(id, 0, [] + done)] == t[..i] + [Entry(id, 0, done)] + t[i..];
      }
      requestId := r[i].requestId;
      r := r[i := r[i].(callbacks := r[i].callbacks + done)];
    }

    static method CollectMessageIds(t: Table) returns (ids: seq<MsgId>)
      ensures ids == IdsOf(t, 0)
    {
      ids := [];
      for i := 0 to |t|
        invariant ids == IdsOf(t[..i], 0)
      {
        assert t[..i + 1][..i] == t[..i];
        if t[i].requestId == 0 {
          ids := ids + [t[i].id];
        }
      }
      assert t[..|t|] == t;
    }

    static method MarkSent(t: Table, requestId: ReqId) returns (r: Table)
      ensures r == Marked(t, requestId)
    {
      r := t;
      for i := 0 to |t|
        invariant |r| == |t|
        invariant forall k :: 0 <= k < |t| ==> r[k] == if k < i then Marked(t, requestId)[k] else t[k]
      {
        if r[i].requestId == 0 {
          r := r[i := r[i].(requestId := requestId)];
        }
      }
    }

    method SendUnsent(channel: Channel, t: Table) returns (r: Table)
      modifies this`flight, this`last
      ensures IdsOf(t, 0) == [] ==> r == t && unchanged(this)
      ensures IdsOf(t, 0) != [] ==>
        && last == old(last) + 1 && flight == old(flight)[last := Sent(channel, IdsOf(t, 0))] && r == Marked(t, last)
    {
      r := t;
      var ids := CollectMessageIds(t);
      if ids != [] {
        last := last + 1;
        flight := flight[last := Sent(channel, ids)];
        r := MarkSent(t, last);
      }
    }

    // `order` are the channels as the map holds them.
    method ResolveMessageDatas(order: seq<Channel>)
      requires Valid() && resolveQueued && NONE !in order
      requires forall c :: c in channelMessageDataRequests ==> c in order
      modifies this
      ensures Valid() && Value() == Step(old(Value()), Resolved(order))
    {
      resolveQueued := false;
      ghost var start := Value();
      messageDataRequests := SendUnsent(NONE, messageDataRequests);
      assert Value() == ResolveAll(start, order[..0]);
      for i := 0 to |order|
        invariant Valid() && Value() == ResolveAll(start, order[..i])
      {
        assert order[..i + 1][..i] == order[..i];
        ResolveChannel(order[i]);
      }
      assert order[..|order|] == order;
    }

    method ResolveChannel(channel: Channel)
      requires Valid() && channel != NONE
      modifies this
      ensures Valid() && Value() == ResolveOne(old(Value()), channel)
    {
      if channel !in channelMessageDataRequests {
        return;
      }
      var t := channelMessageDataRequests[channel];
      if t == [] {
        channelMessageDataRequests := channelMessageDataRequests - {channel};
      } else {
        t := SendUnsent(channel, t);
        channelMessageDataRequests := channelMessageDataRequests[channel := t];
      }
    }

    // The answer to a request, good or bad.
    method FinalizeMessageDataRequest(requestId: ReqId)
      requires Valid() && requestId in flight
      modifies this
      ensures Valid() && Value() == Step(old(Value()), Replied(requestId))
    {
      var channel := flight[requestId].channel;
      flight := flight - {requestId};
      if channel != NONE && channel !in channelMessageDataRequests {
        return;
      }
      var t := if channel == NONE then messageDataRequests else channelMessageDataRequests[channel];
      var rest, calls := Extract(channel, t, requestId);
      if channel == NONE {
        messageDataRequests := rest;
      } else if rest == [] {
        channelMessageDataRequests := channelMessageDataRequests - {channel};
      } else {
        channelMessageDataRequests := channelMessageDataRequests[channel := rest];
      }
      ran := ran + calls;
    }

    // The erasing loop.
    static method Extract(channel: Channel, t: Table, requestId: ReqId) returns (rest: Table, calls: seq<Call>)
      ensures rest == Remaining(t, requestId) && calls == Calls(channel, t, requestId)
    {
      rest, calls := t, [];
      ghost var seen := 0;
      var i := 0;
      while i < |rest|
        invariant 0 <= i <= |rest| && i <= seen <= |t| && rest[i..] == t[seen..]
        invariant rest[..i] == Remaining(t[..seen], requestId) && calls == Calls(channel, t[..seen], requestId)
        decreases |rest| - i
      {
        assert rest[i] == t[seen];
        ExtractMore(channel, t, requestId, seen);
        if rest[i].requestId == requestId {
          var e := rest[i];
          calls := calls + seq(|e.callbacks|, k requires 0 <= k < |e.callbacks| => Call(channel, e.id, e.callbacks[k]));
          Erased(rest, t, i, seen);
          rest := rest[..i] + rest[i + 1..];
        } else {
          i := i + 1;
        }
        seen := seen + 1;
      }
      assert t[..seen] == t && rest[..i] == rest;
    }
  }

  lemma ExtractMore(channel: Channel, t: Table, requestId: ReqId, n: nat)
    requires n < |t|
    ensures Remaining(t[..n + 1], requestId) == Remaining(t[..n], requestId) + (if t[n].requestId == requestId then [] else [t[n]])
    ensures Calls(channel, t[..n + 1], requestId) ==
      Calls(channel, t[..n], requestId) + (if t[n].requestId == requestId then CallsFor(channel, t[n].id, t[n].callbacks) else [])
  {
    assert t[..n + 1][..n] == t[..n];
  }

  lemma Erased(rest: Table, t: Table, i: nat, n: nat)
    requires i < |rest| && n < |t| && rest[i..] == t[n..]
    ensures var less := rest[..i] + rest[i + 1..]; less[..i] == rest[..i] && less[i..] == t[n + 1..]
  {
    assert rest[i..][1..] == rest[i + 1..] && t[n..][1..] == t[n + 1..];
  }
}
