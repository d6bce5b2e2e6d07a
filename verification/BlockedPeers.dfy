/** Blocking and unblocking peers (`api/api_blocked_peers.cpp`). */
module BlockedPeers {

  type Peer = nat
  type ReqId = nat
  type Callback = nat

  datatype Option<T> = None | Some(value: T)

  datatype Item = Item(id: Peer, date: int)
  datatype Slice = Slice(list: seq<Item>, total: int)

  datatype Request = Request(requestId: ReqId, blocking: bool, callbacks: seq<Callback>)
  datatype Ask = Ask(peer: Peer, blocking: bool)
  datatype Call = Call(peer: Peer, callback: Callback, success: bool)

  // `requests` is `_blockRequests`, `blocked` the peers known to be blocked. `flight` and
  // `last` are the requests that may still call back and the last id given out, `ran` the
  // calls made so far. `asked` tells whether a list is on its way, and if it is for `slice`.
  datatype State = State(
    requests: map<Peer, Request>, blocked: set<Peer>, slice: Option<Slice>, asked: Option<bool>,
    flight: map<ReqId, Ask>, last: ReqId, ran: seq<Call>)

  const INITIAL := State(map[], {}, None, None, map[], 0, [])

  // ----- The operations

  function CallAll(peer: Peer, callbacks: seq<Callback>, success: bool): seq<Call> {
    seq(|callbacks|, i requires 0 <= i < |callbacks| => Call(peer, callbacks[i], success))
  }

  // Removes the entry of a peer and calls what waited for it.
  function Take(s: State, peer: Peer, success: bool): State {
    if peer !in s.requests then s
    else s.(requests := s.requests - {peer}, ran := s.ran + CallAll(peer, s.requests[peer].callbacks, success))
  }

  function Send(s: State, peer: Peer, blocking: bool, callbacks: seq<Callback>): State {
    var r := s.last + 1;
    s.(requests := s.requests[peer := Request(r, blocking, callbacks)], flight := s.flight[r := Ask(peer, blocking)], last := r)
  }

  // The same call was made before, so it is joined; the opposite one gives way.
  function SendOrJoin(s: State, peer: Peer, blocking: bool, done: seq<Callback>): State {
    if peer in s.requests && s.requests[peer].blocking == blocking then
      var e := s.requests[peer];
      s.(requests := s.requests[peer := e.(callbacks := e.callbacks + done)])
    else Send(Take(s, peer, false), peer, blocking, done)
  }

  function Block(s: State, peer: Peer): State { if peer in s.blocked then s else SendOrJoin(s, peer, true, []) }

  function Unblock(s: State, peer: Peer, done: seq<Callback>, force: bool): State {
    if !force && peer !in s.blocked then s else SendOrJoin(s, peer, false, done)
  }

  function Without(list: seq<Item>, peer: Peer): seq<Item> {
    if list == [] then [] else if list[0].id == peer then list[1..] else [list[0]] + Without(list[1..], peer)
  }

  function WithBlocked(slice: Option<Slice>, peer: Peer, now: int): Option<Slice> {
    match slice
    case None => None
    case Some(l) => Some(Slice([Item(peer, now)] + l.list, l.total + 1))
  }

  function WithUnblocked(slice: Option<Slice>, peer: Peer): Option<Slice> {
    match slice
    case None => None
    case Some(l) =>
      var list := Without(l.list, peer);
      Some(Slice(list, if l.total > |list| then l.total - 1 else l.total))
  }

  // The answer to a request takes whatever entry the peer has by then.
  function Done(s: State, peer: Peer, blocking: bool, now: int): State {
    var t := Take(s, peer, !blocking);
    if blocking then t.(blocked := t.blocked + {peer}, slice := WithBlocked(t.slice, peer, now))
    else t.(blocked := t.blocked - {peer}, slice := WithUnblocked(t.slice, peer))
  }

  function Received(count: int, list: seq<Item>): Slice { Slice(list, if count > |list| then count else |list|) }

  datatype Event =
    | Blocked(peer: Peer)
    | Unblocked(peer: Peer, done: seq<Callback>, force: bool)
    | Replied(requestId: ReqId, ok: bool, now: int)
    | ListAsked(forSlice: bool)
    | ListReceived(count: int, list: seq<Item>)
    | ListFailed

  function Step(s: State, e: Event): State {
    match e
    case Blocked(peer) => Block(s, peer)
    case Unblocked(peer, done, force) => Unblock(s, peer, done, force)
    case Replied(r, ok, now) =>
      if r !in s.flight then s
      else
        var t, a := s.(flight := s.flight - {r}), s.flight[r];
        if ok then Done(t, a.peer, a.blocking, now) else Take(t, a.peer, false)
    case ListAsked(forSlice) => if s.asked.Some? then s else s.(asked := Some(forSlice))
    case ListReceived(count, list) =>
      if s.asked.None? then s
      else s.(asked := None, slice := if s.asked.value then Some(Received(count, list)) else s.slice)
    case ListFailed => s.(asked := None)
  }

  function Run(events: seq<Event>): State
    decreases |events|
  {
    if events == [] then INITIAL else Step(Run(events[..|events| - 1]), events[|events| - 1])
  }

  // ----- What the answers change

  // The first item of the peer goes, and all others stay as they are.
  lemma {:induction false} WithoutExactly(list: seq<Item>, peer: Peer, j: int)
    ensures (forall i :: i in list ==> i.id != peer) ==> Without(list, peer) == list
    ensures 0 <= j < |list| && list[j].id == peer && (forall k :: 0 <= k < j ==> list[k].id != peer) ==>
      Without(list, peer) == list[..j] + list[j + 1..]
  {
    if list != [] && list[0].id != peer {
      WithoutExactly(list[1..], peer, j - 1);
      assert list == [list[0]] + list[1..];
      if 0 < j < |list| {
        assert list[..j] == [list[0]] + list[1..][..j - 1] && list[j + 1..] == list[1..][j..];
      }
    }
  }

  // Blocking puts the peer first in the list that is known, and counts it.
  ghost predicate Adds(s: Option<Slice>, t: Option<Slice>, peer: Peer, now: int) {
    if s.None? then t.None?
    else
      && t.Some? && t.value.total == s.value.total + 1 && |t.value.list| == |s.value.list| + 1
      && t.value.list[0] == Item(peer, now) && t.value.list[1..] == s.value.list
  }

  // Unblocking takes the peer out, and keeps the total above what is left.
  ghost predicate Removes(s: Option<Slice>, t: Option<Slice>, peer: Peer) {
    if s.None? then t.None?
    else
      && t.Some? && t.value.list == Without(s.value.list, peer)
      && t.value.total == s.value.total - (if s.value.total > |t.value.list| then 1 else 0)
  }

  // A good answer makes the peer blocked or not, in the set and in the list; a bad one
  // changes neither.
  lemma ReplyExactly(s: State, r: ReqId, ok: bool, now: int)
    requires r in s.flight
    ensures var t, peer := Step(s, Replied(r, ok, now)), s.flight[r].peer;
      && t.flight == s.flight - {r} && t.last == s.last && t.asked == s.asked
      && peer !in t.requests && (forall p :: p != peer ==> (p in t.requests <==> p in s.requests))
      && (forall p :: p in t.requests ==> t.requests[p] == s.requests[p])
      && (forall p :: p in t.blocked <==> if ok && p == peer then s.flight[r].blocking else p in s.blocked)
      && (if !ok then t.slice == s.slice
          else if s.flight[r].blocking then Adds(s.slice, t.slice, peer, now) else Removes(s.slice, t.slice, peer))
  {}

  // One list is asked for at a time. It takes the place of the known one if it was asked
  // for that, with a total that covers it.
  lemma ListExactly(s: State, forSlice: bool, count: int, list: seq<Item>)
    ensures var t := Step(s, ListAsked(forSlice));
      t == s.(asked := t.asked) && t.asked == if s.asked.Some? then s.asked else Some(forSlice)
    ensures Step(s, ListFailed) == s.(asked := None)
    ensures var t := Step(s, ListReceived(count, list));
      && t == s.(asked := None, slice := t.slice)
      && (s.asked != Some(true) ==> t.slice == s.slice)
      && (s.asked == Some(true) ==>
            t.slice.Some? && t.slice.value.list == list && t.slice.value.total >= count && t.slice.value.total >= |list|
            && (t.slice.value.total == count || t.slice.value.total == |list|))
  {}

  // A call asks only if it has to, and then for what it is for.
  lemma CallExactly(s: State, peer: Peer, blocking: bool, done: seq<Callback>, force: bool)
    ensures var t := if blocking then Step(s, Blocked(peer)) else Step(s, Unblocked(peer, done, force));
      var asks := if blocking then peer !in s.blocked else force || peer in s.blocked;
      var joins := peer in s.requests && s.requests[peer].blocking == blocking;
      && t.blocked == s.blocked && t.slice == s.slice && t.asked == s.asked
      && (!asks ==> t == s)
      && (asks && joins ==>
            && t.flight == s.flight && t.ran == s.ran
            && t.requests == s.requests[peer := t.requests[peer]]
            && t.requests[peer] == Request(s.requests[peer].requestId, blocking,
                 s.requests[peer].callbacks + (if blocking then [] else done)))
      && (asks && !joins ==>
            && t.flight == s.flight[s.last + 1 := Ask(peer, blocking)] && t.last == s.last + 1
            && t.requests == s.requests[peer := Request(s.last + 1, blocking, if blocking then [] else done)])
  {
    if peer in s.requests {
      assert s.requests[peer].callbacks + [] == s.requests[peer].callbacks;
    }
  }

  // ----- What holds in every reachable state

  ghost predicate Own(s: State, peer: Peer) {
    peer in s.requests ==>
      && s.requests[peer].requestId in s.flight
      && s.flight[s.requests[peer].requestId] == Ask(peer, s.requests[peer].blocking)
      && (s.requests[peer].blocking ==> s.requests[peer].callbacks == [])
  }

  // An entry still has its own request on the way, and the total covers the list.
  ghost predicate Inv(s: State) {
    && (forall peer :: peer in s.requests ==> Own(s, peer))
    && (forall r :: r in s.flight ==> 0 < r <= s.last)
    && (s.slice.Some? ==> s.slice.value.total >= |s.slice.value.list|)
  }

  function Waiting(s: State, peer: Peer): seq<Callback> {
    if peer in s.requests then s.requests[peer].callbacks else []
  }

  function RanFor(ran: seq<Call>, peer: Peer): seq<Callback> {
    if ran == [] then []
    else
      var c := ran[|ran| - 1];
      RanFor(ran[..|ran| - 1], peer) + (if c.peer == peer then [c.callback] else [])
  }

  ghost function Kept(s: State, peer: Peer): seq<Callback> { RanFor(s.ran, peer) + Waiting(s, peer) }

  lemma {:induction false} RanConcat(a: seq<Call>, b: seq<Call>, peer: Peer)
    ensures RanFor(a + b, peer) == RanFor(a, peer) + RanFor(b, peer)
  {
    if b == [] {
      assert a + b == a && RanFor(a, peer) + [] == RanFor(a, peer);
    } else {
      assert (a + b)[..|a + b| - 1] == a + b[..|b| - 1];
      RanConcat(a, b[..|b| - 1], peer);
    }
  }

  lemma {:induction false} RanAll(peer: Peer, callbacks: seq<Callback>, success: bool, other: Peer)
    ensures RanFor(CallAll(peer, callbacks, success), other) == if peer == other then callbacks else []
  {
    if callbacks != [] {
      var n := |callbacks| - 1;
      RanAll(peer, callbacks[..n], success, other);
      assert CallAll(peer, callbacks, success)[..n] == CallAll(peer, callbacks[..n], success);
    }
  }

  lemma TakeKeeps(s: State, peer: Peer, success: bool, other: Peer)
    ensures Kept(Take(s, peer, success), other) == Kept(s, other)
    ensures Waiting(Take(s, peer, success), peer) == []
  {
    if peer in s.requests {
      var callbacks := s.requests[peer].callbacks;
      RanConcat(s.ran, CallAll(peer, callbacks, success), other);
      RanAll(peer, callbacks, success, other);
      var x := RanFor(s.ran, other);
      assert x + [] == x && x + callbacks + [] == x + callbacks;
    }
  }

  lemma JoinKeeps(s: State, peer: Peer, blocking: bool, done: seq<Callback>, other: Peer)
    ensures Kept(SendOrJoin(s, peer, blocking, done), other) == Kept(s, other) + (if other == peer then done else [])
  {
    var x, w := RanFor(s.ran, other), Waiting(s, other);
    assert x + (w + done) == x + w + done && x + w + [] == x + w;
    if peer in s.requests && s.requests[peer].blocking == blocking {
    } else {
      TakeKeeps(s, peer, false, other);
      var t := Take(s, peer, false);
      var y := RanFor(t.ran, peer);
      assert y + [] == y;
    }
  }

  // The callbacks that were given in calls that asked for something.
  function Given(s: State, e: Event, peer: Peer): seq<Callback> {
    if e.Unblocked? && e.peer == peer && (e.force || peer in s.blocked) then e.done else []
  }

  lemma StepKeepsCallbacks(s: State, e: Event, peer: Peer)
    ensures Kept(Step(s, e), peer) == Kept(s, peer) + Given(s, e, peer)
  {
    assert Kept(s, peer) + [] == Kept(s, peer);
    match e
    case Blocked(p) => JoinKeeps(s, p, true, [], peer);
    case Unblocked(p, done, force) => JoinKeeps(s, p, false, done, peer);
    case Replied(r, ok, now) =>
      if r in s.flight {
        var t, a := s.(flight := s.flight - {r}), s.flight[r];
        TakeKeeps(t, a.peer, ok && !a.blocking, peer);
      }
    case _ =>
  }

  function AllGiven(events: seq<Event>, peer: Peer): seq<Callback>
    decreases |events|
  {
    if events == [] then []
    else AllGiven(events[..|events| - 1], peer) + Given(Run(events[..|events| - 1]), events[|events| - 1], peer)
  }

  // Every callback was called or waits, once, in the order they were given.
  lemma {:induction false} RunKeepsCallbacks(events: seq<Event>, peer: Peer)
    ensures Kept(Run(events), peer) == AllGiven(events, peer)
    decreases |events|
  {
    if events != [] {
      RunKeepsCallbacks(events[..|events| - 1], peer);
      StepKeepsCallbacks(Run(events[..|events| - 1]), events[|events| - 1], peer);
    }
  }

  lemma {:induction false} WithoutSize(list: seq<Item>, peer: Peer)
    ensures |list| - 1 <= |Without(list, peer)| <= |list|
    ensures |Without(list, peer)| == |list| <==> forall i :: i in list ==> i.id != peer
  {
    if list != [] {
      WithoutSize(list[1..], peer);
      assert list == [list[0]] + list[1..];
    }
  }

  lemma TakeKeepsInv(s: State, peer: Peer, success: bool)
    requires Inv(s)
    ensures Inv(Take(s, peer, success))
  {
    forall p | p in Take(s, peer, success).requests ensures Own(Take(s, peer, success), p) {
      assert Own(s, p);
    }
  }

  lemma JoinKeepsInv(s: State, peer: Peer, blocking: bool, done: seq<Callback>)
    requires Inv(s) && (blocking ==> done == [])
    ensures Inv(SendOrJoin(s, peer, blocking, done))
  {
    TakeKeepsInv(s, peer, false);
    var t, u := SendOrJoin(s, peer, blocking, done), Take(s, peer, false);
    forall p | p in t.requests ensures Own(t, p) {
      assert (p in s.requests ==> Own(s, p)) && (p in u.requests ==> Own(u, p));
    }
  }

  lemma ReplyKeepsInv(s: State, r: ReqId, ok: bool, now: int)
    requires Inv(s) && r in s.flight
    ensures Inv(Step(s, Replied(r, ok, now)))
  {
    var t, a := Step(s, Replied(r, ok, now)), s.flight[r];
    forall p | p in t.requests ensures Own(t, p) {
      assert Own(s, p);
    }
    if s.slice.Some? {
      WithoutSize(s.slice.value.list, a.peer);
    }
  }

  lemma {:induction false} RunKeepsInv(events: seq<Event>)
    ensures Inv(Run(events))
    decreases |events|
  {
    if events != [] {
      var s, e := Run(events[..|events| - 1]), events[|events| - 1];
      RunKeepsInv(events[..|events| - 1]);
      match e
      case Blocked(peer) => JoinKeepsInv(s, peer, true, []);
      case Unblocked(peer, done, force) => JoinKeepsInv(s, peer, false, done);
      case Replied(r, ok, now) => if r in s.flight { ReplyKeepsInv(s, r, ok, now); }
      case _ =>
        assert forall p :: p in s.requests ==> Own(s, p) && Own(Step(s, e), p);
    }
  }

  // ----- Whether a callback hears of its own request

  // Every request on the way has the entry of its peer.
  ghost predicate Matched(s: State) {
    forall r :: r in s.flight ==> s.flight[r].peer in s.requests && s.requests[s.flight[r].peer].requestId == r
  }

  // An opposite call comes while a request has its entry.
  predicate Supersedes(s: State, e: Event) {
    match e
    case Blocked(peer) => peer !in s.blocked && peer in s.requests && !s.requests[peer].blocking
    case Unblocked(peer, _, force) => (force || peer in s.blocked) && peer in s.requests && s.requests[peer].blocking
    case _ => false
  }

  lemma JoinMatches(s: State, peer: Peer, blocking: bool, done: seq<Callback>)
    requires Inv(s) && Matched(s)
    ensures Matched(SendOrJoin(s, peer, blocking, done)) <==> !(peer in s.requests && s.requests[peer].blocking != blocking)
  {
    var t := SendOrJoin(s, peer, blocking, done);
    if peer in s.requests {
      assert Own(s, peer);
      var r := s.requests[peer].requestId;
      assert r in t.flight && t.flight[r].peer == peer;
    }
    forall r | r in t.flight && !(peer in s.requests && s.requests[peer].blocking != blocking)
      ensures t.flight[r].peer in t.requests && t.requests[t.flight[r].peer].requestId == r
    {
      assert r in s.flight || r == t.last;
    }
  }

  // Requests and entries stay matched just until an opposite call comes.
  lemma StaysMatched(s: State, e: Event)
    requires Inv(s) && Matched(s)
    ensures Matched(Step(s, e)) <==> !Supersedes(s, e)
  {
    match e
    case Blocked(peer) => JoinMatches(s, peer, true, []);
    case Unblocked(peer, done, force) => JoinMatches(s, peer, false, done);
    case Replied(r, ok, now) =>
      if r in s.flight {
        var t := Step(s, e);
        forall q | q in t.flight ensures t.flight[q].peer in t.requests && t.requests[t.flight[q].peer].requestId == q {
          assert q in s.flight && q != r;
        }
      }
    case _ =>
  }

  ghost predicate NeverSuperseded(events: seq<Event>)
    decreases |events|
  {
    events == [] ||
    (NeverSuperseded(events[..|events| - 1]) && !Supersedes(Run(events[..|events| - 1]), events[|events| - 1]))
  }

  lemma {:induction false} RunIsMatched(events: seq<Event>)
    requires NeverSuperseded(events)
    ensures Matched(Run(events))
    decreases |events|
  {
    if events != [] {
      RunIsMatched(events[..|events| - 1]);
      RunKeepsInv(events[..|events| - 1]);
      StaysMatched(Run(events[..|events| - 1]), events[|events| - 1]);
    }
  }

  // While they are matched, a reply calls just what waited for that request, and tells
  // whether it succeeded.
  lemma ReplyIsHeard(s: State, r: ReqId, ok: bool, now: int)
    requires Inv(s) && Matched(s) && r in s.flight
    ensures var a := s.flight[r];
      && a.peer in s.requests && s.requests[a.peer].requestId == r && s.requests[a.peer].blocking == a.blocking
      && Step(s, Replied(r, ok, now)).ran == s.ran + CallAll(a.peer, s.requests[a.peer].callbacks, ok)
  {
    var a := s.flight[r];
    assert Own(s, a.peer);
    if a.blocking {
      assert s.ran + CallAll(a.peer, [], ok) == s.ran;
    }
  }

  // After an opposite call a callback may be told of a failure although its own request
  // succeeds.
  lemma WrongReplyIsHeard(peer: Peer, callback: Callback, now: int)
    ensures var s := Step(Step(INITIAL, Blocked(peer)), Unblocked(peer, [callback], true));
      var t := Step(s, Replied(1, true, now));
      var u := Step(t, Replied(2, true, now));
      && s.flight == map[1 := Ask(peer, true), 2 := Ask(peer, false)]
      && t.ran == [Call(peer, callback, false)] && u.ran == t.ran && u.blocked == {}
  {
    var s := Step(Step(INITIAL, Blocked(peer)), Unblocked(peer, [callback], true));
    assert s.requests == map[peer := Request(2, false, [callback])];
    assert CallAll(peer, [callback], false) == [Call(peer, callback, false)];
    assert CallAll(peer, [], false) == [];
  }

  // ----- `BlockedPeers`, updated in place

  class BlockedPeers {
    var blockRequests: map<Peer, Request>
    var blocked: set<Peer>
    var slice: Option<Slice>
    var asked: Option<bool>
    var flight: map<ReqId, Ask>
    var last: ReqId
    var ran: seq<Call>

    function Value(): State
      reads this
    {
      State(blockRequests, blocked, slice, asked, flight, last, ran)
    }

    constructor ()
      ensures Value() == INITIAL
    {
      blockRequests, blocked, slice, asked := map[], {}, None, None;
      flight, last, ran := map[], 0, [];
    }

    method BlockPeer(peer: Peer)
      modifies this
      ensures Value() == Block(old(Value()), peer)
    {
      if peer in blocked {
        return;
      }
      var already := BlockAlreadySent(peer, true, []);
      if already {
        return;
      }
      var requestId := SendRequest(Ask(peer, true));
      blockRequests := blockRequests[peer := Request(requestId, true, [])];
    }

    method UnblockPeer(peer: Peer, done: seq<Callback>, force: bool)
      modifies this
      ensures Value() == Unblock(old(Value()), peer, done, force)
    {
      if !force && peer !in blocked {
        return;
      }
      var already := BlockAlreadySent(peer, false, done);
      if already {
        return;
      }
      var requestId := SendRequest(Ask(peer, false));
      var entry := Request(requestId, false, []);
      assert [] + done == done;
      blockRequests := blockRequests[peer := entry.(callbacks := entry.callbacks + done)];
    }

    method SendRequest(ask: Ask) returns (requestId: ReqId)
      modifies this`flight, this`last
      ensures requestId == last == old(last) + 1 && flight == old(flight)[requestId := ask]
    {
      last := last + 1;
      flight := flight[last := ask];
      requestId := last;
    }

    method BlockAlreadySent(peer: Peer, blocking: bool, done: seq<Callback>) returns (already: bool)
      modifies this`blockRequests, this`ran
      ensures already <==> peer in old(blockRequests) && old(blockRequests)[peer].blocking == blocking
      ensures already ==> Value() == SendOrJoin(old(Value()), peer, blocking, done)
      ensures !already ==> Value() == Take(old(Value()), peer, false)
    {
      if peer !in blockRequests {
        return false;
      }
      var entry := blockRequests[peer];
      if entry.blocking == blocking {
        blockRequests := blockRequests[peer := entry.(callbacks := entry.callbacks + done)];
        return true;
      }
      blockRequests := blockRequests - {peer};
      RunCallbacks(peer, entry.callbacks, false);
      return false;
    }

    method RunCallbacks(peer: Peer, callbacks: seq<Callback>, success: bool)
      modifies this`ran
      ensures ran == old(ran) + CallAll(peer, callbacks, success)
    {
      for i := 0 to |callbacks|
        invariant ran == old(ran) + CallAll(peer, callbacks, success)[..i]
      {
        ran := ran + [Call(peer, callbacks[i], success)];
      }
      assert CallAll(peer, callbacks, success)[..|callbacks|] == CallAll(peer, callbacks, success);
    }

    // The handlers of both requests.
    method RequestDone(requestId: ReqId, now: int)
      requires requestId in flight
      modifies this
      ensures Value() == Step(old(Value()), Replied(requestId, true, now))
    {
      var ask := flight[requestId];
      flight := flight - {requestId};
      var callbacks := if ask.peer in blockRequests then blockRequests[ask.peer].callbacks else [];
      blockRequests := blockRequests - {ask.peer};
      if ask.blocking {
        blocked := blocked + {ask.peer};
        if slice.Some? {
          slice := Some(Slice([Item(ask.peer, now)] + slice.value.list, slice.value.total + 1));
        }
      } else {
        blocked := blocked - {ask.peer};
        if slice.Some? {
          var list := EraseFirst(slice.value.list, ask.peer);
          slice := Some(Slice(list, if slice.value.total > |list| then slice.value.total - 1 else slice.value.total));
        }
      }
      RunCallbacks(ask.peer, callbacks, !ask.blocking);
      assert ran == old(ran) + CallAll(ask.peer, callbacks, !ask.blocking);
    }

    method RequestFailed(requestId: ReqId)
      requires requestId in flight
      modifies this
      ensures Value() == Step(old(Value()), Replied(requestId, false, 0))
    {
      var peer := flight[requestId].peer;
      flight := flight - {requestId};
      if peer in blockRequests {
        var callbacks := blockRequests[peer].callbacks;
        blockRequests := blockRequests - {peer};
        RunCallbacks(peer, callbacks, false);
      }
    }

    static method EraseFirst(list: seq<Item>, peer: Peer) returns (r: seq<Item>)
      ensures r == Without(list, peer)
    {
      r := list;
      var i := 0;
      while i < |list|
        invariant i <= |list| && r == list && Without(list, peer) == list[..i] + Without(list[i..], peer)
      {
        if list[i].id == peer {
          r := list[..i] + list[i + 1..];
          assert list[i..][1..] == list[i + 1..];
          return;
        }
        assert list[i..][1..] == list[i + 1..];
        i := i + 1;
      }
    }

    method Reload()
      modifies this`asked
      ensures Value() == Step(old(Value()), ListAsked(true))
    {
      if asked.Some? {
        return;
      }
      asked := Some(true);
    }

    method GotList(count: int, list: seq<Item>)
      requires asked.Some?
      modifies this`asked, this`slice
      ensures Value() == Step(old(Value()), ListReceived(count, list))
    {
      var forSlice := asked.value;
      asked := None;
      var received := Slice(list, if count > |list| then count else |list|);
      if forSlice && (slice.None? || slice.value != received) {
        slice := Some(received);
      }
    }
  }
}
