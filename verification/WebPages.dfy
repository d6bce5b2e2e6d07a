/** Asking again for web pages that were not ready, grouped by channel (`apiwrap.cpp`). */
module WebPages {

  type Page = nat
  type Channel = nat
  type MsgId = int
  type ReqId = nat

  // Channel 0 stands for messages outside of channels; channels and pages are ordered by
  // their addresses.
  const NONE: Channel := 0

  // A request id of 0 marks a page that was not sent yet.
  datatype Pending = Pending(page: Page, requestId: int)
  datatype Item = Item(channel: Channel, id: MsgId)
  datatype Sent = Sent(channel: Channel, ids: seq<MsgId>)
  datatype PageData = PageData(pendingTill: int, failed: bool)

  datatype State = State(pending: seq<Pending>, pages: map<Page, PageData>, flight: map<ReqId, Sent>, last: ReqId)

  const INITIAL := State([], map[], map[], 0)

  // What a call of `resolveWebPages` sees: the time and the message of each page.
  datatype View = View(now: int, pages: map<Page, PageData>, items: map<Page, Item>)

  function DataOf(pages: map<Page, PageData>, page: Page): PageData {
    if page in pages then pages[page] else PageData(0, false)
  }

  predicate Due(v: View, p: Pending) {
    p.requestId <= 0 && DataOf(v.pages, p.page).pendingTill <= v.now && p.page in v.items
  }

  // ----- Direct grouping by channel

  function IdsOf(v: View, pending: seq<Pending>, c: Channel): seq<MsgId> {
    if pending == [] then []
    else
      var p := pending[|pending| - 1];
      IdsOf(v, pending[..|pending| - 1], c) + (if Due(v, p) && v.items[p.page].channel == c then [v.items[p.page].id] else [])
  }

  function Position(cs: seq<Channel>, c: Channel): (i: nat)
    ensures i <= |cs|
    ensures forall k :: 0 <= k < i ==> cs[k] < c
    ensures i < |cs| ==> cs[i] >= c
  {
    if cs == [] || cs[0] >= c then 0 else 1 + Position(cs[1..], c)
  }

  function Inserted(cs: seq<Channel>, c: Channel): seq<Channel> {
    var i := Position(cs, c);
    if i < |cs| && cs[i] == c then cs else cs[..i] + [c] + cs[i..]
  }

  // The channels of all due pages.
  function Groups(v: View, pending: seq<Pending>): seq<Channel> {
    if pending == [] then []
    else
      var p, rest := pending[|pending| - 1], Groups(v, pending[..|pending| - 1]);
      if Due(v, p) && v.items[p.page].channel != NONE then Inserted(rest, v.items[p.page].channel) else rest
  }

  // The messages outside of channels get the next free id, each channel one after that.
  function First(v: View, pending: seq<Pending>, last: ReqId): ReqId {
    if IdsOf(v, pending, NONE) == [] then last else last + 1
  }

  function Given(v: View, groups: seq<Channel>, last: ReqId, first: ReqId, p: Pending): Pending {
    if !Due(v, p) then p
    else if v.items[p.page].channel == NONE then p.(requestId := last + 1)
    else p.(requestId := first + 1 + Position(groups, v.items[p.page].channel))
  }

  function SendOutside(flight: map<ReqId, Sent>, v: View, pending: seq<Pending>, last: ReqId): map<ReqId, Sent> {
    var ids := IdsOf(v, pending, NONE);
    if ids == [] then flight else flight[last + 1 := Sent(NONE, ids)]
  }

  function SendAll(flight: map<ReqId, Sent>, v: View, pending: seq<Pending>, groups: seq<Channel>, last: ReqId): map<ReqId, Sent> {
    if groups == [] then flight
    else
      var n := |groups| - 1;
      SendAll(flight, v, pending, groups[..n], last)[last + 1 + n := Sent(groups[n], IdsOf(v, pending, groups[n]))]
  }

  lemma SendAllMore(flight: map<ReqId, Sent>, v: View, pending: seq<Pending>, groups: seq<Channel>, n: nat, last: ReqId)
    requires n < |groups|
    ensures SendAll(flight, v, pending, groups[..n + 1], last)
      == SendAll(flight, v, pending, groups[..n], last)[last + 1 + n := Sent(groups[n], IdsOf(v, pending, groups[n]))]
  {
    assert groups[..n + 1][..n] == groups[..n];
  }

  function Resolve(s: State, now: int, items: map<Page, Item>): State {
    var v := View(now, s.pages, items);
    var groups, first := Groups(v, s.pending), First(v, s.pending, s.last);
    s.(pending := seq(|s.pending|, i requires 0 <= i < |s.pending| => Given(v, groups, s.last, first, s.pending[i])),
       flight := SendAll(SendOutside(s.flight, v, s.pending, s.last), v, s.pending, groups, first),
       last := first + |groups|)
  }

  ghost predicate Ascending(cs: seq<Channel>) { forall i, j :: 0 <= i < j < |cs| ==> cs[i] < cs[j] }

  lemma PositionOf(cs: seq<Channel>, i: nat)
    requires Ascending(cs) && i < |cs|
    ensures Position(cs, cs[i]) == i
  {}

  lemma InsertedKeeps(cs: seq<Channel>, c: Channel, d: Channel)
    requires Ascending(cs)
    ensures Ascending(Inserted(cs, c))
    ensures d in Inserted(cs, c) <==> d in cs || d == c
  {
    var i := Position(cs, c);
    assert cs == cs[..i] + cs[i..];
    BetweenAscends(cs, c, i);
  }

  lemma BetweenAscends(cs: seq<Channel>, c: Channel, i: nat)
    requires Ascending(cs) && i <= |cs| && (i > 0 ==> cs[i - 1] < c) && (i < |cs| ==> cs[i] >= c)
    ensures (i < |cs| && cs[i] == c) || Ascending(cs[..i] + [c] + cs[i..])
  {}

  lemma {:induction false} GroupsAscend(v: View, pending: seq<Pending>)
    ensures Ascending(Groups(v, pending))
  {
    if pending != [] {
      var n := |pending| - 1;
      GroupsAscend(v, pending[..n]);
      if Due(v, pending[n]) && v.items[pending[n].page].channel != NONE {
        InsertedKeeps(Groups(v, pending[..n]), v.items[pending[n].page].channel, 0);
      }
    }
  }

  lemma {:induction false} GroupsExactly(v: View, pending: seq<Pending>, c: Channel)
    ensures c in Groups(v, pending) <==> c != NONE && exists p :: p in pending && Due(v, p) && v.items[p.page].channel == c
  {
    if pending != [] {
      var n := |pending| - 1;
      GroupsExactly(v, pending[..n], c);
      GroupsAscend(v, pending[..n]);
      assert pending == pending[..n] + [pending[n]];
      assert forall q :: q in pending <==> q in pending[..n] || q == pending[n];
      if Due(v, pending[n]) && v.items[pending[n].page].channel != NONE {
        InsertedKeeps(Groups(v, pending[..n]), v.items[pending[n].page].channel, c);
      }
    }
  }

  lemma {:induction false} SendAllExactly(flight: map<ReqId, Sent>, v: View, pending: seq<Pending>, groups: seq<Channel>, last: ReqId, r: ReqId)
    ensures var t := SendAll(flight, v, pending, groups, last);
      if last < r <= last + |groups| then
        r in t && t[r] == Sent(groups[r - last - 1], IdsOf(v, pending, groups[r - last - 1]))
      else (r in t <==> r in flight) && (r in flight ==> t[r] == flight[r])
  {
    if groups != [] {
      SendAllExactly(flight, v, pending, groups[..|groups| - 1], last, r);
    }
  }

  lemma {:induction false} IdsExactly(v: View, pending: seq<Pending>, c: Channel, id: MsgId)
    ensures id in IdsOf(v, pending, c) <==> exists p :: p in pending && Due(v, p) && v.items[p.page] == Item(c, id)
  {
    if pending != [] {
      var n := |pending| - 1;
      IdsExactly(v, pending[..n], c, id);
      assert pending == pending[..n] + [pending[n]];
      assert forall q :: q in pending <==> q in pending[..n] || q == pending[n];
    }
  }

  lemma ResolveSends(s: State, now: int, items: map<Page, Item>, q: ReqId)
    ensures var v, t := View(now, s.pages, items), Resolve(s, now, items);
      var groups, first := Groups(v, s.pending), First(v, s.pending, s.last);
      if s.last < q <= first then q in t.flight && t.flight[q] == Sent(NONE, IdsOf(v, s.pending, NONE))
      else if first < q <= t.last then
        q in t.flight && t.flight[q] == Sent(groups[q - first - 1], IdsOf(v, s.pending, groups[q - first - 1]))
      else (q in t.flight <==> q in s.flight) && (q in s.flight ==> t.flight[q] == s.flight[q])
  {
    var v := View(now, s.pages, items);
    SendAllExactly(SendOutside(s.flight, v, s.pending, s.last), v, s.pending, Groups(v, s.pending), First(v, s.pending, s.last), q);
  }

  lemma DuePosition(v: View, pending: seq<Pending>, i: nat)
    requires i < |pending| && Due(v, pending[i]) && v.items[pending[i].page].channel != NONE
    ensures var groups, c := Groups(v, pending), v.items[pending[i].page].channel;
      Position(groups, c) < |groups| && groups[Position(groups, c)] == c
  {
    var groups, c := Groups(v, pending), v.items[pending[i].page].channel;
    assert pending[i] in pending;
    GroupsAscend(v, pending);
    GroupsExactly(v, pending, c);
    var k :| 0 <= k < |groups| && groups[k] == c;
    PositionOf(groups, k);
  }

  // A new request with messages of a channel is the only one.
  lemma SentOnce(s: State, now: int, items: map<Page, Item>, q: ReqId)
    requires s.last < q <= Resolve(s, now, items).last
    ensures var v, t := View(now, s.pages, items), Resolve(s, now, items);
      && q in t.flight
      && q == if t.flight[q].channel == NONE then s.last + 1
        else First(v, s.pending, s.last) + 1 + Position(Groups(v, s.pending), t.flight[q].channel)
  {
    var v := View(now, s.pages, items);
    var groups, first := Groups(v, s.pending), First(v, s.pending, s.last);
    ResolveSends(s, now, items, q);
    if q > first {
      GroupsAscend(v, s.pending);
      GroupsExactly(v, s.pending, NONE);
      assert groups[q - first - 1] in groups;
      PositionOf(groups, q - first - 1);
    }
  }

  // Every due page ends with the id of the one new request that carries its message.
  lemma DueIsSent(s: State, now: int, items: map<Page, Item>, i: nat, q: ReqId)
    requires i < |s.pending| && Due(View(now, s.pages, items), s.pending[i])
    ensures var t, r, item := Resolve(s, now, items), Resolve(s, now, items).pending[i].requestId, items[s.pending[i].page];
      && s.last < r <= t.last && r in t.flight && t.flight[r].channel == item.channel && item.id in t.flight[r].ids
      && (s.last < q <= t.last ==> q in t.flight && (t.flight[q].channel == item.channel ==> q == r))
  {
    var v := View(now, s.pages, items);
    var item := items[s.pending[i].page];
    assert s.pending[i] in s.pending;
    IdsExactly(v, s.pending, item.channel, item.id);
    if item.channel != NONE {
      DuePosition(v, s.pending, i);
    }
    ResolveSends(s, now, items, Resolve(s, now, items).pending[i].requestId);
    if s.last < q <= Resolve(s, now, items).last {
      SentOnce(s, now, items, q);
    }
  }

  // A page keeps its request, or none, if one was sent for it, if its time has not come, or
  // if no message is known for it; any other page gets a new request.
  lemma SentExactly(s: State, now: int, items: map<Page, Item>, i: nat)
    requires i < |s.pending|
    ensures var t, p := Resolve(s, now, items), s.pending[i];
      && |t.pending| == |s.pending| && t.pages == s.pages && t.pending[i].page == p.page
      && (if p.requestId > 0 || (p.page in s.pages && s.pages[p.page].pendingTill > now)
            || (p.page !in s.pages && now < 0) || p.page !in items
          then t.pending[i] == p else s.last < t.pending[i].requestId <= t.last)
  {
    if Due(View(now, s.pages, items), s.pending[i]) {
      DueIsSent(s, now, items, i, 0);
    }
  }

  // A request asks for the messages of its pages in order.
  lemma {:induction false} IdsInOrder(v: View, a: seq<Pending>, b: seq<Pending>, c: Channel, p: Pending)
    ensures IdsOf(v, a + b, c) == IdsOf(v, a, c) + IdsOf(v, b, c)
    ensures IdsOf(v, [p], c) == if Due(v, p) && v.items[p.page].channel == c then [v.items[p.page].id] else []
    decreases |b|
  {
    assert [p][..0] == [] && IdsOf(v, [p][..0], c) == [];
    if b == [] {
      assert a + b == a;
    } else {
      IdsInOrder(v, a, b[..|b| - 1], c, p);
      assert (a + b)[..|a + b| - 1] == a + b[..|b| - 1];
    }
  }

  // ----- The other operations

  function Asked(pending: seq<Pending>, page: Page): seq<Pending> {
    if pending == [] || pending[0].page > page then [Pending(page, 0)] + pending
    else if pending[0].page == page then pending
    else [pending[0]] + Asked(pending[1..], page)
  }

  function Request(s: State, page: Page): State {
    var d := DataOf(s.pages, page);
    if d.failed || d.pendingTill == 0 then s else s.(pending := Asked(s.pending, page))
  }

  function Without(pending: seq<Pending>, page: Page): seq<Pending> {
    if pending == [] then []
    else
      var p := pending[|pending| - 1];
      Without(pending[..|pending| - 1], page) + (if p.page == page then [] else [p])
  }

  // A page that stops waiting is dropped.
  function Change(s: State, page: Page, till: int): State {
    var d := DataOf(s.pages, page);
    s.(pending := if d.pendingTill > 0 && till <= 0 then Without(s.pending, page) else s.pending,
       pages := s.pages[page := d.(pendingTill := till)])
  }

  function Unanswered(pending: seq<Pending>, r: ReqId): seq<Pending> {
    if pending == [] then []
    else
      var p := pending[|pending| - 1];
      Unanswered(pending[..|pending| - 1], r) + (if p.requestId == r then [] else [p])
  }

  function Failing(pages: map<Page, PageData>, page: Page): map<Page, PageData> {
    if DataOf(pages, page).pendingTill > 0 then pages[page := PageData(0, true)] else pages
  }

  function AllFailing(pages: map<Page, PageData>, pending: seq<Pending>, r: ReqId): map<Page, PageData> {
    if pending == [] then pages
    else
      var p, rest := pending[|pending| - 1], AllFailing(pages, pending[..|pending| - 1], r);
      if p.requestId == r then Failing(rest, p.page) else rest
  }

  // What is still waiting for the request has failed.
  function Got(s: State, r: ReqId): State {
    s.(pending := Unanswered(s.pending, r), pages := AllFailing(s.pages, s.pending, r))
  }

  datatype Event =
    | Requested(page: Page)
    | Changed(page: Page, till: int)
    | Cleared
    | Resolved(now: int, items: map<Page, Item>)
    | Replied(requestId: ReqId)
    | Failed(requestId: ReqId)

  // There is no handler for a request that failed.
  function Step(s: State, e: Event): State {
    match e
    case Requested(page) => Request(s, page)
    case Changed(page, till) => Change(s, page, till)
    case Cleared => s.(pending := [])
    case Resolved(now, items) => Resolve(s, now, items)
    case Replied(r) => if r in s.flight then Got(s.(flight := s.flight - {r}), r) else s
    case Failed(r) => s.(flight := s.flight - {r})
  }

  function Run(events: seq<Event>): State
    decreases |events|
  {
    if events == [] then INITIAL else Step(Run(events[..|events| - 1]), events[|events| - 1])
  }

  lemma {:induction false} UnansweredExactly(pending: seq<Pending>, r: ReqId, q: Pending)
    ensures q in Unanswered(pending, r) <==> q in pending && q.requestId != r
  {
    if pending != [] {
      var n := |pending| - 1;
      UnansweredExactly(pending[..n], r, q);
      assert pending == pending[..n] + [pending[n]];
    }
  }

  // A page fails exactly if it waited for the request and still waits.
  lemma {:induction false} FailedExactly(pages: map<Page, PageData>, pending: seq<Pending>, r: ReqId, page: Page)
    ensures DataOf(AllFailing(pages, pending, r), page) ==
      if Pending(page, r) in pending && DataOf(pages, page).pendingTill > 0 then PageData(0, true) else DataOf(pages, page)
  {
    if pending != [] {
      var n := |pending| - 1;
      FailedExactly(pages, pending[..n], r, page);
      assert pending == pending[..n] + [pending[n]];
    }
  }

  lemma {:induction false} WithoutExactly(pending: seq<Pending>, page: Page, q: Pending)
    ensures q in Without(pending, page) <==> q in pending && q.page != page
  {
    if pending != [] {
      var n := |pending| - 1;
      WithoutExactly(pending[..n], page, q);
      assert pending == pending[..n] + [pending[n]];
    }
  }

  lemma {:induction false} AskedExactly(pending: seq<Pending>, page: Page, q: Pending)
    requires Ordered(pending)
    ensures q in Asked(pending, page) <==> q in pending || (q == Pending(page, 0) && forall p :: p in pending ==> p.page != page)
  {
    if pending != [] && pending[0].page < page {
      AskedExactly(pending[1..], page, q);
      assert pending == [pending[0]] + pending[1..];
    }
  }

  // A page that is still waiting and has not failed is put among the others, unless it is there.
  lemma RequestedExactly(s: State, page: Page, q: Pending)
    requires Ordered(s.pending)
    ensures var t := Step(s, Requested(page));
      var asks := page in s.pages && !s.pages[page].failed && s.pages[page].pendingTill != 0;
      && t == s.(pending := t.pending)
      && (q in t.pending <==>
            q in s.pending || (asks && q == Pending(page, 0) && forall p :: p in s.pending ==> p.page != page))
  {
    AskedExactly(s.pending, page, q);
  }

  // A reply is the end of its request: its pages do not wait for it any more, and those
  // that still wait for their data have failed. All others stay, in order.
  lemma RepliedExactly(s: State, r: ReqId, q: Pending, page: Page)
    requires r in s.flight
    ensures var t := Step(s, Replied(r));
      && t.flight == s.flight - {r} && t.last == s.last
      && (q in t.pending <==> q in s.pending && q.requestId != r)
      && DataOf(t.pages, page) ==
           if Pending(page, r) in s.pending && DataOf(s.pages, page).pendingTill > 0 then PageData(0, true)
           else DataOf(s.pages, page)
    ensures r !in s.flight - {r} && Step(s, Failed(r)) == s.(flight := s.flight - {r})
  {
    UnansweredExactly(s.pending, r, q);
    FailedExactly(s.pages, s.pending, r, page);
  }

  lemma {:induction false} UnansweredInOrder(a: seq<Pending>, b: seq<Pending>, r: ReqId, p: Pending)
    ensures Unanswered(a + b, r) == Unanswered(a, r) + Unanswered(b, r)
    ensures Unanswered([p], r) == if p.requestId == r then [] else [p]
    decreases |b|
  {
    assert [p][..0] == [] && Unanswered([p][..0], r) == [];
    if b == [] {
      assert a + b == a;
    } else {
      UnansweredInOrder(a, b[..|b| - 1], r, p);
      assert (a + b)[..|a + b| - 1] == a + b[..|b| - 1];
    }
  }

  // ----- What holds in every reachable state

  ghost predicate Ordered(pending: seq<Pending>) {
    forall i, j :: 0 <= i < j < |pending| ==> pending[i].page < pending[j].page
  }

  // No tag survives a call, and a page waits for a request in flight or for a lost one.
  ghost predicate Inv(s: State, lost: set<ReqId>) {
    && Ordered(s.pending)
    && (forall r :: r in s.flight || r in lost ==> 0 < r <= s.last)
    && (forall r :: r in lost ==> r !in s.flight)
    && (forall p :: p in s.pending ==> Waits(s, lost, p))
  }

  ghost predicate Waits(s: State, lost: set<ReqId>, p: Pending) {
    p.requestId == 0 || (p.requestId > 0 && (p.requestId in s.flight || p.requestId in lost))
  }

  // The requests that failed.
  function Lost(events: seq<Event>): set<ReqId>
    decreases |events|
  {
    if events == [] then {}
    else
      var e := events[|events| - 1];
      Lost(events[..|events| - 1]) +
      (if e.Failed? && e.requestId in Run(events[..|events| - 1]).flight then {e.requestId} else {})
  }

  lemma {:induction false} OrderedPart(pending: seq<Pending>, r: ReqId, page: Page)
    requires Ordered(pending)
    ensures Ordered(Unanswered(pending, r)) && Ordered(Without(pending, page))
  {
    if pending != [] {
      var n := |pending| - 1;
      OrderedPart(pending[..n], r, page);
      forall q | q in Unanswered(pending[..n], r) || q in Without(pending[..n], page) ensures q.page < pending[n].page {
        UnansweredExactly(pending[..n], r, q);
        WithoutExactly(pending[..n], page, q);
      }
    }
  }

  lemma {:induction false} AskedAt(pending: seq<Pending>, page: Page, i: nat)
    requires i <= |pending| && (forall k :: 0 <= k < i ==> pending[k].page < page)
    requires i < |pending| ==> pending[i].page >= page
    ensures Asked(pending, page) ==
      if i == |pending| || pending[i].page != page then pending[..i] + [Pending(page, 0)] + pending[i..] else pending
  {
    if i > 0 {
      AskedAt(pending[1..], page, i - 1);
    }
  }

  lemma {:induction false} OrderedAsked(pending: seq<Pending>, page: Page)
    requires Ordered(pending)
    ensures Ordered(Asked(pending, page))
  {
    if pending != [] && pending[0].page < page {
      OrderedAsked(pending[1..], page);
      forall q | q in Asked(pending[1..], page) ensures pending[0].page < q.page {
        AskedExactly(pending[1..], page, q);
      }
    }
  }

  lemma ResolveKeepsInv(s: State, lost: set<ReqId>, now: int, items: map<Page, Item>)
    requires Inv(s, lost)
    ensures Inv(Resolve(s, now, items), lost)
  {
    var v, t := View(now, s.pages, items), Resolve(s, now, items);
    forall r: ReqId ensures r in t.flight <==> r in s.flight || s.last < r <= t.last {
      ResolveSends(s, now, items, r);
    }
    forall p | p in t.pending ensures Waits(t, lost, p) {
      var i :| 0 <= i < |t.pending| && t.pending[i] == p;
      assert s.pending[i] in s.pending;
      if Due(v, s.pending[i]) {
        DueIsSent(s, now, items, i, 0);
      }
    }
    assert forall i :: 0 <= i < |t.pending| ==> t.pending[i].page == s.pending[i].page;
  }

  lemma ReplyKeepsInv(s: State, lost: set<ReqId>, r: ReqId)
    requires Inv(s, lost) && r in s.flight
    ensures Inv(Step(s, Replied(r)), lost) && Inv(Step(s, Failed(r)), lost + {r})
  {
    OrderedPart(s.pending, r, 0);
    var t := Step(s, Replied(r));
    forall p | p in t.pending ensures Waits(t, lost, p) {
      UnansweredExactly(s.pending, r, p);
    }
  }

  lemma RequestKeepsInv(s: State, lost: set<ReqId>, page: Page)
    requires Inv(s, lost)
    ensures Inv(s.(pending := Asked(s.pending, page)), lost)
  {
    OrderedAsked(s.pending, page);
    forall p | p in Asked(s.pending, page) ensures Waits(s, lost, p) {
      AskedExactly(s.pending, page, p);
    }
  }

  lemma ChangeKeepsInv(s: State, lost: set<ReqId>, page: Page)
    requires Inv(s, lost)
    ensures Inv(s.(pending := Without(s.pending, page)), lost)
  {
    OrderedPart(s.pending, 0, page);
    forall p | p in Without(s.pending, page) ensures Waits(s, lost, p) {
      WithoutExactly(s.pending, page, p);
    }
  }

  lemma StepKeepsInv(s: State, lost: set<ReqId>, e: Event)
    requires Inv(s, lost)
    ensures Inv(Step(s, e), lost + (if e.Failed? && e.requestId in s.flight then {e.requestId} else {}))
  {
    match e
    case Requested(page) => RequestKeepsInv(s, lost, page);
    case Changed(page, till) => ChangeKeepsInv(s, lost, page);
    case Cleared =>
    case Resolved(now, items) => ResolveKeepsInv(s, lost, now, items);
    case Replied(r) => if r in s.flight { ReplyKeepsInv(s, lost, r); }
    case Failed(r) =>
      if r in s.flight { ReplyKeepsInv(s, lost, r); }
      else { assert s.flight - {r} == s.flight; }
  }

  lemma {:induction false} RunKeepsInv(events: seq<Event>)
    ensures Inv(Run(events), Lost(events))
    decreases |events|
  {
    if events == [] {
    } else {
      RunKeepsInv(events[..|events| - 1]);
      StepKeepsInv(Run(events[..|events| - 1]), Lost(events[..|events| - 1]), events[|events| - 1]);
    }
  }

  // A page that was sent waits for an answer exactly if its request has not failed.
  lemma WaitsExactly(events: seq<Event>, p: Pending)
    requires p in Run(events).pending && p.requestId != 0
    ensures p.requestId in Run(events).flight <==> p.requestId !in Lost(events)
  {
    RunKeepsInv(events);
    assert Waits(Run(events), Lost(events), p);
  }

  // A page is dropped when all are, and when it stops waiting.
  predicate Drops(s: State, e: Event, page: Page) {
    e.Cleared? || (e.Changed? && e.page == page && DataOf(s.pages, page).pendingTill > 0 && e.till <= 0)
  }

  // Whether one of the further events drops the page.
  predicate Dropped(events: seq<Event>, more: seq<Event>, page: Page)
    decreases |more|
  {
    if more == [] then false
    else
      var n := |more| - 1;
      Dropped(events, more[..n], page) || Drops(Run(events + more[..n]), more[n], page)
  }

  // Nothing else takes away a page whose request has failed, or asks for it again.
  lemma LostStep(s: State, lost: set<ReqId>, p: Pending, e: Event)
    requires Inv(s, lost) && p.requestId in lost
    ensures p in Step(s, e).pending <==> p in s.pending && !Drops(s, e, p.page)
  {
    match e
    case Requested(page) => AskedExactly(s.pending, page, p);
    case Changed(page, till) => WithoutExactly(s.pending, page, p);
    case Cleared =>
    case Resolved(now, items) => LostResolve(s, lost, p, now, items);
    case Replied(r) => UnansweredExactly(s.pending, r, p);
    case Failed(_) =>
  }

  lemma LostResolve(s: State, lost: set<ReqId>, p: Pending, now: int, items: map<Page, Item>)
    requires Inv(s, lost) && p.requestId in lost
    ensures p in Resolve(s, now, items).pending <==> p in s.pending
  {
    var v, t := View(now, s.pages, items), Resolve(s, now, items);
    forall i | 0 <= i < |s.pending| ensures t.pending[i] == p <==> s.pending[i] == p {
      if Due(v, s.pending[i]) {
        assert s.pending[i] in s.pending;
        DueIsSent(s, now, items, i, 0);
      }
    }
    if p in s.pending {
      var i :| 0 <= i < |s.pending| && s.pending[i] == p;
      assert t.pending[i] == p;
    }
  }

  lemma {:induction false} LostGrows(events: seq<Event>, more: seq<Event>)
    ensures Lost(events) <= Lost(events + more)
    decreases |more|
  {
    if more == [] {
      assert events + more == events;
    } else {
      LostGrows(events, more[..|more| - 1]);
      assert (events + more)[..|events + more| - 1] == events + more[..|more| - 1];
    }
  }

  // However the run goes on, a page whose request has failed waits until it is dropped.
  lemma {:induction false} LostForever(events: seq<Event>, more: seq<Event>, p: Pending)
    requires p in Run(events).pending && p.requestId in Lost(events)
    ensures p in Run(events + more).pending <==> !Dropped(events, more, p.page)
    ensures p.requestId !in Run(events + more).flight
    decreases |more|
  {
    LostGrows(events, more);
    RunKeepsInv(events + more);
    if more == [] {
      assert events + more == events;
    } else {
      LostForever(events, more[..|more| - 1], p);
      LostOneMore(events, more, p);
    }
  }

  lemma LostOneMore(events: seq<Event>, more: seq<Event>, p: Pending)
    requires more != [] && p.requestId in Lost(events)
    ensures var before := events + more[..|more| - 1];
      p in Run(events + more).pending <==> p in Run(before).pending && !Drops(Run(before), more[|more| - 1], p.page)
  {
    var before := events + more[..|more| - 1];
    assert (events + more)[..|events + more| - 1] == before;
    RunKeepsInv(before);
    LostGrows(events, more[..|more| - 1]);
    LostStep(Run(before), Lost(before), p, more[|more| - 1]);
  }

  // It happens: page 1 is asked for, the request fails, and the page waits for it.
  function LostRun(): seq<Event> {
    [Changed(1, 1), Requested(1), Resolved(5, map[1 := Item(NONE, 7)]), Failed(1)]
  }

  lemma LostPage()
    ensures Run(LostRun()) == State([Pending(1, 1)], map[1 := PageData(1, false)], map[], 1)
    ensures 1 in Lost(LostRun())
  {
    var e := LostRun();
    var a := INITIAL.(pages := map[1 := PageData(1, false)]);
    var b := a.(pending := [Pending(1, 0)]);
    assert Run(e[..0]) == INITIAL;
    assert e[..1][..0] == e[..0] && Run(e[..1]) == a;
    assert e[..2][..1] == e[..1] && Run(e[..2]) == b;
    var v := View(5, b.pages, map[1 := Item(NONE, 7)]);
    assert b.pending[..0] == [] && IdsOf(v, b.pending, NONE) == [7] && Groups(v, b.pending) == [];
    var c := State([Pending(1, 1)], a.pages, map[1 := Sent(NONE, [7])], 1);
    assert Resolve(b, 5, v.items) == c;
    assert e[..3][..2] == e[..2] && Run(e[..3]) == c;
    assert e[..3] == e[..|e| - 1];
  }

  // ----- The two passes of `resolveWebPages`: groups are numbered as they come up, pages
  // are tagged with the number, and the tags are replaced when the ids are known

  datatype Group = Group(channel: Channel, index: nat, ids: seq<MsgId>)

  function Channels(groups: seq<Group>): seq<Channel> {
    seq(|groups|, i requires 0 <= i < |groups| => groups[i].channel)
  }

  // `numbers` gives the number of each channel.
  ghost predicate Grouped(v: View, pending: seq<Pending>, groups: seq<Group>, numbers: map<Channel, int>) {
    && (forall g :: g in groups ==> IsGroup(v, pending, numbers, |groups|, g))
    && (forall i, j :: 0 <= i < j < |groups| ==> groups[i].index != groups[j].index)
    && (forall c :: c in numbers ==> c in Channels(groups))
  }

  ghost predicate IsGroup(v: View, pending: seq<Pending>, numbers: map<Channel, int>, size: nat, g: Group) {
    && g.channel != NONE && g.channel in numbers && numbers[g.channel] == g.index < size
    && g.ids == IdsOf(v, pending, g.channel)
  }

  ghost predicate Listed(v: View, pending: seq<Pending>, ids: seq<MsgId>, groups: seq<Group>) {
    && ids == IdsOf(v, pending, NONE)
    && Groups(v, pending) == Channels(groups)
  }

  function Tagged(v: View, numbers: map<Channel, int>, p: Pending): Pending {
    if !Due(v, p) then p
    else
      var c := v.items[p.page].channel;
      p.(requestId := if c == NONE then -1 else if c in numbers then -numbers[c] - 2 else 0)
  }

  lemma IdsMore(v: View, pending: seq<Pending>, p: Pending, c: Channel)
    ensures IdsOf(v, pending + [p], c) ==
      IdsOf(v, pending, c) + (if Due(v, p) && v.items[p.page].channel == c then [v.items[p.page].id] else [])
  {
    assert (pending + [p])[..|pending|] == pending;
  }

  lemma GroupsMore(v: View, pending: seq<Pending>, p: Pending)
    ensures Groups(v, pending + [p]) ==
      if Due(v, p) && v.items[p.page].channel != NONE then Inserted(Groups(v, pending), v.items[p.page].channel)
      else Groups(v, pending)
  {
    assert (pending + [p])[..|pending|] == pending;
  }

  lemma PositionIs(cs: seq<Channel>, c: Channel, i: nat)
    requires i <= |cs| && (forall k :: 0 <= k < i ==> cs[k] < c) && (i < |cs| ==> cs[i] >= c)
    ensures Position(cs, c) == i
  {}

  ghost predicate Numbered(v: View, numbers: map<Channel, int>, p: Pending) {
    Due(v, p) && v.items[p.page].channel != NONE ==> v.items[p.page].channel in numbers
  }

  lemma {:induction false} NoIds(v: View, pending: seq<Pending>, c: Channel)
    requires c != NONE && c !in Groups(v, pending)
    ensures IdsOf(v, pending, c) == []
  {
    if pending != [] {
      var n := |pending| - 1;
      GroupsAscend(v, pending[..n]);
      if Due(v, pending[n]) && v.items[pending[n].page].channel != NONE {
        InsertedKeeps(Groups(v, pending[..n]), v.items[pending[n].page].channel, c);
      }
      NoIds(v, pending[..n], c);
    }
  }

  // A page that is not due, or not of a channel.
  lemma OutsideMore(v: View, pending: seq<Pending>, p: Pending, ids: seq<MsgId>, groups: seq<Group>, numbers: map<Channel, int>)
    requires Grouped(v, pending, groups, numbers) && Listed(v, pending, ids, groups)
    requires Due(v, p) ==> v.items[p.page].channel == NONE
    ensures Grouped(v, pending + [p], groups, numbers)
    ensures Listed(v, pending + [p], if Due(v, p) then ids + [v.items[p.page].id] else ids, groups)
  {
    GroupsMore(v, pending, p);
    IdsMore(v, pending, p, NONE);
    forall g | g in groups ensures IsGroup(v, pending + [p], numbers, |groups|, g) {
      assert IsGroup(v, pending, numbers, |groups|, g);
      IdsMore(v, pending, p, g.channel);
    }
  }

  // One more message of a known channel.
  lemma GrownListed(v: View, pending: seq<Pending>, p: Pending, ids: seq<MsgId>, groups: seq<Group>, j: nat)
    requires Listed(v, pending, ids, groups)
    requires Due(v, p) && j < |groups| && groups[j].channel == v.items[p.page].channel != NONE
    ensures Listed(v, pending + [p], ids, groups[j := groups[j].(ids := groups[j].ids + [v.items[p.page].id])])
  {
    var r := groups[j := groups[j].(ids := groups[j].ids + [v.items[p.page].id])];
    assert Channels(r) == Channels(groups);
    GroupsMore(v, pending, p);
    IdsMore(v, pending, p, NONE);
    GroupsAscend(v, pending);
    assert Channels(groups)[j] == groups[j].channel;
    PositionOf(Channels(groups), j);
  }

  lemma GroupGrows(v: View, pending: seq<Pending>, p: Pending, ids: seq<MsgId>, groups: seq<Group>, numbers: map<Channel, int>, j: nat)
    requires Grouped(v, pending, groups, numbers) && Listed(v, pending, ids, groups)
    requires Due(v, p) && j < |groups| && groups[j].channel == v.items[p.page].channel
    requires forall k :: 0 <= k < j ==> groups[k].channel < groups[j].channel
    ensures var r := groups[j := groups[j].(ids := groups[j].ids + [v.items[p.page].id])];
      Grouped(v, pending + [p], r, numbers) && Listed(v, pending + [p], ids, r)
  {
    var c := groups[j].channel;
    var r := groups[j := groups[j].(ids := groups[j].ids + [v.items[p.page].id])];
    assert IsGroup(v, pending, numbers, |r|, groups[j]);
    GrownListed(v, pending, p, ids, groups, j);
    GroupsAscend(v, pending);
    forall k | 0 <= k < |r| ensures IsGroup(v, pending + [p], numbers, |r|, r[k]) {
      assert IsGroup(v, pending, numbers, |r|, groups[k]) && (k != j ==> Channels(groups)[k] != Channels(groups)[j]);
      IdsMore(v, pending, p, groups[k].channel);
    }
  }

  // The first message of a channel.
  function Started(groups: seq<Group>, j: nat, item: Item): seq<Group>
    requires j <= |groups|
  {
    groups[..j] + [Group(item.channel, |groups|, [item.id])] + groups[j..]
  }

  lemma StartedChannels(groups: seq<Group>, j: nat, item: Item)
    requires j <= |groups|
    ensures Channels(Started(groups, j, item)) == Channels(groups)[..j] + [item.channel] + Channels(groups)[j..]
  {}

  lemma StartedListed(v: View, pending: seq<Pending>, p: Pending, ids: seq<MsgId>, groups: seq<Group>, j: nat)
    requires Listed(v, pending, ids, groups)
    requires Due(v, p) && v.items[p.page].channel != NONE && j <= |groups|
    requires forall k :: 0 <= k < j ==> groups[k].channel < v.items[p.page].channel
    requires j < |groups| ==> groups[j].channel > v.items[p.page].channel
    ensures Channels(Started(groups, j, v.items[p.page])) == Channels(groups)[..j] + [v.items[p.page].channel] + Channels(groups)[j..]
    ensures Listed(v, pending + [p], ids, Started(groups, j, v.items[p.page]))
    ensures v.items[p.page].channel !in Channels(groups)
  {
    StartedChannels(groups, j, v.items[p.page]);
    GroupsMore(v, pending, p);
    IdsMore(v, pending, p, NONE);
    PositionIs(Channels(groups), v.items[p.page].channel, j);
    GroupsAscend(v, pending);
  }

  lemma StartedIsGroup(v: View, pending: seq<Pending>, p: Pending, ids: seq<MsgId>, groups: seq<Group>, numbers: map<Channel, int>, j: nat, k: nat)
    requires Grouped(v, pending, groups, numbers) && Listed(v, pending, ids, groups)
    requires Due(v, p) && v.items[p.page].channel != NONE && v.items[p.page].channel !in Channels(groups)
    requires j <= |groups| && k <= |groups|
    ensures var item, r := v.items[p.page], Started(groups, j, v.items[p.page]);
      IsGroup(v, pending + [p], numbers[item.channel := |groups|], |r|, r[k])
  {
    var c := v.items[p.page].channel;
    if k == j {
      NoIds(v, pending, c);
      IdsMore(v, pending, p, c);
    } else {
      var m := if k < j then k else k - 1;
      assert IsGroup(v, pending, numbers, |groups|, groups[m]) && Channels(groups)[m] == groups[m].channel;
      IdsMore(v, pending, p, groups[m].channel);
    }
  }

  lemma StartedIndices(groups: seq<Group>, j: nat, item: Item)
    requires j <= |groups| && (forall g :: g in groups ==> g.index < |groups|)
    requires forall a, b :: 0 <= a < b < |groups| ==> groups[a].index != groups[b].index
    ensures var r := Started(groups, j, item); forall a, b :: 0 <= a < b < |r| ==> r[a].index != r[b].index
  {
    var r := Started(groups, j, item);
    forall a, b | 0 <= a < b < |r| ensures r[a].index != r[b].index {
      if a == j {
        assert r[b] == groups[b - 1] && groups[b - 1] in groups;
      } else if b == j {
        assert r[a] == groups[a] && groups[a] in groups;
      } else {
        assert groups[if a < j then a else a - 1].index != groups[if b < j then b else b - 1].index;
      }
    }
  }

  lemma GroupStarts(v: View, pending: seq<Pending>, p: Pending, ids: seq<MsgId>, groups: seq<Group>, numbers: map<Channel, int>, j: nat)
    requires Grouped(v, pending, groups, numbers) && Listed(v, pending, ids, groups)
    requires Due(v, p) && v.items[p.page].channel != NONE && j <= |groups|
    requires forall k :: 0 <= k < j ==> groups[k].channel < v.items[p.page].channel
    requires j < |groups| ==> groups[j].channel > v.items[p.page].channel
    ensures v.items[p.page].channel !in numbers && Listed(v, pending + [p], ids, Started(groups, j, v.items[p.page]))
    ensures Grouped(v, pending + [p], Started(groups, j, v.items[p.page]), numbers[v.items[p.page].channel := |groups|])
  {
    var item, r := v.items[p.page], Started(groups, j, v.items[p.page]);
    StartedListed(v, pending, p, ids, groups, j);
    var more := numbers[item.channel := |groups|];
    forall k | 0 <= k < |r| ensures IsGroup(v, pending + [p], more, |r|, r[k]) {
      StartedIsGroup(v, pending, p, ids, groups, numbers, j, k);
    }
    StartedIndices(groups, j, item);
    forall d | d in more ensures d in Channels(r) {
      assert Channels(groups) == Channels(groups)[..j] + Channels(groups)[j..];
    }
  }

  // ----- `ApiWrap`, updated in place

  class ApiWrap {
    var webPagesPending: seq<Pending>
    var pages: map<Page, PageData>
    var flight: map<ReqId, Sent>
    var last: ReqId

    function Value(): State
      reads this
    {
      State(webPagesPending, pages, flight, last)
    }

    constructor ()
      ensures Value() == INITIAL
    {
      webPagesPending, pages, flight, last := [], map[], map[], 0;
    }

    method RequestWebPageDelayed(page: Page)
      modifies this`webPagesPending
      ensures Value() == Step(old(Value()), Requested(page))
    {
      var d := DataOf(pages, page);
      if d.failed || d.pendingTill == 0 {
        return;
      }
      webPagesPending := Emplace(webPagesPending, page);
    }

    static method Emplace(pending: seq<Pending>, page: Page) returns (r: seq<Pending>)
      ensures r == Asked(pending, page)
    {
      var i := 0;
      while i < |pending| && pending[i].page < page
        invariant i <= |pending| && forall k :: 0 <= k < i ==> pending[k].page < page
      {
        i := i + 1;
      }
      AskedAt(pending, page, i);
      r := pending;
      if i == |pending| || pending[i].page != page {
        r := pending[..i] + [Pending(page, 0)] + pending[i..];
      }
    }

    method GotWebPages(requestId: ReqId)
      requires requestId in flight
      modifies this
      ensures Value() == Step(old(Value()), Replied(requestId))
    {
      flight := flight - {requestId};
      ghost var before := webPagesPending;
      ghost var data := pages;
      ghost var seen := 0;
      var i := 0;
      while i < |webPagesPending|
        invariant 0 <= i <= |webPagesPending| && i <= seen <= |before| && webPagesPending[i..] == before[seen..]
        invariant webPagesPending[..i] == Unanswered(before[..seen], requestId)
        invariant pages == AllFailing(data, before[..seen], requestId)
        invariant flight == old(flight) - {requestId} && last == old(last)
        decreases |webPagesPending| - i
      {
        var p := webPagesPending[i];
        assert p == before[seen] && before[..seen + 1][..seen] == before[..seen];
        if p.requestId == requestId {
          if DataOf(pages, p.page).pendingTill > 0 {
            pages := pages[p.page := PageData(0, true)];
          }
          var left := webPagesPending[..i];
          webPagesPending := webPagesPending[..i] + webPagesPending[i + 1..];
          assert webPagesPending[..i] == left;
          assert webPagesPending[i..] == before[seen..][1..] == before[seen + 1..];
        } else {
          i := i + 1;
        }
        seen := seen + 1;
      }
      assert before[..seen] == before && webPagesPending[..i] == webPagesPending;
    }
  
    method ResolveWebPages(now: int, items: map<Page, Item>)
      requires forall p :: p in webPagesPending ==> p.requestId >= 0
      modifies this
      ensures Value() == Step(old(Value()), Resolved(now, items))
    {
      var v := View(now, pages, items);
      ghost var before := Value();
      var tagged, ids, groups, numbers := TagPages(v, webPagesPending);
      var requestId, reqsByIndex := SendGroups(v, before.pending, ids, groups, numbers);
      forall i | 0 <= i < |tagged|
        ensures Settled(requestId, reqsByIndex, tagged[i]) == Resolve(before, now, items).pending[i]
        ensures tagged[i].requestId < -1 ==> -tagged[i].requestId - 2 < |reqsByIndex|
        ensures requestId == 0 && reqsByIndex == [] ==> tagged[i].requestId >= 0
      {
        SettleOne(v, before, i, ids, groups, numbers, requestId, reqsByIndex);
      }
      webPagesPending := SettlePages(tagged, requestId, reqsByIndex);
      assert webPagesPending == Resolve(before, now, items).pending;
    }

    static method TagPages(v: View, pending: seq<Pending>)
      returns (tagged: seq<Pending>, ids: seq<MsgId>, groups: seq<Group>, ghost numbers: map<Channel, int>)
      ensures |tagged| == |pending|
      ensures forall k :: 0 <= k < |pending| ==> tagged[k] == Tagged(v, numbers, pending[k])
      ensures Grouped(v, pending, groups, numbers) && Listed(v, pending, ids, groups)
    {
      tagged, ids, groups, numbers := pending, [], [], map[];
      for i := 0 to |pending|
        invariant |tagged| == |pending|
        invariant forall k :: i <= k < |pending| ==> tagged[k] == pending[k]
        invariant forall k :: 0 <= k < i ==> tagged[k] == Tagged(v, numbers, pending[k]) && Numbered(v, numbers, pending[k])
        invariant Grouped(v, pending[..i], groups, numbers) && Listed(v, pending[..i], ids, groups)
      {
        var p := pending[i];
        assert pending[..i + 1] == pending[..i] + [p];
        if !Due(v, p) {
          OutsideMore(v, pending[..i], p, ids, groups, numbers);
        } else if v.items[p.page].channel == NONE {
          OutsideMore(v, pending[..i], p, ids, groups, numbers);
          ids := ids + [v.items[p.page].id];
          tagged := tagged[i := p.(requestId := -1)];
        } else {
          var tag;
          groups, tag, numbers := AddToGroup(v, pending[..i], p, ids, groups, numbers);
          tagged := tagged[i := p.(requestId := -tag - 2)];
        }
      }
      assert pending[..|pending|] == pending;
    }

    static method AddToGroup(v: View, ghost pending: seq<Pending>, p: Pending, ghost ids: seq<MsgId>, groups: seq<Group>,
        ghost numbers: map<Channel, int>)
      returns (r: seq<Group>, tag: int, ghost more: map<Channel, int>)
      requires Grouped(v, pending, groups, numbers) && Listed(v, pending, ids, groups)
      requires Due(v, p) && v.items[p.page].channel != NONE
      ensures Grouped(v, pending + [p], r, more) && Listed(v, pending + [p], ids, r)
      ensures forall c :: c in numbers ==> c in more && more[c] == numbers[c]
      ensures v.items[p.page].channel in more && more[v.items[p.page].channel] == tag
    {
      var item := v.items[p.page];
      var j := 0;
      while j < |groups| && groups[j].channel < item.channel
        invariant j <= |groups| && forall k :: 0 <= k < j ==> groups[k].channel < item.channel
      {
        j := j + 1;
      }
      r, more := groups, numbers;
      if j == |groups| || groups[j].channel != item.channel {
        GroupStarts(v, pending, p, ids, groups, numbers, j);
        r := groups[..j] + [Group(item.channel, |groups|, [item.id])] + groups[j..];
        more := numbers[item.channel := |groups|];
      } else {
        GroupGrows(v, pending, p, ids, groups, numbers, j);
        r := groups[j := groups[j].(ids := groups[j].ids + [item.id])];
      }
      assert r[j] in r;
      tag := r[j].index;
    }
  
    // One request for the messages outside of channels and one for each channel.
    method SendGroups(v: View, ghost pending: seq<Pending>, ids: seq<MsgId>, groups: seq<Group>, ghost numbers: map<Channel, int>)
      returns (requestId: int, reqsByIndex: seq<int>)
      requires Grouped(v, pending, groups, numbers) && Listed(v, pending, ids, groups)
      modifies this`flight, this`last
      ensures var first := First(v, pending, old(last));
        && flight == SendAll(SendOutside(old(flight), v, pending, old(last)), v, pending, Groups(v, pending), first)
        && last == first + |Groups(v, pending)|
        && requestId == (if ids == [] then 0 else first)
        && Answers(groups, reqsByIndex, |groups|, first)
    {
      requestId := 0;
      ghost var all := Groups(v, pending);
      if ids != [] {
        last := last + 1;
        flight := flight[last := Sent(NONE, ids)];
        requestId := last;
      }
      ghost var first := last;
      ghost var outside := flight;
      reqsByIndex := seq(|groups|, _ => 0);
      for j := 0 to |groups|
        invariant last == first + j && flight == SendAll(outside, v, pending, all[..j], first)
        invariant Answers(groups, reqsByIndex, j, first)
      {
        var g := groups[j];
        assert IsGroup(v, pending, numbers, |groups|, g);
        SendAllMore(outside, v, pending, all, j, first);
        AnswersMore(groups, reqsByIndex, j, first);
        last := last + 1;
        flight := flight[last := Sent(g.channel, g.ids)];
        reqsByIndex := reqsByIndex[g.index := last];
      }
      assert all[..|groups|] == all;
    }

    // The tags give way to the ids.
    static method SettlePages(tagged: seq<Pending>, requestId: int, reqsByIndex: seq<int>) returns (r: seq<Pending>)
      requires forall p :: p in tagged && p.requestId < -1 ==> -p.requestId - 2 < |reqsByIndex|
      requires requestId == 0 && reqsByIndex == [] ==> forall p :: p in tagged ==> p.requestId >= 0
      ensures |r| == |tagged| && forall i :: 0 <= i < |r| ==> r[i] == Settled(requestId, reqsByIndex, tagged[i])
    {
      r := tagged;
      if requestId == 0 && reqsByIndex == [] {
        return;
      }
      for i := 0 to |tagged|
        invariant |r| == |tagged|
        invariant forall k :: 0 <= k < |r| ==> r[k] == if k < i then Settled(requestId, reqsByIndex, tagged[k]) else tagged[k]
      {
        var p := r[i];
        if p.requestId < 0 {
          if p.requestId == -1 {
            r := r[i := p.(requestId := requestId)];
          } else {
            r := r[i := p.(requestId := reqsByIndex[-p.requestId - 2])];
          }
        }
      }
    }
  }

  function Settled(requestId: int, reqsByIndex: seq<int>, p: Pending): Pending {
    if p.requestId >= 0 then p
    else if p.requestId == -1 then p.(requestId := requestId)
    else if -p.requestId - 2 < |reqsByIndex| then p.(requestId := reqsByIndex[-p.requestId - 2])
    else p
  }

  // The id of each of the first groups, by number.
  ghost predicate Answers(groups: seq<Group>, reqsByIndex: seq<int>, n: nat, last: int)
    requires n <= |groups|
  {
    && |reqsByIndex| == |groups|
    && forall j :: 0 <= j < n ==> groups[j].index < |groups| && reqsByIndex[groups[j].index] == last + 1 + j
  }

  lemma AnswersMore(groups: seq<Group>, reqsByIndex: seq<int>, n: nat, last: int)
    requires n < |groups| && Answers(groups, reqsByIndex, n, last) && groups[n].index < |groups|
    requires forall i :: 0 <= i < n ==> groups[i].index != groups[n].index
    ensures Answers(groups, reqsByIndex[groups[n].index := last + 1 + n], n + 1, last)
  {}

  // What a tag says about the place of a page's channel among the groups.
  lemma TagMeans(v: View, pending: seq<Pending>, i: nat, ids: seq<MsgId>, groups: seq<Group>, numbers: map<Channel, int>)
    requires i < |pending| && forall p :: p in pending ==> p.requestId >= 0
    requires Grouped(v, pending, groups, numbers) && Listed(v, pending, ids, groups)
    ensures var t := Tagged(v, numbers, pending[i]).requestId;
      if !Due(v, pending[i]) then t >= 0
      else if v.items[pending[i].page].channel == NONE then t == -1 && ids != []
      else
        var j := Position(Groups(v, pending), v.items[pending[i].page].channel);
        t < -1 && j < |groups| && groups[j].index == -t - 2
  {
    assert pending[i] in pending;
    if Due(v, pending[i]) {
      var item := v.items[pending[i].page];
      if item.channel == NONE {
        IdsExactly(v, pending, NONE, item.id);
      } else {
        DuePosition(v, pending, i);
        var k := Position(Groups(v, pending), item.channel);
        assert Channels(groups)[k] == groups[k].channel && IsGroup(v, pending, numbers, |groups|, groups[k]);
      }
    }
  }

  lemma SettleOne(v: View, before: State, i: nat, ids: seq<MsgId>, groups: seq<Group>, numbers: map<Channel, int>,
      requestId: int, reqsByIndex: seq<int>)
    requires i < |before.pending| && forall p :: p in before.pending ==> p.requestId >= 0
    requires Grouped(v, before.pending, groups, numbers) && Listed(v, before.pending, ids, groups)
    requires requestId == if ids == [] then 0 else before.last + 1
    requires Answers(groups, reqsByIndex, |groups|, First(v, before.pending, before.last))
    ensures var t := Tagged(v, numbers, before.pending[i]);
      && (t.requestId < -1 ==> -t.requestId - 2 < |reqsByIndex|)
      && (requestId == 0 && reqsByIndex == [] ==> t.requestId >= 0)
      && Settled(requestId, reqsByIndex, t) ==
        Given(v, Groups(v, before.pending), before.last, First(v, before.pending, before.last), before.pending[i])
  {
    TagMeans(v, before.pending, i, ids, groups, numbers);
    var p := before.pending[i];
    if Due(v, p) && v.items[p.page].channel != NONE {
      var j := Position(Groups(v, before.pending), v.items[p.page].channel);
      assert reqsByIndex[groups[j].index] == First(v, before.pending, before.last) + 1 + j;
    }
  }
}
