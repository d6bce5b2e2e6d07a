/** `ApiWrap::forwardMessages`: one request for each run of items of one peer. */
module Forwarding {

  type Peer = nat
  type MsgId = int
  type RandomId = nat

  datatype Item = Item(from: Peer, id: MsgId, savedMusic: bool)

  // What was gathered for the next request. `localIds` are the messages that turn into
  // failed ones if it fails; a local message is known by the random id of its item.
  datatype Batch = Batch(from: Peer, items: seq<Item>, randomIds: seq<RandomId>, localIds: seq<RandomId>)

  datatype Request = Request(batch: Batch, starsPaid: int)

  function Min(a: int, b: int): int { if a < b then a else b }

  // ----- Saved music goes on its own way

  function Music(items: seq<Item>): seq<Item> {
    if items == [] then []
    else Music(items[..|items| - 1]) + (if items[|items| - 1].savedMusic then [items[|items| - 1]] else [])
  }

  function Messages(items: seq<Item>): seq<Item> {
    if items == [] then []
    else Messages(items[..|items| - 1]) + (if items[|items| - 1].savedMusic then [] else [items[|items| - 1]])
  }

  lemma {:induction false} MusicSplits(items: seq<Item>)
    ensures multiset(Music(items)) + multiset(Messages(items)) == multiset(items)
  {
    if items != [] {
      var rest, item := items[..|items| - 1], items[|items| - 1];
      MusicSplits(rest);
      assert items == rest + [item];
    }
  }

  lemma {:induction false} MusicExactly(items: seq<Item>, item: Item)
    ensures item in Music(items) <==> item in items && item.savedMusic
    ensures item in Messages(items) <==> item in items && !item.savedMusic
  {
    if items != [] {
      MusicExactly(items[..|items| - 1], item);
      assert items == items[..|items| - 1] + [items[|items| - 1]];
    }
  }

  // Both parts keep the order of the items.
  lemma {:induction false} PartsInOrder(a: seq<Item>, b: seq<Item>, item: Item)
    ensures Music(a + b) == Music(a) + Music(b) && Messages(a + b) == Messages(a) + Messages(b)
    ensures Music([item]) == if item.savedMusic then [item] else []
    ensures Messages([item]) == if item.savedMusic then [] else [item]
    decreases |b|
  {
    assert [item][..0] == [] && Music([item][..0]) == [] && Messages([item][..0]) == [];
    if b == [] {
      assert a + b == a;
    } else {
      PartsInOrder(a, b[..|b| - 1], item);
      assert (a + b)[..|a + b| - 1] == a + b[..|b| - 1];
    }
  }

  // ----- What the requests have to be

  function AllItems(sent: seq<Request>): seq<Item> {
    if sent == [] then [] else AllItems(sent[..|sent| - 1]) + sent[|sent| - 1].batch.items
  }

  function AllRandomIds(sent: seq<Request>): seq<RandomId> {
    if sent == [] then [] else AllRandomIds(sent[..|sent| - 1]) + sent[|sent| - 1].batch.randomIds
  }

  function AllPaid(sent: seq<Request>): int {
    if sent == [] then 0 else AllPaid(sent[..|sent| - 1]) + sent[|sent| - 1].starsPaid
  }

  // Items of one peer, each with its random id.
  ghost predicate IsRun(b: Batch) {
    b.items != [] && |b.randomIds| == |b.items| && forall i :: i in b.items ==> i.from == b.from
  }

  // Every request is a run, and the next one has another peer.
  ghost predicate Runs(sent: seq<Request>) {
    && (forall k :: 0 <= k < |sent| ==> IsRun(sent[k].batch))
    && (forall k :: 0 < k < |sent| ==> sent[k].batch.from != sent[k - 1].batch.from)
  }

  // A local message is made only for an item that is forwarded alone.
  predicate MakesLocal(generateLocal: bool, preserveInfo: bool, items: seq<Item>) {
    generateLocal && |items| < 2 && preserveInfo
  }

  // A request has to mark its own local messages, if it fails, and no others.
  ghost predicate OwnLocals(local: bool, b: Batch) { b.localIds == if local then b.randomIds else [] }

  // The requests for a list of items.
  ghost predicate Forwards(items: seq<Item>, randoms: seq<RandomId>, local: bool, approved: nat, price: nat,
      sent: seq<Request>, left: int)
  {
    && Runs(sent) && AllItems(sent) == items && AllRandomIds(sent) == randoms
    && AllPaid(sent) == (if approved < |items| * price then approved else |items| * price) && AllPaid(sent) + left == approved
    && (forall k :: 0 <= k < |sent| ==> OwnLocals(local, sent[k].batch))
  }

  // There is just one way to cut a list into runs.
  lemma {:induction false} RunsAreUnique(a: seq<Request>, b: seq<Request>)
    requires Runs(a) && Runs(b) && AllItems(a) == AllItems(b) && AllRandomIds(a) == AllRandomIds(b)
    ensures |a| == |b| && forall k :: 0 <= k < |a| ==>
      a[k].batch.items == b[k].batch.items && a[k].batch.randomIds == b[k].batch.randomIds
    decreases |a|
  {
    Sizes(a);
    Sizes(b);
    if a == [] || b == [] {
    } else {
      var m, n := |a| - 1, |b| - 1;
      LastRunsAgree(a, b);
      RunsAreUnique(a[..m], b[..n]);
    }
  }

  // The last runs of two cuts are the same, and so is what comes before them.
  lemma LastRunsAgree(a: seq<Request>, b: seq<Request>)
    requires Runs(a) && Runs(b) && AllItems(a) == AllItems(b) && AllRandomIds(a) == AllRandomIds(b) && a != [] && b != []
    ensures var m, n := |a| - 1, |b| - 1;
      && a[m].batch.items == b[n].batch.items && a[m].batch.randomIds == b[n].batch.randomIds
      && AllItems(a[..m]) == AllItems(b[..n]) && AllRandomIds(a[..m]) == AllRandomIds(b[..n])
  {
    var m, n := |a| - 1, |b| - 1;
    LastRunLength(a, b);
    LastRunLength(b, a);
    SameTails(AllItems(a[..m]), a[m].batch.items, AllItems(b[..n]), b[n].batch.items);
    Sizes(a[..m]);
    Sizes(b[..n]);
    SameTails(AllRandomIds(a[..m]), a[m].batch.randomIds, AllRandomIds(b[..n]), b[n].batch.randomIds);
  }

  lemma SameTails<T>(x: seq<T>, x': seq<T>, y: seq<T>, y': seq<T>)
    requires x + x' == y + y' && (|x| == |y| || |x'| == |y'|)
    ensures x == y && x' == y'
  {
    assert |x| == |y| && (x + x')[..|x|] == x && (y + y')[..|y|] == y;
    assert (x + x')[|x|..] == x' && (y + y')[|y|..] == y';
  }

  lemma {:induction false} Sizes(a: seq<Request>)
    requires Runs(a)
    ensures |AllItems(a)| == |AllRandomIds(a)| && (a == [] <==> AllItems(a) == [])
  {
    if a != [] {
      Sizes(a[..|a| - 1]);
    }
  }

  lemma LastRunStarts(a: seq<Request>)
    requires Runs(a) && a != []
    ensures var s, m := AllItems(a), |a| - 1;
      var i := |s| - |a[m].batch.items|;
      0 <= i < |s| && (forall j :: i <= j < |s| ==> s[j].from == a[m].batch.from) && (i > 0 ==> s[i - 1].from != a[m].batch.from)
  {
    var m := |a| - 1;
    var s, x, rest := AllItems(a), a[m].batch.items, AllItems(a[..m]);
    assert IsRun(a[m].batch) && s == rest + x;
    forall j | |rest| <= j < |s| ensures s[j].from == a[m].batch.from {
      assert s[j] == x[j - |rest|] && x[j - |rest|] in x;
    }
    if m > 0 {
      var c := a[m - 1].batch;
      assert IsRun(c) && AllItems(a[..m]) == AllItems(a[..m][..m - 1]) + c.items;
      assert rest[|rest| - 1] == c.items[|c.items| - 1] && c.items[|c.items| - 1] in c.items;
    }
  }

  // The last run of one cut does not reach further back than that of the other.
  lemma LastRunLength(a: seq<Request>, b: seq<Request>)
    requires Runs(a) && Runs(b) && AllItems(a) == AllItems(b) && a != [] && b != []
    ensures |a[|a| - 1].batch.items| <= |b[|b| - 1].batch.items|
  {
    LastRunStarts(a);
    LastRunStarts(b);
    var s := AllItems(a);
    assert s[|s| - 1].from == a[|a| - 1].batch.from == b[|b| - 1].batch.from;
  }

  // ----- The loop over the items

  // What the loop holds: the batch to send next, what was sent, and the stars left.
  datatype Progress = Progress(batch: Batch, sent: seq<Request>, left: int)

  // The price of a batch, item by item.
  function Cost(size: nat, price: nat): nat { if size == 0 then 0 else Cost(size - 1, price) + price }

  lemma {:induction false} CostIs(size: nat, price: nat)
    ensures Cost(size, price) == size * price
  {
    if size > 0 {
      CostIs(size - 1, price);
      assert size * price == (size - 1) * price + price;
    }
  }

  lemma {:induction false} CostAdds(a: nat, b: nat, price: nat)
    ensures Cost(a + b, price) == Cost(a, price) + Cost(b, price)
  {
    if b > 0 {
      CostAdds(a, b - 1, price);
    }
  }

  // What is paid in all for batches of the given sizes, and what is left.
  function PaidFor(approved: int, sizes: seq<nat>, price: nat): int {
    if sizes == [] then 0
    else
      var before := PaidFor(approved, sizes[..|sizes| - 1], price);
      before + Min(approved - before, Cost(sizes[|sizes| - 1], price))
  }

  function Sum(sizes: seq<nat>): nat {
    if sizes == [] then 0 else Sum(sizes[..|sizes| - 1]) + sizes[|sizes| - 1]
  }

  // However items are split into batches, the same is paid.
  lemma {:induction false} AnySplitPays(approved: nat, sizes: seq<nat>, price: nat)
    ensures PaidFor(approved, sizes, price) == if approved < Sum(sizes) * price then approved else Sum(sizes) * price
  {
    CostIs(Sum(sizes), price);
    if sizes != [] {
      var rest, n := sizes[..|sizes| - 1], sizes[|sizes| - 1];
      AnySplitPays(approved, rest, price);
      CostIs(Sum(rest), price);
      CostAdds(Sum(rest), n, price);
    }
  }

  function Start(items: seq<Item>, approved: int): Progress
    requires items != []
  {
    Progress(Batch(items[0].from, [], [], []), [], approved)
  }

  function SendBatch(p: Progress, price: nat): Progress {
    var paid := Min(p.left, Cost(|p.batch.items|, price));
    Progress(Batch(p.batch.from, [], [], []), p.sent + [Request(p.batch, paid)], p.left - paid)
  }

  function AddLocal(p: Progress, random: RandomId): Progress {
    p.(batch := p.batch.(localIds := p.batch.localIds + [random]))
  }

  function AddItem(p: Progress, item: Item, random: RandomId): Progress {
    var b := p.batch;
    p.(batch := Batch(item.from, b.items + [item], b.randomIds + [random], b.localIds))
  }

  function Take(p: Progress, item: Item, random: RandomId, local: bool, price: nat): Progress {
    var q := if local then AddLocal(p, random) else p;
    AddItem(if q.batch.from != item.from then SendBatch(q, price) else q, item, random)
  }

  function Loop(items: seq<Item>, randoms: seq<RandomId>, local: bool, approved: int, price: nat, i: nat): Progress
    requires items != [] && |items| == |randoms| && i <= |items|
  {
    if i == 0 then Start(items, approved)
    else Take(Loop(items, randoms, local, approved, price, i - 1), items[i - 1], randoms[i - 1], local, price)
  }

  ghost predicate Locals(local: bool, b: Batch, sent: seq<Request>) {
    OwnLocals(local, b) && forall k :: 0 <= k < |sent| ==> OwnLocals(local, sent[k].batch)
  }

  ghost predicate Stars(sent: seq<Request>, left: int, approved: nat, price: nat) {
    var all := Cost(|AllItems(sent)|, price);
    AllPaid(sent) + left == approved && AllPaid(sent) == if approved < all then approved else all
  }

  ghost predicate Batched(b: Batch, sent: seq<Request>) {
    IsRun(b) && Runs(sent) && (sent != [] ==> sent[|sent| - 1].batch.from != b.from)
  }

  // After some items: they were sent or are in the batch, which is a run of its own.
  ghost predicate Good(items: seq<Item>, randoms: seq<RandomId>, local: bool, approved: nat, price: nat, p: Progress) {
    && Batched(p.batch, p.sent) && Stars(p.sent, p.left, approved, price) && Locals(local, p.batch, p.sent)
    && AllItems(p.sent) + p.batch.items == items && AllRandomIds(p.sent) + p.batch.randomIds == randoms
  }

  lemma SentMore(sent: seq<Request>, r: Request)
    ensures AllItems(sent + [r]) == AllItems(sent) + r.batch.items
    ensures AllRandomIds(sent + [r]) == AllRandomIds(sent) + r.batch.randomIds
    ensures AllPaid(sent + [r]) == AllPaid(sent) + r.starsPaid
  {
    assert (sent + [r])[..|sent|] == sent;
  }

  // Sending pays the price of the batch, as far as stars are left.
  lemma SendPays(p: Progress, approved: nat, price: nat)
    requires Stars(p.sent, p.left, approved, price)
    ensures Stars(SendBatch(p, price).sent, SendBatch(p, price).left, approved, price)
  {
    var q := SendBatch(p, price);
    SentMore(p.sent, q.sent[|p.sent|]);
    CostAdds(|AllItems(p.sent)|, |p.batch.items|, price);
  }

  // The next item goes on with the run.
  lemma TakeSame(items: seq<Item>, randoms: seq<RandomId>, local: bool, approved: nat, price: nat, p: Progress, item: Item, random: RandomId)
    requires Good(items, randoms, local, approved, price, p) && p.batch.from == item.from && !local
    ensures Good(items + [item], randoms + [random], local, approved, price, Take(p, item, random, local, price))
  {
    var q, b := Take(p, item, random, local, price), p.batch;
    assert AllItems(p.sent) + (b.items + [item]) == items + [item];
    assert AllRandomIds(p.sent) + (b.randomIds + [random]) == randoms + [random];
  }

  lemma OtherTaken(p: Progress, item: Item, random: RandomId, price: nat)
    requires p.batch.from != item.from
    ensures Take(p, item, random, false, price) ==
      Progress(Batch(item.from, [item], [random], []), SendBatch(p, price).sent, SendBatch(p, price).left)
  {
    assert [] + [item] == [item] && [] + [random] == [random];
  }

  lemma RunEnds(b: Batch, sent: seq<Request>, paid: int, item: Item, random: RandomId)
    requires Batched(b, sent) && b.from != item.from
    ensures Batched(Batch(item.from, [item], [random], []), sent + [Request(b, paid)])
  {
    var more := sent + [Request(b, paid)];
    forall k | 0 <= k < |more| ensures IsRun(more[k].batch) && (k > 0 ==> more[k].batch.from != more[k - 1].batch.from) {
      assert k < |sent| ==> more[k] == sent[k];
    }
  }

  lemma LocalsSent(b: Batch, sent: seq<Request>, paid: int, item: Item, random: RandomId)
    requires Locals(false, b, sent)
    ensures Locals(false, Batch(item.from, [item], [random], []), sent + [Request(b, paid)])
  {}

  // The next item ends the run.
  lemma TakeOther(items: seq<Item>, randoms: seq<RandomId>, local: bool, approved: nat, price: nat, p: Progress, item: Item, random: RandomId)
    requires Good(items, randoms, local, approved, price, p) && p.batch.from != item.from && !local
    ensures Good(items + [item], randoms + [random], local, approved, price, Take(p, item, random, local, price))
  {
    var q := SendBatch(p, price);
    var paid := q.sent[|p.sent|].starsPaid;
    assert q.sent == p.sent + [Request(p.batch, paid)];
    OtherTaken(p, item, random, price);
    SendPays(p, approved, price);
    SentMore(p.sent, Request(p.batch, paid));
    RunEnds(p.batch, p.sent, paid, item, random);
    LocalsSent(p.batch, p.sent, paid, item, random);
  }

  lemma {:induction false} LoopIsGood(items: seq<Item>, randoms: seq<RandomId>, local: bool, approved: nat, price: nat, i: nat)
    requires items != [] && |items| == |randoms| && 0 < i <= |items| && (local ==> |items| < 2)
    ensures Good(items[..i], randoms[..i], local, approved, price, Loop(items, randoms, local, approved, price, i))
  {
    var item, random := items[i - 1], randoms[i - 1];
    assert items[..i] == items[..i - 1] + [item] && randoms[..i] == randoms[..i - 1] + [random];
    if i == 1 {
      assert items[..i] == [item] && randoms[..i] == [random];
    } else {
      LoopIsGood(items, randoms, local, approved, price, i - 1);
      var p := Loop(items, randoms, local, approved, price, i - 1);
      if p.batch.from == item.from {
        TakeSame(items[..i - 1], randoms[..i - 1], local, approved, price, p, item, random);
      } else {
        TakeOther(items[..i - 1], randoms[..i - 1], local, approved, price, p, item, random);
      }
    }
  }

  // The loop and the last send make the requests for the items.
  lemma LoopForwards(items: seq<Item>, randoms: seq<RandomId>, local: bool, approved: nat, price: nat)
    requires items != [] && |items| == |randoms| && (local ==> |items| < 2)
    ensures var p := SendBatch(Loop(items, randoms, local, approved, price, |items|), price);
      Forwards(items, randoms, local, approved, price, p.sent, p.left)
  {
    var p := Loop(items, randoms, local, approved, price, |items|);
    LoopIsGood(items, randoms, local, approved, price, |items|);
    assert items[..|items|] == items && randoms[..|items|] == randoms;
    LastSend(items, randoms, local, approved, price, p);
  }

  lemma LastSend(items: seq<Item>, randoms: seq<RandomId>, local: bool, approved: nat, price: nat, p: Progress)
    requires Good(items, randoms, local, approved, price, p)
    ensures Forwards(items, randoms, local, approved, price, SendBatch(p, price).sent, SendBatch(p, price).left)
  {
    var paid := Min(p.left, Cost(|p.batch.items|, price));
    SendPays(p, approved, price);
    SentMore(p.sent, Request(p.batch, paid));
    CostIs(|items|, price);
  }

  // ----- The success callback

  // `left` counts the requests that have not succeeded, `called` the calls.
  datatype Shared = Shared(left: int, called: nat)

  datatype Reply = Reply(request: nat, good: bool)

  // One more request has succeeded.
  function Succeed(s: Shared): Shared {
    Shared(s.left - 1, if s.left - 1 == 0 then s.called + 1 else s.called)
  }

  // The requests that were answered, and those with success; each one is answered once.
  function Answered(n: nat, replies: seq<Reply>, onlyGood: bool): set<nat>
    decreases |replies|
  {
    if replies == [] then {}
    else
      var r, rest := replies[|replies| - 1], replies[..|replies| - 1];
      Answered(n, rest, onlyGood) +
      (if r.request < n && r.request !in Answered(n, rest, false) && (r.good || !onlyGood) then {r.request} else {})
  }

  function Run(n: nat, replies: seq<Reply>): Shared
    decreases |replies|
  {
    if replies == [] then Shared(n, 0)
    else
      var r, rest := replies[|replies| - 1], replies[..|replies| - 1];
      if r.request < n && r.request !in Answered(n, rest, false) && r.good then Succeed(Run(n, rest)) else Run(n, rest)
  }

  lemma {:induction false} RunCounts(n: nat, replies: seq<Reply>)
    requires n > 0
    ensures var good := Answered(n, replies, true);
      && good <= Answered(n, replies, false) && (forall k :: k in Answered(n, replies, false) ==> k < n)
      && Run(n, replies).left == n - |good|
      && Run(n, replies).called == if |good| >= n then 1 else 0
    decreases |replies|
  {
    if replies != [] {
      RunCounts(n, replies[..|replies| - 1]);
      AtMost(n, Answered(n, replies[..|replies| - 1], true));
      AtMost(n, Answered(n, replies, true));
    }
  }

  lemma {:induction false} AtMost(n: nat, s: set<nat>)
    requires forall k :: k in s ==> k < n
    ensures |s| <= n && (|s| == n <==> forall k :: 0 <= k < n ==> k in s)
  {
    if n > 0 {
      var t := s - {n - 1};
      AtMost(n - 1, t);
      if n - 1 in s {
        assert s == t + {n - 1};
        assert forall k :: 0 <= k < n - 1 ==> (k in t <==> k in s);
      } else {
        assert s == t;
      }
    }
  }

  // The callback is called at most once, and just when every request has succeeded.
  lemma CalledOnce(n: nat, replies: seq<Reply>)
    requires n > 0
    ensures Run(n, replies).called == if forall k :: 0 <= k < n ==> k in Answered(n, replies, true) then 1 else 0
  {
    RunCounts(n, replies);
    AtMost(n, Answered(n, replies, true));
  }

  // ----- What fails

  // The messages the failure handlers mark as failed.
  function Marked(sent: seq<Request>, replies: seq<Reply>): set<RandomId>
    decreases |replies|
  {
    if replies == [] then {}
    else
      var r, rest := replies[|replies| - 1], replies[..|replies| - 1];
      Marked(sent, rest) +
      (if r.request < |sent| && r.request !in Answered(|sent|, rest, false) && !r.good
       then set id | id in sent[r.request].batch.localIds else {})
  }

  // Over any replies, just the local messages of the requests that failed are marked.
  lemma {:induction false} OwnMessagesFail(sent: seq<Request>, local: bool, replies: seq<Reply>, id: RandomId)
    requires forall k :: 0 <= k < |sent| ==> OwnLocals(local, sent[k].batch)
    ensures id in Marked(sent, replies) <==>
      local && exists k :: 0 <= k < |sent| && Failed(|sent|, replies, k) && id in sent[k].batch.randomIds
    decreases |replies|
  {
    if replies != [] {
      var r, rest := replies[|replies| - 1], replies[..|replies| - 1];
      OwnMessagesFail(sent, local, rest, id);
      forall k ensures Failed(|sent|, replies, k) <==>
        Failed(|sent|, rest, k) || (k == r.request < |sent| && k !in Answered(|sent|, rest, false) && !r.good)
      {
        GoodIsAnswered(|sent|, rest, k);
      }
      if r.request < |sent| {
        assert OwnLocals(local, sent[r.request].batch);
      }
    }
  }

  predicate Failed(n: nat, replies: seq<Reply>, k: nat) {
    k in Answered(n, replies, false) && k !in Answered(n, replies, true)
  }

  lemma {:induction false} GoodIsAnswered(n: nat, replies: seq<Reply>, k: nat)
    ensures k in Answered(n, replies, true) ==> k in Answered(n, replies, false)
    decreases |replies|
  {
    if replies != [] {
      GoodIsAnswered(n, replies[..|replies| - 1], k);
    }
  }

  // ----- `forwardMessages`

  class SharedCallback {
    var requestsLeft: int
    var called: nat

    function Value(): Shared
      reads this
    {
      Shared(requestsLeft, called)
    }

    constructor ()
      ensures Value() == Shared(0, 0)
    {
      requestsLeft, called := 0, 0;
    }

    method Succeeded()
      modifies this
      ensures Value() == Succeed(old(Value()))
    {
      requestsLeft := requestsLeft - 1;
      if requestsLeft == 0 {
        called := called + 1;
      }
    }
  }

  // The erasing loop; `music` are the documents sent alone.
  method EraseMusic(draft: seq<Item>) returns (items: seq<Item>, music: seq<Item>)
    ensures items == Messages(draft) && music == Music(draft)
  {
    items, music := draft, [];
    var i := 0;
    ghost var seen := 0;
    while i < |items|
      invariant 0 <= i <= |items| && i <= seen <= |draft| && items[i..] == draft[seen..]
      invariant items[..i] == Messages(draft[..seen]) && music == Music(draft[..seen])
      decreases |items| - i
    {
      assert items[i] == draft[seen] && draft[..seen + 1][..seen] == draft[..seen];
      if items[i].savedMusic {
        var left := items[..i];
        music := music + [items[i]];
        items := items[..i] + items[i + 1..];
        assert items[..i] == left && items[i..] == draft[seen..][1..] == draft[seen + 1..];
      } else {
        i := i + 1;
      }
      seen := seen + 1;
    }
    assert draft[..seen] == draft && items[..i] == items;
  }

  method SendAccumulated(shared: SharedCallback?, progress: Progress, price: nat) returns (r: Progress)
    modifies if shared == null then {} else {shared}
    ensures r == SendBatch(progress, price)
    ensures shared != null ==> shared.Value() == Shared(old(shared.requestsLeft) + 1, old(shared.called))
  {
    if shared != null {
      shared.requestsLeft := shared.requestsLeft + 1;
    }
    CostIs(|progress.batch.items|, price);
    var starsPaid := Min(progress.left, |progress.batch.items| * price);
    r := Progress(Batch(progress.batch.from, [], [], []), progress.sent + [Request(progress.batch, starsPaid)],
      progress.left - starsPaid);
  }

  // `randoms` are the random values drawn for the messages.
  method ForwardMessages(draft: seq<Item>, randoms: seq<RandomId>, generateLocal: bool, preserveInfo: bool,
      approved: nat, price: nat, callback: bool)
    returns (music: seq<Item>, sent: seq<Request>, left: int, calledAtOnce: bool, shared: SharedCallback?)
    requires draft != [] && |randoms| == |Messages(draft)|
    ensures music == Music(draft)
    ensures Forwards(Messages(draft), randoms, MakesLocal(generateLocal, preserveInfo, Messages(draft)), approved, price, sent, left)
    ensures LocalsAlone(generateLocal && preserveInfo && |Messages(draft)| == 1, sent)
    ensures calledAtOnce <==> callback && Messages(draft) == []
    ensures callback && Messages(draft) != [] ==>
      shared != null && fresh(shared) && shared.Value() == Run(|sent|, [])
  {
    var items;
    items, music := EraseMusic(draft);
    calledAtOnce, shared := false, null;
    if items == [] {
      sent, left, calledAtOnce := [], approved, callback;
      return;
    }
    if callback {
      shared := new SharedCallback();
    }
    var local := generateLocal && |items| < 2 && preserveInfo;
    var progress := ForwardItems(items, randoms, local, approved, price, shared);
    sent, left := progress.sent, progress.left;
    LoopForwards(items, randoms, local, approved, price);
    LocalsAre(items, randoms, generateLocal, preserveInfo, approved, price, sent, left);
  }

  // Local messages are known to the request of the one item they are made for.
  ghost predicate LocalsAlone(alone: bool, sent: seq<Request>) {
    forall k :: 0 <= k < |sent| ==> if alone then sent[k].batch.localIds == sent[k].batch.randomIds else sent[k].batch.localIds == []
  }

  lemma LocalsAre(items: seq<Item>, randoms: seq<RandomId>, generateLocal: bool, preserveInfo: bool, approved: nat, price: nat,
      sent: seq<Request>, left: int)
    requires items != [] && Forwards(items, randoms, MakesLocal(generateLocal, preserveInfo, items), approved, price, sent, left)
    ensures LocalsAlone(generateLocal && preserveInfo && |items| == 1, sent)
  {
    forall k | 0 <= k < |sent| ensures OwnLocals(MakesLocal(generateLocal, preserveInfo, items), sent[k].batch) {}
  }

  // The loop over the items, and the last send.
  method ForwardItems(items: seq<Item>, randoms: seq<RandomId>, local: bool, approved: nat, price: nat, shared: SharedCallback?)
    returns (progress: Progress)
    requires items != [] && |items| == |randoms|
    requires shared != null ==> shared.Value() == Shared(0, 0)
    modifies if shared == null then {} else {shared}
    ensures progress == SendBatch(Loop(items, randoms, local, approved, price, |items|), price)
    ensures shared != null ==> shared.Value() == Shared(|progress.sent|, 0)
  {
    progress := Start(items, approved);
    for i := 0 to |items|
      invariant progress == Loop(items, randoms, local, approved, price, i)
      invariant shared != null ==> shared.Value() == Shared(|progress.sent|, 0)
    {
      if local {
        progress := AddLocal(progress, randoms[i]);
      }
      if progress.batch.from != items[i].from {
        progress := SendAccumulated(shared, progress, price);
      }
      progress := AddItem(progress, items[i], randoms[i]);
    }
    progress := SendAccumulated(shared, progress, price);
  }
}
