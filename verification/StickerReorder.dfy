/** The requests of `ApiWrap::saveStickerSets` for one sticker type: installs and uninstalls,
    and the reorder request that waits for all of them. */
module StickerReorder {

  type SetId = nat
  type ReqId = nat

  // Every request knows the save that sent it and the order that save was given.
  datatype Request =
    | Uninstall(setId: SetId, save: nat, order: seq<SetId>)
    | Install(setId: SetId, save: nat, order: seq<SetId>)
    | Reorder(save: nat, order: seq<SetId>)

  datatype Change = Removes(setId: SetId) | Restores(setId: SetId)

  // `disenable` and `reorder` are the fields of `ApiWrap`; the rest is what the network
  // and an observer know: the requests that may still call back, the last id given, the
  // latest save and its order, and every request sent so far.
  datatype Net = Net(
    disenable: set<ReqId>, reorder: ReqId,
    live: map<ReqId, Request>, last: ReqId, save: nat, order: seq<SetId>, log: seq<Request>)

  const INITIAL := Net({}, 0, map[], 0, 0, [], [])

  // Cancels what the previous save left behind.
  function StartSave(n: Net, order: seq<SetId>): Net {
    Net({}, 0, n.live - n.disenable - {n.reorder}, n.last, n.save + 1, order, n.log)
  }

  function Send(n: Net, r: Request): Net {
    n.(live := n.live[n.last + 1 := r], last := n.last + 1, log := n.log + [r])
  }

  function SendChange(n: Net, c: Change): Net {
    var r := match c
      case Removes(id) => Uninstall(id, n.save, n.order)
      case Restores(id) => Install(id, n.save, n.order);
    Send(n, r).(disenable := n.disenable + {n.last + 1})
  }

  function SendChanges(n: Net, changes: seq<Change>): Net
    decreases |changes|
  {
    if changes == [] then n
    else SendChange(SendChanges(n, changes[..|changes| - 1]), changes[|changes| - 1])
  }

  // `stickersSaveOrder`, with what its closure holds.
  function SaveOrder(n: Net, save: nat, order: seq<SetId>): Net {
    if |order| < 2 then n else Send(n, Reorder(save, order)).(reorder := n.last + 1)
  }

  function FinishSave(n: Net): Net {
    if n.disenable == {} then SaveOrder(n, n.save, n.order) else n
  }

  function Save(n: Net, order: seq<SetId>, changes: seq<Change>): Net {
    FinishSave(SendChanges(StartSave(n, order), changes))
  }

  // A reply, good or bad. Cancelled and answered requests do not call back.
  function Reply(n: Net, id: ReqId): Net {
    if id !in n.live then n
    else
      var m := n.(live := n.live - {id});
      match n.live[id]
      case Reorder(_, _) => m.(reorder := 0)
      case r =>
        var d := m.(disenable := m.disenable - {id});
        if d.disenable == {} then SaveOrder(d, r.save, r.order) else d
  }

  datatype Event = SaveCalled(order: seq<SetId>, changes: seq<Change>) | Replied(id: ReqId)

  function Step(n: Net, e: Event): Net {
    match e
    case SaveCalled(order, changes) => Save(n, order, changes)
    case Replied(id) => Reply(n, id)
  }

  function Run(n: Net, events: seq<Event>): Net
    decreases |events|
  {
    if events == [] then n
    else Step(Run(n, events[..|events| - 1]), events[|events| - 1])
  }

  // ----- What is sent

  // The requests for the changes of a save, in order.
  function ChangesOf(changes: seq<Change>, save: nat, order: seq<SetId>): seq<Request> {
    seq(|changes|, i requires 0 <= i < |changes| =>
      if changes[i].Removes? then Uninstall(changes[i].setId, save, order) else Install(changes[i].setId, save, order))
  }

  // All that was sent gets the next ids and may be answered.
  ghost predicate OnItsWay(n: Net, t: Net, sent: seq<Request>) {
    && t.log == n.log + sent && t.last == n.last + |sent|
    && (forall id :: id in t.live ==> id <= t.last)
    && (forall id :: n.last < id <= t.last ==> id in t.live && t.live[id] == sent[id - n.last - 1])
    && (forall id :: id <= n.last ==> (id in t.live <==> id in n.live))
    && t.save == n.save && t.order == n.order
  }

  lemma OneMoreSent(n: Net, m: Net, sent: seq<Request>, c: Change)
    requires OnItsWay(n, m, sent)
    ensures OnItsWay(n, SendChange(m, c),
      sent + [if c.Removes? then Uninstall(c.setId, n.save, n.order) else Install(c.setId, n.save, n.order)])
  {}

  lemma {:induction false} ChangesAreSent(n: Net, changes: seq<Change>)
    requires forall id :: id in n.live ==> id <= n.last
    ensures OnItsWay(n, SendChanges(n, changes), ChangesOf(changes, n.save, n.order))
    ensures changes != [] ==> SendChanges(n, changes).disenable != {}
    decreases |changes|
  {
    if changes == [] {
      assert n.log + [] == n.log;
    } else {
      var k := |changes| - 1;
      ChangesAreSent(n, changes[..k]);
      OneMoreSent(n, SendChanges(n, changes[..k]), ChangesOf(changes[..k], n.save, n.order), changes[k]);
      assert n.log + ChangesOf(changes[..k], n.save, n.order) == SendChanges(n, changes[..k]).log;
      assert ChangesOf(changes, n.save, n.order) == ChangesOf(changes[..k], n.save, n.order) + [ChangesOf(changes, n.save, n.order)[k]];
      assert SendChanges(n, changes).last in SendChanges(n, changes).disenable;
    }
  }

  lemma {:induction false} ChangesAreLogged(n: Net, changes: seq<Change>)
    ensures var t := SendChanges(n, changes);
      && t.log == n.log + ChangesOf(changes, n.save, n.order) && t.save == n.save && t.order == n.order
      && (if changes == [] then t == n else t.disenable != {})
    decreases |changes|
  {
    if changes != [] {
      var k := |changes| - 1;
      ChangesAreLogged(n, changes[..k]);
      assert ChangesOf(changes, n.save, n.order) == ChangesOf(changes[..k], n.save, n.order) + [ChangesOf(changes, n.save, n.order)[k]];
      assert SendChanges(n, changes).last in SendChanges(n, changes).disenable;
    }
  }

  lemma SaveLogs(n: Net, order: seq<SetId>, changes: seq<Change>)
    ensures Save(n, order, changes).save == n.save + 1
    ensures Save(n, order, changes).log == n.log +
      if changes == [] && |order| >= 2 then [Reorder(n.save + 1, order)] else ChangesOf(changes, n.save + 1, order)
  {
    ChangesAreLogged(StartSave(n, order), changes);
  }

  // A save drops what was outstanding and sends a request for each change, or the order
  // at once if there is none.
  lemma SaveSends(n: Net, order: seq<SetId>, changes: seq<Change>)
    requires Inv(n)
    ensures OnItsWay(n.(live := map[], save := n.save + 1, order := order), Step(n, SaveCalled(order, changes)),
      if changes == [] && |order| >= 2 then [Reorder(n.save + 1, order)] else ChangesOf(changes, n.save + 1, order))
  {
    var s := StartSave(n, order);
    assert s.live == map[];
    ChangesAreSent(s, changes);
  }

  // A reply takes its request away and, if it is the last one for a change, sends the order.
  lemma ReplyExactly(n: Net, id: ReqId)
    requires Inv(n) && id in n.live
    ensures var t := Step(n, Replied(id));
      var sends := !n.live[id].Reorder? && (forall k :: k in n.live ==> k == id) && |n.order| >= 2;
      && t.log == n.log + (if sends then [Reorder(n.save, n.order)] else [])
      && t.last == n.last + (if sends then 1 else 0)
      && (forall k :: k in t.live <==> (k in n.live && k != id) || (sends && k == t.last))
      && (forall k :: k in t.live ==> t.live[k] == if k in n.live then n.live[k] else Reorder(n.save, n.order))
      && t.save == n.save && t.order == n.order
  {
    if n.live[id].Reorder? {
      assert n.live.Keys == {n.reorder};
    } else {
      assert n.disenable == n.live.Keys;
      assert n.disenable - {id} == {} <==> forall k :: k in n.live ==> k == id;
    }
  }

  // ----- What holds in every reachable state

  // How often the order of a save was sent.
  function Sent(log: seq<Request>, save: nat): nat {
    if log == [] then 0
    else Sent(log[..|log| - 1], save) + (if log[|log| - 1].Reorder? && log[|log| - 1].save == save then 1 else 0)
  }

  ghost predicate Inv(n: Net) {
    && n.live.Keys == n.disenable + (if n.reorder == 0 then {} else {n.reorder})
    && 0 !in n.live && (forall id :: id in n.live ==> id <= n.last)
    && (forall id :: id in n.live ==> n.live[id].save == n.save && n.live[id].order == n.order)
    && (forall id :: id in n.live ==> (n.live[id].Reorder? <==> id !in n.disenable))
    && (forall r :: r in n.log ==> r.save <= n.save)
    && (n.disenable != {} ==> n.reorder == 0)
    && (n.save == 0 ==> n.live == map[] && n.log == [])
    && (n.save > 0 ==> Sent(n.log, n.save) == if n.disenable == {} && |n.order| >= 2 then 1 else 0)
    && (forall save: nat :: save < n.save ==> Sent(n.log, save) <= 1)
  }

  // Between the start and the finish of a save nothing has been reordered yet.
  ghost predicate Saving(n: Net) {
    && n.live.Keys == n.disenable && n.reorder == 0 && n.save > 0
    && 0 !in n.live && (forall id :: id in n.live ==> id <= n.last)
    && (forall id :: id in n.live ==> n.live[id].save == n.save && n.live[id].order == n.order && !n.live[id].Reorder?)
    && (forall r :: r in n.log ==> r.save <= n.save)
    && Sent(n.log, n.save) == 0
    && (forall save: nat :: save < n.save ==> Sent(n.log, save) <= 1)
  }

  lemma SentMore(log: seq<Request>, r: Request, save: nat)
    ensures Sent(log + [r], save) == Sent(log, save) + (if r.Reorder? && r.save == save then 1 else 0)
  {
    assert (log + [r])[..|log|] == log;
  }

  lemma {:induction false} SentNone(log: seq<Request>, save: nat)
    requires forall r :: r in log ==> r.save != save
    ensures Sent(log, save) == 0
  {
    if log != [] {
      SentNone(log[..|log| - 1], save);
    }
  }

  lemma StartSaves(n: Net, order: seq<SetId>)
    requires Inv(n)
    ensures Saving(StartSave(n, order))
  {
    SentNone(n.log, n.save + 1);
    if n.save == 0 { SentNone(n.log, 0); }
  }

  lemma ChangeSaves(n: Net, c: Change)
    requires Saving(n)
    ensures Saving(SendChange(n, c))
  {
    forall r: Request, save | !r.Reorder? ensures Sent(n.log + [r], save) == Sent(n.log, save) {
      SentMore(n.log, r, save);
    }
  }

  lemma {:induction false} ChangesSave(n: Net, changes: seq<Change>)
    requires Saving(n)
    ensures Saving(SendChanges(n, changes))
    decreases |changes|
  {
    if changes != [] {
      ChangesSave(n, changes[..|changes| - 1]);
      ChangeSaves(SendChanges(n, changes[..|changes| - 1]), changes[|changes| - 1]);
    }
  }

  lemma OrderSaves(n: Net)
    requires Saving(n) && n.disenable == {}
    ensures Inv(SaveOrder(n, n.save, n.order))
  {
    forall save { SentMore(n.log, Reorder(n.save, n.order), save); }
  }

  lemma SaveKeepsInv(n: Net, order: seq<SetId>, changes: seq<Change>)
    requires Inv(n)
    ensures Inv(Save(n, order, changes))
  {
    StartSaves(n, order);
    ChangesSave(StartSave(n, order), changes);
    var m := SendChanges(StartSave(n, order), changes);
    if m.disenable == {} {
      OrderSaves(m);
    }
  }

  lemma ReplyKeepsInv(n: Net, id: ReqId)
    requires Inv(n)
    ensures Inv(Reply(n, id))
  {
    if id in n.live && !n.live[id].Reorder? {
      var d := n.(live := n.live - {id}, disenable := n.disenable - {id});
      if d.disenable == {} {
        assert Saving(d);
        OrderSaves(d);
      }
    }
  }

  lemma RunMore(n: Net, events: seq<Event>, e: Event)
    ensures Run(n, events + [e]) == Step(Run(n, events), e)
  {
    assert (events + [e])[..|events|] == events;
  }

  lemma {:induction false} RunKeepsInv(events: seq<Event>)
    ensures Inv(Run(INITIAL, events))
    decreases |events|
  {
    if events != [] {
      var n := Run(INITIAL, events[..|events| - 1]);
      RunKeepsInv(events[..|events| - 1]);
      match events[|events| - 1]
      case SaveCalled(order, changes) => SaveKeepsInv(n, order, changes);
      case Replied(id) => ReplyKeepsInv(n, id);
    }
  }

  // Over any run: the only reorder request that can be outstanding is the one in
  // `reorder`; it carries the latest save's order, and none of that save's installs and
  // uninstalls is outstanding with it. An order is sent at most once per save, and that
  // of the latest save has been sent exactly when its changes have all been answered
  // and it has two sets or more.
  lemma ReorderBarrier(events: seq<Event>)
    ensures
      var n := Run(INITIAL, events);
      && (forall id :: id in n.live && n.live[id].Reorder? ==>
            id == n.reorder && n.live == map[id := Reorder(n.save, n.order)])
      && (forall save :: Sent(n.log, save) <= 1)
      && (n.save > 0 ==> (Sent(n.log, n.save) == 1 <==>
            |n.order| >= 2 && forall id :: id in n.live ==> n.live[id].Reorder?))
  {
    RunKeepsInv(events);
    var n := Run(INITIAL, events);
    forall id | id in n.live && n.live[id].Reorder?
      ensures id == n.reorder && n.live == map[id := Reorder(n.save, n.order)]
    {
      assert n.live.Keys == {id};
    }
    forall save | save > n.save ensures Sent(n.log, save) <= 1 {
      SentNone(n.log, save);
    }
  }
}
