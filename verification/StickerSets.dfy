/** What `ApiWrap::saveStickerSets` does to the sticker data of one type. */
module StickerSets {
  import opened StickerReorder

  type DocId = nat

  const CUSTOM: SetId := 0xFFFF_FFFF_FFFF_FFFF
  const CLOUD_RECENT: SetId := 0xFFFF_FFFF_FFFF_FFFC
  const CLOUD_RECENT_ATTACHED: SetId := 0xFFFF_FFFF_FFFF_FFF9

  datatype StickersType = Stickers | Masks | Emoji

  datatype StickersSet = StickersSet(
    installed: bool, archived: bool, featured: bool, special: bool, emoji: bool, masks: bool,
    locked: nat, installDate: nat, stickers: set<DocId>)

  type Sets = map<SetId, StickersSet>

  function TypeOf(s: StickersSet): StickersType {
    if s.emoji then Emoji else if s.masks then Masks else Stickers
  }

  predicate IsCloud(id: SetId) { id == CLOUD_RECENT || id == CLOUD_RECENT_ATTACHED }

  // ----- What the removals leave

  predicate Clears(removed: seq<SetId>) { exists id :: id in removed && IsCloud(id) }

  // A removed set that nothing else keeps is erased; others are only uninstalled.
  predicate Erased(s: StickersSet) {
    !s.archived && !s.featured && !s.special && !s.emoji && s.locked == 0
  }

  function Uninstalled(s: StickersSet): StickersSet {
    if s.archived then s else s.(installed := false, installDate := 0)
  }

  predicate Survives(sets: Sets, removed: seq<SetId>, id: SetId)
    requires id in sets
  {
    && !(Clears(removed) && (IsCloud(id) || id == CUSTOM))
    && !(id in removed && !IsCloud(id) && Erased(sets[id]))
  }

  function AfterRemoval(sets: Sets, removed: seq<SetId>): Sets {
    map id | id in sets && Survives(sets, removed, id) ::
      if id in removed && !IsCloud(id) then Uninstalled(sets[id]) else sets[id]
  }

  // Whether some removed set, still there when its turn comes, has the sticker.
  predicate Forgotten(sets: Sets, removed: seq<SetId>, d: DocId) {
    Clears(removed) || exists id :: id in removed && id in sets && d in sets[id].stickers
  }

  function Kept(recent: seq<DocId>, sets: Sets, removed: seq<SetId>): seq<DocId> {
    if recent == [] then []
    else
      var d := recent[|recent| - 1];
      Kept(recent[..|recent| - 1], sets, removed) + (if Forgotten(sets, removed, d) then [] else [d])
  }

  // The uninstall requests, in order.
  function Removals(sets: Sets, removed: seq<SetId>): seq<Change> {
    if removed == [] then []
    else
      var n := |removed| - 1;
      var now := AfterRemoval(sets, removed[..n]);
      var id := removed[n];
      Removals(sets, removed[..n])
      + (if !IsCloud(id) && id in now && !now[id].archived then [Removes(id)] else [])
  }

  // ----- What the new order makes of the rest

  function Final(s: StickersSet, ordered: bool, removed: bool, kind: StickersType, now: nat): StickersSet {
    if ordered then
      s.(installed := true, archived := s.archived && removed, installDate := if s.installDate == 0 then now else s.installDate)
    else if !s.archived && TypeOf(s) == kind then s.(installed := false)
    else s
  }

  predicate Keeps(s: StickersSet) {
    s.featured || s.installed || s.archived || s.special || s.emoji || s.locked > 0
  }

  function Arranged(left: Sets, order: seq<SetId>, removed: seq<SetId>, kind: StickersType, now: nat): Sets {
    map id | id in left :: Final(left[id], id in order, id in removed, kind, now)
  }

  function Swept(sets: Sets): Sets {
    map id | id in sets && Keeps(sets[id]) :: sets[id]
  }

  function Saved(sets: Sets, order: seq<SetId>, removed: seq<SetId>, kind: StickersType, now: nat): Sets {
    Swept(Arranged(AfterRemoval(sets, removed), order, removed, kind, now))
  }

  function Present(order: seq<SetId>, sets: Sets): seq<SetId> {
    if order == [] then []
    else
      var id := order[|order| - 1];
      Present(order[..|order| - 1], sets) + (if id in sets then [id] else [])
  }

  // The install requests for archived sets, each at its first place in the order.
  function Restorals(left: Sets, order: seq<SetId>, removed: seq<SetId>): seq<Change> {
    if order == [] then []
    else
      var n := |order| - 1;
      var id := order[n];
      Restorals(left, order[..n], removed)
      + (if id in left && left[id].archived && id !in removed && id !in order[..n] then [Restores(id)] else [])
  }

  // All the requests of a save that the reorder request waits for.
  function Changes(sets: Sets, order: seq<SetId>, removed: seq<SetId>): seq<Change> {
    Removals(sets, removed) + Restorals(AfterRemoval(sets, removed), order, removed)
  }

  // ----- The promises

  lemma {:induction false} PresentIn(order: seq<SetId>, sets: Sets, id: SetId)
    ensures id in Present(order, sets) <==> id in order && id in sets
  {
    if order != [] {
      PresentIn(order[..|order| - 1], sets, id);
      assert order == order[..|order| - 1] + [order[|order| - 1]];
    }
  }

  // Every set of the saved order is stored and installed, and no set of this type that
  // is not archived is installed without being in the order.
  lemma OrderIsInstalled(sets: Sets, order: seq<SetId>, removed: seq<SetId>, kind: StickersType, now: nat)
    ensures
      var saved := Saved(sets, order, removed, kind, now);
      var newOrder := Present(order, AfterRemoval(sets, removed));
      && (forall id :: id in newOrder ==> id in saved && saved[id].installed)
      && (forall id :: id in saved && !saved[id].archived && HasType(saved[id], kind) ==>
            (saved[id].installed <==> id in newOrder))
  {
    var left := AfterRemoval(sets, removed);
    forall id ensures id in Present(order, left) <==> id in order && id in left {
      PresentIn(order, left, id);
    }
  }

  // A set is still stored exactly if it was there before and something keeps it: the new
  // order, being archived, featured, special, an emoji set, locked, or being an installed
  // set of another type; being removed takes precedence only over the last one.
  lemma SurvivorsExactly(sets: Sets, order: seq<SetId>, removed: seq<SetId>, kind: StickersType, now: nat, id: SetId)
    ensures id in Saved(sets, order, removed, kind, now) <==>
      && id in sets && !GoesWithCloud(removed, id)
      && var s := sets[id];
         var dropped := id in removed && id != CLOUD_RECENT && id != CLOUD_RECENT_ATTACHED;
         || s.archived || s.featured || s.special || s.emoji || s.locked > 0
         || (!dropped && (id in order || (s.installed && !HasType(s, kind))))
  {}

  // Recents keep exactly the stickers that no removed set has, in order.
  lemma {:induction false} RecentsExactly(recent: seq<DocId>, sets: Sets, removed: seq<SetId>, d: DocId)
    ensures multiset(Kept(recent, sets, removed))[d] == if Forgotten(sets, removed, d) then 0 else multiset(recent)[d]
  {
    if recent != [] {
      RecentsExactly(recent[..|recent| - 1], sets, removed, d);
      assert recent == recent[..|recent| - 1] + [recent[|recent| - 1]];
    }
  }

  // Being of a type, by the flags.
  predicate HasType(s: StickersSet, kind: StickersType) {
    match kind
    case Emoji => s.emoji
    case Masks => !s.emoji && s.masks
    case Stickers => !s.emoji && !s.masks
  }

  // The sets that go when the recent stickers of the cloud do.
  predicate GoesWithCloud(removed: seq<SetId>, id: SetId) {
    && (CLOUD_RECENT in removed || CLOUD_RECENT_ATTACHED in removed)
    && (id == CLOUD_RECENT || id == CLOUD_RECENT_ATTACHED || id == CUSTOM)
  }

  // Every field of a set that is still stored.
  lemma SavedExactly(sets: Sets, order: seq<SetId>, removed: seq<SetId>, kind: StickersType, now: nat, id: SetId)
    requires id in Saved(sets, order, removed, kind, now)
    ensures
      var s, t := sets[id], Saved(sets, order, removed, kind, now)[id];
      var dropped := id in removed && !s.archived && id != CLOUD_RECENT && id != CLOUD_RECENT_ATTACHED;
      var date := if dropped then 0 else s.installDate;
      && t.archived == (s.archived && (id in order ==> id in removed))
      && t.installed == (id in order || (s.installed && !dropped && (s.archived || !HasType(s, kind))))
      && t.installDate == (if id in order && date == 0 then now else date)
      && t == s.(archived := t.archived, installed := t.installed, installDate := t.installDate)
  {}

  // Which recent stickers stay: neither are all cleared, nor does a removed set have them.
  lemma KeptExactly(sets: Sets, removed: seq<SetId>, a: seq<DocId>, b: seq<DocId>, d: DocId)
    ensures Kept(a + b, sets, removed) == Kept(a, sets, removed) + Kept(b, sets, removed)
    ensures Kept([d], sets, removed) ==
      if CLOUD_RECENT in removed || CLOUD_RECENT_ATTACHED in removed
        || (exists id :: id in removed && id in sets && d in sets[id].stickers) then [] else [d]
  {
    KeptSplits(a, b, sets, removed);
    assert [d][..0] == [] && Kept([d][..0], sets, removed) == [];
  }

  lemma {:induction false} KeptSplits(a: seq<DocId>, b: seq<DocId>, sets: Sets, removed: seq<SetId>)
    ensures Kept(a + b, sets, removed) == Kept(a, sets, removed) + Kept(b, sets, removed)
    decreases |b|
  {
    if b == [] {
      assert a + b == a;
    } else {
      KeptSplits(a, b[..|b| - 1], sets, removed);
      assert (a + b)[..|a + b| - 1] == a + b[..|b| - 1];
    }
  }

  // The saved order is the given one without the sets that are not stored.
  lemma {:induction false} PresentSplits(a: seq<SetId>, b: seq<SetId>, sets: Sets, id: SetId)
    ensures Present(a + b, sets) == Present(a, sets) + Present(b, sets)
    ensures Present([id], sets) == if id in sets then [id] else []
    decreases |b|
  {
    assert [id][..0] == [] && Present([id][..0], sets) == [];
    if b == [] {
      assert a + b == a;
    } else {
      PresentSplits(a, b[..|b| - 1], sets, id);
      assert (a + b)[..|a + b| - 1] == a + b[..|b| - 1];
    }
  }

  // ----- The requests of a save

  // A removed set is there and is not archived when its turn comes.
  ghost predicate Turn(sets: Sets, removed: seq<SetId>, k: int) {
    0 <= k < |removed| &&
    var id := removed[k];
    && id != CLOUD_RECENT && id != CLOUD_RECENT_ATTACHED && id in sets && !sets[id].archived
    && !GoesWithCloud(removed[..k], id)
    && (id in removed[..k] ==> sets[id].featured || sets[id].special || sets[id].emoji || sets[id].locked > 0)
  }

  // How many turns of a set there are.
  ghost function Turns(sets: Sets, removed: seq<SetId>, id: SetId): nat {
    if removed == [] then 0
    else
      var n := |removed| - 1;
      Turns(sets, removed[..n], id) + (if removed[n] == id && Turn(sets, removed, n) then 1 else 0)
  }

  // An archived set of the new order that is not removed.
  ghost predicate Restored(sets: Sets, order: seq<SetId>, removed: seq<SetId>, id: SetId) {
    id in order && id in sets && sets[id].archived && id !in removed && !GoesWithCloud(removed, id)
  }

  // One request to uninstall for each turn, then one to install for each restored set, or
  // else the order if it has two sets or more.
  ghost predicate SentFor(sets: Sets, order: seq<SetId>, removed: seq<SetId>, save: nat, sent: seq<Request>) {
    && (forall r :: r in sent ==> r.save == save && r.order == order)
    && (forall id :: multiset(sent)[Uninstall(id, save, order)] == Turns(sets, removed, id))
    && (forall id :: multiset(sent)[Install(id, save, order)] == if Restored(sets, order, removed, id) then 1 else 0)
    && (forall i, j :: 0 <= i < j < |sent| && sent[i].Install? ==> !sent[j].Uninstall?)
    && (Reorder(save, order) in sent ==> |sent| == 1 && |order| >= 2)
    && (sent == [] ==> |order| < 2)
  }

  lemma {:induction false} RemovalCounts(sets: Sets, removed: seq<SetId>, id: SetId)
    ensures multiset(Removals(sets, removed))[Removes(id)] == Turns(sets, removed, id)
    ensures forall c :: c in Removals(sets, removed) ==> c.Removes?
  {
    if removed != [] {
      var n := |removed| - 1;
      RemovalCounts(sets, removed[..n], id);
      TurnIs(sets, removed, n);
    }
  }

  lemma TurnIs(sets: Sets, removed: seq<SetId>, n: nat)
    requires n < |removed|
    ensures var now := AfterRemoval(sets, removed[..n]);
      Turn(sets, removed, n) <==> !IsCloud(removed[n]) && removed[n] in now && !now[removed[n]].archived
  {}

  lemma {:induction false} RestoralCounts(left: Sets, order: seq<SetId>, removed: seq<SetId>, id: SetId)
    ensures multiset(Restorals(left, order, removed))[Restores(id)] ==
      if id in order && id in left && left[id].archived && id !in removed then 1 else 0
    ensures forall c :: c in Restorals(left, order, removed) ==> c.Restores?
  {
    if order != [] {
      var n := |order| - 1;
      RestoralCounts(left, order[..n], removed, id);
      assert order == order[..n] + [order[n]];
    }
  }

  lemma {:induction false} RequestCounts(changes: seq<Change>, save: nat, order: seq<SetId>, id: SetId)
    ensures multiset(ChangesOf(changes, save, order))[Uninstall(id, save, order)] == multiset(changes)[Removes(id)]
    ensures multiset(ChangesOf(changes, save, order))[Install(id, save, order)] == multiset(changes)[Restores(id)]
    decreases |changes|
  {
    if changes != [] {
      var n := |changes| - 1;
      RequestCounts(changes[..n], save, order, id);
      var rest := ChangesOf(changes[..n], save, order);
      assert ChangesOf(changes, save, order) == rest + [ChangesOf(changes, save, order)[n]];
      assert changes == changes[..n] + [changes[n]];
    }
  }

  lemma ChangeCounts(sets: Sets, order: seq<SetId>, removed: seq<SetId>, id: SetId)
    ensures multiset(Changes(sets, order, removed))[Removes(id)] == Turns(sets, removed, id)
    ensures multiset(Changes(sets, order, removed))[Restores(id)] == if Restored(sets, order, removed, id) then 1 else 0
  {
    var left := AfterRemoval(sets, removed);
    var a, b := Removals(sets, removed), Restorals(left, order, removed);
    RemovalCounts(sets, removed, id);
    RestoralCounts(left, order, removed, id);
    assert Restores(id) !in a && Removes(id) !in b && multiset(a + b) == multiset(a) + multiset(b);
    assert Restored(sets, order, removed, id) <==> id in order && id in left && left[id].archived && id !in removed;
  }

  lemma ChangesInTurn(a: seq<Change>, b: seq<Change>, save: nat, order: seq<SetId>)
    requires (forall c :: c in a ==> c.Removes?) && (forall c :: c in b ==> c.Restores?)
    ensures var sent := ChangesOf(a + b, save, order);
      && (forall r :: r in sent ==> r.save == save && r.order == order && !r.Reorder?)
      && (forall i, j :: 0 <= i < j < |sent| && sent[i].Install? ==> !sent[j].Uninstall?)
  {
    var changes, sent := a + b, ChangesOf(a + b, save, order);
    forall i | 0 <= i < |changes| ensures changes[i].Removes? <==> i < |a| {
      if i < |a| { assert changes[i] == a[i] && a[i] in a; } else { assert changes[i] == b[i - |a|] && b[i - |a|] in b; }
    }
    assert forall i :: 0 <= i < |sent| ==> (sent[i].Uninstall? <==> i < |a|);
  }

  lemma SentCounts(sets: Sets, order: seq<SetId>, removed: seq<SetId>, save: nat, id: SetId)
    ensures var sent := ChangesOf(Changes(sets, order, removed), save, order);
      && multiset(sent)[Uninstall(id, save, order)] == Turns(sets, removed, id)
      && multiset(sent)[Install(id, save, order)] == if Restored(sets, order, removed, id) then 1 else 0
  {
    ChangeCounts(sets, order, removed, id);
    RequestCounts(Changes(sets, order, removed), save, order, id);
  }

  lemma ChangesSentFor(sets: Sets, order: seq<SetId>, removed: seq<SetId>, save: nat)
    requires Changes(sets, order, removed) != [] || |order| < 2
    ensures SentFor(sets, order, removed, save, ChangesOf(Changes(sets, order, removed), save, order))
  {
    RemovalCounts(sets, removed, 0);
    RestoralCounts(AfterRemoval(sets, removed), order, removed, 0);
    ChangesInTurn(Removals(sets, removed), Restorals(AfterRemoval(sets, removed), order, removed), save, order);
    var sent := ChangesOf(Changes(sets, order, removed), save, order);
    forall id ensures multiset(sent)[Uninstall(id, save, order)] == Turns(sets, removed, id)
      && multiset(sent)[Install(id, save, order)] == if Restored(sets, order, removed, id) then 1 else 0
    {
      SentCounts(sets, order, removed, save, id);
    }
  }

  lemma OrderSentFor(sets: Sets, order: seq<SetId>, removed: seq<SetId>, save: nat)
    requires Changes(sets, order, removed) == [] && |order| >= 2
    ensures SentFor(sets, order, removed, save, [Reorder(save, order)])
  {
    var sent := [Reorder(save, order)];
    forall id ensures multiset(sent)[Uninstall(id, save, order)] == Turns(sets, removed, id)
      && multiset(sent)[Install(id, save, order)] == if Restored(sets, order, removed, id) then 1 else 0
    {
      ChangeCounts(sets, order, removed, id);
      assert Uninstall(id, save, order) !in sent && Install(id, save, order) !in sent;
    }
  }

  // The log is a longer one after a save, by just these requests.
  lemma SavedRequests(n: Net, sets: Sets, order: seq<SetId>, removed: seq<SetId>)
    ensures var t := Save(n, order, Changes(sets, order, removed));
      n.log <= t.log && SentFor(sets, order, removed, n.save + 1, t.log[|n.log|..])
  {
    SaveLogs(n, order, Changes(sets, order, removed));
    if Changes(sets, order, removed) == [] && |order| >= 2 {
      OrderSentFor(sets, order, removed, n.save + 1);
    } else {
      ChangesSentFor(sets, order, removed, n.save + 1);
    }
  }

  // ----- One removal more

  lemma RemovedMore(sets: Sets, removed: seq<SetId>, id: SetId)
    ensures
      var now := AfterRemoval(sets, removed);
      AfterRemoval(sets, removed + [id]) ==
        if IsCloud(id) then now - {CLOUD_RECENT, CLOUD_RECENT_ATTACHED, CUSTOM}
        else if id !in now then now
        else if Erased(now[id]) then now - {id}
        else now[id := Uninstalled(now[id])]
  {
    assert Clears(removed + [id]) <==> Clears(removed) || IsCloud(id) by {
      assert id in removed + [id];
      assert forall x :: x in removed ==> x in removed + [id];
    }
    assert forall x :: x in removed + [id] <==> x in removed || x == id;
  }

  lemma ForgottenMore(sets: Sets, removed: seq<SetId>, id: SetId, d: DocId)
    ensures
      var now := AfterRemoval(sets, removed);
      Forgotten(sets, removed + [id], d) <==>
        Forgotten(sets, removed, d) || IsCloud(id) || (id in now && d in now[id].stickers)
  {
    assert id in removed + [id];
    assert forall x :: x in removed + [id] <==> x in removed || x == id;
  }

  function Without(recent: seq<DocId>, docs: set<DocId>): seq<DocId> {
    if recent == [] then []
    else
      var d := recent[|recent| - 1];
      Without(recent[..|recent| - 1], docs) + (if d in docs then [] else [d])
  }

  lemma {:induction false} KeptMore(recent: seq<DocId>, sets: Sets, removed: seq<SetId>, id: SetId)
    ensures
      var now := AfterRemoval(sets, removed);
      Kept(recent, sets, removed + [id]) ==
        if IsCloud(id) then []
        else Without(Kept(recent, sets, removed), if id in now then now[id].stickers else {})
  {
    if recent != [] {
      var d, rest := recent[|recent| - 1], recent[..|recent| - 1];
      KeptMore(rest, sets, removed, id);
      ForgottenMore(sets, removed, id, d);
      var now := AfterRemoval(sets, removed);
      var docs := if id in now then now[id].stickers else {};
      var kept := Kept(rest, sets, removed);
      assert (kept + [d])[..|kept|] == kept && (kept + [d])[|kept|] == d;
      assert Without(kept + [d], docs) == Without(kept, docs) + (if d in docs then [] else [d]);
      assert Kept(recent, sets, removed + [id]) ==
        Kept(rest, sets, removed + [id]) + (if Forgotten(sets, removed + [id], d) then [] else [d]);
      if Forgotten(sets, removed, d) {
        assert Kept(recent, sets, removed) == kept;
      } else {
        assert Kept(recent, sets, removed) == kept + [d];
      }
    }
  }

  lemma {:induction false} KeptAll(recent: seq<DocId>, sets: Sets)
    ensures Kept(recent, sets, []) == recent
  {
    if recent != [] {
      KeptAll(recent[..|recent| - 1], sets);
    }
  }

  lemma {:induction false} WithoutNone(recent: seq<DocId>)
    ensures Without(recent, {}) == recent
  {
    if recent != [] {
      WithoutNone(recent[..|recent| - 1]);
    }
  }

  // ----- The sticker data, updated in place

  class Stickers {
    var sets: Sets
    var order: seq<SetId>
    var recent: seq<DocId>
    var net: Net

    // Erases the stickers of a removed set from the recent ones.
    method DropRecent(stickers: set<DocId>)
      modifies this`recent
      ensures recent == Without(old(recent), stickers)
    {
      var i := 0;
      ghost var done := [];
      while i < |recent|
        invariant i <= |recent| && |done| <= |old(recent)| && recent[i..] == old(recent)[|done|..]
        invariant done == old(recent)[..|done|] && recent[..i] == Without(done, stickers)
        decreases |recent| - i
      {
        assert (done + [recent[i]])[..|done|] == done;
        done := done + [recent[i]];
        if recent[i] in stickers {
          recent := recent[..i] + recent[i + 1..];
        } else {
          i := i + 1;
        }
      }
      assert recent[..i] == recent && done == old(recent);
    }

    // `stickerSetDisenabled`: the answer to an install or uninstall request.
    method SetDisenabled(requestId: ReqId)
      requires requestId in net.live && !net.live[requestId].Reorder?
      modifies this`net
      ensures net == Reply(old(net), requestId)
    {
      var r := net.live[requestId];
      net := net.(live := net.live - {requestId}, disenable := net.disenable - {requestId});
      if net.disenable == {} && |r.order| >= 2 {
        net := Send(net, Reorder(r.save, r.order));
        net := net.(reorder := net.last);
      }
    }

    // The answer to a reorder request.
    method Reordered(requestId: ReqId)
      requires requestId in net.live && net.live[requestId].Reorder?
      modifies this`net
      ensures net == Reply(old(net), requestId)
    {
      net := net.(live := net.live - {requestId}, reorder := 0);
    }

    // One round of the loop over the removed sets.
    method RemoveSet(id: SetId, ghost sets0: Sets, ghost recent0: seq<DocId>, ghost net0: Net, ghost done: seq<SetId>)
      requires sets == AfterRemoval(sets0, done) && recent == Kept(recent0, sets0, done)
      requires net == SendChanges(net0, Removals(sets0, done))
      modifies this
      ensures sets == AfterRemoval(sets0, done + [id]) && recent == Kept(recent0, sets0, done + [id])
      ensures net == SendChanges(net0, Removals(sets0, done + [id]))
    {
      RemovedMore(sets0, done, id);
      KeptMore(recent0, sets0, done, id);
      RemovalsMore(sets0, done, id);
      if IsCloud(id) {
        sets := sets - {CLOUD_RECENT} - {CLOUD_RECENT_ATTACHED} - {CUSTOM};
        recent := [];
      } else if id in sets {
        var s := sets[id];
        DropRecent(s.stickers);
        if !s.archived {
          SendMore(net0, Removals(sets0, done), Removes(id));
          net := SendChange(net, Removes(id));
          order := RemoveFirst(order, id);
          if !s.featured && !s.special && !s.emoji && s.locked == 0 {
            sets := sets - {id};
          } else {
            sets := sets[id := s.(installed := false, archived := false, installDate := 0)];
            assert sets == AfterRemoval(sets0, done + [id]);
          }
        } else {
          assert sets[id := s] == sets && Uninstalled(s) == s;
        }
      } else {
        WithoutNone(recent);
      }
    }

    // "Clear all installed flags", for the sets of this type that are not archived.
    method ClearInstalled(kind: StickersType, ghost removed: seq<SetId>, ghost now: nat)
      modifies this`sets
      ensures sets == Arranged(old(sets), [], removed, kind, now)
    {
      var todo := sets.Keys;
      while todo != {}
        invariant todo <= sets.Keys == old(sets).Keys
        invariant forall id :: id in sets ==>
          sets[id] == if id in todo then old(sets)[id] else Final(old(sets)[id], false, false, kind, 0)
        decreases todo
      {
        var id :| id in todo;
        if !sets[id].archived && TypeOf(sets[id]) == kind {
          sets := sets[id := sets[id].(installed := false)];
        }
        todo := todo - {id};
      }
    }

    // A set of the new order, if it is there: restored from the archive if need be.
    method Place(id: SetId, localRemoved: seq<SetId>, now: nat)
      modifies this`sets, this`order, this`net
      ensures id !in old(sets) ==> sets == old(sets) && order == old(order) && net == old(net)
      ensures id in old(sets) ==>
        var s := old(sets)[id];
        && sets == old(sets)[id := s.(installed := true, archived := s.archived && id in localRemoved,
             installDate := if s.installDate == 0 then now else s.installDate)]
        && order == old(order) + [id]
        && net == if s.archived && id !in localRemoved then SendChange(old(net), Restores(id)) else old(net)
    {
      if id in sets {
        var s := sets[id];
        if s.archived && id !in localRemoved {
          net := SendChange(net, Restores(id));
          s := s.(archived := false);
        }
        order := order + [id];
        s := s.(installed := true);
        if s.installDate == 0 {
          s := s.(installDate := now);
        }
        sets := sets[id := s];
      }
    }

    // The sets of the new order, one after the other.
    method Arrange(localOrder: seq<SetId>, localRemoved: seq<SetId>, kind: StickersType, now: nat, ghost left: Sets)
      requires sets == Arranged(left, [], localRemoved, kind, now)
      modifies this`sets, this`order, this`net
      ensures sets == Arranged(left, localOrder, localRemoved, kind, now)
      ensures order == Present(localOrder, left)
      ensures net == SendChanges(old(net), Restorals(left, localOrder, localRemoved))
    {
      order := [];
      for i := 0 to |localOrder|
        invariant sets == Arranged(left, localOrder[..i], localRemoved, kind, now)
        invariant order == Present(localOrder[..i], left)
        invariant net == SendChanges(old(net), Restorals(left, localOrder[..i], localRemoved))
      {
        var id := localOrder[i];
        ghost var done := localOrder[..i];
        assert localOrder[..i + 1] == done + [id];
        ArrangedMore(left, done, localRemoved, kind, now, id);
        RestoralsMore(left, done, localRemoved, id);
        PresentMore(done, left, id);
        SendMore(old(net), Restorals(left, done, localRemoved), Restores(id));
        Place(id, localRemoved, now);
      }
      assert localOrder[..|localOrder|] == localOrder;
    }

    // The sets that nothing keeps any more go.
    method Sweep()
      modifies this`sets
      ensures sets == Swept(old(sets))
    {
      var todo := sets.Keys;
      while todo != {}
        invariant todo <= sets.Keys <= old(sets).Keys
        invariant forall id :: id in old(sets) ==> (id in sets <==> id in todo || Keeps(old(sets)[id]))
        invariant forall id :: id in sets ==> sets[id] == old(sets)[id]
        decreases todo
      {
        var id :| id in todo;
        if !Keeps(sets[id]) {
          sets := sets - {id};
        }
        todo := todo - {id};
      }
    }

    method RemoveSets(localRemoved: seq<SetId>)
      modifies this
      ensures sets == AfterRemoval(old(sets), localRemoved)
      ensures recent == Kept(old(recent), old(sets), localRemoved)
      ensures net == SendChanges(old(net), Removals(old(sets), localRemoved))
    {
      KeptAll(recent, sets);
      assert AfterRemoval(sets, []) == sets;
      for i := 0 to |localRemoved|
        invariant sets == AfterRemoval(old(sets), localRemoved[..i])
        invariant recent == Kept(old(recent), old(sets), localRemoved[..i])
        invariant net == SendChanges(old(net), Removals(old(sets), localRemoved[..i]))
      {
        RemoveSet(localRemoved[i], old(sets), old(recent), old(net), localRemoved[..i]);
        assert localRemoved[..i + 1] == localRemoved[..i] + [localRemoved[i]];
      }
      assert localRemoved[..|localRemoved|] == localRemoved;
    }

    method Rearrange(localOrder: seq<SetId>, localRemoved: seq<SetId>, kind: StickersType, now: nat)
      modifies this`sets, this`order, this`net
      ensures sets == Swept(Arranged(old(sets), localOrder, localRemoved, kind, now))
      ensures order == Present(localOrder, old(sets))
      ensures net == SendChanges(old(net), Restorals(old(sets), localOrder, localRemoved))
    {
      ClearInstalled(kind, localRemoved, now);
      Arrange(localOrder, localRemoved, kind, now, old(sets));
      Sweep();
    }

    method SaveStickerSets(localOrder: seq<SetId>, localRemoved: seq<SetId>, kind: StickersType, now: nat)
      modifies this
      ensures sets == Saved(old(sets), localOrder, localRemoved, kind, now)
      ensures order == Present(localOrder, AfterRemoval(old(sets), localRemoved))
      ensures recent == Kept(old(recent), old(sets), localRemoved)
      ensures net == Save(old(net), localOrder, Changes(old(sets), localOrder, localRemoved))
      ensures old(net).log <= net.log
      ensures SentFor(old(sets), localOrder, localRemoved, old(net).save + 1, net.log[|old(net).log|..])
    {
      SavedRequests(net, sets, localOrder, localRemoved);
      net := StartSave(net, localOrder);
      RemoveSets(localRemoved);
      SendAll(StartSave(old(net), localOrder), Removals(old(sets), localRemoved), Restorals(sets, localOrder, localRemoved));
      Rearrange(localOrder, localRemoved, kind, now);
      net := FinishSave(net);
    }
  }

  lemma RemovalsMore(sets: Sets, removed: seq<SetId>, id: SetId)
    ensures
      var now := AfterRemoval(sets, removed);
      Removals(sets, removed + [id]) ==
        if !IsCloud(id) && id in now && !now[id].archived then Removals(sets, removed) + [Removes(id)]
        else Removals(sets, removed)
  {
    assert (removed + [id])[..|removed|] == removed;
  }

  lemma RestoralsMore(left: Sets, order: seq<SetId>, removed: seq<SetId>, id: SetId)
    ensures Restorals(left, order + [id], removed) ==
      if id in left && left[id].archived && id !in removed && id !in order
      then Restorals(left, order, removed) + [Restores(id)] else Restorals(left, order, removed)
  {
    assert (order + [id])[..|order|] == order;
  }

  lemma PresentMore(order: seq<SetId>, left: Sets, id: SetId)
    ensures Present(order + [id], left) == if id in left then Present(order, left) + [id] else Present(order, left)
  {
    assert (order + [id])[..|order|] == order;
  }

  lemma ArrangedMore(left: Sets, order: seq<SetId>, removed: seq<SetId>, kind: StickersType, now: nat, id: SetId)
    ensures
      var sets := Arranged(left, order, removed, kind, now);
      Arranged(left, order + [id], removed, kind, now) ==
        if id !in left then sets
        else sets[id := sets[id].(installed := true, archived := sets[id].archived && id in removed,
               installDate := if sets[id].installDate == 0 then now else sets[id].installDate)]
    ensures id in left ==>
      var s := Arranged(left, order, removed, kind, now)[id];
      s.archived && id !in removed <==> left[id].archived && id !in removed && id !in order
  {
    assert forall x :: x in order + [id] <==> x in order || x == id;
    if id in left {
      FinalAgain(left[id], id in order, id in removed, kind, now);
    }
  }

  // Putting a set in order after what was done to it before.
  lemma FinalAgain(s: StickersSet, ordered: bool, removed: bool, kind: StickersType, now: nat)
    ensures var t := Final(s, ordered, removed, kind, now);
      && Final(s, true, removed, kind, now) == t.(installed := true, archived := t.archived && removed,
        installDate := if t.installDate == 0 then now else t.installDate)
      && (t.archived && !removed <==> s.archived && !removed && !ordered)
  {}

  lemma SendMore(n: Net, changes: seq<Change>, c: Change)
    ensures SendChanges(n, changes + [c]) == SendChange(SendChanges(n, changes), c)
  {
    assert (changes + [c])[..|changes|] == changes;
  }

  lemma {:induction false} SendAll(n: Net, a: seq<Change>, b: seq<Change>)
    ensures SendChanges(n, a + b) == SendChanges(SendChanges(n, a), b)
    decreases |b|
  {
    if b == [] {
      assert a + b == a;
    } else {
      SendAll(n, a, b[..|b| - 1]);
      assert (a + b)[..|a + b| - 1] == a + b[..|b| - 1];
    }
  }

  function RemoveFirst(order: seq<SetId>, id: SetId): seq<SetId> {
    if order == [] then []
    else if order[0] == id then order[1..]
    else [order[0]] + RemoveFirst(order[1..], id)
  }
}
