/** Loading the list of dialogs and the pinned dialogs of each folder (`apiwrap.cpp`). */
module DialogsLoad {

  // The main list is the source's null folder.
  type Folder = nat
  type ReqId = nat

  const MAIN: Folder := 0
  const ARCHIVE: Folder := 1
  const FIRST_LOAD := 20
  const PER_PAGE := 500

  datatype Offset = Offset(date: int, msgId: int, peer: nat)

  datatype Load = Load(
    offset: Offset, requestId: ReqId, listReceived: bool, pinnedRequestId: ReqId, pinnedReceived: bool)

  const FRESH := Load(Offset(0, 0, 0), 0, false, 0, false)

  datatype Request = List(folder: Folder, offset: Offset, limit: nat) | Pinned(folder: Folder)

  // `loads` holds `_dialogsLoadState` and `_foldersLoadState` together. `flight` and `last`
  // are the requests that may still call back and the last id given out; `done` is the
  // order in which folders were reported as loaded.
  datatype State = State(
    loads: map<Folder, Load>, till: int, mayBlock: bool, blocked: bool,
    flight: map<ReqId, Request>, last: ReqId, done: seq<Folder>)

  const INITIAL := State(map[MAIN := FRESH], 0, false, false, map[], 0, [])

  // ----- Where the next page starts

  datatype Dialog = Dialog(peer: nat, topMessage: int)
  datatype Message = Message(id: int, peer: nat, date: int)

  predicate Usable(d: Dialog) { d.peer != 0 && d.topMessage != 0 }

  // The date of the top message of a dialog, if that message came along.
  function DateOf(messages: seq<Message>, d: Dialog): int {
    if messages == [] then 0
    else
      var m := messages[|messages| - 1];
      if m.id == d.topMessage && m.peer == d.peer then m.date else DateOf(messages[..|messages| - 1], d)
  }

  function LastDate(dialogs: seq<Dialog>, messages: seq<Message>): int {
    if dialogs == [] then 0
    else
      var d := dialogs[|dialogs| - 1];
      if Usable(d) && DateOf(messages, d) != 0 then DateOf(messages, d)
      else LastDate(dialogs[..|dialogs| - 1], messages)
  }

  function LastUsable(dialogs: seq<Dialog>): Dialog {
    if dialogs == [] then Dialog(0, 0)
    else if Usable(dialogs[|dialogs| - 1]) then dialogs[|dialogs| - 1]
    else LastUsable(dialogs[..|dialogs| - 1])
  }

  function NextOffset(dialogs: seq<Dialog>, messages: seq<Message>): Offset {
    var d := LastUsable(dialogs);
    Offset(LastDate(dialogs, messages), d.topMessage, d.peer)
  }

  // There is a next page exactly if a usable dialog came with its dated top message.
  lemma {:induction false} NextPageExists(dialogs: seq<Dialog>, messages: seq<Message>)
    ensures NextOffset(dialogs, messages).date != 0 <==>
      exists d :: d in dialogs && Usable(d) && DateOf(messages, d) != 0
    ensures NextOffset(dialogs, messages).date != 0 ==> LastUsable(dialogs) in dialogs && Usable(LastUsable(dialogs))
  {
    if dialogs != [] {
      var n := |dialogs| - 1;
      NextPageExists(dialogs[..n], messages);
      assert dialogs == dialogs[..n] + [dialogs[n]];
      assert forall d :: d in dialogs <==> d in dialogs[..n] || d == dialogs[n];
    }
  }

  // A message is the top one of a dialog, as far as later ones do not come first.
  ghost predicate IsTop(d: Dialog, messages: seq<Message>, j: int) {
    && 0 <= j < |messages| && messages[j].id == d.topMessage && messages[j].peer == d.peer
    && forall k :: j < k < |messages| ==> messages[k].id != d.topMessage || messages[k].peer != d.peer
  }

  ghost predicate IsUsable(dialogs: seq<Dialog>, i: int) {
    0 <= i < |dialogs| && dialogs[i].peer != 0 && dialogs[i].topMessage != 0
  }

  // A usable dialog came with its top message, and that has a date.
  ghost predicate Dated(dialogs: seq<Dialog>, messages: seq<Message>, i: int, date: int) {
    IsUsable(dialogs, i) && date != 0 && exists j :: IsTop(dialogs[i], messages, j) && messages[j].date == date
  }

  ghost predicate LastDated(dialogs: seq<Dialog>, messages: seq<Message>, i: int, date: int) {
    Dated(dialogs, messages, i, date) && forall k, x :: i < k ==> !Dated(dialogs, messages, k, x)
  }

  ghost predicate IsLastUsable(dialogs: seq<Dialog>, i: int) {
    IsUsable(dialogs, i) && forall k :: i < k ==> !IsUsable(dialogs, k)
  }

  // Where the next page starts: at the date of the last dialog that has one, and at the
  // last usable dialog, wherever they stand.
  ghost predicate IsNext(dialogs: seq<Dialog>, messages: seq<Message>, o: Offset) {
    && (if o.date == 0 then forall i, date :: !Dated(dialogs, messages, i, date)
        else exists i :: LastDated(dialogs, messages, i, o.date))
    && (if o.peer == 0 then o.msgId == 0 && forall i :: !IsUsable(dialogs, i)
        else exists i :: IsLastUsable(dialogs, i) && dialogs[i] == Dialog(o.peer, o.msgId))
  }

  lemma {:induction false} DateOfExactly(messages: seq<Message>, d: Dialog)
    ensures (exists j :: IsTop(d, messages, j) && messages[j].date == DateOf(messages, d))
      || (DateOf(messages, d) == 0 && forall j :: !IsTop(d, messages, j))
  {
    if messages != [] {
      var n := |messages| - 1;
      var m := messages[n];
      if m.id == d.topMessage && m.peer == d.peer {
        assert IsTop(d, messages, n);
      } else {
        DateOfExactly(messages[..n], d);
        assert forall j :: IsTop(d, messages[..n], j) <==> IsTop(d, messages, j);
      }
    }
  }

  lemma DatedIs(dialogs: seq<Dialog>, messages: seq<Message>, i: int, date: int)
    requires 0 <= i < |dialogs|
    ensures Dated(dialogs, messages, i, date) <==>
      IsUsable(dialogs, i) && date != 0 && DateOf(messages, dialogs[i]) == date
  {
    DateOfExactly(messages, dialogs[i]);
    assert forall j, k :: IsTop(dialogs[i], messages, j) && IsTop(dialogs[i], messages, k) ==> j == k;
  }

  lemma {:induction false} LastDateExactly(dialogs: seq<Dialog>, messages: seq<Message>)
    ensures var date := LastDate(dialogs, messages);
      if date == 0 then forall i, x :: !Dated(dialogs, messages, i, x)
      else exists i :: LastDated(dialogs, messages, i, date)
  {
    if dialogs != [] {
      var n := |dialogs| - 1;
      var date := DateOf(messages, dialogs[n]);
      forall x ensures Dated(dialogs, messages, n, x) <==> IsUsable(dialogs, n) && x != 0 && x == date {
        DatedIs(dialogs, messages, n, x);
      }
      if Usable(dialogs[n]) && date != 0 {
        assert LastDated(dialogs, messages, n, date);
      } else {
        LastDateExactly(dialogs[..n], messages);
        assert forall i, x :: Dated(dialogs[..n], messages, i, x) <==> Dated(dialogs, messages, i, x);
        if i :| LastDated(dialogs[..n], messages, i, LastDate(dialogs[..n], messages)) {
          assert LastDated(dialogs, messages, i, LastDate(dialogs, messages));
        }
      }
    }
  }

  lemma {:induction false} LastUsableExactly(dialogs: seq<Dialog>)
    ensures var d := LastUsable(dialogs);
      if d.peer == 0 then d == Dialog(0, 0) && forall i :: !IsUsable(dialogs, i)
      else exists i :: IsLastUsable(dialogs, i) && dialogs[i] == d
  {
    if dialogs != [] {
      var n := |dialogs| - 1;
      if Usable(dialogs[n]) {
        assert IsLastUsable(dialogs, n);
      } else {
        LastUsableExactly(dialogs[..n]);
        assert !IsUsable(dialogs, n);
        assert forall i :: IsUsable(dialogs[..n], i) <==> IsUsable(dialogs, i);
        if i :| IsLastUsable(dialogs[..n], i) && dialogs[i] == LastUsable(dialogs) {
          assert IsLastUsable(dialogs, i);
        }
      }
    }
  }

  lemma NextOffsetExactly(dialogs: seq<Dialog>, messages: seq<Message>)
    ensures IsNext(dialogs, messages, NextOffset(dialogs, messages))
  {
    LastDateExactly(dialogs, messages);
    LastUsableExactly(dialogs);
  }

  // ----- The operations

  function Send(s: State, r: Request): State { s.(flight := s.flight[s.last + 1 := r], last := s.last + 1) }

  function Finish(s: State, f: Folder): State {
    if f in s.loads && s.loads[f].listReceived && s.loads[f].pinnedReceived then
      s.(loads := s.loads - {f}, done := s.done + [f])
    else s
  }

  function Refresh(s: State): State {
    var may := MAIN in s.loads && !s.loads[MAIN].listReceived && s.till > 0;
    s.(mayBlock := may,
       blocked := may && s.loads[MAIN].requestId == 0 && 0 < s.loads[MAIN].offset.date <= s.till)
  }

  function SetTill(s: State, till: int): State { Refresh(s.(till := till)) }

  function Later(s: State, slice: int, now: int): int
    requires MAIN in s.loads
  {
    (if s.loads[MAIN].offset.date != 0 then s.loads[MAIN].offset.date else now) - slice
  }

  function AskPinned(s: State, f: Folder): State {
    if f !in s.loads || s.loads[f].pinnedReceived || s.loads[f].pinnedRequestId != 0 then s
    else Send(s, Pinned(f)).(loads := s.loads[f := s.loads[f].(pinnedRequestId := s.last + 1)])
  }

  function AskList(s: State, f: Folder): State
    requires f in s.loads
  {
    var l := s.loads[f];
    Send(s, List(f, l.offset, if l.offset.date == 0 then FIRST_LOAD else PER_PAGE)).(
      loads := s.loads[f := l.(requestId := s.last + 1)])
  }

  function More(s: State, f: Folder): State {
    if f !in s.loads || s.loads[f].requestId != 0 || s.blocked then s
    else
      var t := AskPinned(AskList(s, f), f);
      if f == MAIN then Refresh(t) else t
  }

  function Open(s: State, f: Folder): State {
    if f != MAIN && f !in s.loads then s.(loads := s.loads[f := FRESH]) else s
  }

  function Ask(s: State, f: Folder): State { More(Open(s, f), f) }

  // `exceptions` and `archive` are what the chat filters ask for first and next.
  function IfNeeded(s: State, exceptions: bool, archive: bool): State {
    if exceptions then s
    else if MAIN in s.loads && !s.loads[MAIN].listReceived then
      if s.loads[MAIN].requestId != 0 then s else Ask(s, MAIN)
    else if archive then More(s, ARCHIVE)
    else s
  }

  function EndList(s: State, f: Folder): State {
    if f in s.loads then Finish(s.(loads := s.loads[f := s.loads[f].(listReceived := true)]), f) else s
  }

  function NextPage(s: State, f: Folder, offset: Offset): State {
    if offset.date == 0 then EndList(s, f)
    else if f in s.loads then s.(loads := s.loads[f := s.loads[f].(offset := offset, requestId := 0)])
    else s
  }

  function EndPinned(s: State, f: Folder): State {
    if f in s.loads then
      Finish(s.(loads := s.loads[f := s.loads[f].(pinnedRequestId := 0, pinnedReceived := true)]), f)
    else s
  }

  function AfterList(s: State, f: Folder, exceptions: bool, archive: bool): State {
    var refreshes := f == MAIN && (MAIN !in s.loads || !s.loads[MAIN].listReceived);
    IfNeeded(if refreshes then Refresh(s) else s, exceptions, archive)
  }

  datatype Answer = Everything | Slice(dialogs: seq<Dialog>, messages: seq<Message>) | NotModified

  function Listed(s: State, f: Folder, answer: Answer): State {
    match answer
    case Everything => EndList(s, f)
    case Slice(dialogs, messages) => NextPage(s, f, NextOffset(dialogs, messages))
    case NotModified => s
  }

  function Failed(s: State, f: Folder): State {
    if f in s.loads then s.(loads := s.loads[f := s.loads[f].(requestId := 0)]) else s
  }

  datatype Event =
    | Requested(folder: Folder)
    | PinnedRequested(folder: Folder)
    | Needed(exceptions: bool, archive: bool)
    | TillChanged(till: int)
    | Unblocked(slice: int, now: int)
    | ListDone(id: ReqId, answer: Answer, exceptions: bool, archive: bool)
    | ListFailed(id: ReqId)
    | PinnedDone(id: ReqId)

  function Step(s: State, e: Event): State {
    match e
    case Requested(f) => Ask(s, f)
    case PinnedRequested(f) => AskPinned(s, f)
    case Needed(exceptions, archive) => IfNeeded(s, exceptions, archive)
    case TillChanged(till) => SetTill(s, till)
    case Unblocked(slice, now) => if MAIN in s.loads then Ask(SetTill(s, Later(s, slice, now)), MAIN) else s
    case ListDone(id, answer, exceptions, archive) =>
      if id !in s.flight || !s.flight[id].List? then s
      else
        var f := s.flight[id].folder;
        AfterList(Listed(s.(flight := s.flight - {id}), f, answer), f, exceptions, archive)
    case ListFailed(id) =>
      if id !in s.flight || !s.flight[id].List? then s
      else Failed(s.(flight := s.flight - {id}), s.flight[id].folder)
    case PinnedDone(id) =>
      if id !in s.flight || !s.flight[id].Pinned? then s
      else EndPinned(s.(flight := s.flight - {id}), s.flight[id].folder)
  }

  function Run(events: seq<Event>): State
    decreases |events|
  {
    if events == [] then INITIAL
    else Step(Run(events[..|events| - 1]), events[|events| - 1])
  }

  // ----- What holds in every reachable state

  // A request in flight belongs to a load that waits for just that request, so the handler
  // of a failed one finds its load; loading is blocked only by an idle main load.
  ghost predicate Inv(s: State) {
    && (forall id :: id in s.flight ==> 0 < id <= s.last)
    && (forall id :: id in s.flight ==> Awaited(s, id, s.flight[id]))
    && (forall f :: f in s.loads ==> Sound(s, f))
    && Blocking(s)
  }

  ghost predicate Blocking(s: State) {
    s.blocked ==>
      && MAIN in s.loads && !s.loads[MAIN].listReceived && s.loads[MAIN].requestId == 0
      && 0 < s.loads[MAIN].offset.date <= s.till
  }

  ghost predicate Awaited(s: State, id: ReqId, r: Request) {
    r.folder in s.loads &&
    var l := s.loads[r.folder];
    match r
    case List(_, offset, limit) =>
      && l.requestId == id && !l.listReceived
      && offset == l.offset && limit == if offset.date == 0 then 20 else 500
    case Pinned(_) => l.pinnedRequestId == id && !l.pinnedReceived
  }

  ghost predicate Sound(s: State, f: Folder)
    requires f in s.loads
  {
    var l := s.loads[f];
    && l.requestId <= s.last && l.pinnedRequestId <= s.last
    && (l.requestId in s.flight ==> s.flight[l.requestId].List? && s.flight[l.requestId].folder == f)
    && (l.listReceived ==> l.requestId != 0)
    && (l.pinnedRequestId != 0 ==> l.pinnedRequestId in s.flight && s.flight[l.pinnedRequestId] == Pinned(f))
    && !(l.listReceived && l.pinnedReceived)
  }

  // How many cycles of loading a folder were opened, got their whole list, and got their
  // pinned dialogs.
  ghost function Opens(s: State, f: Folder): nat {
    multiset(s.done)[f] + (if f in s.loads then 1 else 0)
  }

  ghost function Lists(s: State, f: Folder): nat {
    multiset(s.done)[f] + (if f in s.loads && s.loads[f].listReceived then 1 else 0)
  }

  ghost function Pins(s: State, f: Folder): nat {
    multiset(s.done)[f] + (if f in s.loads && s.loads[f].pinnedReceived then 1 else 0)
  }

  // The load waits for a request that will never call back.
  ghost predicate Stuck(s: State, f: Folder) {
    f in s.loads && !s.loads[f].listReceived && s.loads[f].requestId != 0 && s.loads[f].requestId !in s.flight
  }

  ghost predicate Adds(s: State, t: State, f: Folder, opens: nat, lists: nat, pins: nat, spoils: bool) {
    && Opens(t, f) == Opens(s, f) + opens && Lists(t, f) == Lists(s, f) + lists && Pins(t, f) == Pins(s, f) + pins
    && (Stuck(t, f) <==> Stuck(s, f) || spoils)
  }

  function If(b: bool): nat { if b then 1 else 0 }

  // Everything but that a finished load is removed.
  ghost predicate Unfinished(s: State, f: Folder) {
    && (forall id :: id in s.flight ==> 0 < id <= s.last)
    && (forall id :: id in s.flight ==> Awaited(s, id, s.flight[id]))
    && (forall g :: g in s.loads && g != f ==> Sound(s, g))
    && Blocking(s)
    && f in s.loads && (if s.loads[f].listReceived && s.loads[f].pinnedReceived then Forsaken(s, f) else Sound(s, f))
  }

  ghost predicate Forsaken(s: State, f: Folder) { forall id :: id in s.flight ==> s.flight[id].folder != f }

  lemma FinishKeepsInv(s: State, f: Folder)
    requires Unfinished(s, f)
    ensures Inv(Finish(s, f))
  {}

  lemma FinishCounts(s: State, f: Folder, g: Folder)
    ensures Adds(s, Finish(s, f), g, 0, 0, 0, false)
  {}

  lemma AskPinnedKeepsInv(s: State, f: Folder)
    requires Inv(s)
    ensures Inv(AskPinned(s, f))
  {}

  lemma AskPinnedCounts(s: State, f: Folder, g: Folder)
    requires Inv(s)
    ensures Adds(s, AskPinned(s, f), g, 0, 0, 0, false)
  {}

  lemma RefreshKeepsInv(s: State, g: Folder)
    requires Inv(s)
    ensures Inv(Refresh(s)) && Adds(s, Refresh(s), g, 0, 0, 0, false)
  {}

  lemma AskListKeepsInv(s: State, f: Folder, g: Folder)
    requires Inv(s) && f in s.loads && s.loads[f].requestId == 0 && !s.blocked
    ensures Inv(AskList(s, f)) && Adds(s, AskList(s, f), g, 0, 0, 0, false)
  {}

  lemma MoreKeepsInv(s: State, f: Folder, g: Folder)
    requires Inv(s)
    ensures Inv(More(s, f)) && Adds(s, More(s, f), g, 0, 0, 0, false)
  {
    if f in s.loads && s.loads[f].requestId == 0 && !s.blocked {
      var t := AskList(s, f);
      AskListKeepsInv(s, f, g);
      AskPinnedKeepsInv(t, f);
      AskPinnedCounts(t, f, g);
      RefreshKeepsInv(AskPinned(t, f), g);
    }
  }

  lemma OpenKeepsInv(s: State, f: Folder)
    requires Inv(s)
    ensures Inv(Open(s, f))
  {}

  lemma OpenCounts(s: State, f: Folder, g: Folder)
    ensures Adds(s, Open(s, f), g, If(g == f != MAIN && f !in s.loads), 0, 0, false)
  {}

  lemma AskKeepsInv(s: State, f: Folder, g: Folder)
    requires Inv(s)
    ensures Inv(Ask(s, f)) && Adds(s, Ask(s, f), g, If(g == f != MAIN && f !in s.loads), 0, 0, false)
  {
    OpenKeepsInv(s, f);
    OpenCounts(s, f, g);
    MoreKeepsInv(Open(s, f), f, g);
  }

  lemma IfNeededKeepsInv(s: State, exceptions: bool, archive: bool, g: Folder)
    requires Inv(s)
    ensures Inv(IfNeeded(s, exceptions, archive)) && Adds(s, IfNeeded(s, exceptions, archive), g, 0, 0, 0, false)
  {
    if MAIN in s.loads && !s.loads[MAIN].listReceived {
      AskKeepsInv(s, MAIN, g);
    } else {
      MoreKeepsInv(s, ARCHIVE, g);
    }
  }

  // The whole list of this folder has come.
  ghost predicate EndsList(s: State, e: Event, f: Folder) {
    && e.ListDone? && e.id in s.flight && s.flight[e.id].List? && s.flight[e.id].folder == f
    && Whole(e.answer)
  }

  predicate Whole(answer: Answer) {
    answer.Everything? || (answer.Slice? && NextOffset(answer.dialogs, answer.messages).date == 0)
  }

  ghost predicate EndsPinned(s: State, e: Event, f: Folder) {
    e.PinnedDone? && e.id in s.flight && s.flight[e.id] == Pinned(f)
  }

  ghost predicate Opened(s: State, e: Event, f: Folder) {
    e.Requested? && e.folder == f != MAIN && f !in s.loads
  }

  ghost predicate Spoils(s: State, e: Event, f: Folder) {
    && e.ListDone? && e.id in s.flight && s.flight[e.id].List? && s.flight[e.id].folder == f
    && e.answer.NotModified?
  }

  lemma EndListKeepsInv(s: State, id: ReqId, f: Folder)
    requires Inv(s) && id in s.flight && s.flight[id].List? && s.flight[id].folder == f
    ensures Inv(EndList(s.(flight := s.flight - {id}), f))
  {
    var t := s.(flight := s.flight - {id}, loads := s.loads[f := s.loads[f].(listReceived := true)]);
    assert Unfinished(t, f);
    FinishKeepsInv(t, f);
  }

  lemma EndListCounts(s: State, id: ReqId, f: Folder, g: Folder)
    requires Inv(s) && id in s.flight && s.flight[id].List? && s.flight[id].folder == f
    ensures Adds(s, EndList(s.(flight := s.flight - {id}), f), g, 0, If(g == f), 0, false)
  {
    var t := s.(flight := s.flight - {id}, loads := s.loads[f := s.loads[f].(listReceived := true)]);
    assert Awaited(s, id, s.flight[id]);
    FinishCounts(t, f, g);
  }

  lemma EndPinnedKeepsInv(s: State, id: ReqId, f: Folder)
    requires Inv(s) && id in s.flight && s.flight[id] == Pinned(f)
    ensures Inv(EndPinned(s.(flight := s.flight - {id}), f))
  {
    var t := s.(flight := s.flight - {id}, loads := s.loads[f := s.loads[f].(pinnedRequestId := 0, pinnedReceived := true)]);
    assert Unfinished(t, f);
    FinishKeepsInv(t, f);
  }

  lemma EndPinnedCounts(s: State, id: ReqId, f: Folder, g: Folder)
    requires Inv(s) && id in s.flight && s.flight[id] == Pinned(f)
    ensures Adds(s, EndPinned(s.(flight := s.flight - {id}), f), g, 0, 0, If(g == f), false)
  {
    var t := s.(flight := s.flight - {id}, loads := s.loads[f := s.loads[f].(pinnedRequestId := 0, pinnedReceived := true)]);
    assert Awaited(s, id, s.flight[id]);
    FinishCounts(t, f, g);
  }

  // The load gets the given offset and waits for no list.
  lemma IdleKeepsInv(s: State, id: ReqId, f: Folder, offset: Offset, g: Folder)
    requires Inv(s) && id in s.flight && s.flight[id].List? && s.flight[id].folder == f
    ensures var t := s.(flight := s.flight - {id}, loads := s.loads[f := s.loads[f].(offset := offset, requestId := 0)]);
      Inv(t) && Adds(s, t, g, 0, 0, 0, false)
  {
    assert Awaited(s, id, s.flight[id]);
  }

  lemma ListedKeepsInv(s: State, id: ReqId, f: Folder, answer: Answer, g: Folder)
    requires Inv(s) && id in s.flight && s.flight[id].List? && s.flight[id].folder == f
    ensures Inv(Listed(s.(flight := s.flight - {id}), f, answer))
    ensures Adds(s, Listed(s.(flight := s.flight - {id}), f, answer), g, 0, If(g == f && Whole(answer)), 0, g == f && answer.NotModified?)
  {
    if Whole(answer) {
      EndListKeepsInv(s, id, f);
      EndListCounts(s, id, f, g);
    } else if answer.Slice? {
      IdleKeepsInv(s, id, f, NextOffset(answer.dialogs, answer.messages), g);
    }
  }

  lemma AfterListKeepsInv(s: State, f: Folder, exceptions: bool, archive: bool, g: Folder)
    requires Inv(s)
    ensures Inv(AfterList(s, f, exceptions, archive)) && Adds(s, AfterList(s, f, exceptions, archive), g, 0, 0, 0, false)
  {
    var refreshes := f == MAIN && (MAIN !in s.loads || !s.loads[MAIN].listReceived);
    var t := if refreshes then Refresh(s) else s;
    RefreshKeepsInv(s, g);
    IfNeededKeepsInv(t, exceptions, archive, g);
  }

  lemma TillKeepsInv(s: State, till: int, g: Folder)
    requires Inv(s)
    ensures Inv(SetTill(s, till)) && Adds(s, SetTill(s, till), g, 0, 0, 0, false)
  {}

  lemma UnblockedKeepsInv(s: State, slice: int, now: int, g: Folder)
    requires Inv(s)
    ensures Inv(Step(s, Unblocked(slice, now))) && Adds(s, Step(s, Unblocked(slice, now)), g, 0, 0, 0, false)
  {
    if MAIN in s.loads {
      var t := SetTill(s, Later(s, slice, now));
      TillKeepsInv(s, Later(s, slice, now), g);
      AskKeepsInv(t, MAIN, g);
    }
  }

  lemma ListDoneKeepsInv(s: State, e: Event, g: Folder)
    requires Inv(s) && e.ListDone?
    ensures Inv(Step(s, e)) && Adds(s, Step(s, e), g, 0, If(EndsList(s, e, g)), 0, Spoils(s, e, g))
  {
    if e.id in s.flight && s.flight[e.id].List? {
      var f := s.flight[e.id].folder;
      var t := Listed(s.(flight := s.flight - {e.id}), f, e.answer);
      ListedKeepsInv(s, e.id, f, e.answer, g);
      AfterListKeepsInv(t, f, e.exceptions, e.archive, g);
    }
  }

  lemma StepKeepsInv(s: State, e: Event, g: Folder)
    requires Inv(s)
    ensures Inv(Step(s, e))
    ensures Adds(s, Step(s, e), g, If(Opened(s, e, g)), If(EndsList(s, e, g)), If(EndsPinned(s, e, g)), Spoils(s, e, g))
  {
    match e
    case Requested(f) => AskKeepsInv(s, f, g);
    case PinnedRequested(f) =>
      AskPinnedKeepsInv(s, f);
      AskPinnedCounts(s, f, g);
    case Needed(exceptions, archive) => IfNeededKeepsInv(s, exceptions, archive, g);
    case TillChanged(till) => TillKeepsInv(s, till, g);
    case Unblocked(slice, now) => UnblockedKeepsInv(s, slice, now, g);
    case ListDone(_, _, _, _) => ListDoneKeepsInv(s, e, g);
    case ListFailed(id) =>
      if id in s.flight && s.flight[id].List? {
        var f := s.flight[id].folder;
        IdleKeepsInv(s, id, f, s.loads[f].offset, g);
      }
    case PinnedDone(id) =>
      if id in s.flight && s.flight[id].Pinned? {
        EndPinnedKeepsInv(s, id, s.flight[id].folder);
        EndPinnedCounts(s, id, s.flight[id].folder, g);
      }
  }

  // ----- What is asked for

  // A request for the next page of the load, and one for its pinned dialogs if they were
  // not asked for before; no other load changes.
  ghost predicate AsksFor(s: State, t: State, f: Folder) {
    f in s.loads &&
    var l, n := s.loads[f], s.last;
    var page := List(f, l.offset, if l.offset.date == 0 then 20 else 500);
    var pins := !l.pinnedReceived && l.pinnedRequestId == 0;
    && t.flight == (if pins then s.flight[n + 1 := page][n + 2 := Pinned(f)] else s.flight[n + 1 := page])
    && t.last == n + (if pins then 2 else 1)
    && t.loads == s.loads[f := Load(
         l.offset, n + 1, l.listReceived, if pins then n + 2 else l.pinnedRequestId, l.pinnedReceived)]
    && t.till == s.till && t.done == s.done
  }

  ghost predicate Idle(s: State, f: Folder) { f in s.loads && s.loads[f].requestId == 0 && !s.blocked }

  lemma MoreExactly(s: State, f: Folder)
    ensures if Idle(s, f) then AsksFor(s, More(s, f), f) else More(s, f) == s
  {}

  // Asking for a folder opens its load at the start, if there is none; the main one is not
  // opened again.
  lemma RequestedExactly(s: State, f: Folder)
    ensures var t := Step(s, Requested(f));
      var u := if f in s.loads || f == MAIN then s else s.(loads := s.loads[f := Load(Offset(0, 0, 0), 0, false, 0, false)]);
      if Idle(u, f) then AsksFor(u, t, f) else t == u
  {
    MoreExactly(Open(s, f), f);
  }

  lemma PinnedRequestedExactly(s: State, f: Folder)
    ensures var t := Step(s, PinnedRequested(f));
      if f in s.loads && !s.loads[f].pinnedReceived && s.loads[f].pinnedRequestId == 0 then
        t == s.(flight := s.flight[s.last + 1 := Pinned(f)], last := s.last + 1,
          loads := s.loads[f := s.loads[f].(pinnedRequestId := s.last + 1)])
      else t == s
  {}

  // What the chat filters need next: the rest of the main list, and then the archive; an
  // answer to a list asks for that as well.
  lemma NeededExactly(s: State, exceptions: bool, archive: bool)
    ensures var t := Step(s, Needed(exceptions, archive));
      var main := MAIN in s.loads && !s.loads[MAIN].listReceived;
      if !exceptions && main && Idle(s, MAIN) then AsksFor(s, t, MAIN)
      else if !exceptions && !main && archive && Idle(s, ARCHIVE) then AsksFor(s, t, ARCHIVE)
      else t == s
  {
    MoreExactly(s, MAIN);
    MoreExactly(s, ARCHIVE);
  }

  // What an answer to a list makes of its load, before anything else is asked for.
  ghost predicate Answers(s: State, u: State, id: ReqId, answer: Answer) {
    id in s.flight && s.flight[id].List? && s.flight[id].folder in s.loads &&
    var f := s.flight[id].folder;
    var l, w := s.loads[f], s.(flight := s.flight - {id});
    match answer
    case NotModified => u == w
    case Everything => Ends(w, u, f)
    case Slice(dialogs, messages) =>
      if exists i, date :: Dated(dialogs, messages, i, date) then
        f in u.loads && u == w.(loads := s.loads[f := l.(requestId := 0, offset := u.loads[f].offset)])
      else Ends(w, u, f)
  }

  // The whole list is there; the load goes and is reported if the pinned dialogs are too.
  ghost predicate Ends(s: State, u: State, f: Folder)
    requires f in s.loads
  {
    if s.loads[f].pinnedReceived then u == s.(loads := s.loads - {f}, done := s.done + [f])
    else u == s.(loads := s.loads[f := s.loads[f].(listReceived := true)])
  }

  lemma ListedExactly(s: State, id: ReqId, answer: Answer)
    requires id in s.flight && s.flight[id].List? && s.flight[id].folder in s.loads
    ensures Answers(s, Listed(s.(flight := s.flight - {id}), s.flight[id].folder, answer), id, answer)
  {
    if answer.Slice? {
      NextOffsetExactly(answer.dialogs, answer.messages);
    }
  }

  // Then the flags are brought up to date, unless the main list is there but its load is
  // not done, and the chat filters go on.
  lemma ListDoneExactly(s: State, id: ReqId, answer: Answer, exceptions: bool, archive: bool)
    requires Inv(s) && id in s.flight && s.flight[id].List?
    ensures exists u ::
      && Answers(s, u, id, answer)
      && Step(s, ListDone(id, answer, exceptions, archive)) ==
        Step(if s.flight[id].folder == MAIN && (MAIN in u.loads ==> !u.loads[MAIN].listReceived) then SetTill(u, u.till) else u,
          Needed(exceptions, archive))
  {
    assert Awaited(s, id, s.flight[id]);
    ListedExactly(s, id, answer);
  }

  // A failed list may be asked for again; pinned dialogs count as received either way.
  lemma RestExactly(s: State, id: ReqId)
    requires Inv(s) && id in s.flight
    ensures var f, w := s.flight[id].folder, s.(flight := s.flight - {id});
      && f in s.loads
      && (s.flight[id].List? ==> Step(s, ListFailed(id)) == w.(loads := s.loads[f := s.loads[f].(requestId := 0)]))
      && (s.flight[id].Pinned? ==>
            Step(s, PinnedDone(id)) ==
              if s.loads[f].listReceived then w.(loads := s.loads - {f}, done := s.done + [f])
              else w.(loads := s.loads[f := s.loads[f].(pinnedRequestId := 0, pinnedReceived := true)]))
  {
    assert Awaited(s, id, s.flight[id]);
  }

  lemma TillExactly(s: State, till: int)
    ensures var t := Step(s, TillChanged(till));
      UpToDate(t) && t == s.(till := till, mayBlock := t.mayBlock, blocked := t.blocked)
  {}

  // ----- Where a load has got to

  // No load is new, and all go on from where they were.
  ghost predicate GoesOn(s: State, t: State) {
    t.loads.Keys <= s.loads.Keys && forall f :: f in t.loads ==> t.loads[f].offset == s.loads[f].offset
  }

  lemma MoreGoesOn(s: State, f: Folder)
    ensures GoesOn(s, More(s, f))
  {}

  lemma AfterListGoesOn(s: State, f: Folder, exceptions: bool, archive: bool)
    ensures GoesOn(s, AfterList(s, f, exceptions, archive))
  {
    var refreshes := f == MAIN && (MAIN !in s.loads || !s.loads[MAIN].listReceived);
    var t := if refreshes then Refresh(s) else s;
    MoreGoesOn(t, MAIN);
    MoreGoesOn(t, ARCHIVE);
  }

  // A slice with a dated dialog came for the folder.
  ghost predicate Continues(s: State, e: Event, f: Folder) {
    && e.ListDone? && e.id in s.flight && s.flight[e.id].List? && s.flight[e.id].folder == f && e.answer.Slice?
    && exists i, date :: Dated(e.answer.dialogs, e.answer.messages, i, date)
  }

  // A load begins at the start, and goes on after the last slice.
  ghost predicate Advances(s: State, e: Event, t: State, f: Folder) {
    f in t.loads ==>
      if f !in s.loads then t.loads[f].offset == Offset(0, 0, 0)
      else if Continues(s, e, f) then IsNext(e.answer.dialogs, e.answer.messages, t.loads[f].offset)
      else t.loads[f].offset == s.loads[f].offset
  }

  lemma ListedOffset(s: State, id: ReqId, g: Folder, answer: Answer, f: Folder)
    requires f in Listed(s.(flight := s.flight - {id}), g, answer).loads
    ensures f in s.loads
    ensures Listed(s.(flight := s.flight - {id}), g, answer).loads[f].offset ==
      if f == g && answer.Slice? && !Whole(answer) then NextOffset(answer.dialogs, answer.messages) else s.loads[f].offset
  {}

  lemma ListDoneAdvances(s: State, e: Event, f: Folder)
    requires Inv(s) && e.ListDone?
    ensures Advances(s, e, Step(s, e), f)
  {
    if e.id in s.flight && s.flight[e.id].List? && f in Step(s, e).loads {
      var g := s.flight[e.id].folder;
      AfterListGoesOn(Listed(s.(flight := s.flight - {e.id}), g, e.answer), g, e.exceptions, e.archive);
      ListedOffset(s, e.id, g, e.answer, f);
      if e.answer.Slice? {
        NextOffsetExactly(e.answer.dialogs, e.answer.messages);
      }
    }
  }

  lemma StepAdvances(s: State, e: Event, f: Folder)
    requires Inv(s)
    ensures Advances(s, e, Step(s, e), f)
  {
    match e
    case ListDone(_, _, _, _) => ListDoneAdvances(s, e, f);
    case Requested(g) => MoreGoesOn(Open(s, g), g);
    case Needed(_, _) =>
      MoreGoesOn(s, MAIN);
      MoreGoesOn(s, ARCHIVE);
    case Unblocked(slice, now) =>
      if MAIN in s.loads { MoreGoesOn(SetTill(s, Later(s, slice, now)), MAIN); }
    case _ =>
  }

  // In every run a request asks for the page its load has got to: a small one at the start
  // and a large one later.
  lemma AskedPage(events: seq<Event>, id: ReqId)
    requires id in Run(events).flight && Run(events).flight[id].List?
    ensures var s, r := Run(events), Run(events).flight[id];
      r.folder in s.loads && r.offset == s.loads[r.folder].offset && r.limit == if r.offset.date == 0 then 20 else 500
  {
    RunKeepsInv(events, MAIN);
    assert Awaited(Run(events), id, Run(events).flight[id]);
  }

  // And each event moves a load just as `Advances` says.
  lemma RunAdvances(events: seq<Event>, e: Event, f: Folder)
    ensures Advances(Run(events), e, Run(events + [e]), f)
  {
    assert (events + [e])[..|events|] == events;
    RunKeepsInv(events, f);
    StepAdvances(Run(events), e, f);
  }

  // ----- What holds a main list up by date

  ghost predicate MayBlock(s: State) { MAIN in s.loads && !s.loads[MAIN].listReceived && s.till > 0 }

  ghost predicate TooOld(s: State) { MayBlock(s) && s.loads[MAIN].offset.date > 0 && s.loads[MAIN].offset.date <= s.till }

  // Both flags say what they stand for.
  ghost predicate UpToDate(s: State) {
    && (s.mayBlock <==> MayBlock(s))
    && (s.blocked <==> TooOld(s) && s.loads[MAIN].requestId == 0)
  }

  // The request for a page that is too old fails.
  ghost predicate FailsOld(s: State, e: Event) {
    e.ListFailed? && e.id in s.flight && s.flight[e.id].List? && s.flight[e.id].folder == MAIN && TooOld(s)
  }

  // The whole list comes before the pinned dialogs.
  ghost predicate EndsEarly(s: State, e: Event) {
    EndsList(s, e, MAIN) && s.till > 0 && MAIN in s.loads && !s.loads[MAIN].pinnedReceived
  }

  lemma RefreshIsUpToDate(s: State)
    ensures UpToDate(Refresh(s)) && Refresh(s) == s.(mayBlock := Refresh(s).mayBlock, blocked := Refresh(s).blocked)
  {}

  lemma MoreStaysUpToDate(s: State, f: Folder)
    requires UpToDate(s)
    ensures UpToDate(More(s, f)) && More(s, f).till == s.till
  {}

  lemma IfNeededStaysUpToDate(s: State, exceptions: bool, archive: bool)
    ensures UpToDate(s) ==> UpToDate(IfNeeded(s, exceptions, archive))
    ensures MAIN in s.loads && s.loads[MAIN].listReceived && !UpToDate(s) ==> !UpToDate(IfNeeded(s, exceptions, archive))
  {
    if UpToDate(s) {
      MoreStaysUpToDate(s, MAIN);
      MoreStaysUpToDate(s, ARCHIVE);
    }
  }

  lemma ListedElsewhere(s: State, id: ReqId, f: Folder, answer: Answer)
    requires UpToDate(s) && f != MAIN
    ensures UpToDate(Listed(s.(flight := s.flight - {id}), f, answer))
  {}

  // The whole main list has come, and the load stays for its pinned dialogs.
  lemma EndedEarly(s: State, id: ReqId)
    requires UpToDate(s) && MAIN in s.loads && !s.loads[MAIN].listReceived && !s.loads[MAIN].pinnedReceived
    ensures var t := EndList(s.(flight := s.flight - {id}), MAIN);
      MAIN in t.loads && t.loads[MAIN].listReceived && (UpToDate(t) <==> s.till <= 0)
  {}

  lemma MainListed(s: State, id: ReqId, answer: Answer)
    requires UpToDate(s) && MAIN in s.loads && !s.loads[MAIN].listReceived
    ensures var t := Listed(s.(flight := s.flight - {id}), MAIN, answer);
      MAIN in t.loads && t.loads[MAIN].listReceived <==> Whole(answer) && !s.loads[MAIN].pinnedReceived
  {}

  lemma ListDoneStaysUpToDate(s: State, e: Event)
    requires Inv(s) && UpToDate(s) && e.ListDone?
    ensures UpToDate(Step(s, e)) <==> !EndsEarly(s, e)
  {
    if e.id in s.flight && s.flight[e.id].List? {
      var f := s.flight[e.id].folder;
      var t := Listed(s.(flight := s.flight - {e.id}), f, e.answer);
      if f != MAIN {
        ListedElsewhere(s, e.id, f, e.answer);
        IfNeededStaysUpToDate(t, e.exceptions, e.archive);
      } else {
        assert Awaited(s, e.id, s.flight[e.id]);
        MainListed(s, e.id, e.answer);
        if Whole(e.answer) && !s.loads[MAIN].pinnedReceived {
          EndedEarly(s, e.id);
          IfNeededStaysUpToDate(t, e.exceptions, e.archive);
        } else {
          RefreshIsUpToDate(t);
          IfNeededStaysUpToDate(Refresh(t), e.exceptions, e.archive);
        }
      }
    }
  }

  // Events keep the flags right, but for those two.
  lemma StaysUpToDate(s: State, e: Event)
    requires Inv(s) && UpToDate(s)
    ensures UpToDate(Step(s, e)) <==> !FailsOld(s, e) && !EndsEarly(s, e)
  {
    match e
    case Requested(f) => MoreStaysUpToDate(Open(s, f), f);
    case Needed(exceptions, archive) => IfNeededStaysUpToDate(s, exceptions, archive);
    case Unblocked(slice, now) =>
      if MAIN in s.loads {
        RefreshIsUpToDate(s.(till := Later(s, slice, now)));
        MoreStaysUpToDate(SetTill(s, Later(s, slice, now)), MAIN);
      }
    case ListDone(_, _, _, _) => ListDoneStaysUpToDate(s, e);
    case ListFailed(id) => if id in s.flight { assert Awaited(s, id, s.flight[id]); }
    case _ =>
  }

  // Asking for the main list sets them right.
  lemma AskingUpdates(s: State)
    requires Idle(s, MAIN)
    ensures UpToDate(Step(s, Requested(MAIN)))
  {
    RefreshIsUpToDate(AskPinned(AskList(s, MAIN), MAIN));
  }

  // Moving the limit back by some time before the load lets it go on.
  lemma UnblockedGoesOn(s: State, slice: int, now: int)
    requires Inv(s) && MAIN in s.loads && !s.loads[MAIN].listReceived && slice > 0
    ensures var t, date := Step(s, Unblocked(slice, now)), s.loads[MAIN].offset.date;
      && t.till == (if date == 0 then now else date) - slice && !t.blocked
      && MAIN in t.loads && t.loads[MAIN].requestId != 0
  {}

  // What happened to a folder in a run: cycles opened, whole lists and pinned dialogs
  // received, and answers that the list was not modified.
  datatype History = History(opens: nat, lists: nat, pins: nat, spoiled: bool)

  ghost function Past(events: seq<Event>, f: Folder): History
    decreases |events|
  {
    if events == [] then History(If(f == MAIN), 0, 0, false)
    else
      var n := |events| - 1;
      var p, s, e := Past(events[..n], f), Run(events[..n]), events[n];
      History(p.opens + If(Opened(s, e, f)), p.lists + If(EndsList(s, e, f)), p.pins + If(EndsPinned(s, e, f)),
              p.spoiled || Spoils(s, e, f))
  }

  lemma {:induction false} RunKeepsInv(events: seq<Event>, f: Folder)
    ensures var s, p := Run(events), Past(events, f);
      && Inv(s)
      && Opens(s, f) == p.opens && Lists(s, f) == p.lists && Pins(s, f) == p.pins
      && (Stuck(s, f) <==> p.spoiled)
    decreases |events|
  {
    if events != [] {
      RunKeepsInv(events[..|events| - 1], f);
      StepKeepsInv(Run(events[..|events| - 1]), events[|events| - 1], f);
    }
  }

  // Every cycle is reported once, when both its list and its pinned dialogs are in; at
  // most one cycle of a folder is open.
  lemma ReportedOnce(events: seq<Event>, f: Folder)
    ensures var p, done := Past(events, f), multiset(Run(events).done)[f];
      && done == (if p.lists < p.pins then p.lists else p.pins)
      && done <= p.opens <= done + 1 && p.lists <= p.opens && p.pins <= p.opens
      && (f in Run(events).loads <==> p.opens == done + 1)
  {
    RunKeepsInv(events, f);
  }

  ghost predicate ListInFlight(s: State, f: Folder) {
    exists id :: id in s.flight && s.flight[id].List? && s.flight[id].folder == f
  }

  // Asking again for a list that has not come gets it going, unless an answer was "not
  // modified" or the main load is blocked by date.
  lemma AskingWorks(events: seq<Event>, f: Folder)
    requires f in Run(events).loads && !Run(events).loads[f].listReceived
    ensures ListInFlight(Ask(Run(events), f), f) <==>
      !Past(events, f).spoiled && (Run(events).loads[f].requestId != 0 || !Run(events).blocked)
  {
    var s := Run(events);
    RunKeepsInv(events, f);
    AskKeepsInv(s, f, f);
    var t := Ask(s, f);
    if ListInFlight(t, f) {
      var id :| id in t.flight && t.flight[id].List? && t.flight[id].folder == f;
      assert Awaited(t, id, t.flight[id]);
    }
  }

  // After such an answer a folder is never reported again.
  lemma {:induction false} StuckForever(events: seq<Event>, more: seq<Event>, f: Folder)
    requires Past(events, f).spoiled
    ensures Stuck(Run(events + more), f)
    ensures multiset(Run(events + more).done)[f] == multiset(Run(events).done)[f]
    decreases |more|
  {
    RunKeepsInv(events, f);
    if more == [] {
      assert events + more == events;
    } else {
      var n := |more| - 1;
      StuckForever(events, more[..n], f);
      RunKeepsInv(events + more[..n], f);
      assert (events + more)[..|events + more| - 1] == events + more[..n];
      StepKeepsInv(Run(events + more[..n]), more[n], f);
    }
  }

  lemma RunMore(events: seq<Event>, e: Event, f: Folder)
    ensures Run(events + [e]) == Step(Run(events), e)
    ensures Past(events + [e], f).spoiled == (Past(events, f).spoiled || Spoils(Run(events), e, f))
  {
    assert (events + [e])[..|events|] == events;
  }

  // It happens to the main list when its first request is answered so.
  lemma MainIsStuck(more: seq<Event>)
    ensures var events := [Requested(MAIN), ListDone(1, NotModified, true, false)];
      Past(events, MAIN).spoiled && multiset(Run(events + more).done)[MAIN] == 0
  {
    var a, b := Requested(MAIN), ListDone(1, NotModified, true, false);
    assert [] + [a] == [a] && [a] + [b] == [a, b];
    RunMore([], a, MAIN);
    RunMore([a], b, MAIN);
    var list := List(MAIN, FRESH.offset, FIRST_LOAD);
    assert AskList(INITIAL, MAIN).flight == map[1 := list];
    assert Run([a]).flight == map[1 := list, 2 := Pinned(MAIN)] && Run([a]).loads == map[MAIN := Load(FRESH.offset, 1, false, 2, false)];
    StuckForever([a, b], more, MAIN);
  }

  // ----- `ApiWrap`, updated in place

  datatype Option<T> = None | Some(value: T)

  class ApiWrap {
    var dialogsLoadState: Option<Load>
    var foldersLoadState: map<Folder, Load>
    var dialogsLoadTill: int
    var mayBlockByDate: bool
    var blockedByDate: bool
    var flight: map<ReqId, Request>
    var last: ReqId
    var done: seq<Folder>

    ghost predicate Valid()
      reads this
    {
      MAIN !in foldersLoadState
    }

    function Loads(): map<Folder, Load>
      reads this
    {
      if dialogsLoadState.Some? then foldersLoadState[MAIN := dialogsLoadState.value] else foldersLoadState
    }

    function Value(): State
      reads this
    {
      State(Loads(), dialogsLoadTill, mayBlockByDate, blockedByDate, flight, last, done)
    }

    constructor ()
      ensures Valid() && Value() == INITIAL
    {
      dialogsLoadState, foldersLoadState := Some(FRESH), map[];
      dialogsLoadTill, mayBlockByDate, blockedByDate := 0, false, false;
      flight, last, done := map[], 0, [];
    }

    // `dialogsLoadState`
    function LoadState(folder: Folder): (r: Option<Load>)
      requires Valid()
      reads this
      ensures r == if folder in Loads() then Some(Loads()[folder]) else None
    {
      if folder == MAIN then dialogsLoadState
      else if folder in foldersLoadState then Some(foldersLoadState[folder])
      else None
    }

    // A write through the pointer that `dialogsLoadState` returns.
    method Put(folder: Folder, load: Load)
      requires Valid()
      modifies this`dialogsLoadState, this`foldersLoadState
      ensures Valid() && Loads() == old(Loads())[folder := load]
    {
      if folder == MAIN {
        dialogsLoadState := Some(load);
      } else {
        foldersLoadState := foldersLoadState[folder := load];
      }
    }

    method Request(r: Request) returns (id: ReqId)
      modifies this`flight, this`last
      ensures id == last == old(last) + 1 && flight == old(flight)[id := r]
    {
      last := last + 1;
      flight := flight[last := r];
      id := last;
    }

    method RequestDialogs(folder: Folder)
      requires Valid()
      modifies this
      ensures Valid() && Value() == Ask(old(Value()), folder)
    {
      if folder != MAIN && folder !in foldersLoadState {
        foldersLoadState := foldersLoadState[folder := FRESH];
        assert Loads() == old(Loads())[folder := FRESH];
      }
      RequestMoreDialogs(folder);
    }

    method RequestMoreDialogs(folder: Folder)
      requires Valid()
      modifies this
      ensures Valid() && Value() == More(old(Value()), folder)
      ensures if old(Idle(Value(), folder)) then AsksFor(old(Value()), Value(), folder) else Value() == old(Value())
    {
      MoreExactly(Value(), folder);
      var state := LoadState(folder);
      if state == None || state.value.requestId != 0 || blockedByDate {
        return;
      }
      var firstLoad := state.value.offset.date == 0;
      var id := Request(List(folder, state.value.offset, if firstLoad then FIRST_LOAD else PER_PAGE));
      Put(folder, state.value.(requestId := id));
      assert Value() == AskList(old(Value()), folder);
      if !state.value.pinnedReceived {
        RequestPinnedDialogs(folder);
      }
      if folder == MAIN {
        RefreshDialogsLoadBlocked();
      }
    }

    method RequestPinnedDialogs(folder: Folder)
      requires Valid()
      modifies this
      ensures Valid() && Value() == AskPinned(old(Value()), folder)
    {
      var state := LoadState(folder);
      if state == None || state.value.pinnedReceived || state.value.pinnedRequestId != 0 {
        return;
      }
      var id := Request(Pinned(folder));
      Put(folder, state.value.(pinnedRequestId := id));
    }

    method RefreshDialogsLoadBlocked()
      requires Valid()
      modifies this`mayBlockByDate, this`blockedByDate
      ensures Valid() && Value() == Refresh(old(Value()))
    {
      mayBlockByDate := dialogsLoadState.Some? && !dialogsLoadState.value.listReceived && dialogsLoadTill > 0;
      blockedByDate := dialogsLoadState.Some? && !dialogsLoadState.value.listReceived
        && dialogsLoadState.value.requestId == 0 && dialogsLoadTill > 0
        && dialogsLoadState.value.offset.date > 0 && dialogsLoadState.value.offset.date <= dialogsLoadTill;
    }

    method RequestMoreDialogsIfNeeded(exceptions: bool, archive: bool)
      requires Valid()
      modifies this
      ensures Valid() && Value() == IfNeeded(old(Value()), exceptions, archive)
    {
      if exceptions {
        return;
      } else if dialogsLoadState.Some? && !dialogsLoadState.value.listReceived {
        if dialogsLoadState.value.requestId != 0 {
          return;
        }
        RequestDialogs(MAIN);
      } else if archive {
        RequestMoreDialogs(ARCHIVE);
      }
    }

    method DialogsLoadFinish(folder: Folder)
      requires Valid()
      modifies this
      ensures Valid() && Value() == Finish(old(Value()), folder)
    {
      var state := LoadState(folder);
      if state == None || !state.value.listReceived || !state.value.pinnedReceived {
        return;
      }
      if folder != MAIN {
        foldersLoadState := foldersLoadState - {folder};
      } else {
        dialogsLoadState := None;
      }
      assert Loads() == old(Loads()) - {folder};
      done := done + [folder];
    }

    method UpdateDialogsOffset(folder: Folder, dialogs: seq<Dialog>, messages: seq<Message>)
      requires Valid()
      modifies this
      ensures Valid() && Value() == NextPage(old(Value()), folder, NextOffset(dialogs, messages))
    {
      var offset := FindOffset(dialogs, messages);
      var state := LoadState(folder);
      if state.Some? {
        if offset.date != 0 {
          Put(folder, state.value.(offset := offset, requestId := 0));
        } else {
          Put(folder, state.value.(listReceived := true));
          DialogsLoadFinish(folder);
        }
      }
    }

    // The loops of `updateDialogsOffset`, from the last dialog and the last message on.
    static method FindOffset(dialogs: seq<Dialog>, messages: seq<Message>) returns (offset: Offset)
      ensures offset == NextOffset(dialogs, messages)
    {
      offset := Offset(0, 0, 0);
      var i := |dialogs|;
      assert dialogs[..i] == dialogs && messages[..|messages|] == messages;
      while i > 0 && offset.date == 0
        invariant 0 <= i <= |dialogs|
        invariant offset.date == 0 ==> LastDate(dialogs, messages) == LastDate(dialogs[..i], messages)
        invariant offset.date != 0 ==> LastDate(dialogs, messages) == offset.date
        invariant (offset.peer != 0) == (offset.msgId != 0) && (offset.date != 0 ==> offset.peer != 0)
        invariant LastUsable(dialogs) ==
          if offset.peer != 0 then Dialog(offset.peer, offset.msgId) else LastUsable(dialogs[..i])
      {
        i := i - 1;
        var d := dialogs[i];
        assert dialogs[..i + 1][..i] == dialogs[..i];
        if d.peer != 0 && d.topMessage != 0 {
          if offset.peer == 0 {
            offset := offset.(peer := d.peer);
          }
          if offset.msgId == 0 {
            offset := offset.(msgId := d.topMessage);
          }
          var j := |messages|;
          while j > 0 && !(messages[j - 1].id == d.topMessage && messages[j - 1].peer == d.peer)
            invariant 0 <= j <= |messages| && DateOf(messages, d) == DateOf(messages[..j], d)
          {
            j := j - 1;
            assert messages[..j + 1][..j] == messages[..j];
          }
          if j > 0 {
            offset := offset.(date := messages[j - 1].date);
          }
        }
      }
    }

    // The answers to `requestMoreDialogs`.
    method ListDone(id: ReqId, answer: Answer, exceptions: bool, archive: bool)
      requires Valid() && id in flight && flight[id].List?
      modifies this
      ensures Valid() && Value() == Step(old(Value()), Event.ListDone(id, answer, exceptions, archive))
    {
      var folder := flight[id].folder;
      flight := flight - {id};
      ghost var start := Value();
      match answer {
        case NotModified =>
        case Everything =>
          var state := LoadState(folder);
          if state.Some? {
            Put(folder, state.value.(listReceived := true));
            DialogsLoadFinish(folder);
          }
        case Slice(dialogs, messages) =>
          UpdateDialogsOffset(folder, dialogs, messages);
      }
      assert Value() == Listed(start, folder, answer);
      if folder == MAIN && (dialogsLoadState == None || !dialogsLoadState.value.listReceived) {
        RefreshDialogsLoadBlocked();
      }
      RequestMoreDialogsIfNeeded(exceptions, archive);
    }

    // The load is there: the source takes it without a check.
    method ListFailed(id: ReqId)
      requires Valid() && Inv(Value()) && id in flight && flight[id].List?
      modifies this
      ensures Valid() && Value() == Step(old(Value()), Event.ListFailed(id))
    {
      var folder := flight[id].folder;
      assert Awaited(Value(), id, flight[id]);
      flight := flight - {id};
      Put(folder, LoadState(folder).value.(requestId := 0));
    }

    // The answer to `requestPinnedDialogs`, good or bad.
    method PinnedDone(id: ReqId)
      requires Valid() && id in flight && flight[id].Pinned?
      modifies this
      ensures Valid() && Value() == Step(old(Value()), Event.PinnedDone(id))
    {
      var folder := flight[id].folder;
      flight := flight - {id};
      var state := LoadState(folder);
      if state.Some? {
        Put(folder, state.value.(pinnedRequestId := 0, pinnedReceived := true));
        DialogsLoadFinish(folder);
      }
    }

    method SupportTimeSliceChanged(till: int)
      requires Valid()
      modifies this
      ensures Valid() && Value() == Step(old(Value()), TillChanged(till))
    {
      dialogsLoadTill := till;
      RefreshDialogsLoadBlocked();
    }

    method RequestMoreBlockedByDateDialogs(slice: int, now: int)
      requires Valid()
      modifies this
      ensures Valid() && Value() == Step(old(Value()), Unblocked(slice, now))
    {
      if dialogsLoadState == None {
        return;
      }
      var date := dialogsLoadState.value.offset.date;
      dialogsLoadTill := if date != 0 then date - slice else now - slice;
      RefreshDialogsLoadBlocked();
      RequestDialogs(MAIN);
    }
  }
}
