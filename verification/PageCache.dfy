/** The pages of an instant view, loaded and kept as DOMs (`Resources/iv_html/page.js`). */
module PageCache {

  type Page = nat
  type Content = nat
  // An element of the document, known by its identity.
  type DomId = nat

  datatype Option<T> = None | Some(value: T)

  datatype Entry = Entry(loading: bool, reloadPending: bool, content: Option<Content>, dom: Option<DomId>, contentUpdated: bool)

  const EMPTY := Entry(false, false, None, None, false)

  datatype Visit = Visit(position: int, page: Page)

  // `doms` tells what each element shows and `visible` which one is on screen; `history`
  // and `current` are the browser's, `loads` the requests that were not answered yet.
  datatype State = State(
    cache: map<Page, Entry>, index: Page, position: int, pending: Option<Page>,
    doms: map<DomId, Content>, nextDom: DomId, visible: DomId,
    history: seq<Visit>, current: nat, loads: multiset<Page>)

  // The first page comes without being loaded.
  function Start(first: Content): State {
    State(map[], 0, 0, None, map[0 := first], 1, 0, [Visit(0, 0)], 0, multiset{})
  }

  // ----- The operations

  function Put(s: State, i: Page, e: Entry): State { s.(cache := s.cache[i := e]) }

  function EntryOf(s: State, i: Page): Entry { if i in s.cache then s.cache[i] else EMPTY }

  function Load(s: State, i: Page): State {
    Put(s, i, EntryOf(s, i).(loading := true)).(loads := s.loads + multiset{i})
  }

  function Reload(s: State, i: Page): State {
    if i in s.cache && s.cache[i].loading then Put(s, i, s.cache[i].(reloadPending := true)) else Load(s, i)
  }

  function ApplyUpdated(s: State, i: Page): State {
    if i !in s.cache then s
    else if s.index != i then Put(s, i, s.cache[i].(contentUpdated := s.cache[i].dom.Some?))
    else if s.cache[i].content.Some? then s.(doms := s.doms[s.visible := s.cache[i].content.value])
    else s
  }

  // `window.history.replaceState` with the current state.
  function Replace(s: State): State {
    if s.current < |s.history| then s.(history := s.history[s.current := Visit(s.position, s.index)]) else s
  }

  function Show(s: State, i: Page): State {
    var t := s.(pending := None);
    if s.index == i || s.current >= |s.history| || EntryOf(s, i).dom.None? then t
    else
      var now := s.cache[i].dom.value;
      var u := Put(t, s.index, EntryOf(t, s.index).(dom := Some(s.visible))).(
        position := s.history[s.current].position, visible := now, index := i);
      if u.cache[i].contentUpdated then ApplyUpdated(Put(u, i, u.cache[i].(contentUpdated := false)), i) else u
  }

  function Push(s: State, i: Page): State {
    if s.current < |s.history| then
      s.(position := s.position + 1, history := s.history[..s.current + 1] + [Visit(s.position + 1, i)], current := s.current + 1)
    else s
  }

  function GoToDOM(s: State, i: Page): State {
    if s.index == i then Replace(s.(pending := None))
    else Replace(Show(Push(Replace(s.(pending := None)), i), i))
  }

  // A new element with the content of the page.
  function WithNewDom(s: State, i: Page): State
    requires EntryOf(s, i).content.Some?
  {
    var e := EntryOf(s, i);
    Put(s, i, e.(dom := Some(s.nextDom))).(doms := s.doms[s.nextDom := e.content.value], nextDom := s.nextDom + 1)
  }

  function GoToLoaded(s: State, i: Page): State {
    var e := EntryOf(s, i);
    if e.dom.Some? || e.content.None? then GoToDOM(s, i) else GoToDOM(WithNewDom(s, i), i)
  }

  function GoTo(s: State, i: Page): State {
    if i == 0 && s.index == 0 then GoToDOM(s, 0)
    else
      var t := s.(pending := Some(i));
      if i !in s.cache then Load(t, i)
      else if s.cache[i].dom.Some? then GoToDOM(t, i)
      else if s.cache[i].content.Some? then GoToLoaded(t, i)
      else t
  }

  function Arrive(s: State, i: Page, content: Content): State {
    ApplyUpdated(Put(s, i, EntryOf(s, i).(loading := false, content := Some(content))), i)
  }

  function GoOn(s: State, i: Page): State { if s.pending == Some(i) then GoToLoaded(s, i) else s }

  function LoadAgain(s: State, i: Page): State {
    if EntryOf(s, i).reloadPending then Reload(Put(s, i, EntryOf(s, i).(reloadPending := false)), i) else s
  }

  // The answer to `loadPage`.
  function Loaded(s: State, i: Page, content: Content): State {
    LoadAgain(GoOn(Arrive(s.(loads := s.loads - multiset{i}), i, content), i), i)
  }

  datatype Event =
    | Navigated(page: Page)
    | Reloaded(page: Page)
    | Answered(page: Page, content: Content)
    | NotAnswered(page: Page)
    | Popped(to: nat)

  function Step(s: State, e: Event): State {
    match e
    case Navigated(i) => GoTo(s, i)
    case Reloaded(i) => Reload(s, i)
    case Answered(i, content) => if i in s.loads then Loaded(s, i, content) else s
    case NotAnswered(i) => s.(loads := s.loads - multiset{i})
    case Popped(k) => if k < |s.history| then Show(s.(current := k), s.history[k].page) else s
  }

  function Run(first: Content, events: seq<Event>): State
    decreases |events|
  {
    if events == [] then Start(first) else Step(Run(first, events[..|events| - 1]), events[|events| - 1])
  }

  // ----- What holds in every reachable state

  // What a page should show: what was last loaded, or what it came with.
  function Latest(s: State, first: Content, i: Page): Option<Content> {
    if EntryOf(s, i).content.Some? then EntryOf(s, i).content else if i == 0 then Some(first) else None
  }

  // A cached DOM shows the latest content or is marked as outdated.
  ghost predicate DomGood(s: State, first: Content, i: Page) {
    var e := EntryOf(s, i);
    e.dom.Some? ==>
      && e.dom.value in s.doms && e.dom.value < s.nextDom && Latest(s, first, i).Some?
      && (i != s.index ==> e.dom.value != s.visible)
      && if i == s.index then e.dom.value == s.visible && !e.contentUpdated
         else (e.contentUpdated && e.content.Some?) || Some(s.doms[e.dom.value]) == Latest(s, first, i)
  }

  // At most one load of a page is on its way, and a page counts as loading just while one
  // is, or for ever if one was lost.
  ghost predicate LoadGood(s: State, lost: set<Page>, done: Option<Page>, i: Page) {
    var e := EntryOf(s, i);
    && s.loads[i] <= 1 && (s.loads[i] == 1 ==> e.loading && i !in lost) && (e.loading ==> s.loads[i] == 1 || i in lost)
    && (i in lost ==> e.loading) && (e.reloadPending ==> e.loading || done == Some(i)) && (e.contentUpdated ==> e.dom.Some? && e.content.Some?)
    && (i in s.cache ==> e.loading || e.content.Some? || e.dom.Some?)
  }

  ghost predicate Shown(s: State, first: Content) {
    && s.visible in s.doms && s.visible < s.nextDom && Latest(s, first, s.index) == Some(s.doms[s.visible])
    && (s.index != 0 ==> EntryOf(s, s.index).dom.Some?)
  }

  ghost predicate Separate(s: State) { forall i: Page, j: Page :: Apart(s, i, j) }

  ghost predicate Apart(s: State, i: Page, j: Page) {
    i != j && EntryOf(s, i).dom.Some? ==> EntryOf(s, i).dom != EntryOf(s, j).dom
  }

  // `done` is a page whose load was answered just now, and may be asked for again.
  ghost predicate Base(s: State, first: Content, lost: set<Page>, done: Option<Page>) {
    && Shown(s, first) && Separate(s)
    && (forall i: Page :: DomGood(s, first, i))
    && (forall i: Page :: LoadGood(s, lost, done, i))
    && s.current < |s.history| && CanShow(s, 0)
    && (forall k :: 0 <= k < |s.history| ==> CanShow(s, s.history[k].page))
  }

  ghost predicate Inv(s: State, first: Content, lost: set<Page>) {
    Base(s, first, lost, None) && (s.pending.Some? ==> Waits(s, s.pending.value))
  }

  ghost predicate CanShow(s: State, i: Page) { i == s.index || EntryOf(s, i).dom.Some? }

  // The page to go to is still being loaded for the first time.
  ghost predicate Waits(s: State, i: Page) {
    i != 0 && i != s.index && EntryOf(s, i).loading && EntryOf(s, i).dom.None? && EntryOf(s, i).content.None?
  }

  lemma LoadKeeps(s: State, first: Content, lost: set<Page>, done: Option<Page>, i: Page)
    requires Base(s, first, lost, done) && !EntryOf(s, i).loading
    ensures Base(Load(s, i), first, lost, done)
  {
    var t := Load(s, i);
    forall a: Page, b: Page ensures Apart(t, a, b) {
      assert Apart(s, a, b) && DomGood(s, first, a) && DomGood(s, first, b);
    }
    forall j: Page ensures DomGood(t, first, j) && LoadGood(t, lost, done, j) {
      assert DomGood(s, first, j) && LoadGood(s, lost, done, j);
    }
    forall k | 0 <= k < |t.history| ensures CanShow(t, t.history[k].page) {
      assert CanShow(s, s.history[k].page);
    }
  }

  lemma ReloadKeeps(s: State, first: Content, lost: set<Page>, done: Option<Page>, i: Page)
    requires Base(s, first, lost, done)
    ensures Base(Reload(s, i), first, lost, done)
  {
    if i in s.cache && s.cache[i].loading {
      var t := Reload(s, i);
      forall a: Page, b: Page ensures Apart(t, a, b) {
        assert Apart(s, a, b) && DomGood(s, first, a) && DomGood(s, first, b);
      }
      forall j: Page ensures DomGood(t, first, j) && LoadGood(t, lost, done, j) {
        assert DomGood(s, first, j) && LoadGood(s, lost, done, j);
      }
      forall k | 0 <= k < |t.history| ensures CanShow(t, t.history[k].page) {
        assert CanShow(s, s.history[k].page);
      }
    } else {
      LoadKeeps(s, first, lost, done, i);
    }
  }

  lemma ReplaceKeeps(s: State, first: Content, lost: set<Page>, done: Option<Page>)
    requires Base(s, first, lost, done)
    ensures Base(Replace(s), first, lost, done)
  {
    var t := Replace(s);
    forall a: Page, b: Page ensures Apart(t, a, b) {
      assert Apart(s, a, b) && DomGood(s, first, a) && DomGood(s, first, b);
    }
    forall j: Page ensures DomGood(t, first, j) && LoadGood(t, lost, done, j) {
      assert DomGood(s, first, j) && LoadGood(s, lost, done, j);
    }
    forall k | 0 <= k < |t.history| ensures CanShow(t, t.history[k].page) {
      assert CanShow(s, s.history[k].page);
    }
  }

  lemma PushKeeps(s: State, first: Content, lost: set<Page>, done: Option<Page>, i: Page)
    requires Base(s, first, lost, done) && CanShow(s, i)
    ensures Base(Push(s, i), first, lost, done)
  {
    var t := Push(s, i);
    forall a: Page, b: Page ensures Apart(t, a, b) {
      assert Apart(s, a, b) && DomGood(s, first, a) && DomGood(s, first, b);
    }
    forall j: Page ensures DomGood(t, first, j) && LoadGood(t, lost, done, j) {
      assert DomGood(s, first, j) && LoadGood(s, lost, done, j);
    }
    forall k | 0 <= k < |t.history| ensures CanShow(t, t.history[k].page) {
      assert k <= s.current ==> CanShow(s, s.history[k].page);
    }
  }

  // What becomes of the entries of the old page and of the new one.
  lemma ShowEntries(s: State, i: Page, j: Page)
    requires s.index != i && s.current < |s.history| && EntryOf(s, i).dom.Some?
    ensures var t, e := Show(s, i), EntryOf(s, i);
      && t.index == i && t.visible == e.dom.value && t.nextDom == s.nextDom
      && t.doms == (if e.contentUpdated && e.content.Some? then s.doms[t.visible := e.content.value] else s.doms)
      && EntryOf(t, j) == if j == i then e.(contentUpdated := false)
        else if j == s.index then EntryOf(s, j).(dom := Some(s.visible)) else EntryOf(s, j)
  {}

  lemma ShowDomGood(s: State, first: Content, lost: set<Page>, done: Option<Page>, i: Page, j: Page)
    requires Base(s, first, lost, done) && CanShow(s, i)
    ensures DomGood(Show(s, i), first, j)
  {
    assert DomGood(s, first, i) && DomGood(s, first, j) && Apart(s, i, j) && Apart(s, j, i);
    if s.index != i {
      ShowEntries(s, i, j);
    }
  }

  lemma ShowApart(s: State, first: Content, lost: set<Page>, done: Option<Page>, i: Page, a: Page, b: Page)
    requires Base(s, first, lost, done) && CanShow(s, i)
    ensures Apart(Show(s, i), a, b)
  {
    assert Apart(s, a, b) && DomGood(s, first, a) && DomGood(s, first, b);
  }

  lemma ShowLoadGood(s: State, first: Content, lost: set<Page>, done: Option<Page>, i: Page, j: Page)
    requires Base(s, first, lost, done) && CanShow(s, i)
    ensures LoadGood(Show(s, i), lost, done, j)
  {
    assert LoadGood(s, lost, done, j);
  }

  lemma ShowKeeps(s: State, first: Content, lost: set<Page>, done: Option<Page>, i: Page)
    requires Base(s, first, lost, done) && CanShow(s, i)
    ensures Base(Show(s, i), first, lost, done)
    ensures Show(s, i).index == i && Show(s, i).pending == None
  {
    var t := Show(s, i);
    assert DomGood(s, first, i);
    forall a: Page, b: Page ensures Apart(t, a, b) {
      ShowApart(s, first, lost, done, i, a, b);
    }
    forall j: Page ensures DomGood(t, first, j) && LoadGood(t, lost, done, j) {
      ShowDomGood(s, first, lost, done, i, j);
      ShowLoadGood(s, first, lost, done, i, j);
    }
    forall k | 0 <= k < |t.history| ensures CanShow(t, t.history[k].page) {
      assert CanShow(s, s.history[k].page);
    }
  }

  lemma NavigateToDOMKeeps(s: State, first: Content, lost: set<Page>, done: Option<Page>, i: Page)
    requires Base(s, first, lost, done) && CanShow(s, i)
    ensures Base(GoToDOM(s, i), first, lost, done)
    ensures GoToDOM(s, i).index == i && GoToDOM(s, i).pending == None
  {
    var t := s.(pending := None);
    UnpendedKeeps(s, first, lost, done, None);
    ReplaceKeeps(t, first, lost, done);
    if s.index != i {
      PushKeeps(Replace(t), first, lost, done, i);
      ShowKeeps(Push(Replace(t), i), first, lost, done, i);
      ReplaceKeeps(Show(Push(Replace(t), i), i), first, lost, done);
    }
  }

  lemma UnpendedKeeps(s: State, first: Content, lost: set<Page>, done: Option<Page>, pending: Option<Page>)
    requires Base(s, first, lost, done)
    ensures Base(s.(pending := pending), first, lost, done)
  {
    var t := s.(pending := pending);
    forall a: Page, b: Page ensures Apart(t, a, b) {
      assert Apart(s, a, b);
    }
    forall j: Page ensures DomGood(t, first, j) && LoadGood(t, lost, done, j) {
      assert DomGood(s, first, j) && LoadGood(s, lost, done, j);
    }
    forall k | 0 <= k < |t.history| ensures CanShow(t, t.history[k].page) {
      assert CanShow(s, s.history[k].page);
    }
  }

  // The content becomes a DOM of its own.
  lemma MakeKeeps(s: State, first: Content, lost: set<Page>, done: Option<Page>, i: Page)
    requires Base(s, first, lost, done) && i != s.index && EntryOf(s, i).dom.None? && EntryOf(s, i).content.Some?
    ensures Base(WithNewDom(s, i), first, lost, done) && CanShow(WithNewDom(s, i), i)
  {
    var t := WithNewDom(s, i);
    forall a: Page, b: Page ensures Apart(t, a, b) {
      assert Apart(s, a, b) && DomGood(s, first, a) && DomGood(s, first, b);
    }
    forall j: Page ensures DomGood(t, first, j) && LoadGood(t, lost, done, j) {
      assert DomGood(s, first, j) && LoadGood(s, lost, done, j);
    }
    forall k | 0 <= k < |t.history| ensures CanShow(t, t.history[k].page) {
      assert CanShow(s, s.history[k].page);
    }
  }

  lemma NavigateToLoadedKeeps(s: State, first: Content, lost: set<Page>, done: Option<Page>, i: Page)
    requires Base(s, first, lost, done) && i != s.index && (EntryOf(s, i).dom.Some? || EntryOf(s, i).content.Some?)
    ensures Base(GoToLoaded(s, i), first, lost, done)
    ensures GoToLoaded(s, i).index == i && GoToLoaded(s, i).pending == None
  {
    var e := EntryOf(s, i);
    if e.dom.Some? {
      NavigateToDOMKeeps(s, first, lost, done, i);
    } else {
      MakeKeeps(s, first, lost, done, i);
      NavigateToDOMKeeps(WithNewDom(s, i), first, lost, done, i);
    }
  }

  lemma NavigateKeepsInv(s: State, first: Content, lost: set<Page>, i: Page)
    requires Inv(s, first, lost)
    ensures Inv(GoTo(s, i), first, lost)
  {
    var t := s.(pending := Some(i));
    UnpendedKeeps(s, first, lost, None, Some(i));
    assert DomGood(s, first, i) && LoadGood(s, lost, None, i);
    if i == 0 && s.index == 0 {
      NavigateToDOMKeeps(s, first, lost, None, 0);
    } else if i !in s.cache {
      LoadKeeps(t, first, lost, None, i);
    } else if s.cache[i].dom.Some? {
      NavigateToDOMKeeps(t, first, lost, None, i);
    } else if s.cache[i].content.Some? {
      NavigateToLoadedKeeps(t, first, lost, None, i);
    }
  }

  // What was loaded is in, and on screen or marked.
  lemma ArriveGood(s: State, first: Content, lost: set<Page>, i: Page, content: Content, j: Page)
    requires Inv(s, first, lost) && i in s.loads
    ensures var t := Arrive(s.(loads := s.loads - multiset{i}), i, content);
      DomGood(t, first, j) && LoadGood(t, lost, Some(i), j)
  {
    assert DomGood(s, first, i) && LoadGood(s, lost, None, i);
    assert DomGood(s, first, j) && LoadGood(s, lost, None, j);
  }

  lemma ArriveDoms(s: State, i: Page, content: Content, a: Page)
    ensures EntryOf(Arrive(s.(loads := s.loads - multiset{i}), i, content), a).dom == EntryOf(s, a).dom
  {}

  lemma ArriveKeeps(s: State, first: Content, lost: set<Page>, i: Page, content: Content)
    requires Inv(s, first, lost) && i in s.loads
    ensures var t := Arrive(s.(loads := s.loads - multiset{i}), i, content);
      && Base(t, first, lost, Some(i)) && t.pending == s.pending && t.index == s.index
      && !EntryOf(t, i).loading && EntryOf(t, i).content == Some(content)
      && forall j: Page :: j != i ==> EntryOf(t, j) == EntryOf(s, j)
  {
    var t := Arrive(s.(loads := s.loads - multiset{i}), i, content);
    forall a: Page, b: Page ensures Apart(t, a, b) {
      ArriveDoms(s, i, content, a);
      ArriveDoms(s, i, content, b);
      assert Apart(s, a, b);
    }
    assert DomGood(s, first, i) && LoadGood(s, lost, None, i);
    forall j: Page ensures DomGood(t, first, j) && LoadGood(t, lost, Some(i), j) {
      ArriveGood(s, first, lost, i, content, j);
    }
    forall k | 0 <= k < |t.history| ensures CanShow(t, t.history[k].page) {
      assert CanShow(s, s.history[k].page);
    }
  }

  // Going on does not touch what is known of the load.
  lemma GoOnKeeps(s: State, first: Content, lost: set<Page>, i: Page)
    requires Base(s, first, lost, Some(i)) && !EntryOf(s, i).loading && EntryOf(s, i).content.Some?
    requires s.pending.Some? ==> (s.pending == Some(i) && i != s.index) || Waits(s, s.pending.value)
    ensures var t := GoOn(s, i);
      && Base(t, first, lost, Some(i)) && (t.pending.Some? ==> Waits(t, t.pending.value) && t.pending != Some(i))
      && !EntryOf(t, i).loading && EntryOf(t, i).content.Some? && t.loads == s.loads
      && EntryOf(t, i).reloadPending == EntryOf(s, i).reloadPending
  {
    if s.pending == Some(i) {
      NavigateToLoadedKeeps(s, first, lost, Some(i), i);
    }
  }

  lemma LoadAgainKeeps(s: State, first: Content, lost: set<Page>, i: Page)
    requires Base(s, first, lost, Some(i)) && !EntryOf(s, i).loading && EntryOf(s, i).content.Some?
    requires s.pending.Some? ==> Waits(s, s.pending.value) && s.pending != Some(i)
    ensures Inv(LoadAgain(s, i), first, lost)
  {
    var t := Put(s, i, EntryOf(s, i).(reloadPending := false));
    forall a: Page, b: Page ensures Apart(t, a, b) {
      assert Apart(s, a, b);
    }
    forall j: Page ensures DomGood(t, first, j) && LoadGood(t, lost, None, j) {
      assert DomGood(s, first, j) && LoadGood(s, lost, Some(i), j);
    }
    forall k | 0 <= k < |t.history| ensures CanShow(t, t.history[k].page) {
      assert CanShow(s, s.history[k].page);
    }
    if EntryOf(s, i).reloadPending {
      ReloadKeeps(t, first, lost, None, i);
    } else {
      forall j: Page ensures LoadGood(s, lost, None, j) {
        assert LoadGood(t, lost, None, j);
      }
    }
  }

  lemma LoadedKeepsInv(s: State, first: Content, lost: set<Page>, i: Page, content: Content)
    requires Inv(s, first, lost) && i in s.loads
    ensures Inv(Loaded(s, i, content), first, lost)
  {
    var t := Arrive(s.(loads := s.loads - multiset{i}), i, content);
    ArriveKeeps(s, first, lost, i, content);
    GoOnKeeps(t, first, lost, i);
    LoadAgainKeeps(GoOn(t, i), first, lost, i);
  }

  lemma LoseKeepsInv(s: State, first: Content, lost: set<Page>, i: Page)
    requires Inv(s, first, lost)
    ensures Inv(Step(s, NotAnswered(i)), first, lost + (if i in s.loads then {i} else {}))
  {
    var t, more := Step(s, NotAnswered(i)), lost + (if i in s.loads then {i} else {});
    forall a: Page, b: Page ensures Apart(t, a, b) {
      assert Apart(s, a, b);
    }
    forall j: Page ensures DomGood(t, first, j) && LoadGood(t, more, None, j) {
      assert DomGood(s, first, j) && LoadGood(s, lost, None, j);
    }
    forall k | 0 <= k < |t.history| ensures CanShow(t, t.history[k].page) {
      assert CanShow(s, s.history[k].page);
    }
  }

  lemma PopKeepsInv(s: State, first: Content, lost: set<Page>, k: nat)
    requires Inv(s, first, lost)
    ensures Inv(Step(s, Popped(k)), first, lost)
  {
    if k < |s.history| {
      var t := s.(current := k);
      assert CanShow(s, s.history[k].page);
      forall a: Page, b: Page ensures Apart(t, a, b) {
        assert Apart(s, a, b);
      }
      forall j: Page ensures DomGood(t, first, j) && LoadGood(t, lost, None, j) {
        assert DomGood(s, first, j) && LoadGood(s, lost, None, j);
      }
      forall m | 0 <= m < |t.history| ensures CanShow(t, t.history[m].page) {
        assert CanShow(s, s.history[m].page);
      }
      ShowKeeps(t, first, lost, None, s.history[k].page);
    }
  }

  lemma StepKeepsInv(s: State, first: Content, lost: set<Page>, e: Event)
    requires Inv(s, first, lost)
    ensures Inv(Step(s, e), first, lost + (if e.NotAnswered? && e.page in s.loads then {e.page} else {}))
  {
    assert lost + {} == lost;
    match e
    case Navigated(i) => NavigateKeepsInv(s, first, lost, i);
    case Reloaded(i) => ReloadKeeps(s, first, lost, None, i);
    case Answered(i, content) => if i in s.loads { LoadedKeepsInv(s, first, lost, i, content); }
    case NotAnswered(i) => LoseKeepsInv(s, first, lost, i);
    case Popped(k) => PopKeepsInv(s, first, lost, k);
  }

  // ----- What a user gets

  // A page that is there is on screen at once; another one is loaded and waited for.
  lemma NavigateExactly(s: State, first: Content, lost: set<Page>, i: Page)
    requires Inv(s, first, lost)
    ensures var t := Step(s, Navigated(i));
      if CanShow(s, i) || EntryOf(s, i).content.Some? then t.index == i && t.pending == None && t.loads == s.loads
      else (t.index == s.index && t.pending == Some(i) && Waits(t, i)
        && t.loads == s.loads + (if EntryOf(s, i).loading then multiset{} else multiset{i}))
  {
    assert DomGood(s, first, i) && LoadGood(s, lost, None, i);
    var u := s.(pending := Some(i));
    if i == 0 && s.index == 0 {
      ToDOMExactly(s, 0);
    } else if i in s.cache {
      if s.cache[i].dom.Some? {
        ToDOMExactly(u, i);
      } else if s.cache[i].content.Some? {
        ToDOMExactly(WithNewDom(u, i), i);
      }
    }
  }

  // Contents of pages other than the given one are as before.
  ghost predicate SameContents(s: State, t: State, i: Page) {
    forall j: Page :: j != i ==> EntryOf(t, j).content == EntryOf(s, j).content
  }

  lemma ShowLeaves(s: State, i: Page)
    requires s.current < |s.history| && CanShow(s, i)
    ensures forall j: Page :: EntryOf(Show(s, i), j).content == EntryOf(s, j).content
    ensures forall j: Page :: EntryOf(Show(s, i), j).loading == EntryOf(s, j).loading
    ensures Show(s, i).loads == s.loads && Show(s, i).history == s.history && Show(s, i).current == s.current
    ensures Show(s, i).index == i && Show(s, i).pending == None
  {}

  lemma ToDOMLeaves(s: State, i: Page)
    requires s.current < |s.history| && CanShow(s, i)
    ensures forall j: Page :: EntryOf(GoToDOM(s, i), j).content == EntryOf(s, j).content
    ensures forall j: Page :: EntryOf(GoToDOM(s, i), j).loading == EntryOf(s, j).loading
    ensures GoToDOM(s, i).loads == s.loads && GoToDOM(s, i).index == i && GoToDOM(s, i).pending == None
  {
    if s.index != i {
      ShowLeaves(Push(Replace(s.(pending := None)), i), i);
    }
  }

  // Content that was asked for is kept. If it was waited for, its page comes on screen,
  // and otherwise the page on screen stays.
  lemma AnsweredExactly(s: State, first: Content, lost: set<Page>, i: Page, content: Content)
    requires Inv(s, first, lost) && i in s.loads
    ensures var t := Step(s, Answered(i, content));
      && EntryOf(t, i).content == Some(content) && SameContents(s, t, i)
      && t.index == (if s.pending == Some(i) then i else s.index)
      && t.pending == (if s.pending == Some(i) then None else s.pending)
  {
    ArriveKeeps(s, first, lost, i, content);
    var t := Arrive(s.(loads := s.loads - multiset{i}), i, content);
    if s.pending == Some(i) {
      LoadedLeaves(t, i);
    }
    AgainLeaves(GoOn(t, i), i);
  }

  lemma LoadedLeaves(s: State, i: Page)
    requires s.current < |s.history| && EntryOf(s, i).content.Some?
    ensures forall j: Page :: EntryOf(GoToLoaded(s, i), j).content == EntryOf(s, j).content
    ensures GoToLoaded(s, i).index == i && GoToLoaded(s, i).pending == None
  {
    ToDOMLeaves(if EntryOf(s, i).dom.Some? then s else WithNewDom(s, i), i);
  }

  lemma AgainLeaves(s: State, i: Page)
    ensures forall j: Page :: EntryOf(LoadAgain(s, i), j).content == EntryOf(s, j).content
    ensures LoadAgain(s, i).index == s.index && LoadAgain(s, i).pending == s.pending
  {}

  // A reload starts a load, or waits for the one on its way; nothing else changes.
  lemma ReloadedExactly(s: State, i: Page)
    ensures var t := Step(s, Reloaded(i));
      && t.loads == s.loads + (if EntryOf(s, i).loading then multiset{} else multiset{i})
      && EntryOf(t, i) == (if EntryOf(s, i).loading then EntryOf(s, i).(reloadPending := true) else EntryOf(s, i).(loading := true))
      && (forall j: Page :: j != i ==> EntryOf(t, j) == EntryOf(s, j))
      && t == s.(cache := t.cache, loads := t.loads)
  {}

  // A move through the history shows the page it leads to.
  lemma PoppedExactly(s: State, first: Content, lost: set<Page>, k: nat)
    requires Inv(s, first, lost) && k < |s.history|
    ensures var t := Step(s, Popped(k));
      && t.index == s.history[k].page && t.current == k && t.history == s.history && t.pending == None && t.loads == s.loads
      && (forall j: Page :: EntryOf(t, j).content == EntryOf(s, j).content)
  {
    assert CanShow(s, s.history[k].page);
    ShowLeaves(s.(current := k), s.history[k].page);
  }

  // A load that does not come back changes nothing but that.
  lemma NotAnsweredExactly(s: State, i: Page)
    ensures Step(s, NotAnswered(i)) == s.(loads := s.loads - multiset{i})
  {}

  lemma ToDOMExactly(s: State, i: Page)
    requires s.current < |s.history| && CanShow(s, i)
    ensures GoToDOM(s, i).index == i && GoToDOM(s, i).pending == None && GoToDOM(s, i).loads == s.loads
  {}

  // The pages with a load that never came back.
  function Lost(first: Content, events: seq<Event>): set<Page>
    decreases |events|
  {
    if events == [] then {}
    else
      var e := events[|events| - 1];
      Lost(first, events[..|events| - 1]) +
      (if e.NotAnswered? && e.page in Run(first, events[..|events| - 1]).loads then {e.page} else {})
  }

  // In every run the page on screen shows what was last loaded of it, and no page is
  // loaded twice at once.
  lemma RunShowsLatest(first: Content, events: seq<Event>, i: Page)
    ensures var s := Run(first, events);
      && s.visible in s.doms && s.loads[i] <= 1
      && match EntryOf(s, s.index).content
         case Some(content) => s.doms[s.visible] == content
         case None => s.index == 0 && s.doms[s.visible] == first
  {
    RunKeepsInv(first, events);
    assert LoadGood(Run(first, events), Lost(first, events), None, i);
  }

  lemma {:induction false} RunKeepsInv(first: Content, events: seq<Event>)
    ensures Inv(Run(first, events), first, Lost(first, events))
    decreases |events|
  {
    if events == [] {
      var s := Start(first);
      assert forall a: Page, b: Page :: Apart(s, a, b);
      assert forall j: Page :: DomGood(s, first, j) && LoadGood(s, {}, None, j);
    } else {
      RunKeepsInv(first, events[..|events| - 1]);
      StepKeepsInv(Run(first, events[..|events| - 1]), first, Lost(first, events[..|events| - 1]), events[|events| - 1]);
    }
  }

  // A reload asked for during a load starts just one more load when that comes back; a
  // page is not loaded twice at once.
  lemma ReloadFollows(s: State, first: Content, lost: set<Page>, i: Page, content: Content)
    requires Inv(s, first, lost) && i in s.loads
    ensures var t := Loaded(s, i, content);
      && t.loads == s.loads - multiset{i} + (if EntryOf(s, i).reloadPending then multiset{i} else multiset{})
      && EntryOf(t, i).loading == EntryOf(s, i).reloadPending && !EntryOf(t, i).reloadPending
  {
    var t := Arrive(s.(loads := s.loads - multiset{i}), i, content);
    assert LoadGood(s, lost, None, i);
    ArriveKeeps(s, first, lost, i, content);
    GoOnKeeps(t, first, lost, i);
    ArriveFlags(s, i, content);
  }

  lemma ArriveFlags(s: State, i: Page, content: Content)
    ensures var t := Arrive(s.(loads := s.loads - multiset{i}), i, content);
      t.loads == s.loads - multiset{i} && EntryOf(t, i).reloadPending == EntryOf(s, i).reloadPending
  {}

  lemma {:induction false} LostGrows(first: Content, events: seq<Event>, more: seq<Event>)
    ensures Lost(first, events) <= Lost(first, events + more)
    decreases |more|
  {
    if more == [] {
      assert events + more == events;
    } else {
      LostGrows(first, events, more[..|more| - 1]);
      assert (events + more)[..|events + more| - 1] == events + more[..|more| - 1];
    }
  }

  // A lost load blocks its page: however the run goes on, it is never loaded again.
  lemma LostForever(first: Content, events: seq<Event>, more: seq<Event>, i: Page)
    requires i in Lost(first, events)
    ensures var s := Run(first, events + more); s.loads[i] == 0 && EntryOf(s, i).loading
  {
    LostGrows(first, events, more);
    RunKeepsInv(first, events + more);
    assert LoadGood(Run(first, events + more), Lost(first, events + more), None, i);
  }

  lemma RunMore(first: Content, events: seq<Event>, e: Event)
    ensures Run(first, events + [e]) == Step(Run(first, events), e)
  {
    assert (events + [e])[..|events|] == events;
  }

  // It happens when the first load of a page is not answered.
  lemma LoadIsLost(first: Content)
    ensures 1 in Lost(first, [Navigated(1), NotAnswered(1)])
  {
    RunMore(first, [], Navigated(1));
    assert [Navigated(1), NotAnswered(1)][..1] == [] + [Navigated(1)];
  }

  // ----- Positions

  // The position counts the steps from the first page, and neighbours differ.
  ghost predicate PositionGood(s: State) {
    && s.current < |s.history| && s.position == s.current && s.history[s.current].page == s.index
    && (forall k :: 0 <= k < |s.history| ==> s.history[k].position == k)
    && (forall k :: 0 < k < |s.history| ==> s.history[k].page != s.history[k - 1].page)
  }

  lemma NavigateToDOMKeepsPosition(s: State, i: Page)
    requires PositionGood(s) && CanShow(s, i)
    ensures PositionGood(GoToDOM(s, i))
  {
    var r := Replace(s.(pending := None));
    assert r.history == s.history;
    if s.index != i {
      var p := Push(r, i);
      var t := Show(p, i);
      assert t.history == p.history && t.current == p.current && t.position == p.position && t.index == i;
      assert Replace(t).history == t.history;
    }
  }

  lemma AnswerKeepsPosition(s: State, first: Content, lost: set<Page>, i: Page, content: Content)
    requires PositionGood(s) && Inv(s, first, lost)
    ensures PositionGood(Step(s, Answered(i, content)))
  {
    if i in s.loads {
      var t := Arrive(s.(loads := s.loads - multiset{i}), i, content);
      ArriveKeeps(s, first, lost, i, content);
      assert PositionGood(t);
      if s.pending == Some(i) { NavigateToLoadedKeepsPosition(t, i); }
    }
  }

  lemma OtherStepsKeepPosition(s: State, first: Content, lost: set<Page>, e: Event)
    requires PositionGood(s) && Inv(s, first, lost) && !e.Popped?
    ensures PositionGood(Step(s, e))
  {
    match e
    case Navigated(i) => NavigateKeepsPosition(s, first, lost, i);
    case Reloaded(i) =>
    case Answered(i, content) => AnswerKeepsPosition(s, first, lost, i, content);
    case NotAnswered(i) =>
  }

  lemma NavigateToLoadedKeepsPosition(s: State, i: Page)
    requires PositionGood(s) && (EntryOf(s, i).dom.Some? || EntryOf(s, i).content.Some?)
    ensures PositionGood(GoToLoaded(s, i))
  {
    var e := EntryOf(s, i);
    if e.dom.Some? {
      NavigateToDOMKeepsPosition(s, i);
    } else {
      NavigateToDOMKeepsPosition(WithNewDom(s, i), i);
    }
  }

  lemma NavigateKeepsPosition(s: State, first: Content, lost: set<Page>, i: Page)
    requires PositionGood(s) && Inv(s, first, lost)
    ensures PositionGood(GoTo(s, i))
  {
    var t := s.(pending := Some(i));
    if i == 0 && s.index == 0 {
      NavigateToDOMKeepsPosition(s, 0);
    } else if i in s.cache && s.cache[i].dom.Some? {
      NavigateToDOMKeepsPosition(t, i);
    } else if i in s.cache && s.cache[i].content.Some? {
      NavigateToLoadedKeepsPosition(t, i);
    }
  }

  // Going through the history keeps the position right, unless it leads to another visit
  // of the page on screen: then the position stays behind.
  lemma PopKeepsPosition(s: State, first: Content, lost: set<Page>, k: nat)
    requires PositionGood(s) && Inv(s, first, lost) && k < |s.history|
    ensures PositionGood(Step(s, Popped(k))) <==> k == s.current || s.history[k].page != s.index
  {
    assert CanShow(s, s.history[k].page);
  }

  // It happens: on the way from page 0 to page 1 and back, going to the first visit of
  // page 0 leaves the position at 2.
  lemma PositionStaysBehind(first: Content, content: Content)
    ensures var s := Run(first, [Navigated(1), Answered(1, content), Navigated(0), Popped(0)]);
      s == Back(first, content).(current := 0) && s.history[0] == Visit(0, s.index) && s.position == 2
  {
    var a, b := Navigated(1), Answered(1, content);
    assert [a, b, Navigated(0), Popped(0)] == [a, b, Navigated(0)] + [Popped(0)];
    RunMore(first, [a, b, Navigated(0)], Popped(0));
    RunBack(first, content);
    assert Step(Back(first, content), Popped(0)) == Back(first, content).(current := 0);
  }

  lemma RunBack(first: Content, content: Content)
    ensures Run(first, [Navigated(1), Answered(1, content), Navigated(0)]) == Back(first, content)
  {
    var a, b, c := Navigated(1), Answered(1, content), Navigated(0);
    assert [] + [a] == [a] && [a] + [b] == [a, b] && [a, b] + [c] == [a, b, c];
    RunMore(first, [], a);
    RunMore(first, [a], b);
    RunMore(first, [a, b], c);
    GoesThere(first, content);
    GoesBack(first, content);
  }

  function There(first: Content, content: Content): State {
    State(map[0 := Entry(false, false, None, Some(0), false), 1 := Entry(false, false, Some(content), Some(1), false)],
      1, 1, None, map[0 := first, 1 := content], 2, 1, [Visit(0, 0), Visit(1, 1)], 1, multiset{})
  }

  function Back(first: Content, content: Content): State {
    There(first, content).(index := 0, position := 2, visible := 0, history := [Visit(0, 0), Visit(1, 1), Visit(2, 0)], current := 2)
  }

  lemma GoesThere(first: Content, content: Content)
    ensures Step(Step(Start(first), Navigated(1)), Answered(1, content)) == There(first, content)
  {
    var s := Step(Start(first), Navigated(1));
    var t := Arrive(s.(loads := s.loads - multiset{1}), 1, content);
    assert t == State(map[1 := Entry(false, false, Some(content), None, false)],
      0, 0, Some(1), map[0 := first], 1, 0, [Visit(0, 0)], 0, multiset{});
    var u := Push(Replace(WithNewDom(t, 1).(pending := None)), 1);
    assert u == State(map[1 := Entry(false, false, Some(content), Some(1), false)],
      0, 1, None, map[0 := first, 1 := content], 2, 0, [Visit(0, 0), Visit(1, 1)], 1, multiset{});
    assert Replace(Show(u, 1)) == There(first, content);
  }

  lemma GoesBack(first: Content, content: Content)
    ensures Step(There(first, content), Navigated(0)) == Back(first, content)
  {
    var s := There(first, content);
    var u := Push(Replace(s), 0);
    assert u == s.(position := 2, history := [Visit(0, 0), Visit(1, 1), Visit(2, 0)], current := 2);
    assert Show(u, 0) == Back(first, content) == Replace(Back(first, content));
  }

  // What showing a page makes of the history: the current visit is written anew, and one
  // for another page comes after it in place of those that were there.
  ghost predicate Visits(s: State, t: State, i: Page)
    requires s.current < |s.history|
  {
    if i == s.index then
      t.history == s.history[s.current := Visit(s.position, i)] && t.current == s.current && t.position == s.position
    else
      && t.history == s.history[..s.current] + [Visit(s.position, s.index), Visit(s.position + 1, i)]
      && t.current == s.current + 1 && t.position == s.position + 1
  }

  lemma NavigatedHistory(s: State, first: Content, lost: set<Page>, i: Page)
    requires Inv(s, first, lost)
    ensures var t := Step(s, Navigated(i));
      if CanShow(s, i) || EntryOf(s, i).content.Some? then Visits(s, t, i)
      else t.history == s.history && t.current == s.current && t.position == s.position
  {
    assert DomGood(s, first, i) && LoadGood(s, lost, None, i);
    if i == 0 && s.index == 0 {
      ToDOMHistory(s, 0);
    } else if i in s.cache && (s.cache[i].dom.Some? || s.cache[i].content.Some?) {
      LoadedHistory(s.(pending := Some(i)), i);
    }
  }

  lemma LoadedHistory(s: State, i: Page)
    requires s.current < |s.history| && (EntryOf(s, i).dom.Some? || EntryOf(s, i).content.Some?)
    ensures Visits(s, GoToLoaded(s, i), i)
  {
    ToDOMHistory(if EntryOf(s, i).dom.Some? then s else WithNewDom(s, i), i);
  }

  lemma ToDOMHistory(s: State, i: Page)
    requires s.current < |s.history| && CanShow(s, i)
    ensures Visits(s, GoToDOM(s, i), i)
  {
    if s.index != i {
      var p := Push(Replace(s.(pending := None)), i);
      assert p.history == s.history[..s.current] + [Visit(s.position, s.index), Visit(s.position + 1, i)];
      var t := Show(p, i);
      assert t.history == p.history && t.current == p.current && t.position == p.position && t.index == i;
      assert Replace(t).history == t.history;
    }
  }

  ghost predicate PoppedWell(first: Content, events: seq<Event>)
    decreases |events|
  {
    if events == [] then true
    else
      var s, e := Run(first, events[..|events| - 1]), events[|events| - 1];
      PoppedWell(first, events[..|events| - 1]) &&
      (e.Popped? && e.to < |s.history| ==> e.to == s.current || s.history[e.to].page != s.index)
  }

  lemma {:induction false} RunKeepsPosition(first: Content, events: seq<Event>)
    requires PoppedWell(first, events)
    ensures PositionGood(Run(first, events))
    decreases |events|
  {
    if events == [] {
    } else {
      var s, e := Run(first, events[..|events| - 1]), events[|events| - 1];
      RunKeepsPosition(first, events[..|events| - 1]);
      RunKeepsInv(first, events[..|events| - 1]);
      if e.Popped? {
        if e.to < |s.history| { PopKeepsPosition(s, first, Lost(first, events[..|events| - 1]), e.to); }
      } else {
        OtherStepsKeepPosition(s, first, Lost(first, events[..|events| - 1]), e);
      }
    }
  }

  // Which cannot happen one step at a time.
  lemma OneStepKeepsPosition(s: State, first: Content, lost: set<Page>, k: nat)
    requires PositionGood(s) && Inv(s, first, lost) && k < |s.history| && (k + 1 == s.current || k == s.current + 1)
    ensures PositionGood(Step(s, Popped(k))) && Step(s, Popped(k)).position == k
  {
    PopKeepsPosition(s, first, lost, k);
  }

  // ----- `IV`, updated in place

  class IV {
    var cache: map<Page, Entry>
    var index: Page
    var position: int
    var pending: Option<Page>
    var doms: map<DomId, Content>
    var nextDom: DomId
    var visible: DomId
    var history: seq<Visit>
    var current: nat
    var loads: multiset<Page>

    function Value(): State
      reads this
    {
      State(cache, index, position, pending, doms, nextDom, visible, history, current, loads)
    }

    constructor (first: Content)
      ensures Value() == Start(first)
    {
      cache, index, position, pending := map[], 0, 0, None;
      doms, nextDom, visible := map[0 := first], 1, 0;
      history, current, loads := [Visit(0, 0)], 0, multiset{};
    }

    method NavigateTo(i: Page, ghost first: Content, ghost lost: set<Page>)
      requires Inv(Value(), first, lost)
      modifies this
      ensures Value() == GoTo(old(Value()), i)
      ensures if old(CanShow(Value(), i) || EntryOf(Value(), i).content.Some?) then index == i && pending == None
        else index == old(index) && pending == Some(i) && Waits(Value(), i)
    {
      NavigateExactly(Value(), first, lost, i);
      assert DomGood(Value(), first, i) && LoadGood(Value(), lost, None, i);
      BaseUpdates(Value(), first, lost, None);
      if i == 0 && index == 0 {
        NavigateToDOM(index);
        return;
      }
      pending := Some(i);
      if i !in cache {
        LoadPage(i);
      } else if cache[i].dom.Some? {
        NavigateToDOM(i);
      } else if cache[i].content.Some? {
        NavigateToLoaded(i);
      }
    }

    method ApplyUpdatedContent(i: Page)
      requires i in cache && (index == i ==> cache[i].content.Some?)
      modifies this
      ensures Value() == ApplyUpdated(old(Value()), i)
    {
      if index != i {
        cache := cache[i := cache[i].(contentUpdated := cache[i].dom.Some?)];
        return;
      }
      // What morphing leaves shows the new content.
      doms := doms[visible := cache[i].content.value];
    }

    method LoadPage(i: Page)
      modifies this
      ensures Value() == Load(old(Value()), i)
    {
      if i !in cache {
        cache := cache[i := EMPTY];
      }
      cache := cache[i := cache[i].(loading := true)];
      loads := loads + multiset{i};
    }

    method OnLoad(i: Page, content: Content, ghost first: Content, ghost lost: set<Page>)
      requires Inv(Value(), first, lost) && i in loads
      modifies this
      ensures Value() == Loaded(old(Value()), i, content)
    {
      assert LoadGood(Value(), lost, None, i);
      ArriveKeeps(Value(), first, lost, i, content);
      ghost var arrived := Arrive(Value().(loads := loads - multiset{i}), i, content);
      SetContent(i, content);
      GoOnKeeps(arrived, first, lost, i);
      BaseUpdates(arrived, first, lost, Some(i));
      if pending == Some(i) {
        NavigateToLoaded(i);
      }
      assert Value() == GoOn(arrived, i);
      LoadIfAsked(i);
    }

    method SetContent(i: Page, content: Content)
      requires i in cache
      modifies this
      ensures Value() == Arrive(old(Value()).(loads := old(loads) - multiset{i}), i, content)
    {
      loads := loads - multiset{i};
      LastPut(cache, i, cache[i].(loading := false), cache[i].(loading := false, content := Some(content)));
      cache := cache[i := cache[i].(loading := false)];
      cache := cache[i := cache[i].(content := Some(content))];
      assert Value() == Put(old(Value()).(loads := loads), i, cache[i]);
      ApplyUpdatedContent(i);
    }

    method LoadIfAsked(i: Page)
      requires i in cache
      modifies this
      ensures Value() == LoadAgain(old(Value()), i)
    {
      if cache[i].reloadPending {
        cache := cache[i := cache[i].(reloadPending := false)];
        ReloadPage(i);
      }
    }

    method ReloadPage(i: Page)
      modifies this
      ensures Value() == Reload(old(Value()), i)
    {
      if i in cache && cache[i].loading {
        cache := cache[i := cache[i].(reloadPending := true)];
        return;
      }
      LoadPage(i);
    }

    method NavigateToLoaded(i: Page)
      requires i in cache && (cache[i].dom.Some? || cache[i].content.Some?) && current < |history|
      requires UpdatesLoaded(Value())
      modifies this
      ensures Value() == GoToLoaded(old(Value()), i)
    {
      if cache[i].dom.Some? {
        NavigateToDOM(i);
      } else {
        // A new element with the content.
        doms := doms[nextDom := cache[i].content.value];
        cache := cache[i := cache[i].(dom := Some(nextDom))];
        nextDom := nextDom + 1;
        assert Value() == WithNewDom(old(Value()), i);
        NavigateToDOM(i);
      }
    }

    method NavigateToDOM(i: Page)
      requires CanShow(Value(), i) && current < |history|
      requires UpdatesLoaded(Value())
      modifies this
      ensures Value() == GoToDOM(old(Value()), i)
    {
      pending := None;
      history := history[current := Visit(position, index)];
      if index == i {
        return;
      }
      position := position + 1;
      history := history[..current + 1] + [Visit(position, i)];
      current := current + 1;
      assert Value() == Push(Replace(old(Value()).(pending := None)), i);
      ShowDOM(i);
      history := history[current := Visit(position, index)];
    }

    method ShowDOM(i: Page)
      requires CanShow(Value(), i) && current < |history|
      requires UpdatesLoaded(Value())
      modifies this
      ensures Value() == Show(old(Value()), i)
    {
      pending := None;
      if index != i {
        position := history[current].position;
        var now := cache[i].dom.value;
        var was := visible;
        LastPut(cache, index, EMPTY, EMPTY.(dom := Some(was)));
        if index !in cache {
          cache := cache[index := EMPTY];
        }
        cache := cache[index := cache[index].(dom := Some(was))];
        visible := now;
        index := i;
        if cache[i].contentUpdated {
          cache := cache[i := cache[i].(contentUpdated := false)];
          ApplyUpdatedContent(i);
        }
      }
    }

    // The handler of `popstate`.
    method PopState(k: nat, ghost first: Content, ghost lost: set<Page>)
      requires Inv(Value(), first, lost) && k < |history|
      modifies this
      ensures Value() == Step(old(Value()), Popped(k))
    {
      assert CanShow(Value(), history[k].page);
      BaseUpdates(Value(), first, lost, None);
      current := k;
      ShowDOM(history[k].page);
    }
  }

  lemma LastPut(cache: map<Page, Entry>, i: Page, a: Entry, b: Entry)
    ensures cache[i := a][i := b] == cache[i := b]
  {}

  // A DOM is outdated only because of content that was loaded.
  ghost predicate UpdatesLoaded(s: State) {
    forall i :: i in s.cache && s.cache[i].contentUpdated ==> s.cache[i].content.Some?
  }

  lemma BaseUpdates(s: State, first: Content, lost: set<Page>, done: Option<Page>)
    requires Base(s, first, lost, done)
    ensures UpdatesLoaded(s)
  {
    forall i | i in s.cache && s.cache[i].contentUpdated ensures s.cache[i].content.Some? {
      assert LoadGood(s, lost, done, i);
    }
  }
}
