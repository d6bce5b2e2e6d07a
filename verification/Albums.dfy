/** Sending an album when all of its files are uploaded (`apiwrap.cpp`,
    `storage/localimageloader.cpp`). */
module Albums {

  type TaskId = nat
  type MsgId = nat
  type RandomId = nat
  type Input = nat

  datatype Option<T> = None | Some(value: T)

  datatype Media = Media(input: Input, randomId: RandomId, caption: string)

  // A message id of 0 marks a file that is still being prepared.
  datatype Item = Item(taskId: TaskId, msgId: MsgId, randomId: RandomId, media: Option<Media>)

  datatype Message = Message(caption: string, sending: bool)

  datatype Sending =
    | Paid(sample: MsgId, randomId: RandomId, inputs: seq<Input>)
    | Single(sample: MsgId, input: Input, randomId: RandomId)
    | Multi(sample: MsgId, medias: seq<Media>)

  // One album: `listed` tells whether `_sendingAlbums` holds it. `messages` are those that
  // exist, `uploads` the uploads not answered yet, `asked` the messages uploaded so far,
  // and `log` what was sent; `awaiting` tells whether that was not answered yet.
  datatype State = State(
    items: seq<Item>, sent: bool, listed: bool, price: int, messages: map<MsgId, Message>,
    uploads: set<MsgId>, asked: set<MsgId>, log: seq<Sending>, awaiting: bool)

  // ----- The album

  function IndexOf(items: seq<Item>, msgId: MsgId): (i: nat)
    ensures i <= |items| && (i < |items| ==> items[i].msgId == msgId)
    ensures forall k :: 0 <= k < i ==> items[k].msgId != msgId
  {
    if items == [] || items[0].msgId == msgId then 0 else 1 + IndexOf(items[1..], msgId)
  }

  function TaskIndex(items: seq<Item>, taskId: TaskId): (i: nat)
    ensures i <= |items| && (i < |items| ==> items[i].taskId == taskId)
    ensures forall k :: 0 <= k < i ==> items[k].taskId != taskId
  {
    if items == [] || items[0].taskId == taskId then 0 else 1 + TaskIndex(items[1..], taskId)
  }

  predicate AllUploaded(items: seq<Item>) { forall i :: 0 <= i < |items| ==> items[i].media.Some? }

  function Medias(items: seq<Item>): seq<Media>
    requires AllUploaded(items)
  {
    seq(|items|, i requires 0 <= i < |items| => items[i].media.value)
  }

  function Inputs(items: seq<Item>): seq<Input>
    requires AllUploaded(items)
  {
    seq(|items|, i requires 0 <= i < |items| => items[i].media.value.input)
  }

  // The first message that exists, or 0.
  function Sample(items: seq<Item>, messages: map<MsgId, Message>): MsgId {
    if items == [] then 0
    else if items[0].msgId in messages then items[0].msgId
    else Sample(items[1..], messages)
  }

  function SendingOf(s: State): Sending
    requires s.items != [] && AllUploaded(s.items)
  {
    var sample := Sample(s.items, s.messages);
    if s.price > 0 then Paid(sample, s.items[0].randomId, Inputs(s.items))
    else if |s.items| == 1 then
      Single(sample, s.items[0].media.value.input, s.items[0].media.value.randomId)
    else Multi(sample, Medias(s.items))
  }

  function SendIfReady(s: State): State {
    if s.sent then s
    else if s.items == [] then s.(listed := false)
    else if !AllUploaded(s.items) then s
    else if Sample(s.items, s.messages) == 0 then s.(listed := false)
    else
      var sending := SendingOf(s);
      s.(sent := true, log := s.log + [sending], awaiting := true, listed := s.listed && !sending.Single?)
  }

  function Recaptioned(items: seq<Item>, i: nat, caption: string): seq<Item> {
    if i < |items| && items[i].media.Some? then items[i := items[i].(media := Some(items[i].media.value.(caption := caption)))]
    else items
  }

  // The caption of the first item goes over to the next one.
  function MoveCaption(s: State, caption: string): State
    requires s.items != []
  {
    var first := s.items[0];
    if first.msgId !in s.messages then s
    else
      var own := s.messages[first.msgId].caption;
      var joined := if own == "" then caption else own + "\n" + caption;
      s.(messages := s.messages[first.msgId := s.messages[first.msgId].(caption := joined)],
         items := Recaptioned(s.items, 0, joined))
  }

  function RemoveItem(s: State, msgId: MsgId): State
    requires msgId in s.messages
  {
    var i := IndexOf(s.items, msgId);
    if i == |s.items| then s
    else
      var t := s.(items := s.items[..i] + s.items[i + 1..]);
      if i == 0 && |s.items| > 1 then MoveCaption(t, s.messages[msgId].caption) else t
  }

  function FillMedia(s: State, msgId: MsgId, input: Input, randomId: RandomId): State
    requires msgId in s.messages
  {
    var i := IndexOf(s.items, msgId);
    if i == |s.items| then s
    else
      var media := Media(input, randomId, s.messages[msgId].caption);
      s.(items := s.items[i := s.items[i].(randomId := randomId, media := Some(media))])
  }

  // ----- What the operations do

  // A file without media, and the first message that exists.
  ghost predicate Open(s: State) { exists i :: 0 <= i < |s.items| && s.items[i].media.None? }

  ghost predicate IsSample(s: State, i: int) {
    && 0 <= i < |s.items| && s.items[i].msgId in s.messages
    && forall k :: 0 <= k < i ==> s.items[k].msgId !in s.messages
  }

  lemma {:induction false} SampleIs(items: seq<Item>, messages: map<MsgId, Message>, i: int)
    requires 0 !in messages
    requires 0 <= i < |items| && items[i].msgId in messages && forall k :: 0 <= k < i ==> items[k].msgId !in messages
    ensures Sample(items, messages) == items[i].msgId != 0
  {
    if i > 0 {
      SampleIs(items[1..], messages, i - 1);
    }
  }

  lemma {:induction false} NoSample(items: seq<Item>, messages: map<MsgId, Message>)
    requires forall k :: 0 <= k < |items| ==> items[k].msgId !in messages
    ensures Sample(items, messages) == 0
  {
    if items != [] {
      NoSample(items[1..], messages);
    }
  }

  // What is sent for the items: all at once for a price, one alone, or several.
  ghost predicate SendsAll(s: State, x: Sending, sample: MsgId)
    requires s.items != []
  {
    if s.price > 0 then
      && x.Paid? && x.sample == sample && x.randomId == s.items[0].randomId && |x.inputs| == |s.items|
      && forall i :: 0 <= i < |s.items| ==> s.items[i].media.Some? && x.inputs[i] == s.items[i].media.value.input
    else if |s.items| == 1 then
      && x.Single? && x.sample == sample && s.items[0].media.Some?
      && x.input == s.items[0].media.value.input && x.randomId == s.items[0].media.value.randomId
    else
      && x.Multi? && x.sample == sample && |x.medias| == |s.items|
      && forall i :: 0 <= i < |s.items| ==> s.items[i].media == Some(x.medias[i])
  }

  // An album that was sent or has an open file stays as it is, and one without messages is
  // given up. Any other one is sent, and only one with a single file leaves the list then.
  lemma SendIfReadyExactly(s: State, i: int)
    requires 0 !in s.messages
    ensures s.sent || Open(s) ==> SendIfReady(s) == s
    ensures !s.sent && !Open(s) && (forall k :: 0 <= k < |s.items| ==> s.items[k].msgId !in s.messages) ==>
      SendIfReady(s) == s.(listed := false)
    ensures !s.sent && !Open(s) && IsSample(s, i) ==>
      var t := SendIfReady(s);
      && |t.log| == |s.log| + 1 && t.log[..|s.log|] == s.log && SendsAll(s, t.log[|s.log|], s.items[i].msgId)
      && t == s.(sent := true, awaiting := true, log := t.log, listed := s.listed && !(s.price <= 0 && |s.items| == 1))
  {
    if !Open(s) {
      if forall k :: 0 <= k < |s.items| ==> s.items[k].msgId !in s.messages {
        NoSample(s.items, s.messages);
      } else if IsSample(s, i) {
        SampleIs(s.items, s.messages, i);
      }
    }
  }

  // The caption goes over to the first item: after its own one, on a new line, or alone.
  lemma MoveCaptionExactly(s: State, caption: string)
    requires s.items != []
    ensures var t, m := MoveCaption(s, caption), s.items[0].msgId;
      if m !in s.messages then t == s
      else
        var joined := if s.messages[m].caption == "" then caption else s.messages[m].caption + "\n" + caption;
        && t == s.(items := t.items, messages := t.messages) && |t.items| == |s.items| && t.items[1..] == s.items[1..]
        && t.messages == s.messages[m := Message(joined, s.messages[m].sending)]
        && t.items[0] == s.items[0].(media := t.items[0].media)
        && match s.items[0].media
           case None => t.items[0].media.None?
           case Some(x) => t.items[0].media == Some(Media(x.input, x.randomId, joined))
  {}

  ghost predicate IsFirst(items: seq<Item>, m: MsgId, i: int) {
    0 <= i < |items| && items[i].msgId == m && forall k :: 0 <= k < i ==> items[k].msgId != m
  }

  // The first item of the message goes; the next one takes over its caption if it was the
  // first of all.
  lemma RemoveItemExactly(s: State, m: MsgId, i: int)
    requires m in s.messages
    ensures (forall k :: 0 <= k < |s.items| ==> s.items[k].msgId != m) ==> RemoveItem(s, m) == s
    ensures IsFirst(s.items, m, i) ==>
      var t := s.(items := s.items[..i] + s.items[i + 1..]);
      RemoveItem(s, m) == if i == 0 && t.items != [] then MoveCaption(t, s.messages[m].caption) else t
  {
    if IsFirst(s.items, m, i) {
      assert IndexOf(s.items, m) == i;
    }
  }

  // An upload puts its media and random id into the first item of the message, with the
  // caption the message has.
  lemma FillMediaExactly(s: State, m: MsgId, input: Input, randomId: RandomId, i: int)
    requires m in s.messages
    ensures (forall k :: 0 <= k < |s.items| ==> s.items[k].msgId != m) ==> FillMedia(s, m, input, randomId) == s
    ensures IsFirst(s.items, m, i) ==>
      FillMedia(s, m, input, randomId) == s.(items := s.items[
        i := Item(s.items[i].taskId, m, randomId, Some(Media(input, randomId, s.messages[m].caption)))])
  {
    if IsFirst(s.items, m, i) {
      assert IndexOf(s.items, m) == i;
    }
  }

  // ----- What happens to it

  datatype Event =
    | Confirmed(taskId: TaskId, msgId: MsgId, caption: string)
    | TaskFailed(taskId: TaskId)
    | UploadAsked(msgId: MsgId)
    | Uploaded(msgId: MsgId, input: Input, randomId: RandomId)
    | UploadFailed(msgId: MsgId)
    | Destroyed(msgId: MsgId)
    | Vanished(msgId: MsgId)
    | Delivered(msgId: MsgId)
    | SendDone
    | SendFailed

  function Fail(messages: map<MsgId, Message>, ids: set<MsgId>): map<MsgId, Message> {
    map m | m in messages :: if m in ids then messages[m].(sending := false) else messages[m]
  }

  predicate Has(items: seq<Item>, m: MsgId) { exists i :: 0 <= i < |items| && items[i].msgId == m }

  function Ids(items: seq<Item>): set<MsgId> { set i | 0 <= i < |items| :: items[i].msgId }

  function Destroy(s: State, m: MsgId): State
    requires m in s.messages
  {
    var t := if s.messages[m].sending && s.listed then SendIfReady(RemoveItem(s, m)) else s;
    t.(messages := t.messages - {m})
  }

  function Step(s: State, e: Event): State {
    match e
    case Confirmed(task, m, caption) =>
      var i := TaskIndex(s.items, task);
      if i == |s.items| || s.items[i].msgId != 0 || m == 0 || m in s.messages || m in s.asked || Has(s.items, m) then s
      else s.(items := s.items[i := s.items[i].(msgId := m)], messages := s.messages[m := Message(caption, true)])
    case TaskFailed(task) =>
      var i := TaskIndex(s.items, task);
      if i == |s.items| || s.items[i].msgId != 0 then s
      else s.(items := s.items[..i] + s.items[i + 1..])
    case UploadAsked(m) =>
      if m !in s.messages || m in s.asked then s else s.(uploads := s.uploads + {m}, asked := s.asked + {m})
    case Uploaded(m, input, randomId) =>
      if m !in s.uploads then s
      else
        var t := s.(uploads := s.uploads - {m});
        if m !in s.messages then t else SendIfReady(FillMedia(t, m, input, randomId))
    case UploadFailed(m) => s.(uploads := s.uploads - {m})
    case Destroyed(m) => if m in s.messages then Destroy(s, m) else s
    case Vanished(m) => s.(messages := s.messages - {m})
    case Delivered(m) => if s.sent then s.(messages := Fail(s.messages, {m})) else s
    case SendDone =>
      if !s.awaiting || s.log == [] then s
      else
        var t := s.(awaiting := false, listed := false);
        if s.log[0].Paid? && s.listed then t.(messages := s.messages - Ids(s.items)) else t
    case SendFailed =>
      if !s.awaiting || s.log == [] then s
      else if s.log[0].Multi? then
        s.(awaiting := false, listed := false, messages := if s.listed then Fail(s.messages, Ids(s.items)) else s.messages)
      else s.(awaiting := false, messages := Fail(s.messages, {s.log[0].sample}))
  }

  function Start(tasks: seq<TaskId>, price: int): State {
    State(seq(|tasks|, i requires 0 <= i < |tasks| => Item(tasks[i], 0, 0, None)), false, true, price, map[], {}, {}, [], false)
  }

  function Run(tasks: seq<TaskId>, price: int, events: seq<Event>): State
    decreases |events|
  {
    if events == [] then Start(tasks, price)
    else Step(Run(tasks, price, events[..|events| - 1]), events[|events| - 1])
  }

  // The first item of a task.
  ghost predicate IsTask(items: seq<Item>, task: TaskId, i: int) {
    0 <= i < |items| && items[i].taskId == task && forall k :: 0 <= k < i ==> items[k].taskId != task
  }

  // Only messages change: those of the given ids, if they are there, are no longer sending.
  ghost predicate Fails(s: State, t: State, ids: set<MsgId>) {
    && t == s.(messages := t.messages)
    && (forall m :: m in t.messages <==> m in s.messages)
    && (forall m :: m in t.messages ==>
          t.messages[m] == Message(s.messages[m].caption, s.messages[m].sending && m !in ids))
  }

  // A prepared file gets its message, unless the item has one or the message is not new;
  // one that could not be prepared goes.
  lemma TaskExactly(s: State, task: TaskId, m: MsgId, caption: string, i: int)
    ensures (forall k :: 0 <= k < |s.items| ==> s.items[k].taskId != task) ==>
      Step(s, Confirmed(task, m, caption)) == s && Step(s, TaskFailed(task)) == s
    ensures IsTask(s.items, task, i) ==>
      var isNew := m != 0 && m !in s.messages && m !in s.asked && forall k :: 0 <= k < |s.items| ==> s.items[k].msgId != m;
      && Step(s, Confirmed(task, m, caption)) ==
           (if s.items[i].msgId == 0 && isNew then
              s.(items := s.items[i := Item(task, m, s.items[i].randomId, s.items[i].media)],
                 messages := s.messages[m := Message(caption, true)])
            else s)
      && Step(s, TaskFailed(task)) ==
           (if s.items[i].msgId == 0 then s.(items := s.items[..i] + s.items[i + 1..]) else s)
  {
    if IsTask(s.items, task, i) {
      assert TaskIndex(s.items, task) == i;
    }
  }

  // A message is uploaded once; a failed upload, or one for a message that is gone, leaves
  // all else, and a good one fills the item and may make the album go.
  lemma UploadExactly(s: State, m: MsgId, input: Input, randomId: RandomId)
    ensures Step(s, UploadAsked(m)) ==
      if m in s.messages && m !in s.asked then s.(uploads := s.uploads + {m}, asked := s.asked + {m}) else s
    ensures Step(s, UploadFailed(m)) == s.(uploads := s.uploads - {m})
    ensures m in s.uploads && m !in s.messages ==> Step(s, Uploaded(m, input, randomId)) == s.(uploads := s.uploads - {m})
    ensures m in s.uploads && m in s.messages ==>
      Step(s, Uploaded(m, input, randomId)) == SendIfReady(FillMedia(s.(uploads := s.uploads - {m}), m, input, randomId))
  {}

  // A message that is still sending takes its item along, as long as the album is listed.
  lemma DestroyedExactly(s: State, m: MsgId)
    ensures Step(s, Vanished(m)) == s.(messages := s.messages - {m})
    ensures m !in s.messages ==> Step(s, Destroyed(m)) == s
    ensures m in s.messages ==>
      var t := if s.messages[m].sending && s.listed then SendIfReady(RemoveItem(s, m)) else s;
      Step(s, Destroyed(m)) == t.(messages := t.messages - {m})
  {}

  // What answers change: a delivered message is sent, a paid album that went through has
  // no local messages left, and a failed one has its messages failed.
  lemma AnswersExactly(s: State, m: MsgId)
    ensures if s.sent then Fails(s, Step(s, Delivered(m)), {m}) else Step(s, Delivered(m)) == s
    ensures !s.awaiting || s.log == [] ==> Step(s, SendDone) == s && Step(s, SendFailed) == s
    ensures s.awaiting && s.log != [] ==>
      var t := Step(s, SendDone);
      && t == s.(awaiting := false, listed := false, messages := t.messages)
      && forall n :: n in t.messages <==>
           n in s.messages && !(s.log[0].Paid? && s.listed && exists i :: 0 <= i < |s.items| && s.items[i].msgId == n)
    ensures s.awaiting && s.log != [] && s.log[0].Multi? ==>
      var u := s.(awaiting := false, listed := false);
      if s.listed then Fails(u, Step(s, SendFailed), set i | 0 <= i < |s.items| :: s.items[i].msgId)
      else Step(s, SendFailed) == u
    ensures s.awaiting && s.log != [] && !s.log[0].Multi? ==>
      Fails(s.(awaiting := false), Step(s, SendFailed), {s.log[0].sample})
  {}

  lemma RunMore(tasks: seq<TaskId>, price: int, events: seq<Event>, e: Event)
    ensures Run(tasks, price, events + [e]) == Step(Run(tasks, price, events), e)
  {
    assert (events + [e])[..|events|] == events;
  }

  // ----- What holds in every reachable state

  ghost predicate Inv(s: State) {
    && |s.log| == (if s.sent then 1 else 0)
    && s.uploads <= s.asked && 0 !in s.messages && 0 !in s.asked
    && Distinct(s.items)
    && (forall i :: 0 <= i < |s.items| ==> Fits(s, s.items[i]))
    && (forall m :: m in s.uploads && m in s.messages ==> Awaits(s, m))
    && (forall m :: m in s.messages ==> (s.listed && s.messages[m].sending) || !s.sent ==> Has(s.items, m))
    && (!s.sent ==> s.listed || s.items == [] || (AllUploaded(s.items) && Sample(s.items, s.messages) == 0))
    && (!s.sent ==> forall m :: m in s.messages ==> s.messages[m].sending)
    && (s.sent ==> AllUploaded(s.items) && forall m :: m in s.messages ==> m in s.asked)
  }

  ghost predicate Distinct(items: seq<Item>) {
    && (forall i, j :: 0 <= i < j < |items| ==> items[i].taskId != items[j].taskId)
    && (forall i, j :: 0 <= i < j < |items| && items[i].msgId != 0 ==> items[i].msgId != items[j].msgId)
  }

  // What is known of the media of an item: it came from the one upload of its message, and
  // has the caption of the message.
  ghost predicate Fits(s: State, item: Item) {
    item.media.Some? ==>
      && item.msgId in s.asked && item.msgId !in s.uploads && item.media.value.randomId == item.randomId
      && (item.msgId in s.messages ==> item.media.value.caption == s.messages[item.msgId].caption)
  }

  // The reply to an upload finds the album and an item without media.
  ghost predicate Awaits(s: State, m: MsgId) {
    !s.sent && s.listed && exists i :: 0 <= i < |s.items| && s.items[i].msgId == m && s.items[i].media.None?
  }

  lemma {:induction false} SampleExactly(items: seq<Item>, messages: map<MsgId, Message>)
    requires 0 !in messages
    ensures var m := Sample(items, messages);
      if m == 0 then forall i :: 0 <= i < |items| ==> items[i].msgId !in messages
      else m in messages && Has(items, m)
  {
    if items != [] {
      SampleExactly(items[1..], messages);
      var m := Sample(items[1..], messages);
      if m != 0 {
        var i :| 0 <= i < |items[1..]| && items[1..][i].msgId == m;
        assert items[i + 1].msgId == m;
      }
    }
  }

  lemma {:induction false} SampleWithout(items: seq<Item>, messages: map<MsgId, Message>, m: MsgId)
    requires !Has(items, m)
    ensures Sample(items, messages - {m}) == Sample(items, messages)
  {
    if items != [] {
      assert forall i :: 0 <= i < |items[1..]| ==> items[1..][i] == items[i + 1];
      SampleWithout(items[1..], messages, m);
    }
  }

  // The album is sent exactly if it was not yet, every file is uploaded and a message is
  // left; then everything in it goes out, in order.
  lemma SendsExactly(s: State)
    requires Inv(s)
    ensures SendIfReady(s).log == s.log <==>
      s.sent || s.items == [] || !AllUploaded(s.items) || forall i :: 0 <= i < |s.items| ==> s.items[i].msgId !in s.messages
    ensures SendIfReady(s).log == s.log || SendIfReady(s).log == [SendingOf(s)]
  {
    SampleExactly(s.items, s.messages);
  }

  lemma SendKeepsInv(s: State)
    requires Inv(s)
    ensures Inv(SendIfReady(s))
  {
    SampleExactly(s.items, s.messages);
  }

  lemma VanishKeepsInv(s: State, m: MsgId)
    requires Inv(s)
    ensures Inv(s.(messages := s.messages - {m}))
  {
    SampleExactly(s.items, s.messages);
    SampleExactly(s.items, s.messages - {m});
  }

  lemma ConfirmAwaits(s: State, i: nat, m: MsgId, caption: string, n: MsgId)
    requires i < |s.items| && Awaits(s, n) && s.items[i].msgId != n
    ensures Awaits(s.(items := s.items[i := s.items[i].(msgId := m)], messages := s.messages[m := Message(caption, true)]), n)
  {
    var j :| 0 <= j < |s.items| && s.items[j].msgId == n && s.items[j].media.None?;
    var items := s.items[i := s.items[i].(msgId := m)];
    assert items[j] == s.items[j];
  }

  lemma ConfirmKeepsInv(s: State, task: TaskId, m: MsgId, caption: string)
    requires Inv(s)
    ensures Inv(Step(s, Confirmed(task, m, caption)))
  {
    var t, i := Step(s, Confirmed(task, m, caption)), TaskIndex(s.items, task);
    if t != s {
      assert s.items[i].media.None? by {
        assert Fits(s, s.items[i]);
      }
      assert forall j :: 0 <= j < |s.items| ==> s.items[j].msgId != m;
      forall j | 0 <= j < |t.items| ensures Fits(t, t.items[j]) {
        assert Fits(s, s.items[j]);
      }
      forall n | n in t.messages && ((t.listed && t.messages[n].sending) || !t.sent) ensures Has(t.items, n) {
        if n != m {
          var j :| 0 <= j < |s.items| && s.items[j].msgId == n;
          assert t.items[j].msgId == n;
        } else {
          assert t.items[i].msgId == n;
        }
      }
      forall n | n in t.uploads && n in t.messages ensures Awaits(t, n) {
        ConfirmAwaits(s, i, m, caption, n);
      }
    }
  }

  // Taking out an item leaves all others.
  lemma ErasedItems(items: seq<Item>, i: nat, m: MsgId, pending: bool)
    requires i < |items| && items[i].msgId != m
    requires exists j :: 0 <= j < |items| && items[j].msgId == m && (pending ==> items[j].media.None?)
    ensures var rest := items[..i] + items[i + 1..];
      exists j :: 0 <= j < |rest| && rest[j].msgId == m && (pending ==> rest[j].media.None?)
  {
    var j :| 0 <= j < |items| && items[j].msgId == m && (pending ==> items[j].media.None?);
    var rest := items[..i] + items[i + 1..];
    assert rest[if j < i then j else j - 1] == items[j];
  }

  // The item at `i` goes, and with it the message it had.
  lemma EraseKeepsInv(s: State, i: nat)
    requires Inv(s) && i < |s.items| && (s.listed || s.sent)
    ensures Inv(s.(items := s.items[..i] + s.items[i + 1..], messages := s.messages - {s.items[i].msgId}))
  {
    var m := s.items[i].msgId;
    var t := s.(items := s.items[..i] + s.items[i + 1..], messages := s.messages - {m});
    forall j | 0 <= j < |t.items| ensures Fits(t, t.items[j]) {
      assert Fits(s, s.items[if j < i then j else j + 1]);
    }
    forall n | n in t.messages && ((t.listed && t.messages[n].sending) || !t.sent) ensures Has(t.items, n) {
      ErasedItems(s.items, i, n, false);
    }
    forall n | n in t.uploads && n in t.messages ensures Awaits(t, n) {
      assert Awaits(s, n);
      ErasedItems(s.items, i, n, true);
    }
  }

  lemma TaskFailedKeepsInv(s: State, task: TaskId)
    requires Inv(s)
    ensures Inv(Step(s, TaskFailed(task)))
  {
    var i := TaskIndex(s.items, task);
    if i < |s.items| && s.items[i].msgId == 0 {
      assert Fits(s, s.items[i]);
      EraseKeepsInv(s, i);
      assert s.messages - {0} == s.messages;
    }
  }

  lemma FillAwaits(s: State, m: MsgId, input: Input, randomId: RandomId, n: MsgId)
    requires Awaits(s, n) && m in s.messages && n != m
    ensures Awaits(FillMedia(s.(uploads := s.uploads - {m}), m, input, randomId), n)
  {
    var t := FillMedia(s.(uploads := s.uploads - {m}), m, input, randomId);
    var j :| 0 <= j < |s.items| && s.items[j].msgId == n && s.items[j].media.None?;
    assert t.items[j] == s.items[j];
  }

  lemma FillFits(s: State, m: MsgId, input: Input, randomId: RandomId, j: nat)
    requires Inv(s) && m in s.uploads && m in s.messages && j < |s.items|
    ensures var t := FillMedia(s.(uploads := s.uploads - {m}), m, input, randomId); Fits(t, t.items[j])
  {
    assert Fits(s, s.items[j]);
  }

  lemma FillsOpen(s: State, m: MsgId)
    requires Inv(s) && m in s.uploads && m in s.messages
    ensures var i := IndexOf(s.items, m); i < |s.items| && s.items[i].media.None? && !s.sent && s.listed
  {
    assert Awaits(s, m);
    var a :| 0 <= a < |s.items| && s.items[a].msgId == m && s.items[a].media.None?;
    assert a == IndexOf(s.items, m);
  }

  lemma FillKeepsInv(s: State, m: MsgId, input: Input, randomId: RandomId)
    requires Inv(s) && m in s.uploads && m in s.messages
    ensures Inv(FillMedia(s.(uploads := s.uploads - {m}), m, input, randomId))
    ensures FillMedia(s, m, input, randomId) != s
  {
    var i, t := IndexOf(s.items, m), FillMedia(s.(uploads := s.uploads - {m}), m, input, randomId);
    FillsOpen(s, m);
    forall j | 0 <= j < |t.items| ensures Fits(t, t.items[j]) {
      FillFits(s, m, input, randomId, j);
    }
    forall n | n in t.messages && ((t.listed && t.messages[n].sending) || !t.sent) ensures Has(t.items, n) {
      var j :| 0 <= j < |s.items| && s.items[j].msgId == n;
      assert t.items[j].msgId == n;
    }
    forall n | n in t.uploads && n in t.messages ensures Awaits(t, n) {
      FillAwaits(s, m, input, randomId, n);
    }
  }

  lemma MoveAwaits(s: State, caption: string, n: MsgId)
    requires s.items != [] && Awaits(s, n)
    ensures Awaits(MoveCaption(s, caption), n)
  {
    var t := MoveCaption(s, caption);
    var j :| 0 <= j < |s.items| && s.items[j].msgId == n && s.items[j].media.None?;
    assert t.items[j] == s.items[j];
  }

  lemma MoveKeepsInv(s: State, caption: string)
    requires Inv(s) && s.items != []
    ensures Inv(MoveCaption(s, caption))
  {
    var t, first := MoveCaption(s, caption), s.items[0];
    if first.msgId in s.messages {
      forall j | 0 <= j < |t.items| ensures Fits(t, t.items[j]) {
        assert Fits(s, s.items[j]);
      }
      forall n | n in t.messages && ((t.listed && t.messages[n].sending) || !t.sent) ensures Has(t.items, n) {
        var j :| 0 <= j < |s.items| && s.items[j].msgId == n;
        assert t.items[j].msgId == n;
      }
      forall n | n in t.uploads && n in t.messages ensures Awaits(t, n) {
        MoveAwaits(s, caption, n);
      }
      SampleExactly(s.items, s.messages);
    }
  }

  lemma SendCommutes(s: State, m: MsgId)
    requires !Has(s.items, m)
    ensures var t := SendIfReady(s); t.(messages := t.messages - {m}) == SendIfReady(s.(messages := s.messages - {m}))
  {
    SampleWithout(s.items, s.messages, m);
  }

  lemma RemoveItemIs(s: State, m: MsgId)
    requires Inv(s) && m in s.messages && Has(s.items, m)
    ensures Inv(RemoveItem(s, m).(messages := RemoveItem(s, m).messages - {m}))  || !(s.listed || s.sent)
    ensures !Has(RemoveItem(s, m).items, m)
  {
    var i := IndexOf(s.items, m);
    var t := s.(items := s.items[..i] + s.items[i + 1..], messages := s.messages - {m});
    if s.listed || s.sent {
      EraseKeepsInv(s, i);
    }
    assert !Has(t.items, m);
    if i == 0 && |s.items| > 1 {
      if s.listed || s.sent { MoveKeepsInv(t, s.messages[m].caption); }
      MoveCommutes(s.(items := t.items), s.messages[m].caption, m);
    }
  }

  lemma MoveCommutes(s: State, caption: string, m: MsgId)
    requires s.items != [] && !Has(s.items, m)
    ensures var t := MoveCaption(s, caption);
      t.(messages := t.messages - {m}) == MoveCaption(s.(messages := s.messages - {m}), caption)
    ensures !Has(MoveCaption(s, caption).items, m)
  {
    var t, u := MoveCaption(s, caption), MoveCaption(s.(messages := s.messages - {m}), caption);
    assert s.items[0].msgId != m;
    assert t.messages - {m} == u.messages;
    forall j | 0 <= j < |t.items| ensures t.items[j].msgId != m {
      assert t.items[j].msgId == s.items[j].msgId;
    }
  }

  // A message that is destroyed takes its item along, before the album is looked at.
  lemma DestroyKeepsInv(s: State, m: MsgId)
    requires Inv(s) && m in s.messages
    ensures Inv(Destroy(s, m))
    ensures s.messages[m].sending && s.listed ==> Has(s.items, m)
  {
    if s.messages[m].sending && s.listed {
      var r := RemoveItem(s, m);
      RemoveItemIs(s, m);
      SendCommutes(r, m);
      SendKeepsInv(r.(messages := r.messages - {m}));
    } else {
      VanishKeepsInv(s, m);
    }
  }

  lemma FailKeepsInv(s: State, ids: set<MsgId>)
    requires Inv(s) && s.sent
    ensures Inv(s.(messages := Fail(s.messages, ids)))
  {}

  lemma UploadsKeepInv(s: State, m: MsgId)
    requires Inv(s)
    ensures Inv(Step(s, UploadAsked(m))) && Inv(s.(uploads := s.uploads - {m}))
  {
    var t := Step(s, UploadAsked(m));
    if t != s {
      forall n | n in t.uploads && n in t.messages ensures Awaits(t, n) {
        if n == m {
          AwaitsWhenAsked(s, m);
        } else {
          assert Awaits(s, n);
        }
      }
    }
  }

  lemma AwaitsWhenAsked(s: State, m: MsgId)
    requires Inv(s) && m in s.messages && m !in s.asked
    ensures Awaits(s, m)
  {
    var i :| 0 <= i < |s.items| && s.items[i].msgId == m;
    assert Fits(s, s.items[i]);
    SampleExactly(s.items, s.messages);
  }

  lemma StepKeepsInv(s: State, e: Event)
    requires Inv(s)
    ensures Inv(Step(s, e))
  {
    match e
    case Confirmed(task, m, caption) => ConfirmKeepsInv(s, task, m, caption);
    case TaskFailed(task) => TaskFailedKeepsInv(s, task);
    case UploadAsked(m) => UploadsKeepInv(s, m);
    case Uploaded(m, input, randomId) =>
      UploadsKeepInv(s, m);
      if m in s.uploads && m in s.messages {
        FillKeepsInv(s, m, input, randomId);
        SendKeepsInv(FillMedia(s.(uploads := s.uploads - {m}), m, input, randomId));
      }
    case UploadFailed(m) => UploadsKeepInv(s, m);
    case Destroyed(m) => if m in s.messages { DestroyKeepsInv(s, m); }
    case Vanished(m) => VanishKeepsInv(s, m);
    case Delivered(m) => if s.sent { FailKeepsInv(s, {m}); }
    case SendDone =>
    case SendFailed =>
      if s.awaiting && s.log != [] { FailKeepsInv(s, Ids(s.items)); FailKeepsInv(s, {s.log[0].sample}); }
  }

  lemma StartIsGood(tasks: seq<TaskId>, price: int)
    requires forall i, j :: 0 <= i < j < |tasks| ==> tasks[i] != tasks[j]
    ensures Inv(Start(tasks, price))
  {}

  // In every run an album is sent at most once.
  lemma {:induction false} RunKeepsInv(tasks: seq<TaskId>, price: int, events: seq<Event>)
    requires forall i, j :: 0 <= i < j < |tasks| ==> tasks[i] != tasks[j]
    ensures Inv(Run(tasks, price, events)) && |Run(tasks, price, events).log| <= 1
    decreases |events|
  {
    if events == [] {
      StartIsGood(tasks, price);
    } else {
      RunKeepsInv(tasks, price, events[..|events| - 1]);
      StepKeepsInv(Run(tasks, price, events[..|events| - 1]), events[|events| - 1]);
    }
  }

  // What was sent is what the album holds, and each caption that of the message.
  ghost predicate Holds(s: State, sending: Sending) {
    && s.items != [] && AllUploaded(s.items)
    && (forall i :: 0 <= i < |s.items| && s.items[i].msgId in s.messages ==>
      s.items[i].media.value.caption == s.messages[s.items[i].msgId].caption)
    && match sending
      case Paid(_, randomId, inputs) => s.price > 0 && inputs == Inputs(s.items) && randomId == s.items[0].media.value.randomId
      case Single(_, input, randomId) => |s.items| == 1 && s.items[0].media == Some(Media(input, randomId, s.items[0].media.value.caption))
      case Multi(_, medias) => |s.items| > 1 && medias == Medias(s.items)
  }

  lemma SendsWhatRemains(s: State, e: Event)
    requires Inv(s) && !s.sent && Step(s, e).sent
    ensures |Step(s, e).log| == 1 && Holds(Step(s, e), Step(s, e).log[0])
    ensures e.Uploaded? || e.Destroyed?
  {
    match e
    case Uploaded(m, input, randomId) =>
      if m in s.messages && m in s.uploads {
        FillKeepsInv(s, m, input, randomId);
        ReadyHolds(FillMedia(s.(uploads := s.uploads - {m}), m, input, randomId));
      }
    case Destroyed(m) =>
      RemoveItemIs(s, m);
      SendCommutes(RemoveItem(s, m), m);
      ReadyHolds(RemoveItem(s, m).(messages := RemoveItem(s, m).messages - {m}));
    case _ =>
  }

  lemma ReadyHolds(s: State)
    requires Inv(s) && !s.sent && SendIfReady(s).sent
    ensures |SendIfReady(s).log| == 1 && Holds(SendIfReady(s), SendIfReady(s).log[0])
  {
    forall i | 0 <= i < |s.items| ensures Fits(s, s.items[i]) {}
  }

  // ----- An album may wait although nothing is missing

  predicate Stalled(s: State) {
    !s.sent && s.items != [] && AllUploaded(s.items) && Sample(s.items, s.messages) != 0
  }

  lemma VanishSample(s: State, m: MsgId)
    requires Inv(s)
    ensures Sample(s.items, s.messages) == 0 ==> Sample(s.items, s.messages - {m}) == 0
  {
    SampleExactly(s.items, s.messages);
    SampleExactly(s.items, s.messages - {m});
  }

  lemma ConfirmedWaits(s: State, task: TaskId, m: MsgId, caption: string)
    requires Inv(s) && !Stalled(s)
    ensures !Stalled(Step(s, Confirmed(task, m, caption)))
  {
    var t, i := Step(s, Confirmed(task, m, caption)), TaskIndex(s.items, task);
    if t != s {
      assert Fits(s, s.items[i]);
      assert t.items[i].media.None?;
    }
  }

  lemma TaskFailedStalls(s: State, task: TaskId)
    requires Inv(s) && !Stalled(s)
    ensures var i := TaskIndex(s.items, task);
      Stalled(Step(s, TaskFailed(task))) <==>
        && !s.sent && |s.items| > 1 && Sample(s.items, s.messages) != 0
        && i < |s.items| && s.items[i].msgId == 0 && forall j :: 0 <= j < |s.items| && j != i ==> s.items[j].media.Some?
  {
    var i := TaskIndex(s.items, task);
    if i < |s.items| && s.items[i].msgId == 0 {
      RestUploaded(s.items, i);
      RestSample(s.items, s.messages, i);
    }
  }

  lemma RestUploaded(items: seq<Item>, i: nat)
    requires i < |items|
    ensures AllUploaded(items[..i] + items[i + 1..]) <==> forall j :: 0 <= j < |items| && j != i ==> items[j].media.Some?
  {
    var rest := items[..i] + items[i + 1..];
    assert forall j :: 0 <= j < |rest| ==> rest[j] == items[if j < i then j else j + 1];
    assert forall j :: 0 <= j < |items| && j != i ==> items[j] == rest[if j < i then j else j - 1];
  }

  lemma {:induction false} RestSample(items: seq<Item>, messages: map<MsgId, Message>, i: nat)
    requires i < |items| && items[i].msgId !in messages
    ensures Sample(items[..i] + items[i + 1..], messages) == Sample(items, messages)
  {
    if i == 0 {
      assert items[..0] + items[1..] == items[1..];
    } else {
      RestSample(items[1..], messages, i - 1);
      assert (items[..i] + items[i + 1..])[1..] == items[1..][..i - 1] + items[1..][i..];
    }
  }

  lemma FilledGoes(s: State, m: MsgId, input: Input, randomId: RandomId)
    requires Inv(s) && !Stalled(s) && m in s.uploads && m in s.messages
    ensures !Stalled(SendIfReady(FillMedia(s.(uploads := s.uploads - {m}), m, input, randomId)))
  {
    FillKeepsInv(s, m, input, randomId);
    SendsExactly(FillMedia(s.(uploads := s.uploads - {m}), m, input, randomId));
  }

  lemma DestroyedGoes(s: State, m: MsgId)
    requires Inv(s) && !Stalled(s) && m in s.messages
    ensures !Stalled(Destroy(s, m))
  {
    DestroyKeepsInv(s, m);
    if s.messages[m].sending && s.listed {
      RemoveItemIs(s, m);
      SendCommutes(RemoveItem(s, m), m);
    } else {
      VanishSample(s, m);
    }
  }

  // This comes about just when the last file that is not uploaded cannot be prepared: the
  // file is dropped, and nobody looks at the album.
  lemma StallsExactly(s: State, e: Event)
    requires Inv(s) && !Stalled(s)
    ensures Stalled(Step(s, e)) <==>
      && e.TaskFailed? && !s.sent && |s.items| > 1 && Sample(s.items, s.messages) != 0
      && var i := TaskIndex(s.items, e.taskId);
        i < |s.items| && s.items[i].msgId == 0 && forall j :: 0 <= j < |s.items| && j != i ==> s.items[j].media.Some?
  {
    match e
    case TaskFailed(task) => TaskFailedStalls(s, task);
    case Confirmed(task, m, caption) => ConfirmedWaits(s, task, m, caption);
    case Uploaded(m, input, randomId) =>
      if m in s.uploads && m in s.messages { FilledGoes(s, m, input, randomId); }
    case Destroyed(m) =>
      if m in s.messages { DestroyedGoes(s, m); }
    case Vanished(m) => VanishSample(s, m);
    case _ =>
  }

  // Then only the end of a message can make the album go.
  lemma StallLasts(s: State, e: Event)
    requires Inv(s) && Stalled(s) && !e.Destroyed? && !e.Vanished?
    ensures Stalled(Step(s, e)) && Step(s, e).items == s.items && Step(s, e).log == []
  {
    forall i | 0 <= i < |s.items| ensures s.items[i].msgId != 0 {
      assert Fits(s, s.items[i]);
    }
    assert forall m :: !Awaits(s, m);
  }

  // It happens to an album of two files when the second one cannot be prepared after the
  // first one is uploaded.
  lemma AlbumStalls()
    ensures var s := Run([1, 2], 0, [Confirmed(1, 11, "c"), UploadAsked(11), Uploaded(11, 5, 6), TaskFailed(2)]);
      Stalled(s) && s.items == [Item(1, 11, 6, Some(Media(5, 6, "c")))] && s.listed && s.uploads == {} && s.log == []
  {
    var a, b, c, d := Confirmed(1, 11, "c"), UploadAsked(11), Uploaded(11, 5, 6), TaskFailed(2);
    assert [] + [a] == [a] && [a] + [b] == [a, b] && [a, b] + [c] == [a, b, c] && [a, b, c] + [d] == [a, b, c, d];
    RunMore([1, 2], 0, [], a);
    RunMore([1, 2], 0, [a], b);
    RunMore([1, 2], 0, [a, b], c);
    RunMore([1, 2], 0, [a, b, c], d);
    FirstIsUploaded();
    var s := FirstUploaded();
    assert s.items[1..][0] == s.items[1] && TaskIndex(s.items[1..], 2) == 0 && TaskIndex(s.items, 2) == 1;
    assert s.items[..1] + s.items[2..] == [s.items[0]];
  }

  function FirstUploaded(): State {
    State([Item(1, 11, 6, Some(Media(5, 6, "c"))), Item(2, 0, 0, None)], false, true, 0, map[11 := Message("c", true)],
      {}, {11}, [], false)
  }

  lemma FirstIsUploaded()
    ensures Step(Step(Step(Start([1, 2], 0), Confirmed(1, 11, "c")), UploadAsked(11)), Uploaded(11, 5, 6)) == FirstUploaded()
  {
    var s := Start([1, 2], 0);
    assert s.items == [Item(1, 0, 0, None), Item(2, 0, 0, None)] && TaskIndex(s.items, 1) == 0;
    var t := Step(s, Confirmed(1, 11, "c"));
    assert t.items == [Item(1, 11, 0, None), Item(2, 0, 0, None)] && IndexOf(t.items, 11) == 0;
    var u := Step(t, UploadAsked(11));
    assert u == t.(uploads := {11}, asked := {11});
    var v := FillMedia(u.(uploads := {}), 11, 5, 6);
    assert v == FirstUploaded();
    assert v.items[1].media.None?;
  }

  // ----- `ApiWrap` and `SendingAlbum`, updated in place

  class SendingAlbum {
    var items: seq<Item>
    var sent: bool
    var listed: bool
    var price: int
    var messages: map<MsgId, Message>
    var uploads: set<MsgId>
    var asked: set<MsgId>
    var log: seq<Sending>
    var awaiting: bool

    function Value(): State
      reads this
    {
      State(items, sent, listed, price, messages, uploads, asked, log, awaiting)
    }

    constructor (tasks: seq<TaskId>, price: int)
      ensures Value() == Start(tasks, price)
    {
      items := seq(|tasks|, i requires 0 <= i < |tasks| => Item(tasks[i], 0, 0, None));
      sent, listed, this.price, messages := false, true, price, map[];
      uploads, asked, log, awaiting := {}, {}, [], false;
    }

    // `FindAlbumItem`, which must find one.
    method FindAlbumItem(msgId: MsgId) returns (i: nat)
      requires Has(items, msgId)
      ensures i == IndexOf(items, msgId) < |items|
    {
      i := 0;
      while i < |items| && items[i].msgId != msgId
        invariant i <= |items| && forall k :: 0 <= k < i ==> items[k].msgId != msgId
      {
        i := i + 1;
      }
      assert IndexOf(items, msgId) < |items|;
    }

    method FillMediaOf(msgId: MsgId, input: Input, randomId: RandomId)
      requires Has(items, msgId) && items[IndexOf(items, msgId)].media.None? && msgId in messages
      modifies this`items
      ensures Value() == FillMedia(old(Value()), msgId, input, randomId)
    {
      var i := FindAlbumItem(msgId);
      items := items[i := items[i].(randomId := randomId)];
      items := items[i := items[i].(media := Some(Media(input, randomId, messages[msgId].caption)))];
    }

    method RemoveItemOf(msgId: MsgId)
      requires Inv(Value()) && Has(items, msgId) && msgId in messages
      modifies this`items, this`messages
      ensures Value() == RemoveItem(old(Value()), msgId)
    {
      var i := FindAlbumItem(msgId);
      var moveCaption := |items| > 1 && i == 0;
      items := items[..i] + items[i + 1..];
      if moveCaption {
        var caption := messages[msgId].caption;
        var firstId := items[0].msgId;
        if firstId in messages {
          var firstCaption := messages[firstId].caption;
          var joined := if firstCaption == "" then caption else firstCaption + "\n" + caption;
          messages := messages[firstId := messages[firstId].(caption := joined)];
          RefreshMediaCaption(firstId);
        }
      }
    }

    method RefreshMediaCaption(msgId: MsgId)
      requires Has(items, msgId) && msgId in messages
      modifies this`items
      ensures items == Recaptioned(old(items), IndexOf(old(items), msgId), messages[msgId].caption)
    {
      var i := FindAlbumItem(msgId);
      if items[i].media == None {
        return;
      }
      items := items[i := items[i].(media := Some(items[i].media.value.(caption := messages[msgId].caption)))];
    }

    method SendAlbumIfReady()
      requires 0 !in messages
      modifies this
      ensures Value() == SendIfReady(old(Value()))
    {
      if sent {
        return;
      }
      if items == [] {
        listed := false;
        return;
      }
      var sample, medias := 0, [];
      for i := 0 to |items|
        invariant unchanged(this)
        invariant AllUploaded(items[..i]) && medias == Medias(items[..i])
        invariant Sample(items, messages) == if sample != 0 then sample else Sample(items[i..], messages)
      {
        if items[i].media == None {
          return;
        } else if sample == 0 && items[i].msgId in messages {
          sample := items[i].msgId;
        }
        medias := medias + [items[i].media.value];
        assert forall k :: 0 <= k <= i ==> items[..i + 1][k] == items[k];
        assert items[i..][1..] == items[i + 1..];
      }
      assert items[..|items|] == items;
      if sample == 0 {
        listed := false;
        return;
      } else if price > 0 {
        sent := true;
        log := log + [Paid(sample, items[0].randomId, Inputs(items))];
        awaiting := true;
        return;
      } else if |medias| < 2 {
        sent := true;
        log := log + [Single(sample, medias[0].input, medias[0].randomId)];
        awaiting := true;
        listed := false;
        return;
      }
      sent := true;
      log := log + [Multi(sample, medias)];
      awaiting := true;
    }

    // The answer to `uploadAlbumMedia`, and `sendAlbumWithUploaded`; whatever they assert
    // about the album and the item holds.
    method UploadDone(msgId: MsgId, input: Input, randomId: RandomId)
      requires Inv(Value()) && msgId in uploads
      modifies this
      ensures Value() == Step(old(Value()), Uploaded(msgId, input, randomId))
    {
      assert msgId in messages ==> Awaits(Value(), msgId);
      uploads := uploads - {msgId};
      if msgId !in messages {
        return;
      }
      assert listed;
      FillMediaOf(msgId, input, randomId);
      SendAlbumIfReady();
    }

    // `History::destroyMessage` with `cancelLocalItem` and `sendAlbumWithCancelled`.
    method DestroyMessage(msgId: MsgId)
      requires Inv(Value()) && msgId in messages
      modifies this
      ensures Value() == Step(old(Value()), Destroyed(msgId))
    {
      if messages[msgId].sending && listed {
        RemoveItemOf(msgId);
        SendAlbumIfReady();
      }
      messages := messages - {msgId};
    }

    // The answers to what was sent.
    method SendSucceeded()
      requires Inv(Value()) && awaiting && log != []
      modifies this
      ensures Value() == Step(old(Value()), SendDone)
    {
      var took := listed;
      awaiting, listed := false, false;
      if log[0].Paid? && took {
        for i := 0 to |items|
          invariant i <= |items| && messages == old(messages) - Ids(items[..i])
          invariant Value() == old(Value()).(awaiting := false, listed := false, messages := messages)
        {
          assert Ids(items[..i + 1]) == Ids(items[..i]) + {items[i].msgId} by { IdsMore(items, i); }
          messages := messages - {items[i].msgId};
        }
        assert items[..|items|] == items;
      }
    }

    method SendDidNotSucceed()
      requires Inv(Value()) && awaiting && log != []
      modifies this
      ensures Value() == Step(old(Value()), SendFailed)
    {
      awaiting := false;
      if log[0].Multi? {
        var took := listed;
        listed := false;
        if took {
          assert messages == Fail(old(messages), Ids(items[..0]));
          for i := 0 to |items|
            invariant i <= |items| && messages == Fail(old(messages), Ids(items[..i]))
            invariant Value() == old(Value()).(awaiting := false, listed := false, messages := messages)
          {
            IdsMore(items, i);
            FailMessage(items[i].msgId);
            assert messages == Fail(old(messages), Ids(items[..i + 1]));
          }
          assert items[..|items|] == items;
        }
      } else {
        FailMessage(log[0].sample);
      }
    }

    // `sendMessageFail`
    method FailMessage(msgId: MsgId)
      modifies this`messages
      ensures messages == Fail(old(messages), {msgId})
    {
      if msgId in messages {
        messages := messages[msgId := messages[msgId].(sending := false)];
      }
    }

    // `FileLoadTask::removeFromAlbum`
    method RemoveFromAlbum(taskId: TaskId)
      requires TaskIndex(items, taskId) < |items| && items[TaskIndex(items, taskId)].msgId == 0
      modifies this`items
      ensures Value() == Step(old(Value()), TaskFailed(taskId))
    {
      var i := 0;
      while items[i].taskId != taskId
        invariant i < |items| && forall k :: 0 <= k < i ==> items[k].taskId != taskId
        decreases |items| - i
      {
        i := i + 1;
      }
      assert i == TaskIndex(items, taskId);
      items := items[..i] + items[i + 1..];
    }
  }

  lemma IdsMore(items: seq<Item>, i: nat)
    requires i < |items|
    ensures Ids(items[..i + 1]) == Ids(items[..i]) + {items[i].msgId}
  {
    assert items[..i + 1] == items[..i] + [items[i]];
    forall m | m in Ids(items[..i]) ensures m in Ids(items[..i + 1]) {
      var j :| 0 <= j < i && items[..i][j].msgId == m;
      assert items[..i + 1][j].msgId == m;
    }
    assert items[..i + 1][i].msgId in Ids(items[..i + 1]);
  }
}
