/** The cached first slices of my invite links (`api_invite_links.cpp`). */
module InviteLinks {

  type Peer = nat

  // `rest` stands for the fields no branch looks at.
  datatype Link = Link(link: string, permanent: bool, revoked: bool, usage: int, rest: int)

  datatype Links = Links(links: seq<Link>, count: int)

  const EMPTY := Links([], 0)

  predicate Active(l: Link) { l.permanent && !l.revoked }

  // ----- The operations on one slice

  // `lookupMyPermanent` finds nothing but the first link.
  predicate HasPermanent(s: Links) { s.links != [] && Active(s.links[0]) }

  function Decremented(count: int): int { if count > 0 then count - 1 else count }

  function DropFirst(s: Links): Links
    requires s.links != []
  {
    Links(s.links[1..], Decremented(s.count))
  }

  function Prepended(s: Links, l: Link): Links {
    var t := if l.permanent && HasPermanent(s) then DropFirst(s) else s;
    if HasPermanent(s) && !l.permanent then
      Links([t.links[0], l] + t.links[1..], t.count + 1)
    else
      Links([l] + t.links, t.count + 1)
  }

  // The first link with the given text, or the length of the list.
  function Find(links: seq<Link>, text: string): (i: nat)
    ensures i <= |links| && (i < |links| ==> links[i].link == text)
    ensures forall k :: 0 <= k < i ==> links[k].link != text
  {
    if links == [] || links[0].link == text then 0 else 1 + Find(links[1..], text)
  }

  function Edited(s: Links, key: string, l: Link): Links {
    var j := Find(s.links, key);
    if j == |s.links| then s
    else if l.revoked && !s.links[j].revoked then
      Links(s.links[..j] + s.links[j + 1..], Decremented(s.count))
    else s.(links := s.links[j := l])
  }

  function Updated(s: Links, l: Link): Links {
    s.(links := seq(|s.links|, i requires 0 <= i < |s.links| => if s.links[i].link == l.link then l else s.links[i]))
  }

  // A permanent link becomes the first one; the same link only gets its usage updated.
  function PermanentSet(s: Links, l: Link): Links {
    if !HasPermanent(s) then s.(links := [l] + s.links)
    else if s.links[0].link == l.link then s.(links := s.links[0 := s.links[0].(usage := l.usage)])
    else var t := DropFirst(s); t.(links := [l] + t.links)
  }

  function PermanentCleared(s: Links): Links { if HasPermanent(s) then DropFirst(s) else s }

  // What `parseSlice` leaves out, and what `RemovePermanent` does.
  function WithoutLink(links: seq<Link>, text: string): seq<Link> {
    if links == [] then []
    else
      var l := links[|links| - 1];
      WithoutLink(links[..|links| - 1], text) + (if l.link != text then [l] else [])
  }

  function WithoutActive(links: seq<Link>): seq<Link> {
    if links == [] then []
    else
      var l := links[|links| - 1];
      WithoutActive(links[..|links| - 1]) + (if Active(l) then [] else [l])
  }

  function FindActive(links: seq<Link>): (i: nat)
    ensures i <= |links| && (i < |links| ==> Active(links[i]))
    ensures forall k :: 0 <= k < i ==> !Active(links[k])
  {
    if links == [] || Active(links[0]) then 0 else 1 + FindActive(links[1..])
  }

  function ToFront(links: seq<Link>): seq<Link> {
    var i := FindActive(links);
    if i < |links| then [links[i]] + links[..i] + links[i + 1..] else links
  }

  // A slice of the server takes the place of everything but my permanent link.
  function Merged(s: Links, slice: Links): Links {
    if !HasPermanent(s) then slice.(links := ToFront(slice.links))
    else
      var links := [s.links[0]] + WithoutActive(WithoutLink(slice.links, s.links[0].link));
      Links(links, if slice.count < |links| then |links| else slice.count)
  }

  // ----- What the operations change

  // My permanent link, if it is the first one, and all others.
  function Others(s: Links): seq<Link> {
    if s.links != [] && s.links[0].permanent && !s.links[0].revoked then s.links[1..] else s.links
  }

  // The new link comes first, or right after my permanent one if it is not permanent; it
  // takes the place of that one if it is. All others stay as they are.
  lemma PrependedExactly(s: Links, l: Link)
    ensures var t, had := Prepended(s, l), |Others(s)| < |s.links|;
      && t.links[|t.links| - |Others(s)|..] == Others(s)
      && (if had && !l.permanent then |t.links| == |Others(s)| + 2 && t.links[0] == s.links[0] && t.links[1] == l
          else |t.links| == |Others(s)| + 1 && t.links[0] == l)
      && t.count == s.count + (if had && l.permanent && s.count > 0 then 0 else 1)
  {}

  ghost predicate IsFirst(links: seq<Link>, text: string, j: int) {
    0 <= j < |links| && links[j].link == text && forall k :: 0 <= k < j ==> links[k].link != text
  }

  // The first link with the text is replaced where it is, or goes if it is revoked now.
  lemma EditedExactly(s: Links, key: string, l: Link, j: int)
    ensures (forall k :: !IsFirst(s.links, key, k)) ==> Edited(s, key, l) == s
    ensures IsFirst(s.links, key, j) ==>
      var t, goes := Edited(s, key, l), l.revoked && !s.links[j].revoked;
      && |t.links| == |s.links| - (if goes then 1 else 0)
      && t.links[..j] == s.links[..j]
      && (if goes then t.links[j..] == s.links[j + 1..] else t.links[j] == l && t.links[j + 1..] == s.links[j + 1..])
      && t.count == s.count - (if goes && s.count > 0 then 1 else 0)
  {
    if Find(s.links, key) < |s.links| {
      assert IsFirst(s.links, key, Find(s.links, key));
    }
  }

  // All links with the text are replaced.
  lemma UpdatedExactly(s: Links, l: Link)
    ensures var t := Updated(s, l);
      && |t.links| == |s.links| && t.count == s.count
      && forall i :: 0 <= i < |s.links| ==> t.links[i] == if s.links[i].link == l.link then l else s.links[i]
  {}

  // A new permanent link comes first, in place of the old one; the known one only gets its usage.
  lemma PermanentSetExactly(s: Links, l: Link)
    ensures var t, had := PermanentSet(s, l), |Others(s)| < |s.links|;
      && |t.links| == |Others(s)| + 1 && t.links[1..] == Others(s)
      && (if had && s.links[0].link == l.link then
            t.links[0] == s.links[0].(usage := l.usage) && t.count == s.count
          else t.links[0] == l && t.count == s.count - (if had && s.count > 0 then 1 else 0))
  {}

  lemma ClearedExactly(s: Links)
    ensures PermanentCleared(s).links == Others(s)
    ensures PermanentCleared(s).count == s.count - (if |Others(s)| < |s.links| && s.count > 0 then 1 else 0)
  {}

  // ----- My permanent link comes first

  ghost predicate PermanentFirst(s: Links) {
    forall i :: 0 < i < |s.links| ==> !Active(s.links[i])
  }

  lemma PrependKeepsFirst(s: Links, l: Link)
    requires PermanentFirst(s)
    ensures PermanentFirst(Prepended(s, l))
    ensures HasPermanent(Prepended(s, l)) <==> Active(l) || (HasPermanent(s) && !l.permanent)
  {}

  // An edited link breaks the order exactly if it is not the first one and comes back active.
  lemma EditKeepsFirst(s: Links, key: string, l: Link)
    requires PermanentFirst(s)
    ensures PermanentFirst(Edited(s, key, l)) <==> !(0 < Find(s.links, key) < |s.links| && Active(l))
  {
    var j := Find(s.links, key);
    if 0 < j < |s.links| && Active(l) {
      assert Edited(s, key, l).links[j] == l;
    }
  }

  lemma UpdateKeepsFirst(s: Links, l: Link)
    requires PermanentFirst(s)
    ensures PermanentFirst(Updated(s, l)) <==>
      !(Active(l) && exists i :: 0 < i < |s.links| && s.links[i].link == l.link)
  {
    if i :| 0 < i < |s.links| && s.links[i].link == l.link {
      assert Updated(s, l).links[i] == l;
    }
  }

  lemma SetKeepsFirst(s: Links, l: Link)
    requires PermanentFirst(s)
    ensures PermanentFirst(PermanentSet(s, l))
  {}

  lemma ClearKeepsFirst(s: Links)
    requires PermanentFirst(s)
    ensures PermanentFirst(PermanentCleared(s)) && !HasPermanent(PermanentCleared(s))
  {}

  lemma {:induction false} NoneActive(links: seq<Link>)
    ensures forall l :: l in WithoutActive(links) <==> l in links && !Active(l)
  {
    if links != [] {
      NoneActive(links[..|links| - 1]);
      assert links == links[..|links| - 1] + [links[|links| - 1]];
    }
  }

  // The slice may hold at most one active permanent link, and only if I have none yet.
  lemma MergeKeepsFirst(s: Links, slice: Links)
    requires PermanentFirst(s)
    ensures PermanentFirst(Merged(s, slice)) <==>
      HasPermanent(s) || forall i, j :: 0 <= i < j < |slice.links| ==> !(Active(slice.links[i]) && Active(slice.links[j]))
  {
    if HasPermanent(s) {
      NoneActive(WithoutLink(slice.links, s.links[0].link));
    } else {
      var k := FindActive(slice.links);
      var links := ToFront(slice.links);
      if k < |slice.links| {
        assert forall i :: 0 < i < |links| ==> links[i] == slice.links[if i <= k then i - 1 else i];
        assert forall i :: k < i < |links| ==> slice.links[i] == links[i];
      }
    }
  }

  // ----- The count covers the list, unless a permanent link is set

  ghost predicate Covered(s: Links) { s.count >= |s.links| }

  lemma CountCovers(s: Links, l: Link, key: string, slice: Links)
    requires Covered(s) && Covered(slice)
    ensures Covered(Prepended(s, l))
    ensures Covered(Edited(s, key, l))
    ensures Covered(Updated(s, l))
    ensures Covered(PermanentCleared(s))
    ensures Covered(Merged(s, slice))
  {
    if HasPermanent(s) {
      assert Covered(DropFirst(s));
    }
  }

  // `setMyPermanent` adds a link without counting it.
  lemma SetCovers(s: Links, l: Link)
    requires Covered(s)
    ensures Covered(PermanentSet(s, l)) <==>
      s.count > |s.links| || (HasPermanent(s) && s.links[0].link == l.link)
  {}

  // ----- Nothing is lost by a merge

  lemma FrontMultiset(links: seq<Link>)
    ensures multiset(ToFront(links)) == multiset(links)
  {
    var i := FindActive(links);
    if i < |links| {
      assert links == links[..i] + [links[i]] + links[i + 1..];
    }
  }

  lemma {:induction false} NoneLinked(links: seq<Link>, text: string)
    ensures forall l :: l in WithoutLink(links, text) <==> l in links && l.link != text
  {
    if links != [] {
      NoneLinked(links[..|links| - 1], text);
      assert links == links[..|links| - 1] + [links[|links| - 1]];
    }
  }

  lemma MergeContents(s: Links, slice: Links, l: Link)
    ensures l in Merged(s, slice).links <==>
      if HasPermanent(s) then l == s.links[0] || (l in slice.links && l.link != s.links[0].link && !Active(l))
      else l in slice.links
  {
    if HasPermanent(s) {
      NoneLinked(slice.links, s.links[0].link);
      NoneActive(WithoutLink(slice.links, s.links[0].link));
    } else {
      FrontMultiset(slice.links);
      assert l in multiset(ToFront(slice.links)) <==> l in multiset(slice.links);
    }
  }

  // Filters keep the order.
  lemma {:induction false} WithoutSplits(a: seq<Link>, b: seq<Link>, text: string, l: Link)
    ensures WithoutLink(a + b, text) == WithoutLink(a, text) + WithoutLink(b, text)
    ensures WithoutActive(a + b) == WithoutActive(a) + WithoutActive(b)
    ensures WithoutLink([l], text) == if l.link == text then [] else [l]
    ensures WithoutActive([l]) == if l.permanent && !l.revoked then [] else [l]
    decreases |b|
  {
    assert [l][..0] == [] && WithoutLink([l][..0], text) == [] && WithoutActive([l][..0]) == [];
    if b == [] {
      assert a + b == a;
    } else {
      WithoutSplits(a, b[..|b| - 1], text, l);
      assert (a + b)[..|a + b| - 1] == a + b[..|b| - 1];
    }
  }

  // The whole slice after a merge: mine stays first and its count covers what is there, or
  // the first active permanent link received comes first and the others follow in order.
  lemma MergedExactly(s: Links, slice: Links, j: int)
    ensures |Others(s)| < |s.links| ==>
      var t := Merged(s, slice);
      && t.links[..1] == s.links[..1] && t.links[1..] == WithoutActive(WithoutLink(slice.links, s.links[0].link))
      && t.count >= slice.count && t.count >= |t.links| && (t.count == slice.count || t.count == |t.links|)
    ensures |Others(s)| == |s.links| ==>
      var t := Merged(s, slice);
      && t.count == slice.count
      && ((forall l :: l in slice.links ==> !(l.permanent && !l.revoked)) ==> t.links == slice.links)
      && (0 <= j < |slice.links| && Active(slice.links[j]) && (forall k :: 0 <= k < j ==> !Active(slice.links[k])) ==>
            t.links[0] == slice.links[j] && t.links[1..] == slice.links[..j] + slice.links[j + 1..])
  {}

  // ----- The whole cache, and the link shown for each chat

  datatype Invite = Exported(link: Link) | PublicJoinRequests

  datatype Cache = Cache(slices: map<Peer, Links>, chatLink: map<Peer, string>)

  datatype Event =
    | Created(peer: Peer, invite: Invite)
    | EditDone(peer: Peer, key: string, invite: Invite, replacement: Invite)
    | ExternalUpdate(peer: Peer, link: Link)
    | PermanentReceived(peer: Peer, invite: Invite)
    | PermanentGone(peer: Peer)
    | SliceReceived(peer: Peer, invites: seq<Invite>, count: int)
    | Forgotten(peer: Peer)

  function Slice(c: Cache, peer: Peer): Links { if peer in c.slices then c.slices[peer] else EMPTY }

  function Parsed(invites: seq<Invite>): seq<Link> {
    if invites == [] then []
    else
      var i := invites[|invites| - 1];
      Parsed(invites[..|invites| - 1]) + (if i.Exported? then [i.link] else [])
  }

  function Prepend(c: Cache, peer: Peer, invite: Invite): Cache {
    if !invite.Exported? then c
    else
      var l := invite.link;
      Cache(
        c.slices[peer := Prepended(Slice(c, peer), l)],
        if l.permanent then c.chatLink[peer := l.link] else c.chatLink)
  }

  function Step(c: Cache, e: Event): Cache {
    match e
    case Created(peer, invite) => Prepend(c, peer, invite)
    case EditDone(peer, key, invite, replacement) =>
      if !invite.Exported? then c
      else
        var d := if peer in c.slices then c.(slices := c.slices[peer := Edited(c.slices[peer], key, invite.link)]) else c;
        Prepend(d, peer, replacement)
    case ExternalUpdate(peer, link) =>
      if peer in c.slices then c.(slices := c.slices[peer := Updated(c.slices[peer], link)]) else c
    case PermanentReceived(peer, invite) =>
      if !invite.Exported? || !invite.link.permanent then c
      else
        var s, l := Slice(c, peer), invite.link;
        Cache(
          c.slices[peer := PermanentSet(s, l)],
          if HasPermanent(s) && s.links[0].link == l.link then c.chatLink else c.chatLink[peer := l.link])
    case PermanentGone(peer) =>
      if peer !in c.slices || !HasPermanent(c.slices[peer]) then c
      else Cache(c.slices[peer := DropFirst(c.slices[peer])], c.chatLink[peer := ""])
    case SliceReceived(peer, invites, count) =>
      var s := Slice(c, peer);
      var t := Merged(s, Links(Parsed(invites), count));
      Cache(
        c.slices[peer := t],
        if !HasPermanent(s) && HasPermanent(t) then c.chatLink[peer := t.links[0].link] else c.chatLink)
    case Forgotten(peer) => c.(slices := c.slices - {peer})
  }

  lemma {:induction false} ParsedSplits(a: seq<Invite>, b: seq<Invite>, i: Invite)
    ensures Parsed(a + b) == Parsed(a) + Parsed(b)
    ensures Parsed([i]) == if i.Exported? then [i.link] else []
    decreases |b|
  {
    assert [i][..0] == [] && Parsed([i][..0]) == [];
    if b == [] {
      assert a + b == a;
    } else {
      ParsedSplits(a, b[..|b| - 1], i);
      assert (a + b)[..|a + b| - 1] == a + b[..|b| - 1];
    }
  }

  // What each event makes of the slice of its peer.
  ghost predicate Effect(s: Links, e: Event, t: Links) {
    match e
    case Created(_, Exported(l)) => t == Prepended(s, l)
    case EditDone(_, key, Exported(l), Exported(r)) => t == Prepended(Edited(s, key, l), r)
    case EditDone(_, key, Exported(l), _) => t == Edited(s, key, l)
    case ExternalUpdate(_, l) => t == Updated(s, l)
    case PermanentReceived(_, Exported(l)) => t == if l.permanent then PermanentSet(s, l) else s
    case PermanentGone(_) => t == PermanentCleared(s)
    case SliceReceived(_, invites, count) => t == Merged(s, Links(Parsed(invites), count))
    case Forgotten(_) => t == Links([], 0)
    case _ => t == s
  }

  // What an event does to the link shown for the chat.
  datatype Shown = Kept | Now(text: string)

  function ShownBy(s: Links, e: Event, t: Links): Shown {
    match e
    case Created(_, Exported(l)) => if l.permanent then Now(l.link) else Kept
    case EditDone(_, _, Exported(_), Exported(r)) => if r.permanent then Now(r.link) else Kept
    case PermanentReceived(_, Exported(l)) =>
      if l.permanent && !(|Others(s)| < |s.links| && s.links[0].link == l.link) then Now(l.link) else Kept
    case PermanentGone(_) => if |Others(s)| < |s.links| then Now("") else Kept
    case SliceReceived(_, _, _) =>
      if |Others(s)| == |s.links| && |Others(t)| < |t.links| then Now(t.links[0].link) else Kept
    case _ => Kept
  }

  // An event has its effect on its own peer, and none on any other.
  lemma StepExactly(c: Cache, e: Event, peer: Peer)
    ensures var d := Step(c, e);
      var s, t := Slice(c, peer), Slice(d, peer);
      && (if peer == e.peer then Effect(s, e, t) else t == s)
      && (if peer == e.peer && ShownBy(s, e, t).Now? then peer in d.chatLink && d.chatLink[peer] == ShownBy(s, e, t).text
          else (peer in d.chatLink <==> peer in c.chatLink) && (peer in c.chatLink ==> d.chatLink[peer] == c.chatLink[peer]))
  {
    assert forall l :: Updated(EMPTY, l) == EMPTY;
    assert forall key, l :: Edited(EMPTY, key, l) == EMPTY;
  }

  function Run(events: seq<Event>): Cache
    decreases |events|
  {
    if events == [] then Cache(map[], map[])
    else Step(Run(events[..|events| - 1]), events[|events| - 1])
  }

  // What is taken from the server: a link it sends again keeps its text and its
  // permanence and does not come back from being revoked, and a slice holds at most one
  // active permanent link.
  ghost predicate Same(before: Link, after: Link) {
    after.link == before.link && after.permanent == before.permanent && (before.revoked ==> after.revoked)
  }

  ghost predicate Trusted(c: Cache, e: Event) {
    match e
    case EditDone(peer, key, invite, _) =>
      invite.Exported? && peer in c.slices ==>
        var links := c.slices[peer].links;
        Find(links, key) < |links| ==> Same(links[Find(links, key)], invite.link)
    case ExternalUpdate(peer, link) =>
      peer in c.slices ==> forall l :: l in c.slices[peer].links && l.link == link.link ==> Same(l, link)
    case SliceReceived(_, invites, _) =>
      forall i, j :: 0 <= i < j < |invites| && invites[i].Exported? && invites[j].Exported? ==>
        !(Active(invites[i].link) && Active(invites[j].link))
    case _ => true
  }

  ghost predicate TrustedRun(events: seq<Event>)
    decreases |events|
  {
    events == [] || (TrustedRun(events[..|events| - 1]) && Trusted(Run(events[..|events| - 1]), events[|events| - 1]))
  }

  // In every cached slice my permanent link is the only active one, comes first, and is
  // the link shown for the chat.
  ghost predicate Inv(c: Cache) {
    forall peer :: peer in c.slices ==>
      && PermanentFirst(c.slices[peer])
      && (HasPermanent(c.slices[peer]) ==> peer in c.chatLink && c.chatLink[peer] == c.slices[peer].links[0].link)
  }

  lemma {:induction false} ParsedActive(invites: seq<Invite>)
    requires forall i, j :: 0 <= i < j < |invites| && invites[i].Exported? && invites[j].Exported? ==>
      !(Active(invites[i].link) && Active(invites[j].link))
    ensures forall i, j :: 0 <= i < j < |Parsed(invites)| ==> !(Active(Parsed(invites)[i]) && Active(Parsed(invites)[j]))
  {
    if invites != [] {
      var n := |invites| - 1;
      var rest, links := Parsed(invites[..n]), Parsed(invites);
      ParsedActive(invites[..n]);
      forall i, j | 0 <= i < j < |links| ensures !(Active(links[i]) && Active(links[j])) {
        assert links[i] == rest[i];
        if j == |rest| {
          ParsedFrom(invites[..n], rest[i]);
          var k :| 0 <= k < n && invites[..n][k] == Exported(rest[i]);
          assert invites[k] == Exported(rest[i]) && invites[n] == Exported(links[j]);
        }
      }
    }
  }

  lemma {:induction false} ParsedFrom(invites: seq<Invite>, l: Link)
    requires l in Parsed(invites)
    ensures exists i :: 0 <= i < |invites| && invites[i] == Exported(l)
  {
    var n := |invites| - 1;
    if l in Parsed(invites[..n]) {
      ParsedFrom(invites[..n], l);
      var i :| 0 <= i < n && invites[..n][i] == Exported(l);
      assert invites[i] == Exported(l);
    } else {
      assert invites[n] == Exported(l);
    }
  }

  lemma PrependKeepsInv(c: Cache, peer: Peer, invite: Invite)
    requires Inv(c)
    ensures Inv(Prepend(c, peer, invite))
  {
    if invite.Exported? {
      PrependKeepsFirst(Slice(c, peer), invite.link);
    }
  }

  lemma EditKeepsInv(c: Cache, peer: Peer, key: string, invite: Invite, replacement: Invite)
    requires Inv(c) && Trusted(c, EditDone(peer, key, invite, replacement))
    ensures Inv(Step(c, EditDone(peer, key, invite, replacement)))
  {
    if invite.Exported? {
      if peer in c.slices {
        EditKeepsFirst(c.slices[peer], key, invite.link);
      }
      var d := if peer in c.slices then c.(slices := c.slices[peer := Edited(c.slices[peer], key, invite.link)]) else c;
      assert Inv(d);
      PrependKeepsInv(d, peer, replacement);
    }
  }

  lemma StepKeepsInv(c: Cache, e: Event)
    requires Inv(c) && Trusted(c, e)
    ensures Inv(Step(c, e))
  {
    match e
    case Created(peer, invite) => PrependKeepsInv(c, peer, invite);
    case EditDone(peer, key, invite, replacement) => EditKeepsInv(c, peer, key, invite, replacement);
    case ExternalUpdate(peer, link) =>
      if peer in c.slices { UpdateKeepsFirst(c.slices[peer], link); }
    case PermanentReceived(peer, invite) =>
      if invite.Exported? { SetKeepsFirst(Slice(c, peer), invite.link); }
    case PermanentGone(peer) =>
    case SliceReceived(peer, invites, count) =>
      ParsedActive(invites);
      MergeKeepsFirst(Slice(c, peer), Links(Parsed(invites), count));
    case Forgotten(peer) =>
  }

  lemma {:induction false} RunKeepsInv(events: seq<Event>)
    requires TrustedRun(events)
    ensures Inv(Run(events))
    decreases |events|
  {
    if events != [] {
      RunKeepsInv(events[..|events| - 1]);
      StepKeepsInv(Run(events[..|events| - 1]), events[|events| - 1]);
    }
  }

  // It happens to the first link of a peer.
  lemma PermanentIsNotCounted(peer: Peer, l: Link)
    requires Active(l)
    ensures var s := Slice(Run([PermanentReceived(peer, Exported(l))]), peer); s == Links([l], 0) && !Covered(s)
  {
    assert [PermanentReceived(peer, Exported(l))][..0] == [];
  }

  // ----- `InviteLinks`, updated in place

  class InviteLinks {
    var firstSlices: map<Peer, Links>
    var chatLink: map<Peer, string>

    function Value(): Cache
      reads this
    {
      Cache(firstSlices, chatLink)
    }

    constructor ()
      ensures Value() == Run([])
    {
      firstSlices, chatLink := map[], map[];
    }

    method PrependMyToFirstSlice(peer: Peer, link: Link)
      modifies this
      ensures Value() == Prepend(old(Value()), peer, Exported(link))
    {
      if peer !in firstSlices {
        firstSlices := firstSlices[peer := EMPTY];
      }
      var links, count := firstSlices[peer].links, firstSlices[peer].count;
      ghost var before := firstSlices[peer];
      var hadPermanent := links != [] && links[0].permanent && !links[0].revoked;
      if link.permanent && hadPermanent {
        links := links[1..];
        if count > 0 {
          count := count - 1;
        }
      }
      count := count + 1;
      if hadPermanent && !link.permanent {
        links := links[..1] + [link] + links[1..];
        assert links == [before.links[0], link] + before.links[1..];
      } else {
        links := [link] + links;
      }
      assert Links(links, count) == Prepended(before, link);
      firstSlices := firstSlices[peer := Links(links, count)];
      if link.permanent {
        chatLink := chatLink[peer := link.link];
      }
    }

    // The answer to `performEdit`.
    method EditedBy(peer: Peer, key: string, invite: Invite, replacement: Invite)
      modifies this
      ensures Value() == Step(old(Value()), EditDone(peer, key, invite, replacement))
    {
      if !invite.Exported? {
        return;
      }
      if peer in firstSlices {
        var edited := EditIn(firstSlices[peer], key, invite.link);
        firstSlices := firstSlices[peer := edited];
      }
      if replacement.Exported? {
        PrependMyToFirstSlice(peer, replacement.link);
      }
    }

    static method EditIn(s: Links, key: string, link: Link) returns (r: Links)
      ensures r == Edited(s, key, link)
    {
      r := s;
      var j := 0;
      while j < |s.links| && s.links[j].link != key
        invariant j <= |s.links| && forall k :: 0 <= k < j ==> s.links[k].link != key
      {
        j := j + 1;
      }
      if j < |s.links| {
        if link.revoked && !s.links[j].revoked {
          r := Links(s.links[..j] + s.links[j + 1..], if s.count > 0 then s.count - 1 else s.count);
        } else {
          r := s.(links := s.links[j := link]);
        }
      }
    }

    method ApplyExternalUpdate(peer: Peer, updated: Link)
      modifies this`firstSlices
      ensures Value() == Step(old(Value()), ExternalUpdate(peer, updated))
    {
      if peer in firstSlices {
        var s := firstSlices[peer];
        var links := s.links;
        for i := 0 to |s.links|
          invariant |links| == |s.links|
          invariant forall k :: 0 <= k < |links| ==> links[k] == if k < i then Updated(s, updated).links[k] else s.links[k]
        {
          if links[i].link == updated.link {
            links := links[i := updated];
          }
        }
        assert links == Updated(s, updated).links;
        firstSlices := firstSlices[peer := s.(links := links)];
      }
    }

    method SetMyPermanent(peer: Peer, invite: Invite)
      modifies this
      ensures Value() == Step(old(Value()), PermanentReceived(peer, invite))
    {
      if !invite.Exported? || !invite.link.permanent {
        return;
      }
      var link := invite.link;
      if peer !in firstSlices {
        firstSlices := firstSlices[peer := EMPTY];
      }
      var links, count := firstSlices[peer].links, firstSlices[peer].count;
      if links != [] && links[0].permanent && !links[0].revoked {
        if links[0].link == link.link {
          if links[0].usage != link.usage {
            firstSlices := firstSlices[peer := Links(links[0 := links[0].(usage := link.usage)], count)];
          } else {
            assert links[0 := links[0]] == links;
            assert firstSlices[peer := firstSlices[peer]] == firstSlices;
          }
          return;
        }
        links := links[1..];
        if count > 0 {
          count := count - 1;
        }
      }
      firstSlices := firstSlices[peer := Links([link] + links, count)];
      chatLink := chatLink[peer := link.link];
    }

    method ClearMyPermanent(peer: Peer)
      modifies this
      ensures Value() == Step(old(Value()), PermanentGone(peer))
    {
      if peer !in firstSlices {
        return;
      }
      var links, count := firstSlices[peer].links, firstSlices[peer].count;
      if links == [] || !links[0].permanent || links[0].revoked {
        return;
      }
      firstSlices := firstSlices[peer := Links(links[1..], if count > 0 then count - 1 else count)];
      chatLink := chatLink[peer := ""];
    }

    // The answer to `requestMyLinks`.
    method MyLinksReceived(peer: Peer, invites: seq<Invite>, count: int)
      modifies this
      ensures Value() == Step(old(Value()), SliceReceived(peer, invites, count))
    {
      var had := peer in firstSlices && firstSlices[peer].links != [] &&
        firstSlices[peer].links[0].permanent && !firstSlices[peer].links[0].revoked;
      var slice := ParseSlice(invites, had, if had then firstSlices[peer].links[0].link else "");
      ghost var s := Slice(Value(), peer);
      assert had <==> HasPermanent(s);
      if !had {
        PutSlice(peer, slice, count);
      } else {
        slice := RemovePermanent(slice);
        var existing := firstSlices[peer].links[..1] + slice;
        assert existing == [s.links[0]] + slice;
        firstSlices := firstSlices[peer := Links(existing, if count < |existing| then |existing| else count)];
      }
    }

    // What the handler does if no permanent link is known.
    method PutSlice(peer: Peer, received: seq<Link>, count: int)
      modifies this
      ensures var links := ToFront(received);
        && firstSlices == old(firstSlices)[peer := Links(links, count)]
        && chatLink == if HasPermanent(Links(links, count)) then old(chatLink)[peer := links[0].link] else old(chatLink)
    {
      var slice := BringPermanentToFront(received);
      firstSlices := firstSlices[peer := Links(slice, count)];
      if slice != [] && slice[0].permanent && !slice[0].revoked {
        chatLink := chatLink[peer := slice[0].link];
      }
    }

    static method ParseSlice(invites: seq<Invite>, skips: bool, text: string) returns (links: seq<Link>)
      ensures links == if skips then WithoutLink(Parsed(invites), text) else Parsed(invites)
    {
      links := [];
      for i := 0 to |invites|
        invariant links == if skips then WithoutLink(Parsed(invites[..i]), text) else Parsed(invites[..i])
      {
        ghost var parsed := Parsed(invites[..i]);
        assert invites[..i + 1][..i] == invites[..i] && parsed + [] == parsed;
        if invites[i].Exported? {
          var link := invites[i].link;
          assert (parsed + [link])[..|parsed|] == parsed && links + [] == links;
          if !skips || link.link != text {
            links := links + [link];
          }
        }
      }
      assert invites[..|invites|] == invites;
    }

    static method BringPermanentToFront(links: seq<Link>) returns (r: seq<Link>)
      ensures r == ToFront(links)
    {
      var i := 0;
      while i < |links| && !(links[i].permanent && !links[i].revoked)
        invariant i <= |links| && FindActive(links) == i + FindActive(links[i..])
      {
        i := i + 1;
      }
      r := links;
      if i != |links| && i != 0 {
        r := [links[i]] + links[..i] + links[i + 1..];
      }
    }

    static method RemovePermanent(links: seq<Link>) returns (r: seq<Link>)
      ensures r == WithoutActive(links)
    {
      r := [];
      for i := 0 to |links|
        invariant r == WithoutActive(links[..i])
      {
        assert links[..i + 1][..i] == links[..i];
        if !(links[i].permanent && !links[i].revoked) {
          r := r + [links[i]];
        }
      }
      assert links[..|links|] == links;
    }
  }
}
