/** morphdom (`morphdom-umd.min.2.7.2.js`) on trees without node keys and form elements. */
module Morphdom {

  datatype Kind = Element | Text | Comment | Other

  datatype Attr = Attr(name: string, value: string)

  // What a subtree looks like: nodes other than elements have a value and no children.
  datatype Tree =
    | Elem(name: string, attrs: map<string, string>, children: seq<Tree>)
    | Leaf(kind: Kind, value: string)

  // ----- `compareNodeNames`

  function Upper(c: char): char { if 'a' <= c <= 'z' then (c as int - 32) as char else c }

  function ToUpper(s: string): string { seq(|s|, i requires 0 <= i < |s| => Upper(s[i])) }

  predicate NamesMatch(a: string, b: string) {
    || a == b
    || (a != "" && b != "" && a[0] <= 'Z' && b[0] >= 'a' && a == ToUpper(b))
    || (a != "" && b != "" && b[0] <= 'Z' && a[0] >= 'a' && b == ToUpper(a))
  }

  // A name in upper case, letter by letter.
  ghost predicate IsUpperOf(a: string, b: string) {
    |a| == |b| && forall i :: 0 <= i < |b| ==>
      if 97 <= b[i] as int <= 122 then a[i] as int == b[i] as int - 32 else a[i] == b[i]
  }

  // Names match if they are the same, or one is the other one in upper case and they begin
  // with characters up to `Z` and from `a` on.
  lemma NamesMatchExactly(a: string, b: string)
    ensures NamesMatch(a, b) <==>
      || a == b
      || (IsUpperOf(a, b) && a != "" && a[0] as int <= 90 && b[0] as int >= 97)
      || (IsUpperOf(b, a) && b != "" && b[0] as int <= 90 && a[0] as int >= 97)
  {
    UpperExactly(a, b);
    UpperExactly(b, a);
  }

  lemma UpperExactly(a: string, b: string)
    ensures a == ToUpper(b) <==> IsUpperOf(a, b)
  {
    if IsUpperOf(a, b) {
      assert forall i :: 0 <= i < |a| ==> a[i] == ToUpper(b)[i];
    }
  }

  // ----- Equality up to matching element names

  predicate Matches(a: Tree, b: Tree)
    decreases b
  {
    match (a, b)
    case (Elem(n, at, cs), Elem(n', at', cs')) =>
      NamesMatch(n, n') && at == at' && |cs| == |cs'|
      && forall i :: 0 <= i < |cs'| ==> Matches(cs[i], cs'[i])
    case _ => a == b
  }

  lemma MatchesSelf(t: Tree)
    ensures Matches(t, t)
  {}

  // What matching means: the same tree, up to the case of element names.
  function FoldCase(t: Tree): Tree {
    match t
    case Elem(name, attrs, children) =>
      Elem(ToUpper(name), attrs, seq(|children|, i requires 0 <= i < |children| => FoldCase(children[i])))
    case Leaf(_, _) => t
  }

  lemma UpperTwice(s: string)
    ensures ToUpper(ToUpper(s)) == ToUpper(s)
  {}

  lemma {:induction false} MatchesUpToCase(a: Tree, b: Tree)
    requires Matches(a, b)
    ensures FoldCase(a) == FoldCase(b)
    decreases b
  {
    if a.Elem? {
      UpperTwice(a.name);
      UpperTwice(b.name);
      forall i | 0 <= i < |a.children| ensures FoldCase(a.children[i]) == FoldCase(b.children[i]) {
        MatchesUpToCase(a.children[i], b.children[i]);
      }
      assert FoldCase(a).children == FoldCase(b).children;
    }
  }

  // Names as an HTML document reports them: in upper case.
  predicate HtmlNames(t: Tree) {
    t.Elem? ==> (t.name != "" ==> t.name[0] <= 'Z') && forall c :: c in t.children ==> HtmlNames(c)
  }

  // ----- What morphing makes of a tree

  // Whether an old node is updated in place to a new one.
  predicate Fits(a: Tree, b: Tree) {
    if a.Elem? && b.Elem? then NamesMatch(a.name, b.name)
    else a.Leaf? && b.Leaf? && a.kind == b.kind && (a.kind == Text || a.kind == Comment)
  }

  // An updated element keeps its name, and all else becomes that of the target.
  function Updated(a: Tree, b: Tree): Tree
    requires Fits(a, b)
    decreases b, if b.Elem? then |b.children| + 1 else 0, 0
  {
    if b.Elem? then Elem(a.name, b.attrs, UpdatedFrom(a.children, b, 0)) else b
  }

  // The children from one place on: each takes the first old child left that fits it,
  // and once none is, the new children are used themselves.
  function UpdatedFrom(olds: seq<Tree>, b: Tree, k: nat): seq<Tree>
    requires b.Elem? && k <= |b.children|
    decreases b, |b.children| - k, |olds|
  {
    if k == |b.children| then []
    else if olds == [] then b.children[k..]
    else if Fits(olds[0], b.children[k]) then [Updated(olds[0], b.children[k])] + UpdatedFrom(olds[1..], b, k + 1)
    else UpdatedFrom(olds[1..], b, k)
  }

  // The whole of `morphdom`: an element that does not fit is made anew, with the old children.
  function Morphed(a: Tree, b: Tree): Tree {
    if Fits(a, b) then Updated(a, b)
    else if a.Elem? && b.Elem? then Updated(Elem(b.name, map[], a.children), b)
    else b
  }

  lemma {:induction false} UpdatedMatches(a: Tree, b: Tree)
    requires Fits(a, b)
    ensures Matches(Updated(a, b), b)
    decreases b, if b.Elem? then |b.children| + 1 else 0, 0
  {
    if b.Elem? {
      UpdatedFromMatches(a.children, b, 0);
    }
  }

  lemma {:induction false} UpdatedFromMatches(olds: seq<Tree>, b: Tree, k: nat)
    requires b.Elem? && k <= |b.children|
    ensures var r := UpdatedFrom(olds, b, k);
      |r| == |b.children| - k && forall i :: 0 <= i < |r| ==> Matches(r[i], b.children[k + i])
    decreases b, |b.children| - k, |olds|
  {
    if k < |b.children| {
      if olds == [] {
        forall i | k <= i < |b.children| ensures Matches(b.children[i], b.children[i]) {
          MatchesSelf(b.children[i]);
        }
      } else if Fits(olds[0], b.children[k]) {
        UpdatedMatches(olds[0], b.children[k]);
        UpdatedFromMatches(olds[1..], b, k + 1);
      } else {
        UpdatedFromMatches(olds[1..], b, k);
      }
    }
  }

  // The result is the target, up to the case of element names.
  lemma MorphedMatches(a: Tree, b: Tree)
    ensures Matches(Morphed(a, b), b)
  {
    if Fits(a, b) {
      UpdatedMatches(a, b);
    } else if a.Elem? && b.Elem? {
      UpdatedMatches(Elem(b.name, map[], a.children), b);
    } else {
      MatchesSelf(b);
    }
  }

  lemma RestMovesOver(b: Tree, k: nat)
    requires b.Elem? && k < |b.children|
    ensures UpdatedFrom([], b, k) == [b.children[k]] + UpdatedFrom([], b, k + 1)
  {}

  // Whether each element that is updated in place has just the name of its target.
  predicate SameNames(a: Tree, b: Tree)
    requires Fits(a, b)
    decreases b, if b.Elem? then |b.children| + 1 else 0, 0
  {
    b.Elem? ==> a.name == b.name && SameNamesFrom(a.children, b, 0)
  }

  predicate SameNamesFrom(olds: seq<Tree>, b: Tree, k: nat)
    requires b.Elem? && k <= |b.children|
    decreases b, |b.children| - k, |olds|
  {
    if k == |b.children| || olds == [] then true
    else if Fits(olds[0], b.children[k]) then SameNames(olds[0], b.children[k]) && SameNamesFrom(olds[1..], b, k + 1)
    else SameNamesFrom(olds[1..], b, k)
  }

  lemma {:induction false} UpdatedExactly(a: Tree, b: Tree)
    requires Fits(a, b)
    ensures Updated(a, b) == b <==> SameNames(a, b)
    decreases b, if b.Elem? then |b.children| + 1 else 0, 0
  {
    if b.Elem? {
      UpdatedFromExactly(a.children, b, 0);
      assert b.children[0..] == b.children;
    }
  }

  lemma {:induction false} UpdatedFromExactly(olds: seq<Tree>, b: Tree, k: nat)
    requires b.Elem? && k <= |b.children|
    ensures UpdatedFrom(olds, b, k) == b.children[k..] <==> SameNamesFrom(olds, b, k)
    decreases b, |b.children| - k, |olds|
  {
    if k < |b.children| && olds != [] {
      if Fits(olds[0], b.children[k]) {
        UpdatedExactly(olds[0], b.children[k]);
        UpdatedFromExactly(olds[1..], b, k + 1);
        var first, rest := Updated(olds[0], b.children[k]), UpdatedFrom(olds[1..], b, k + 1);
        assert ([first] + rest)[0] == first && ([first] + rest)[1..] == rest;
        assert b.children[k..][0] == b.children[k] && b.children[k..][1..] == b.children[k + 1..];
        assert b.children[k..] == [b.children[k]] + b.children[k + 1..];
      } else {
        UpdatedFromExactly(olds[1..], b, k);
      }
    }
  }

  // The result is the target exactly if no element that is updated in place has its name
  // in another case.
  lemma MorphedExactly(a: Tree, b: Tree)
    ensures Morphed(a, b) == b <==>
      if Fits(a, b) then SameNames(a, b) else a.Elem? && b.Elem? ==> SameNamesFrom(a.children, b, 0)
  {
    if Fits(a, b) {
      UpdatedExactly(a, b);
    } else if a.Elem? && b.Elem? {
      UpdatedExactly(Elem(b.name, map[], a.children), b);
    }
  }

  lemma {:induction false} HtmlSameNames(a: Tree, b: Tree)
    requires Fits(a, b) && HtmlNames(a) && HtmlNames(b)
    ensures SameNames(a, b)
    decreases b, if b.Elem? then |b.children| + 1 else 0, 0
  {
    if b.Elem? {
      HtmlSameNamesFrom(a.children, b, 0);
    }
  }

  lemma {:induction false} HtmlSameNamesFrom(olds: seq<Tree>, b: Tree, k: nat)
    requires b.Elem? && k <= |b.children| && HtmlNames(b) && forall t :: t in olds ==> HtmlNames(t)
    ensures SameNamesFrom(olds, b, k)
    decreases b, |b.children| - k, |olds|
  {
    if k < |b.children| && olds != [] {
      assert olds[0] in olds && b.children[k] in b.children;
      if Fits(olds[0], b.children[k]) {
        HtmlSameNames(olds[0], b.children[k]);
        HtmlSameNamesFrom(olds[1..], b, k + 1);
      } else {
        HtmlSameNamesFrom(olds[1..], b, k);
      }
    }
  }

  // In an HTML document the result is the target.
  lemma MorphedHtml(a: Tree, b: Tree)
    requires HtmlNames(a) && HtmlNames(b)
    ensures Morphed(a, b) == b
  {
    MorphedExactly(a, b);
    if Fits(a, b) {
      HtmlSameNames(a, b);
    } else if a.Elem? && b.Elem? {
      HtmlSameNamesFrom(a.children, b, 0);
    }
  }

  // Elsewhere it need not be: an element keeps its own lower-case name.
  lemma LowerCaseStays()
    ensures Morphed(Elem("a", map[], []), Elem("A", map[], [])) == Elem("a", map[], [])
  {
    assert ToUpper("a") == "A";
  }

  // Updating an element to an equal one changes nothing, so such elements may be skipped.
  lemma {:induction false} UpdatedSelf(t: Tree)
    requires Fits(t, t)
    ensures Updated(t, t) == t
    decreases t, if t.Elem? then |t.children| + 1 else 0
  {
    if t.Elem? {
      SameNamesSelf(t, t.children, 0);
      UpdatedExactly(t, t);
    }
  }

  // The old children are the new ones, until one that cannot be updated clears them all.
  lemma {:induction false} SameNamesSelf(t: Tree, olds: seq<Tree>, k: nat)
    requires t.Elem? && k <= |t.children|
    requires olds == t.children[k..] || (k < |t.children| && t.children[k].Leaf? && !Fits(t.children[k], t.children[k]))
    ensures SameNamesFrom(olds, t, k)
    decreases t, |t.children| - k, |olds|
  {
    if k < |t.children| && olds != [] {
      if Fits(olds[0], t.children[k]) {
        assert olds[1..] == t.children[k + 1..];
        UpdatedSelf(t.children[k]);
        UpdatedExactly(t.children[k], t.children[k]);
        SameNamesSelf(t, olds[1..], k + 1);
      } else {
        SameNamesSelf(t, olds[1..], k);
      }
    }
  }

  // ----- The DOM

  class Node {
    const kind: Kind
    const name: string
    var value: string
    var attrs: seq<Attr>
    var children: seq<Node>
    ghost var repr: set<Node>
    ghost var tree: Tree

    constructor (kind: Kind, name: string)
      requires kind == Element
      ensures Valid() && fresh(repr) && this.kind == kind && this.name == name && attrs == [] && children == [] && repr == {this}
    {
      this.kind, this.name, value, attrs, children := kind, name, "", [], [];
      repr, tree := {this}, Elem(name, map[], []);
    }

    // A well-formed subtree, whatever the ghost tree says about its root.
    ghost predicate Body()
      reads this, repr
      decreases repr, 0
    {
      && this in repr
      && (forall c :: c in children ==> c in repr && c.repr <= repr && this !in c.repr && c.Valid())
      && Separate(children)
      && UniqueNames(attrs)
      && (kind != Element ==> children == [])
    }

    // A well-formed subtree that looks like its ghost tree.
    ghost predicate Valid()
      reads this, repr
      decreases repr, 1
    {
      && Body()
      && if kind == Element then
           && tree.Elem? && tree.name == name && tree.attrs == AttrMap(attrs)
           && |tree.children| == |children|
           && forall i :: 0 <= i < |children| ==> tree.children[i] == children[i].tree
         else
           tree == Leaf(kind, value)
    }
  }

  // Well-formed subtrees inside a set of nodes, no two of them sharing any.
  ghost predicate Grove(nodes: seq<Node>, fp: set<Node>)
    reads fp
  {
    && (forall n :: n in nodes ==> n in fp && n.repr <= fp && n.Valid())
    && Separate(nodes)
  }

  ghost predicate Separate(nodes: seq<Node>)
    reads nodes
  {
    forall i, j :: 0 <= i < j < |nodes| ==> nodes[i].repr !! nodes[j].repr
  }

  // A grove whose trees are the given ones.
  ghost predicate Shows(nodes: seq<Node>, fp: set<Node>, trees: seq<Tree>)
    reads fp
  {
    Grove(nodes, fp) && |nodes| == |trees| && forall k :: 0 <= k < |nodes| ==> nodes[k].tree == trees[k]
  }

  lemma GroveRest(nodes: seq<Node>, fp: set<Node>)
    requires nodes != [] && Grove(nodes, fp)
    ensures nodes[0].Valid() && nodes[0].repr <= fp
    ensures Grove(nodes[1..], fp - nodes[0].repr)
  {
    forall n | n in nodes[1..] ensures n.repr !! nodes[0].repr && n in fp && n.Valid() && n in n.repr {
      var i :| 1 <= i < |nodes| && nodes[i] == n;
      assert nodes[i] in nodes && n.Body();
    }
  }

  lemma ShowsRest(nodes: seq<Node>, fp: set<Node>, trees: seq<Tree>)
    requires nodes != [] && Shows(nodes, fp, trees)
    ensures nodes[0].Valid() && nodes[0].repr <= fp && nodes[0].tree == trees[0]
    ensures Shows(nodes[1..], fp - nodes[0].repr, trees[1..])
  {
    GroveRest(nodes, fp);
  }

  lemma ShowsMore(nodes: seq<Node>, fp: set<Node>, trees: seq<Tree>, n: Node)
    requires Shows(nodes, fp, trees)
    requires n.Valid() && n.repr !! fp
    ensures Shows(nodes + [n], fp + n.repr, trees + [n.tree])
  {
    forall i | 0 <= i < |nodes| ensures nodes[i].repr !! n.repr {
      assert nodes[i] in nodes;
    }
  }

  // ----- Attributes: a list with distinct names, compared as a map

  predicate UniqueNames(attrs: seq<Attr>) {
    forall i, j :: 0 <= i < j < |attrs| ==> attrs[i].name != attrs[j].name
  }

  function AttrMap(attrs: seq<Attr>): map<string, string> {
    if attrs == [] then map[] else AttrMap(attrs[1..])[attrs[0].name := attrs[0].value]
  }

  // `setAttribute`: in place, or at the end.
  function SetAttr(attrs: seq<Attr>, name: string, value: string): seq<Attr> {
    if attrs == [] then [Attr(name, value)]
    else if attrs[0].name == name then [Attr(name, value)] + attrs[1..]
    else [attrs[0]] + SetAttr(attrs[1..], name, value)
  }

  function RemoveAt(attrs: seq<Attr>, i: nat): seq<Attr>
    requires i < |attrs|
  {
    attrs[..i] + attrs[i + 1..]
  }

  lemma {:induction false} AttrAt(attrs: seq<Attr>, i: nat)
    requires UniqueNames(attrs) && i < |attrs|
    ensures attrs[i].name in AttrMap(attrs) && AttrMap(attrs)[attrs[i].name] == attrs[i].value
  {
    if i > 0 {
      assert attrs[1..][i - 1] == attrs[i];
      AttrAt(attrs[1..], i - 1);
    }
  }

  lemma {:induction false} AttrNames(attrs: seq<Attr>, name: string)
    ensures name in AttrMap(attrs) <==> exists i :: 0 <= i < |attrs| && attrs[i].name == name
  {
    if attrs != [] {
      AttrNames(attrs[1..], name);
      if i :| 0 <= i < |attrs| && attrs[i].name == name {
        assert i > 0 ==> attrs[1..][i - 1].name == name;
      }
    }
  }

  lemma {:induction false} SetAttrMap(attrs: seq<Attr>, name: string, value: string)
    requires UniqueNames(attrs)
    ensures UniqueNames(SetAttr(attrs, name, value))
    ensures AttrMap(SetAttr(attrs, name, value)) == AttrMap(attrs)[name := value]
  {
    if attrs != [] && attrs[0].name != name {
      var rest := SetAttr(attrs[1..], name, value);
      SetAttrMap(attrs[1..], name, value);
      forall i | 0 <= i < |rest| ensures rest[i].name != attrs[0].name {
        AttrAt(rest, i);
        AttrNames(attrs[1..], attrs[0].name);
      }
      assert SetAttr(attrs, name, value)[1..] == rest;
    } else if attrs != [] {
      assert SetAttr(attrs, name, value)[1..] == attrs[1..];
    }
  }

  lemma RemoveAtUnique(attrs: seq<Attr>, i: nat)
    requires UniqueNames(attrs) && i < |attrs|
    ensures UniqueNames(RemoveAt(attrs, i))
  {
    assert forall k :: 0 <= k < |attrs| - 1 ==> RemoveAt(attrs, i)[k] == attrs[if k < i then k else k + 1];
  }

  lemma {:induction false} RemoveAtMap(attrs: seq<Attr>, i: nat)
    requires UniqueNames(attrs) && i < |attrs|
    ensures AttrMap(RemoveAt(attrs, i)) == AttrMap(attrs) - {attrs[i].name}
  {
    AttrNames(attrs[1..], attrs[0].name);
    if i == 0 {
      assert RemoveAt(attrs, 0) == attrs[1..];
    } else {
      RemoveAtMap(attrs[1..], i - 1);
      assert RemoveAt(attrs, i)[1..] == RemoveAt(attrs[1..], i - 1);
    }
  }

  // The two passes: set what is missing or different, then remove what is left over.
  method MorphAttrs(fromNode: Node, toNode: Node)
    requires UniqueNames(fromNode.attrs) && UniqueNames(toNode.attrs)
    requires fromNode != toNode
    modifies fromNode`attrs
    ensures UniqueNames(fromNode.attrs) && AttrMap(fromNode.attrs) == AttrMap(toNode.attrs)
  {
    var to := AttrMap(toNode.attrs);
    for i := |toNode.attrs| downto 0
      invariant UniqueNames(fromNode.attrs)
      invariant forall k :: i <= k < |toNode.attrs| ==>
        var a := toNode.attrs[k];
        a.name in AttrMap(fromNode.attrs) && AttrMap(fromNode.attrs)[a.name] == a.value
    {
      var attr := toNode.attrs[i];
      var now := AttrMap(fromNode.attrs);
      if attr.name !in now || now[attr.name] != attr.value {
        SetAttrMap(fromNode.attrs, attr.name, attr.value);
        fromNode.attrs := SetAttr(fromNode.attrs, attr.name, attr.value);
      }
    }
    forall n | n in to ensures n in AttrMap(fromNode.attrs) && AttrMap(fromNode.attrs)[n] == to[n] {
      AttrNames(toNode.attrs, n);
      var k :| 0 <= k < |toNode.attrs| && toNode.attrs[k].name == n;
      AttrAt(toNode.attrs, k);
    }
    for d := |fromNode.attrs| downto 0
      invariant UniqueNames(fromNode.attrs) && d <= |fromNode.attrs|
      invariant forall n :: n in to ==> n in AttrMap(fromNode.attrs) && AttrMap(fromNode.attrs)[n] == to[n]
      invariant forall k :: d <= k < |fromNode.attrs| ==> fromNode.attrs[k].name in to
    {
      var attr := fromNode.attrs[d];
      if attr.name !in to {
        RemoveAtUnique(fromNode.attrs, d);
        RemoveAtMap(fromNode.attrs, d);
        fromNode.attrs := RemoveAt(fromNode.attrs, d);
      }
    }
    forall n | n in AttrMap(fromNode.attrs) ensures n in to {
      AttrNames(fromNode.attrs, n);
    }
  }

  // ----- Morphing

  // Whether an old child is updated in place to a new one.
  predicate Compatible(cur: Node, target: Node) {
    cur.kind == target.kind
    && ((cur.kind == Element && NamesMatch(cur.name, target.name)) || cur.kind == Text || cur.kind == Comment)
  }

  // Which nodes become the children: each new child takes the first old child left that is
  // compatible with it, and once none is, the new children are used themselves.
  function Reuse(olds: seq<Node>, news: seq<Node>): seq<Node>
    decreases |news|, |olds|
  {
    if news == [] then []
    else if olds == [] then news
    else if Compatible(olds[0], news[0]) then [olds[0]] + Reuse(olds[1..], news[1..])
    else Reuse(olds[1..], news)
  }

  // In the middle of the walk the children so far and the reuse still to come make up
  // the planned children.
  ghost predicate OnPlan(fromEl: Node, toEl: Node, from: nat, to: nat, plan: seq<Node>)
    reads fromEl, toEl
  {
    && from <= |fromEl.children| && to <= |toEl.children|
    && plan == fromEl.children[..from] + Reuse(fromEl.children[from..], toEl.children[to..])
  }

  lemma PlanMatched(fromEl: Node, toEl: Node, from: nat, to: nat, plan: seq<Node>)
    requires from < |fromEl.children| && to < |toEl.children| && OnPlan(fromEl, toEl, from, to, plan)
    requires Compatible(fromEl.children[from], toEl.children[to])
    ensures OnPlan(fromEl, toEl, from + 1, to + 1, plan)
  {
    assert fromEl.children[from..][1..] == fromEl.children[from + 1..];
    assert toEl.children[to..][1..] == toEl.children[to + 1..];
    assert fromEl.children[..from + 1] == fromEl.children[..from] + [fromEl.children[from]];
  }

  lemma PlanAppended(olds: seq<Node>, news: seq<Node>)
    requires news != []
    ensures olds + Reuse([], news) == (olds + [news[0]]) + Reuse([], news[1..])
  {}

  lemma PlanStart(fromEl: Node, toEl: Node)
    ensures OnPlan(fromEl, toEl, 0, 0, Reuse(fromEl.children, toEl.children))
  {
    assert fromEl.children[0..] == fromEl.children && toEl.children[0..] == toEl.children;
  }

  lemma PlanEnd(fromEl: Node, toEl: Node, from: nat, plan: seq<Node>)
    requires OnPlan(fromEl, toEl, from, |toEl.children|, plan)
    ensures from <= |fromEl.children| && plan == fromEl.children[..from]
  {
    assert toEl.children[|toEl.children|..] == [];
  }

  method Update(cur: Node, target: Node, skipEqual: bool)
    requires cur.Valid() && target.Valid() && cur.repr !! target.repr
    requires Compatible(cur, target)
    modifies cur.repr, target.repr
    ensures cur.Valid() && old(Fits(cur.tree, target.tree)) && cur.tree == old(Updated(cur.tree, target.tree))
    ensures cur.repr <= old(cur.repr + target.repr)
    decreases target.tree, 3
  {
    if cur.kind == Element {
      MorphEl(cur, target, skipEqual);
    } else if cur.value != target.value {
      cur.value := target.value;
      cur.tree := Leaf(cur.kind, cur.value);
    }
  }

  // The browser's `isEqualNode`.
  method IsEqualNode(a: Node, b: Node) returns (equal: bool)
    requires a.Valid() && b.Valid()
    ensures equal <==> a.tree == b.tree
    decreases a.tree
  {
    if a.kind != b.kind {
      return false;
    }
    if a.kind != Element {
      return a.value == b.value;
    }
    if a.name != b.name || AttrMap(a.attrs) != AttrMap(b.attrs) || |a.children| != |b.children| {
      return false;
    }
    for i := 0 to |a.children|
      invariant forall k :: 0 <= k < i ==> a.tree.children[k] == b.tree.children[k]
    {
      assert a.children[i] in a.children && b.children[i] in b.children;
      var same := IsEqualNode(a.children[i], b.children[i]);
      if !same {
        return false;
      }
    }
    assert a.tree.children == b.tree.children;
    equal := true;
  }

  // With `skipEqual`, an old element that equals the new one is left alone, as the
  // `onBeforeElUpdated` callback of `page.js` asks for.
  method MorphEl(fromEl: Node, toEl: Node, skipEqual: bool)
    requires fromEl.Valid() && toEl.Valid() && fromEl.repr !! toEl.repr
    requires fromEl.kind == Element && toEl.kind == Element && NamesMatch(fromEl.name, toEl.name)
    modifies fromEl.repr, toEl.repr
    ensures fromEl.Valid() && fromEl.tree == old(Updated(fromEl.tree, toEl.tree))
    ensures !skipEqual ==> fromEl.children == old(Reuse(fromEl.children, toEl.children))
    ensures fromEl.repr <= old(fromEl.repr + toEl.repr)
    decreases toEl.tree, 2
  {
    if skipEqual {
      var equal := IsEqualNode(fromEl, toEl);
      if equal {
        UpdatedSelf(toEl.tree);
        return;
      }
    }
    ghost var g := Goal(toEl.tree, UpdatedFrom(fromEl.tree.children, toEl.tree, 0));
    ghost var start := Split({}, fromEl.repr - {fromEl}, toEl.repr - {toEl}, [], fromEl.tree.children);
    MorphAttrs(fromEl, toEl);
    Begin(fromEl, toEl, g, start);
    PlanStart(fromEl, toEl);
    Rebuild(fromEl, toEl, g, start, Reuse(fromEl.children, toEl.children), skipEqual);
  }

  // The part of `morphEl` after the attributes.
  method Rebuild(fromEl: Node, toEl: Node, ghost g: Goal, ghost start: Split, ghost plan: seq<Node>, skipEqual: bool)
    requires toEl.tree == g.target && fromEl != toEl
    requires Midway(fromEl, toEl, 0, 0, g, start) && OnPlan(fromEl, toEl, 0, 0, plan)
    requires fromEl.kind == Element
    requires UniqueNames(fromEl.attrs) && AttrMap(fromEl.attrs) == g.target.attrs
    modifies fromEl, toEl, start.rest, start.pending
    ensures fromEl.Valid() && fromEl.tree == Elem(fromEl.name, g.target.attrs, g.result) && fromEl.children == plan
    ensures fromEl.repr <= start.done + start.rest + start.pending + {fromEl}
    decreases toEl.tree, 1, 1
  {
    ghost var done := MorphChildren(fromEl, toEl, g, start, plan, skipEqual);
    SetTree(fromEl, done);
    assert fromEl.tree.children == g.result;
  }

  // Bookkeeping: the ghost tree and footprint of an element whose children are done.
  ghost method SetTree(el: Node, fp: set<Node>)
    requires el.kind == Element && UniqueNames(el.attrs) && Grove(el.children, fp) && el !in fp
    modifies el`tree, el`repr
    ensures el.Valid() && el.repr == fp + {el}
    ensures el.tree.name == el.name && el.tree.attrs == AttrMap(el.attrs) && |el.tree.children| == |el.children|
    ensures forall i :: 0 <= i < |el.children| ==> el.tree.children[i] == el.children[i].tree
  {
    el.repr := fp + {el};
    el.tree := Elem(el.name, AttrMap(el.attrs), seq(|el.children|, i requires 0 <= i < |el.children| reads el, el.children => el.children[i].tree));
  }

  // What the children are to look like, and what they end up like.
  datatype Goal = Goal(target: Tree, result: seq<Tree>)

  // What is done and what is left to do, in three groups of disjoint subtrees, and what
  // the first two look like.
  datatype Split = Split(done: set<Node>, rest: set<Node>, pending: set<Node>, made: seq<Tree>, olds: seq<Tree>)

  // The children before the cursor are done, the old ones after it and the new ones
  // still to come are untouched.
  ghost predicate Midway(fromEl: Node, toEl: Node, from: nat, to: nat, g: Goal, fp: Split)
    reads fromEl, toEl, fp.done, fp.rest, fp.pending
  {
    && from <= |fromEl.children| && to <= |toEl.children| && g.target.Elem? && from <= |g.target.children|
    && fp.done !! fp.rest !! fp.pending
    && fromEl !in fp.done + fp.rest + fp.pending && toEl !in fp.done + fp.rest + fp.pending
    && Shows(fromEl.children[..from], fp.done, fp.made)
    && Shows(fromEl.children[from..], fp.rest, fp.olds)
    && Shows(toEl.children[to..], fp.pending, g.target.children[from..])
    && g.result == fp.made + UpdatedFrom(fp.olds, g.target, from)
  }

  ghost predicate Within(fp: Split, start: Split) {
    && fp.rest + fp.pending <= start.rest + start.pending
    && fp.done <= start.done + start.rest + start.pending
  }

  // The three groups without the nodes at the cursor, which `made` stands for.
  ghost predicate Around(fromEl: Node, toEl: Node, from: nat, to: nat, g: Goal, fp: Split, made: Tree)
    reads fromEl, toEl, fp.done, fp.rest, fp.pending
  {
    && from < |fromEl.children| && to < |toEl.children| && g.target.Elem? && from < |g.target.children|
    && fp.done !! fp.rest !! fp.pending
    && fromEl !in fp.done + fp.rest + fp.pending && toEl !in fp.done + fp.rest + fp.pending
    && Shows(fromEl.children[..from], fp.done, fp.made)
    && Shows(fromEl.children[from + 1..], fp.rest, fp.olds)
    && Shows(toEl.children[to + 1..], fp.pending, g.target.children[from + 1..])
    && g.result == (fp.made + [made]) + UpdatedFrom(fp.olds, g.target, from + 1)
  }

  lemma AtCursor(fromEl: Node, toEl: Node, from: nat, to: nat, g: Goal, fp: Split)
    requires Midway(fromEl, toEl, from, to, g, fp)
    requires from < |fromEl.children| && to < |toEl.children|
    requires Compatible(fromEl.children[from], toEl.children[to])
    ensures var cur, target := fromEl.children[from], toEl.children[to];
      && cur.Valid() && target.Valid() && cur.repr <= fp.rest && target.repr <= fp.pending && Fits(cur.tree, target.tree)
      && Around(fromEl, toEl, from, to, g,
        Split(fp.done, fp.rest - cur.repr, fp.pending - target.repr, fp.made, fp.olds[1..]), Updated(cur.tree, target.tree))
  {
    ShowsRest(fromEl.children[from..], fp.rest, fp.olds);
    ShowsRest(toEl.children[to..], fp.pending, g.target.children[from..]);
    assert fromEl.children[from..][1..] == fromEl.children[from + 1..] && toEl.children[to..][1..] == toEl.children[to + 1..];
    assert g.target.children[from..][1..] == g.target.children[from + 1..];
  }

  lemma PastCursor(fromEl: Node, toEl: Node, from: nat, to: nat, g: Goal, fp: Split, cur: Node)
    requires Around(fromEl, toEl, from, to, g, fp, cur.tree) && fromEl.children[from] == cur
    requires cur.Valid() && cur.repr !! fp.done + fp.rest + fp.pending + {fromEl, toEl}
    ensures Midway(fromEl, toEl, from + 1, to + 1, g, fp.(done := fp.done + cur.repr, made := fp.made + [cur.tree]))
  {
    ShowsMore(fromEl.children[..from], fp.done, fp.made, cur);
    assert fromEl.children[..from + 1] == fromEl.children[..from] + [cur];
  }

  // The old child at the cursor becomes the next new child.
  method UpdateChild(fromEl: Node, toEl: Node, from: nat, to: nat, ghost g: Goal, ghost fp: Split, skipEqual: bool)
      returns (ghost fp': Split)
    requires Midway(fromEl, toEl, from, to, g, fp) && fromEl != toEl && toEl.tree == g.target
    requires from < |fromEl.children| && to < |toEl.children|
    requires Compatible(fromEl.children[from], toEl.children[to])
    modifies fp.rest, fp.pending
    ensures Midway(fromEl, toEl, from + 1, to + 1, g, fp') && Within(fp', fp)
    decreases toEl.tree, 0, 0
  {
    var cur, target := fromEl.children[from], toEl.children[to];
    AtCursor(fromEl, toEl, from, to, g, fp);
    ghost var left := Split(fp.done, fp.rest - cur.repr, fp.pending - target.repr, fp.made, fp.olds[1..]);
    assert Around(fromEl, toEl, from, to, g, left, Updated(cur.tree, target.tree));
    Update(cur, target, skipEqual);
    PastCursor(fromEl, toEl, from, to, g, left, cur);
    fp' := left.(done := fp.done + cur.repr, made := fp.made + [cur.tree]);
  }

  method RemoveChild(fromEl: Node, toEl: Node, from: nat, to: nat, ghost g: Goal, ghost fp: Split, ghost plan: seq<Node>)
      returns (ghost fp': Split)
    requires OnPlan(fromEl, toEl, from, to, plan)
    requires to < |toEl.children| && from < |fromEl.children| ==> !Compatible(fromEl.children[from], toEl.children[to])
    requires Midway(fromEl, toEl, from, to, g, fp) && fromEl != toEl
    requires from < |fromEl.children|
    modifies fromEl`children
    ensures fromEl.children == old(fromEl.children[..from] + fromEl.children[from + 1..])
    ensures OnPlan(fromEl, toEl, from, to, plan)
    ensures Midway(fromEl, toEl, from, to, g, fp') && fp' == fp.(rest := fp'.rest, olds := fp.olds[1..]) && fp'.rest <= fp.rest
  {
    ShowsRest(fromEl.children[from..], fp.rest, fp.olds);
    if to < |toEl.children| {
      ShowsRest(toEl.children[to..], fp.pending, g.target.children[from..]);
    }
    fp' := fp.(rest := fp.rest - fromEl.children[from].repr, olds := fp.olds[1..]);
    ghost var done, olds := fromEl.children[..from], fromEl.children[from..];
    fromEl.children := fromEl.children[..from] + fromEl.children[from + 1..];
    assert fromEl.children[..from] == done && fromEl.children[from..] == olds[1..];
  }

  // The inner loop: old children are removed until one can become the next new child.
  method FindMatch(fromEl: Node, toEl: Node, from: nat, to: nat, ghost g: Goal, ghost fp: Split, ghost plan: seq<Node>, skipEqual: bool)
      returns (matched: bool, ghost fp': Split)
    requires OnPlan(fromEl, toEl, from, to, plan)
    requires Midway(fromEl, toEl, from, to, g, fp) && fromEl != toEl && to < |toEl.children| && toEl.tree == g.target
    modifies fromEl`children, fp.rest, fp.pending
    ensures matched ==> Midway(fromEl, toEl, from + 1, to + 1, g, fp')
    ensures if matched then OnPlan(fromEl, toEl, from + 1, to + 1, plan) else OnPlan(fromEl, toEl, from, to, plan)
    ensures !matched ==> from == |fromEl.children| && Midway(fromEl, toEl, from, to, g, fp')
    ensures Within(fp', fp)
    decreases toEl.tree, 0, 1
  {
    fp' := fp;
    while from < |fromEl.children|
      invariant Midway(fromEl, toEl, from, to, g, fp') && fp'.rest <= fp.rest && fp'.done == fp.done && fp'.pending == fp.pending
      invariant OnPlan(fromEl, toEl, from, to, plan)
      decreases |fromEl.children| - from
    {
      if Compatible(fromEl.children[from], toEl.children[to]) {
        PlanMatched(fromEl, toEl, from, to, plan);
        fp' := UpdateChild(fromEl, toEl, from, to, g, fp', skipEqual);
        return true, fp';
      }
      fp' := RemoveChild(fromEl, toEl, from, to, g, fp', plan);
    }
    matched := false;
  }

  lemma Appended(fromEl: Node, toEl: Node, to: nat, g: Goal, fp: Split, fp': Split)
    requires Midway(fromEl, toEl, |fromEl.children|, to, g, fp) && to < |toEl.children|
    requires fp' == Split(fp.done + toEl.children[to].repr, {}, fp.pending - toEl.children[to].repr, fp.made + [toEl.children[to].tree], [])
    ensures |g.target.children| > |fromEl.children|
    ensures fp'.done !! fp'.pending && fp'.done + fp'.pending <= fp.done + fp.pending && Within(fp', fp)
    ensures Shows(fromEl.children + [toEl.children[to]], fp'.done, fp'.made)
    ensures Shows(toEl.children[to + 1..], fp'.pending, g.target.children[|fromEl.children| + 1..])
    ensures g.result == fp'.made + UpdatedFrom([], g.target, |fromEl.children| + 1)
  {
    var from, done, pending := |fromEl.children|, fromEl.children, toEl.children[to..];
    assert fromEl.children[..from] == done && pending[1..] == toEl.children[to + 1..];
    ShowsRest(pending, fp.pending, g.target.children[from..]);
    assert g.target.children[from..][1..] == g.target.children[from + 1..] && fp.olds == [];
    ShowsMore(done, fp.done, fp.made, pending[0]);
    assert fp'.made + UpdatedFrom([], g.target, from + 1) == fp.made + UpdatedFrom([], g.target, from) by {
      RestMovesOver(g.target, from);
    }
  }

  // With no old child left, the next new child moves over.
  method AppendChild(fromEl: Node, toEl: Node, to: nat, ghost g: Goal, ghost fp: Split, ghost plan: seq<Node>)
      returns (ghost fp': Split)
    requires OnPlan(fromEl, toEl, |fromEl.children|, to, plan)
    requires Midway(fromEl, toEl, |fromEl.children|, to, g, fp) && fromEl != toEl
    requires to < |toEl.children|
    modifies fromEl`children, toEl`children
    ensures fromEl.children == old(fromEl.children + [toEl.children[to]])
    ensures toEl.children == old(toEl.children[..to] + toEl.children[to + 1..])
    ensures OnPlan(fromEl, toEl, |fromEl.children|, to, plan)
    ensures Midway(fromEl, toEl, |fromEl.children|, to, g, fp') && Within(fp', fp)
  {
    var target, from := toEl.children[to], |fromEl.children|;
    ghost var done, pending := fromEl.children, toEl.children[to..];
    assert fromEl.children[..from] == done && fromEl.children[from..] == [];
    PlanAppended(done, pending);
    assert plan == (done + [target]) + Reuse([], pending[1..]);
    fp' := Split(fp.done + target.repr, {}, fp.pending - target.repr, fp.made + [target.tree], []);
    Appended(fromEl, toEl, to, g, fp, fp');
    toEl.children := toEl.children[..to] + toEl.children[to + 1..];
    fromEl.children := fromEl.children + [target];
    assert toEl.children[to..] == pending[1..] && toEl.children[to..] == old(toEl.children[to + 1..]);
    assert fromEl.children == done + [target] && fromEl.children[..from + 1] == done + [target] && fromEl.children[from + 1..] == [];
  }

  lemma Begin(fromEl: Node, toEl: Node, g: Goal, start: Split)
    requires fromEl.Body() && toEl.Valid() && toEl.kind == Element && fromEl.repr !! toEl.repr
    requires start == Split({}, fromEl.repr - {fromEl}, toEl.repr - {toEl}, [], start.olds)
    requires |start.olds| == |fromEl.children| && forall i :: 0 <= i < |start.olds| ==> start.olds[i] == fromEl.children[i].tree
    requires g == Goal(toEl.tree, UpdatedFrom(start.olds, toEl.tree, 0))
    ensures Midway(fromEl, toEl, 0, 0, g, start)
  {
    assert fromEl.children[..0] == [] && fromEl.children[0..] == fromEl.children;
    assert toEl.children[0..] == toEl.children && toEl.tree.children[0..] == toEl.tree.children;
  }

  lemma Finished(fromEl: Node, toEl: Node, g: Goal, fp: Split)
    requires Midway(fromEl, toEl, |fromEl.children|, |toEl.children|, g, fp)
    ensures Shows(fromEl.children, fp.done, g.result)
  {
    assert fromEl.children[..|fromEl.children|] == fromEl.children && toEl.children[|toEl.children|..] == [];
    assert g.target.children[|fromEl.children|..] == [];
  }

  method MorphChildren(fromEl: Node, toEl: Node, ghost g: Goal, ghost start: Split, ghost plan: seq<Node>, skipEqual: bool)
      returns (ghost done: set<Node>)
    requires Midway(fromEl, toEl, 0, 0, g, start) && OnPlan(fromEl, toEl, 0, 0, plan) && fromEl != toEl
    requires toEl.tree == g.target
    modifies fromEl`children, toEl`children, start.rest, start.pending
    ensures done <= start.done + start.rest + start.pending
    ensures Shows(fromEl.children, done, g.result) && fromEl.children == plan
    decreases toEl.tree, 1, 0
  {
    var from, fp := MorphList(fromEl, toEl, g, start, plan, skipEqual);
    fp := Cleanup(fromEl, toEl, from, g, fp, plan);
    Finished(fromEl, toEl, g, fp);
    done := fp.done;
  }

  // One round of the outer loop.
  method NextChild(fromEl: Node, toEl: Node, from: nat, to: nat, ghost g: Goal, ghost fp: Split, ghost plan: seq<Node>, skipEqual: bool)
      returns (to': nat, ghost fp': Split)
    requires OnPlan(fromEl, toEl, from, to, plan)
    requires Midway(fromEl, toEl, from, to, g, fp) && fromEl != toEl && to < |toEl.children| && toEl.tree == g.target
    modifies fromEl`children, toEl`children, fp.rest, fp.pending
    ensures Midway(fromEl, toEl, from + 1, to', g, fp') && OnPlan(fromEl, toEl, from + 1, to', plan)
    ensures Within(fp', fp)
    decreases toEl.tree, 0, 2
  {
    var matched;
    matched, fp' := FindMatch(fromEl, toEl, from, to, g, fp, plan, skipEqual);
    to' := to + 1;
    if !matched {
      to' := to;
      fp' := AppendChild(fromEl, toEl, to, g, fp', plan);
    }
  }

  // The outer loop.
  method MorphList(fromEl: Node, toEl: Node, ghost g: Goal, ghost start: Split, ghost plan: seq<Node>, skipEqual: bool)
      returns (from: nat, ghost fp: Split)
    requires OnPlan(fromEl, toEl, 0, 0, plan)
    requires Midway(fromEl, toEl, 0, 0, g, start) && fromEl != toEl
    requires toEl.tree == g.target
    modifies fromEl`children, toEl`children, start.rest, start.pending
    ensures Midway(fromEl, toEl, from, |toEl.children|, g, fp) && Within(fp, start)
    ensures OnPlan(fromEl, toEl, from, |toEl.children|, plan)
    decreases toEl.tree, 0, 3
  {
    fp := start;
    var to: nat := 0;
    from := 0;
    while to < |toEl.children|
      invariant Midway(fromEl, toEl, from, to, g, fp)
      invariant Within(fp, start)
      invariant OnPlan(fromEl, toEl, from, to, plan)
      decreases |g.target.children| - from
    {
      to, fp := NextChild(fromEl, toEl, from, to, g, fp, plan, skipEqual);
      from := from + 1;
    }
  }

  // `cleanupFromEl`: the old children that are left over go.
  method Cleanup(fromEl: Node, toEl: Node, from: nat, ghost g: Goal, ghost fp: Split, ghost plan: seq<Node>)
      returns (ghost fp': Split)
    requires OnPlan(fromEl, toEl, from, |toEl.children|, plan)
    requires Midway(fromEl, toEl, from, |toEl.children|, g, fp) && fromEl != toEl
    modifies fromEl`children
    ensures |fromEl.children| == from && Midway(fromEl, toEl, from, |toEl.children|, g, fp') && fp'.done == fp.done
    ensures fromEl.children == plan
  {
    fp' := fp;
    while from < |fromEl.children|
      invariant from <= |fromEl.children| && Midway(fromEl, toEl, from, |toEl.children|, g, fp') && fp'.done == fp.done
      invariant OnPlan(fromEl, toEl, from, |toEl.children|, plan)
      decreases |fromEl.children| - from
    {
      fp' := RemoveChild(fromEl, toEl, from, |toEl.children|, g, fp', plan);
    }
    PlanEnd(fromEl, toEl, from, plan);
  }

  // `moveChildren`, one child after the other.
  method MoveChildren(fromEl: Node, toEl: Node, ghost fp: set<Node>)
    requires Grove(fromEl.children, fp) && fromEl !in fp && toEl !in fp && fromEl != toEl && toEl.children == []
    modifies fromEl`children, toEl`children
    ensures toEl.children == old(fromEl.children) && Grove(toEl.children, fp)
  {
    ghost var all := fromEl.children;
    while fromEl.children != []
      invariant toEl.children + fromEl.children == all
      decreases |fromEl.children|
    {
      var curChild := fromEl.children[0];
      fromEl.children := fromEl.children[1..];
      toEl.children := toEl.children + [curChild];
    }
    assert toEl.children == all;
  }

  // A new element takes over the children.
  method Remake(fromNode: Node, name: string) returns (made: Node)
    requires fromNode.Valid() && fromNode.kind == Element
    modifies fromNode
    ensures made.Valid() && fresh(made) && made.repr == old(fromNode.repr) - {fromNode} + {made}
    ensures made.kind == Element && made.name == name && made.tree == Elem(name, map[], old(fromNode.tree).children)
  {
    made := new Node(Element, name);
    ghost var fp := fromNode.repr - {fromNode};
    MoveChildren(fromNode, made, fp);
    SetTree(made, fp);
    assert made.tree.children == old(fromNode.tree).children;
  }

  // The result looks like the target did, whatever the two nodes were.
  method Morph(fromNode: Node, toNode: Node, skipEqual: bool) returns (morphedNode: Node)
    requires fromNode.Valid() && toNode.Valid() && fromNode.repr !! toNode.repr
    requires fromNode.kind != Other
    modifies fromNode.repr, toNode.repr
    ensures morphedNode.Valid() && morphedNode.tree == old(Morphed(fromNode.tree, toNode.tree))
    ensures old(HtmlNames(fromNode.tree) && HtmlNames(toNode.tree)) ==> morphedNode.tree == old(toNode.tree)
    ensures Compatible(fromNode, toNode) <==> morphedNode == fromNode
    ensures fromNode.kind != toNode.kind ==> morphedNode == toNode
  {
    if HtmlNames(fromNode.tree) && HtmlNames(toNode.tree) {
      MorphedHtml(fromNode.tree, toNode.tree);
    }
    morphedNode := fromNode;
    if fromNode.kind == toNode.kind {
      if fromNode.kind == Element {
        if !NamesMatch(fromNode.name, toNode.name) {
          morphedNode := Remake(fromNode, toNode.name);
        }
        MorphEl(morphedNode, toNode, skipEqual);
      } else if fromNode.value != toNode.value {
        fromNode.value := toNode.value;
        fromNode.tree := Leaf(fromNode.kind, fromNode.value);
      }
    } else {
      morphedNode := toNode;
    }
  }
}
