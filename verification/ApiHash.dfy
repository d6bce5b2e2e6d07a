/** The 64-bit hash under which lists are compared with the server's (`api_hash.h`, `api_hash.cpp`). */
module ApiHash {

  type U64 = bv64

  // ----- One update, and its inverse

  function ShiftRight21(x: U64): U64 { x ^ (x >> 21) }

  function ShiftLeft35(x: U64): U64 { x ^ (x << 35) }

  function ShiftRight4(x: U64): U64 { x ^ (x >> 4) }

  function Add(x: U64, y: U64): U64 { x + y }

  // An update before the value is added.
  function Scrambled(already: U64): U64 { ShiftRight4(ShiftLeft35(ShiftRight21(already))) }

  function Update(already: U64, value: U64): U64 { Add(Scrambled(already), value) }

  function UnshiftRight21(y: U64): U64 { y ^ (y >> 21) ^ (y >> 42) ^ (y >> 63) }

  function UnshiftLeft35(y: U64): U64 { y ^ (y << 35) }

  function UnshiftRight4(y: U64): U64 {
    var a := y ^ (y >> 4);
    var b := a ^ (a >> 8);
    var c := b ^ (b >> 16);
    c ^ (c >> 32)
  }

  function Sub(x: U64, y: U64): U64 { x - y }

  // The state before an update from the state after it.
  function Undo(after: U64, value: U64): U64 {
    UnshiftRight21(UnshiftLeft35(UnshiftRight4(Sub(after, value))))
  }

  lemma Right21Undone(x: U64)
    ensures UnshiftRight21(x ^ (x >> 21)) == x
  {}

  lemma Right21Redone(y: U64)
    ensures ShiftRight21(y ^ (y >> 21) ^ (y >> 42) ^ (y >> 63)) == y
  {}

  lemma Left35Undone(x: U64)
    ensures UnshiftLeft35(x ^ (x << 35)) == x
  {}

  lemma Left35Redone(y: U64)
    ensures ShiftLeft35(y ^ (y << 35)) == y
  {}

  lemma Right4Undone(x: U64)
    ensures UnshiftRight4(x ^ (x >> 4)) == x
  {}

  lemma Right4Redone(y: U64)
    ensures
      var a := y ^ (y >> 4);
      var b := a ^ (a >> 8);
      var c := b ^ (b >> 16);
      ShiftRight4(c ^ (c >> 32)) == y
  {}

  lemma SubAdded(x: U64, y: U64)
    ensures Sub(x + y, y) == x
  {}

  lemma AddSubtracted(x: U64, y: U64)
    ensures Add(x - y, y) == x
  {}

  lemma Right21Inverse(x: U64)
    ensures UnshiftRight21(ShiftRight21(x)) == x
    ensures ShiftRight21(UnshiftRight21(x)) == x
  {
    Right21Undone(x);
    Right21Redone(x);
  }

  lemma Left35Inverse(x: U64)
    ensures UnshiftLeft35(ShiftLeft35(x)) == x
    ensures ShiftLeft35(UnshiftLeft35(x)) == x
  {
    Left35Undone(x);
    Left35Redone(x);
  }

  lemma Right4Inverse(x: U64)
    ensures UnshiftRight4(ShiftRight4(x)) == x
    ensures ShiftRight4(UnshiftRight4(x)) == x
  {
    Right4Undone(x);
    Right4Redone(x);
  }

  lemma AddInverse(x: U64, y: U64)
    ensures Sub(Add(x, y), y) == x
    ensures Add(Sub(x, y), y) == x
  {
    SubAdded(x, y);
    AddSubtracted(x, y);
  }

  // For each value, an update is a bijection of the 64-bit states.
  lemma UpdateBijective(state: U64, value: U64)
    ensures Undo(Update(state, value), value) == state
    ensures Update(Undo(state, value), value) == state
  {
    var a := ShiftRight21(state);
    var b := ShiftLeft35(a);
    Right21Inverse(state);
    Left35Inverse(a);
    Right4Inverse(b);
    AddInverse(ShiftRight4(b), value);
    var c := Sub(state, value);
    AddInverse(state, value);
    Right4Inverse(c);
    Left35Inverse(UnshiftRight4(c));
    Right21Inverse(UnshiftLeft35(UnshiftRight4(c)));
  }

  // And for each state it is a bijection of the values.
  lemma UpdateInValue(state: U64, value: U64, target: U64)
    ensures Update(state, value) == target <==> value == Sub(target, Scrambled(state))
  {
    var c := Scrambled(state);
    AddCommutes(c, value);
    AddInverse(value, c);
    AddInverse(target, c);
    AddCommutes(c, Sub(target, c));
  }

  lemma AddCommutes(x: U64, y: U64)
    ensures Add(x, y) == Add(y, x)
  {
    AddSwapped(x, y);
  }

  lemma AddSwapped(x: U64, y: U64)
    ensures Add(x, y) == y + x
  {}

  // ----- `HashUpdate` and `CountHash`

  // The state goes in and comes out in place of the reference argument.
  method HashUpdate(state: U64, value: U64) returns (already: U64)
    ensures already == Update(state, value)
  {
    already := state;
    already := ShiftRight21(already);
    already := ShiftLeft35(already);
    already := ShiftRight4(already);
    already := Add(already, value);
  }

  // What some updates come to.
  lemma UpdateAnswers()
    ensures Update(0x0123_4567_89ab_cdef, 7) == 0x94f6_84f9_7ab8_febf
    ensures Update(0, 1) == 1 && Update(1, 2) == 0x8_8000_0003 && Update(0x8_8000_0003, 3) == 0x2_0211_8800_4046
  {}

  function Fold(state: U64, values: seq<U64>): U64
    decreases |values|
  {
    if values == [] then state else Fold(Update(state, values[0]), values[1..])
  }

  method CountHash(range: seq<U64>) returns (result: U64)
    ensures result == Fold(0, range)
  {
    result := 0;
    for i := 0 to |range|
      invariant Fold(result, range[i..]) == Fold(0, range)
    {
      result := HashUpdate(result, range[i]);
    }
  }

  lemma {:induction false} FoldConcat(state: U64, left: seq<U64>, right: seq<U64>)
    ensures Fold(state, left + right) == Fold(Fold(state, left), right)
    decreases |left|
  {
    if left == [] {
      assert left + right == right;
    } else {
      assert (left + right)[0] == left[0] && (left + right)[1..] == left[1..] + right;
      FoldConcat(Update(state, left[0]), left[1..], right);
    }
  }

  // A difference in the state survives every later value.
  lemma {:induction false} FoldInjective(x: U64, y: U64, values: seq<U64>)
    ensures Fold(x, values) == Fold(y, values) <==> x == y
    decreases |values|
  {
    if values != [] {
      FoldInjective(Update(x, values[0]), Update(y, values[0]), values[1..]);
      UpdateBijective(x, values[0]);
      UpdateBijective(y, values[0]);
    }
  }

  // Lists with a common beginning and end have equal hashes exactly when their middles
  // take the state after the beginning to the same state.
  lemma HashDependsOnMiddle(start: seq<U64>, a: seq<U64>, b: seq<U64>, end: seq<U64>)
    ensures Fold(0, start + a + end) == Fold(0, start + b + end)
      <==> Fold(Fold(0, start), a) == Fold(Fold(0, start), b)
  {
    FoldConcat(0, start + a, end);
    FoldConcat(0, start + b, end);
    FoldConcat(0, start, a);
    FoldConcat(0, start, b);
    FoldInjective(Fold(0, start + a), Fold(0, start + b), end);
  }

  // One changed element always changes the hash.
  lemma OneChangeDetected(a: seq<U64>, b: seq<U64>, i: nat)
    requires |a| == |b| && i < |a| && a[i] != b[i]
    requires forall k :: 0 <= k < |a| && k != i ==> a[k] == b[k]
    ensures Fold(0, a) != Fold(0, b)
  {
    assert a == a[..i] + [a[i]] + a[i + 1..];
    assert b == a[..i] + [b[i]] + a[i + 1..];
    HashDependsOnMiddle(a[..i], [a[i]], [b[i]], a[i + 1..]);
    var s := Fold(0, a[..i]);
    assert Fold(s, [a[i]]) == Update(s, a[i]) && Fold(s, [b[i]]) == Update(s, b[i]);
    UpdateInValue(s, a[i], Update(s, b[i]));
    UpdateInValue(s, b[i], Update(s, b[i]));
  }

  // Two changes may cancel out: whatever the first two values are changed to at the
  // first place, exactly one value at the second place restores the hash.
  lemma TwoChangesMayCollide(start: seq<U64>, a: U64, b: U64, a': U64, end: seq<U64>)
    ensures exists b' :: Fold(0, start + [a, b] + end) == Fold(0, start + [a', b'] + end)
  {
    var s := Fold(0, start);
    var target := Fold(s, [a, b]);
    var s' := Update(s, a');
    var b' := Sub(target, Scrambled(s'));
    UpdateInValue(s', b', target);
    assert [a', b'][1..] == [b'];
    assert Fold(s, [a', b']) == Fold(s', [b']) == Update(s', b');
    HashDependsOnMiddle(start, [a, b], [a', b'], end);
  }

  // ----- `CountStickersOrderHash`

  type SetId = nat

  datatype StickersSet = StickersSet(isDefault: bool, special: bool, archived: bool, hash: U64)

  predicate Counted(s: StickersSet) { !s.isDefault && !s.special && !s.archived }

  // The hashes of installed sets that are neither the default one nor special, in order.
  function CountedHashes(order: seq<SetId>, sets: map<SetId, StickersSet>): seq<U64> {
    if order == [] then []
    else
      var rest := CountedHashes(order[1..], sets);
      if order[0] in sets && Counted(sets[order[0]]) then [sets[order[0]].hash] + rest else rest
  }

  predicate FindsOutdated(order: seq<SetId>, sets: map<SetId, StickersSet>) {
    exists id :: id in order && id in sets && sets[id].isDefault
  }

  function OrderHash(order: seq<SetId>, sets: map<SetId, StickersSet>, checkOutdatedInfo: bool): U64 {
    if checkOutdatedInfo && FindsOutdated(order, sets) then 0 else Fold(0, CountedHashes(order, sets))
  }

  method CountStickersOrderHash(order: seq<SetId>, sets: map<SetId, StickersSet>, checkOutdatedInfo: bool)
      returns (r: U64)
    ensures r == OrderHash(order, sets, checkOutdatedInfo)
  {
    var result: U64 := 0;
    var foundOutdated := false;
    for i := 0 to |order|
      invariant Fold(result, CountedHashes(order[i..], sets)) == Fold(0, CountedHashes(order, sets))
      invariant foundOutdated == FindsOutdated(order[..i], sets)
    {
      assert order[i..][1..] == order[i + 1..];
      assert order[..i + 1] == order[..i] + [order[i]];
      if order[i] in sets {
        var s := sets[order[i]];
        if s.isDefault {
          foundOutdated := true;
        } else if !s.special && !s.archived {
          result := HashUpdate(result, s.hash);
        }
      }
    }
    assert order[..|order|] == order;
    r := if !checkOutdatedInfo || !foundOutdated then result else 0;
  }

  lemma {:induction false} CountedConcat(left: seq<SetId>, right: seq<SetId>, sets: map<SetId, StickersSet>)
    ensures CountedHashes(left + right, sets) == CountedHashes(left, sets) + CountedHashes(right, sets)
  {
    if left == [] {
      assert left + right == right;
    } else {
      assert (left + right)[1..] == left[1..] + right;
      CountedConcat(left[1..], right, sets);
    }
  }

  // Which hashes are folded, one by one, and when the result is 0 instead.
  lemma OrderHashExactly(order: seq<SetId>, sets: map<SetId, StickersSet>, id: SetId, checkOutdatedInfo: bool)
    ensures CountedHashes([id], sets) ==
      if id in sets && !sets[id].isDefault && !sets[id].special && !sets[id].archived then [sets[id].hash] else []
    ensures OrderHash(order, sets, checkOutdatedInfo) ==
      if checkOutdatedInfo && exists i :: 0 <= i < |order| && order[i] in sets && sets[order[i]].isDefault then 0
      else Fold(0, CountedHashes(order, sets))
  {
    assert [id][1..] == [];
    if i :| 0 <= i < |order| && order[i] in sets && sets[order[i]].isDefault {
      assert order[i] in order;
    }
  }

  // The hash of no set is 0, and one set more is one update more.
  lemma OrderHashGrows(order: seq<SetId>, sets: map<SetId, StickersSet>, id: SetId)
    ensures OrderHash([], sets, false) == 0
    ensures OrderHash(order + [id], sets, false) ==
      if id in sets && !sets[id].isDefault && !sets[id].special && !sets[id].archived
      then Update(OrderHash(order, sets, false), sets[id].hash) else OrderHash(order, sets, false)
  {
    OrderHashExactly(order, sets, id, false);
    CountedConcat(order, [id], sets);
    var a := CountedHashes(order, sets);
    if id in sets && !sets[id].isDefault && !sets[id].special && !sets[id].archived {
      FoldMore(0, a, sets[id].hash);
    } else {
      assert a + [] == a;
    }
  }

  lemma {:induction false} FoldMore(state: U64, values: seq<U64>, value: U64)
    ensures Fold(state, values + [value]) == Update(Fold(state, values), value)
    decreases |values|
  {
    if values == [] {
      assert values + [value] == [value] && [value][1..] == [];
    } else {
      assert (values + [value])[1..] == values[1..] + [value];
      FoldMore(Update(state, values[0]), values[1..], value);
    }
  }

  lemma {:induction false} CountedElsewhere(order: seq<SetId>, sets: map<SetId, StickersSet>, id: SetId, s: StickersSet)
    requires id !in order
    ensures CountedHashes(order, sets[id := s]) == CountedHashes(order, sets)
  {
    if order != [] {
      CountedElsewhere(order[1..], sets, id, s);
    }
  }

  // A new hash of one counted set changes the order's hash, unless an outdated
  // default set makes both of them zero.
  lemma ChangedSetDetected(order: seq<SetId>, sets: map<SetId, StickersSet>, i: nat, hash: U64, checkOutdatedInfo: bool)
    requires i < |order| && order[i] !in order[..i] && order[i] !in order[i + 1..]
    requires order[i] in sets && Counted(sets[order[i]]) && sets[order[i]].hash != hash
    ensures
      var changed := sets[order[i] := sets[order[i]].(hash := hash)];
      OrderHash(order, sets, checkOutdatedInfo) != OrderHash(order, changed, checkOutdatedInfo)
      <==> !(checkOutdatedInfo && FindsOutdated(order, sets))
  {
    var id := order[i];
    var s := sets[id].(hash := hash);
    var changed := sets[id := s];
    assert order == order[..i] + ([id] + order[i + 1..]);
    assert forall m :: CountedHashes(order, m) == CountedHashes(order[..i], m) + CountedHashes([id] + order[i + 1..], m) by {
      forall m { CountedConcat(order[..i], [id] + order[i + 1..], m); }
    }
    assert ([id] + order[i + 1..])[1..] == order[i + 1..];
    CountedElsewhere(order[..i], sets, id, s);
    CountedElsewhere(order[i + 1..], sets, id, s);
    var start, end := CountedHashes(order[..i], sets), CountedHashes(order[i + 1..], sets);
    var a, b := start + [sets[id].hash] + end, start + [hash] + end;
    assert CountedHashes(order, sets) == a && CountedHashes(order, changed) == b;
    OneChangeDetected(a, b, |start|);
    assert FindsOutdated(order, sets) <==> FindsOutdated(order, changed) by {
      assert forall x :: x in order && x != id ==> (x in sets <==> x in changed) && (x in sets ==> sets[x] == changed[x]);
    }
  }
}
