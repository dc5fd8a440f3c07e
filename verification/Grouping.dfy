/** Cutting a list into groups of equal key and bounded size: the slow, obvious form, and what it
    guarantees. The batch pipeline runs the fast form, with a map from key to open group. */
module Grouping {
  datatype Item<K, T> = Item(key: K, value: T)

  datatype Group<K, T> = Group(key: K, values: seq<T>)

  /** The index of the last group with this key, or -1. */
  function LastWith<K(==), T>(groups: seq<Group<K, T>>, key: K): (i: int)
    ensures -1 <= i < |groups|
    ensures i >= 0 ==> groups[i].key == key
    ensures forall j | i < j < |groups| :: groups[j].key != key
  {
    if groups == [] then -1
    else if groups[|groups| - 1].key == key then |groups| - 1
    else LastWith(groups[..|groups| - 1], key)
  }

  /** An item joins the last group of its key, or opens a new one when that is full or absent. */
  function Place<K(==), T>(groups: seq<Group<K, T>>, item: Item<K, T>, limit: nat): seq<Group<K, T>> {
    var i := LastWith(groups, item.key);
    if i < 0 || |groups[i].values| == limit then groups + [Group(item.key, [item.value])]
    else groups[i := Group(item.key, groups[i].values + [item.value])]
  }

  function GroupAll<K(==), T>(items: seq<Item<K, T>>, limit: nat): seq<Group<K, T>> {
    if items == [] then [] else Place(GroupAll(items[..|items| - 1], limit), items[|items| - 1], limit)
  }

  // ---- Per key ---------------------------------------------------------------------------

  /** The values of one key, in input order. */
  function ValuesOf<K(==), T>(items: seq<Item<K, T>>, key: K): seq<T> {
    if items == [] then []
    else ValuesOf(items[..|items| - 1], key) +
         (if items[|items| - 1].key == key then [items[|items| - 1].value] else [])
  }

  /** The groups of one key, in order. */
  function GroupsOf<K(==), T>(groups: seq<Group<K, T>>, key: K): seq<seq<T>> {
    if groups == [] then []
    else GroupsOf(groups[..|groups| - 1], key) +
         (if groups[|groups| - 1].key == key then [groups[|groups| - 1].values] else [])
  }

  function Flat<T>(parts: seq<seq<T>>): seq<T> {
    if parts == [] then [] else Flat(parts[..|parts| - 1]) + parts[|parts| - 1]
  }

  /** All parts full, except that the last may be short; none empty. */
  predicate Packed<T>(parts: seq<seq<T>>, limit: nat) {
    && (forall i | 0 <= i < |parts| - 1 :: |parts[i]| == limit)
    && (parts != [] ==> 1 <= |parts[|parts| - 1]| <= limit)
  }

  lemma {:induction false} GroupsOfAppend<K, T>(groups: seq<Group<K, T>>, g: Group<K, T>, key: K)
    ensures GroupsOf(groups + [g], key) == GroupsOf(groups, key) + (if g.key == key then [g.values] else [])
  {
    assert (groups + [g])[..|groups|] == groups;
  }

  /** Replacing the values of the last group of a key replaces the last part of that key and no other. */
  lemma {:induction false} GroupsOfReplace<K, T>(groups: seq<Group<K, T>>, i: nat, values: seq<T>, key: K)
    requires i < |groups| && forall j | i < j < |groups| :: groups[j].key != groups[i].key
    ensures var after := groups[i := Group(groups[i].key, values)];
            var parts := GroupsOf(groups, key);
            if key == groups[i].key
            then parts != [] && parts[|parts| - 1] == groups[i].values
                 && GroupsOf(after, key) == parts[..|parts| - 1] + [values]
            else GroupsOf(after, key) == parts
  {
    var n := |groups| - 1;
    var after := groups[i := Group(groups[i].key, values)];
    if i == n {
      assert after[..n] == groups[..n];
    } else {
      GroupsOfReplace(groups[..n], i, values, key);
      assert after[..n] == groups[..n][i := Group(groups[i].key, values)];
    }
  }

  lemma {:induction false} FewGroupsOf<K, T>(groups: seq<Group<K, T>>, key: K)
    ensures LastWith(groups, key) < 0 ==> GroupsOf(groups, key) == []
    ensures LastWith(groups, key) >= 0 ==>
              GroupsOf(groups, key) != [] &&
              GroupsOf(groups, key)[|GroupsOf(groups, key)| - 1] == groups[LastWith(groups, key)].values
  {
    if groups != [] && groups[|groups| - 1].key != key {
      FewGroupsOf(groups[..|groups| - 1], key);
    }
  }

  /** One placement, seen from any key. */
  lemma PlaceKeeps<K, T>(groups: seq<Group<K, T>>, item: Item<K, T>, limit: nat, key: K)
    requires limit > 0 && Packed(GroupsOf(groups, key), limit)
    ensures var parts := GroupsOf(Place(groups, item, limit), key);
            && Packed(parts, limit)
            && Flat(parts) == Flat(GroupsOf(groups, key)) + (if item.key == key then [item.value] else [])
  {
    var before := GroupsOf(groups, key);
    var parts := GroupsOf(Place(groups, item, limit), key);
    var i := LastWith(groups, item.key);
    if i < 0 || |groups[i].values| == limit {
      FewGroupsOf(groups, item.key);
      GroupsOfAppend(groups, Group(item.key, [item.value]), key);
      if item.key == key {
        assert parts[..|before|] == before;
        assert Flat(parts) == Flat(before) + [item.value];
      } else {
        assert parts == before;
      }
    } else {
      GroupsOfReplace(groups, i, groups[i].values + [item.value], key);
      if item.key == key {
        var n := |before| - 1;
        assert parts[..n] == before[..n];
        assert Flat(parts) == Flat(before[..n]) + (before[n] + [item.value]);
      }
    }
  }

  /** For each key, its groups hold its values in input order, all full but the last. */
  lemma {:induction false} GroupsHoldTheirValues<K, T>(items: seq<Item<K, T>>, limit: nat, key: K)
    requires limit > 0
    ensures Packed(GroupsOf(GroupAll(items, limit), key), limit)
    ensures Flat(GroupsOf(GroupAll(items, limit), key)) == ValuesOf(items, key)
  {
    if items != [] {
      GroupsHoldTheirValues(items[..|items| - 1], limit, key);
      PlaceKeeps(GroupAll(items[..|items| - 1], limit), items[|items| - 1], limit, key);
    }
  }

  // ---- Which pins the grouping down, with as few groups as possible -------------------------

  function CeilDiv(n: nat, limit: nat): nat
    requires limit > 0
  {
    (n + limit - 1) / limit
  }

  lemma {:induction false} FlatLength<T>(parts: seq<seq<T>>, limit: nat)
    requires forall i | 0 <= i < |parts| :: |parts[i]| <= limit
    ensures |Flat(parts)| <= |parts| * limit
    ensures (forall i | 0 <= i < |parts| :: |parts[i]| == limit) ==> |Flat(parts)| == |parts| * limit
  {
    if parts != [] {
      FlatLength(parts[..|parts| - 1], limit);
      assert |parts| * limit == (|parts| - 1) * limit + limit;
    }
  }

  lemma CeilDivBetween(n: nat, limit: nat, k: nat)
    requires limit > 0 && (if n == 0 then k == 0 else (k - 1) * limit < n <= k * limit)
    ensures CeilDiv(n, limit) == k
  {
    if n > 0 {
      var m := n + limit - 1;
      assert k * limit <= m < k * limit + limit;
      DivUnique(m, limit, k);
    } else {
      DivUnique(limit - 1, limit, 0);
    }
  }

  lemma MulMonotone(a: nat, b: nat, d: nat)
    requires a <= b
    ensures a * d <= b * d
  {
  }

  lemma DivUnique(m: nat, d: nat, q: nat)
    requires d > 0 && q * d <= m < q * d + d
    ensures m / d == q
  {
    var k := m / d;
    assert k * d <= m < k * d + d;
    if k > q {
      MulMonotone(q + 1, k, d);
    } else if k < q {
      MulMonotone(k + 1, q, d);
    }
  }

  /** ceil(n / limit) groups for the n values of a key ... */
  lemma PackedCount<T>(parts: seq<seq<T>>, limit: nat)
    requires limit > 0 && Packed(parts, limit)
    ensures |parts| == CeilDiv(|Flat(parts)|, limit)
  {
    if parts != [] {
      var full := parts[..|parts| - 1];
      FlatLength(full, limit);
      assert |parts| * limit == |full| * limit + limit;
    }
    CeilDivBetween(|Flat(parts)|, limit, |parts|);
  }

  /** ... and no grouping of the same values within the limit has fewer. */
  lemma PackedIsFewest<T>(parts: seq<seq<T>>, others: seq<seq<T>>, limit: nat)
    requires limit > 0 && Packed(parts, limit) && Flat(others) == Flat(parts)
    requires forall i | 0 <= i < |others| :: |others[i]| <= limit
    ensures |parts| <= |others|
  {
    FlatLength(others, limit);
    if parts != [] {
      FlatLength(parts[..|parts| - 1], limit);
      if |others| < |parts| { MulMonotone(|others|, |parts| - 1, limit); }
    }
  }

  /** Two such cuts of the same values are the same cut. */
  lemma {:induction false} PackedIsUnique<T>(parts: seq<seq<T>>, others: seq<seq<T>>, limit: nat)
    requires limit > 0 && Packed(parts, limit) && Packed(others, limit) && Flat(others) == Flat(parts)
    ensures parts == others
  {
    PackedCount(parts, limit);
    PackedCount(others, limit);
    if parts != [] {
      var n := |parts| - 1;
      FlatLength(parts[..n], limit);
      FlatLength(others[..n], limit);
      var cut := n * limit;
      assert Flat(parts)[..cut] == Flat(parts[..n]) && Flat(parts)[cut..] == parts[n];
      assert Flat(others)[..cut] == Flat(others[..n]) && Flat(others)[cut..] == others[n];
      FullIsUnique(parts[..n], others[..n], limit);
    }
  }

  lemma {:induction false} FullIsUnique<T>(parts: seq<seq<T>>, others: seq<seq<T>>, limit: nat)
    requires |parts| == |others| && Flat(parts) == Flat(others)
    requires forall i | 0 <= i < |parts| :: |parts[i]| == limit && |others[i]| == limit
    ensures parts == others
  {
    if parts != [] {
      var n := |parts| - 1;
      FlatLength(parts[..n], limit);
      FlatLength(others[..n], limit);
      var cut := n * limit;
      assert Flat(parts)[..cut] == Flat(parts[..n]) && Flat(parts)[cut..] == parts[n];
      assert Flat(others)[..cut] == Flat(others[..n]) && Flat(others)[cut..] == others[n];
      FullIsUnique(parts[..n], others[..n], limit);
    }
  }

  // ---- Across keys --------------------------------------------------------------------------------

  function AllValues<K, T>(groups: seq<Group<K, T>>): multiset<T> {
    if groups == [] then multiset{} else AllValues(groups[..|groups| - 1]) + multiset(groups[|groups| - 1].values)
  }

  function Values<K, T>(items: seq<Item<K, T>>): seq<T> {
    seq(|items|, i requires 0 <= i < |items| => items[i].value)
  }

  lemma {:induction false} ReplaceValue<K, T>(groups: seq<Group<K, T>>, i: nat, value: T)
    requires i < |groups|
    ensures AllValues(groups[i := Group(groups[i].key, groups[i].values + [value])]) ==
            AllValues(groups) + multiset{value}
  {
    var n := |groups| - 1;
    var after := groups[i := Group(groups[i].key, groups[i].values + [value])];
    if i == n {
      assert after[..n] == groups[..n];
    } else {
      ReplaceValue(groups[..n], i, value);
      assert after[..n] == groups[..n][i := Group(groups[i].key, groups[i].values + [value])];
    }
  }

  lemma PlaceAdds<K, T>(groups: seq<Group<K, T>>, item: Item<K, T>, limit: nat)
    ensures AllValues(Place(groups, item, limit)) == AllValues(groups) + multiset{item.value}
  {
    var i := LastWith(groups, item.key);
    if i < 0 || |groups[i].values| == limit {
      assert (groups + [Group(item.key, [item.value])])[..|groups|] == groups;
    } else {
      ReplaceValue(groups, i, item.value);
    }
  }

  /** Every value is in exactly one group: as often as it was given, no more and no less. */
  lemma {:induction false} GroupsPartition<K, T>(items: seq<Item<K, T>>, limit: nat)
    ensures AllValues(GroupAll(items, limit)) == multiset(Values(items))
  {
    hide Place;
    if items != [] {
      var before, item := items[..|items| - 1], items[|items| - 1];
      GroupsPartition(before, limit);
      assert Values(items) == Values(before) + [item.value];
      PlaceAdds(GroupAll(before, limit), item, limit);
    }
  }

  /** `part` is `whole` with some values left out. */
  predicate Subsequence<T(==)>(part: seq<T>, whole: seq<T>) {
    part == [] ||
    (&& whole != []
     && (|| (part[|part| - 1] == whole[|whole| - 1] && Subsequence(part[..|part| - 1], whole[..|whole| - 1]))
         || Subsequence(part, whole[..|whole| - 1])))
  }

  predicate NoneEmpty<K, T>(groups: seq<Group<K, T>>) {
    forall i | 0 <= i < |groups| :: groups[i].values != []
  }

  function Heads<K, T>(groups: seq<Group<K, T>>): seq<T>
    requires NoneEmpty(groups)
  {
    seq(|groups|, i requires 0 <= i < |groups| => groups[i].values[0])
  }

  lemma {:induction false} SubsequenceGrows<T>(part: seq<T>, whole: seq<T>, x: T)
    requires Subsequence(part, whole)
    ensures Subsequence(part, whole + [x]) && Subsequence(part + [x], whole + [x])
  {
    assert (whole + [x])[..|whole|] == whole;
    assert (part + [x])[..|part|] == part;
  }

  /** Groups open in the order of their first values. */
  lemma {:induction false} GroupsOpenInOrder<K, T>(items: seq<Item<K, T>>, limit: nat)
    ensures NoneEmpty(GroupAll(items, limit)) && Subsequence(Heads(GroupAll(items, limit)), Values(items))
  {
    if items != [] {
      var before, item := items[..|items| - 1], items[|items| - 1];
      GroupsOpenInOrder(before, limit);
      assert Values(items) == Values(before) + [item.value];
      var groups := GroupAll(before, limit);
      SubsequenceGrows(Heads(groups), Values(before), item.value);
      var after := GroupAll(items, limit);
      assert Heads(after) in {Heads(groups), Heads(groups) + [item.value]} by {
        if |after| == |groups| {
          assert Heads(after) == Heads(groups);
        } else {
          assert Heads(after) == Heads(groups) + [item.value];
        }
      }
    }
  }

  // ---- One group ------------------------------------------------------------------------------------

  /** What the last-group index becomes: the fact the key-to-open-group map rests on. */
  lemma LastWithPlace<K, T>(groups: seq<Group<K, T>>, item: Item<K, T>, limit: nat, key: K)
    ensures var i := LastWith(groups, item.key);
            LastWith(Place(groups, item, limit), key) ==
            if key != item.key then LastWith(groups, key)
            else if i < 0 || |groups[i].values| == limit then |groups| else i
  {
    var after := Place(groups, item, limit);
    var was, now := LastWith(groups, key), LastWith(after, key);
    assert forall j | 0 <= j < |groups| :: after[j].key == groups[j].key;
    if key != item.key {
      assert was >= 0 ==> after[was].key == key;
      assert now >= 0 ==> after[now].key == key;
    }
  }

  predicate GroupFits<K(==), T(==)>(items: seq<Item<K, T>>, group: Group<K, T>, limit: nat) {
    1 <= |group.values| <= limit && Subsequence(group.values, ValuesOf(items, group.key))
  }

  lemma OldGroupFits<K, T>(items: seq<Item<K, T>>, item: Item<K, T>, group: Group<K, T>, limit: nat)
    requires GroupFits(items, group, limit)
    ensures GroupFits(items + [item], group, limit)
    ensures item.key == group.key && |group.values| < limit ==>
              GroupFits(items + [item], Group(group.key, group.values + [item.value]), limit)
  {
    assert (items + [item])[..|items|] == items;
    SubsequenceGrows(group.values, ValuesOf(items, group.key), item.value);
    assert item.key != group.key ==> ValuesOf(items + [item], group.key) == ValuesOf(items, group.key);
  }

  lemma NewGroupFits<K, T>(items: seq<Item<K, T>>, item: Item<K, T>, limit: nat)
    requires limit > 0
    ensures GroupFits(items + [item], Group(item.key, [item.value]), limit)
  {
    assert (items + [item])[..|items|] == items;
    SubsequenceGrows([], ValuesOf(items, item.key), item.value);
    assert [] + [item.value] == [item.value];
  }

  /** Every group holds between one value and the limit, all of its key, in input order. */
  lemma {:induction false} EveryGroupFits<K, T>(items: seq<Item<K, T>>, limit: nat, g: nat)
    requires limit > 0 && g < |GroupAll(items, limit)|
    ensures GroupFits(items, GroupAll(items, limit)[g], limit)
  {
    var before, item := items[..|items| - 1], items[|items| - 1];
    assert before + [item] == items;
    var groups := GroupAll(before, limit);
    if g < |groups| {
      EveryGroupFits(before, limit, g);
      OldGroupFits(before, item, groups[g], limit);
    } else {
      NewGroupFits(before, item, limit);
    }
  }

  /** Two values of a key come from two items of that key, in the same order. */
  lemma {:induction false} ValuesComeFromItems<K, T>(items: seq<Item<K, T>>, key: K, i: nat) returns (n: nat)
    requires i < |ValuesOf(items, key)|
    ensures n < |items| && items[n] == Item(key, ValuesOf(items, key)[i])
    ensures ValuesOf(items[..n], key) == ValuesOf(items, key)[..i]
  {
    var before, last := items[..|items| - 1], items[|items| - 1];
    if i < |ValuesOf(before, key)| {
      n := ValuesComeFromItems(before, key, i);
      assert before[..n] == items[..n];
    } else {
      n := |items| - 1;
    }
  }

  lemma {:induction false} ValuesOfPrefix<K, T>(items: seq<Item<K, T>>, n: nat, key: K)
    requires n <= |items|
    ensures |ValuesOf(items[..n], key)| <= |ValuesOf(items, key)|
  {
    if n == |items| {
      assert items[..n] == items;
    } else {
      ValuesOfPrefix(items[..|items| - 1], n, key);
      assert items[..|items| - 1][..n] == items[..n];
    }
  }

  lemma FewerValuesInPrefix<K, T>(items: seq<Item<K, T>>, m: nat, n: nat, key: K)
    requires m <= n <= |items|
    ensures |ValuesOf(items[..m], key)| <= |ValuesOf(items[..n], key)|
  {
    ValuesOfPrefix(items[..n], m, key);
    assert items[..n][..m] == items[..m];
  }

  lemma OrderOfItems<K, T>(items: seq<Item<K, T>>, key: K, i: nat, j: nat) returns (n: nat, m: nat)
    requires i < j < |ValuesOf(items, key)|
    ensures n < m < |items|
    ensures items[n] == Item(key, ValuesOf(items, key)[i]) && items[m] == Item(key, ValuesOf(items, key)[j])
  {
    n := ValuesComeFromItems(items, key, i);
    m := ValuesComeFromItems(items, key, j);
    if m <= n {
      FewerValuesInPrefix(items, m, n, key);
    }
  }

  lemma {:induction false} SubsequenceIndex<T>(part: seq<T>, whole: seq<T>, i: nat) returns (n: nat)
    requires Subsequence(part, whole) && i < |part|
    ensures n < |whole| && whole[n] == part[i]
    ensures Subsequence(part[..i], whole[..n])
  {
    var p, w := |part| - 1, |whole| - 1;
    if part[p] == whole[w] && Subsequence(part[..p], whole[..w]) {
      if i == p {
        n := w;
      } else {
        n := SubsequenceIndex(part[..p], whole[..w], i);
        assert part[..p][..i] == part[..i] && whole[..w][..n] == whole[..n];
      }
    } else {
      n := SubsequenceIndex(part, whole[..w], i);
      assert whole[..w][..n] == whole[..n];
    }
  }

  lemma SubsequenceOrder<T>(part: seq<T>, whole: seq<T>, i: nat, j: nat) returns (n: nat, m: nat)
    requires Subsequence(part, whole) && i < j < |part|
    ensures n < m < |whole| && whole[n] == part[i] && whole[m] == part[j]
  {
    m := SubsequenceIndex(part, whole, j);
    n := SubsequenceIndex(part[..j], whole[..m], i);
  }

  /** Two values of a group come from two different items with its key, in the same order. */
  lemma GroupKeepsOrder<K, T>(items: seq<Item<K, T>>, limit: nat, g: nat, i: nat, j: nat) returns (n: nat, m: nat)
    requires limit > 0 && g < |GroupAll(items, limit)| && i < j < |GroupAll(items, limit)[g].values|
    ensures var group := GroupAll(items, limit)[g];
            && n < m < |items|
            && items[n] == Item(group.key, group.values[i]) && items[m] == Item(group.key, group.values[j])
  {
    var group := GroupAll(items, limit)[g];
    EveryGroupFits(items, limit, g);
    var a, b := SubsequenceOrder(group.values, ValuesOf(items, group.key), i, j);
    n, m := OrderOfItems(items, group.key, a, b);
  }

  lemma GroupValueIsItem<K, T>(items: seq<Item<K, T>>, limit: nat, g: nat, i: nat) returns (n: nat)
    requires limit > 0 && g < |GroupAll(items, limit)| && i < |GroupAll(items, limit)[g].values|
    ensures n < |items| && items[n] == Item(GroupAll(items, limit)[g].key, GroupAll(items, limit)[g].values[i])
  {
    var group := GroupAll(items, limit)[g];
    EveryGroupFits(items, limit, g);
    var a := SubsequenceIndex(group.values, ValuesOf(items, group.key), i);
    n := ValuesComeFromItems(items, group.key, a);
  }
}
