/** Sums grouped by a key, as the database returns them, and totals taken over the groups. */
module Grouping {

  datatype Group<K> = Group(key: K, sum: int)

  /** Total of the items whose key is picked. */
  function Picked<K>(items: seq<(K, int)>, pick: K -> bool): int {
    if items == [] then 0
    else
      var item := items[|items| - 1];
      Picked(items[..|items| - 1], pick) + if pick(item.0) then item.1 else 0
  }

  function KeyTotal<K(==)>(items: seq<(K, int)>, key: K): int {
    if items == [] then 0
    else
      var item := items[|items| - 1];
      KeyTotal(items[..|items| - 1], key) + if item.0 == key then item.1 else 0
  }

  function GroupsPicked<K>(groups: seq<Group<K>>, pick: K -> bool): int {
    if groups == [] then 0
    else
      var g := groups[|groups| - 1];
      GroupsPicked(groups[..|groups| - 1], pick) + if pick(g.key) then g.sum else 0
  }

  ghost predicate Distinct<K>(groups: seq<Group<K>>) {
    forall i, k :: 0 <= i < k < |groups| ==> groups[i].key != groups[k].key
  }

  predicate HasGroup<K(==)>(groups: seq<Group<K>>, key: K) {
    exists k :: 0 <= k < |groups| && groups[k].key == key
  }

  ghost predicate Covers<K>(groups: seq<Group<K>>, items: seq<(K, int)>) {
    forall i :: 0 <= i < |items| ==> HasGroup(groups, items[i].0)
  }

  /** One group per key that occurs, holding the total of that key. */
  ghost predicate IsGroupBy<K>(groups: seq<Group<K>>, items: seq<(K, int)>) {
    && Distinct(groups) && Covers(groups, items)
    && (forall i :: 0 <= i < |groups| ==> groups[i].sum == KeyTotal(items, groups[i].key))
  }

  /** The groups with the sums of given items. */
  function Resummed<K(==)>(groups: seq<Group<K>>, items: seq<(K, int)>): seq<Group<K>> {
    seq(|groups|, i requires 0 <= i < |groups| => Group(groups[i].key, KeyTotal(items, groups[i].key)))
  }

  /** One more item changes the groups of its own key only, hence the picked total by its own amount. */
  lemma {:induction false} OneMoreItem<K>(groups: seq<Group<K>>, items: seq<(K, int)>, item: (K, int), pick: K -> bool)
    requires Distinct(groups)
    ensures GroupsPicked(Resummed(groups, items + [item]), pick)
         == GroupsPicked(Resummed(groups, items), pick)
            + if pick(item.0) && HasGroup(groups, item.0) then item.1 else 0
  {
    if groups != [] {
      var n := |groups| - 1;
      var g := groups[n];
      OneMoreItem(groups[..n], items, item, pick);
      assert (items + [item])[..|items|] == items;
      assert Resummed(groups, items)[..n] == Resummed(groups[..n], items);
      assert Resummed(groups, items + [item])[..n] == Resummed(groups[..n], items + [item]);
      if HasGroup(groups, item.0) {
        var k :| 0 <= k < |groups| && groups[k].key == item.0;
        if k < n {
          assert groups[..n][k].key == item.0;
        }
      }
    }
  }

  lemma {:induction false} NoItems<K>(groups: seq<Group<K>>, pick: K -> bool)
    ensures GroupsPicked(Resummed(groups, []), pick) == 0
  {
    if groups != [] {
      NoItems(groups[..|groups| - 1], pick);
      assert Resummed(groups, [])[..|groups| - 1] == Resummed(groups[..|groups| - 1], []);
    }
  }

  lemma {:induction false} ResummedTotal<K>(groups: seq<Group<K>>, items: seq<(K, int)>, pick: K -> bool)
    requires Distinct(groups) && Covers(groups, items)
    ensures GroupsPicked(Resummed(groups, items), pick) == Picked(items, pick)
  {
    if items == [] {
      NoItems(groups, pick);
    } else {
      var before, item := items[..|items| - 1], items[|items| - 1];
      assert Covers(groups, before) by {
        forall i | 0 <= i < |before| ensures HasGroup(groups, before[i].0) {
          assert before[i] == items[i];
        }
      }
      ResummedTotal(groups, before, pick);
      OneMoreItem(groups, before, item, pick);
      assert before + [item] == items;
    }
  }

  /** Adding up picked groups adds up the picked items: grouping first loses nothing and repeats nothing. */
  lemma {:induction false} GroupsAddUp<K>(groups: seq<Group<K>>, items: seq<(K, int)>, pick: K -> bool)
    requires IsGroupBy(groups, items)
    ensures GroupsPicked(groups, pick) == Picked(items, pick)
  {
    ResummedTotal(groups, items, pick);
    assert Resummed(groups, items) == groups;
  }
}
