/**
 * Tag-list editing shared by the onboarding wizard, the profile editor and
 * the project form: the toggle handlers and the "options not yet chosen"
 * lists. The three pages repeat the same expressions; they are defined once
 * here.
 */
module Tags {
  import opened Seqs

  /** Every tag occurs at most once. */
  ghost predicate NoDuplicates(list: seq<string>)
  {
    forall x :: multiset(list)[x] <= 1
  }

  /** The `(x) => x !== item` callback. */
  function Other(item: string): string -> bool
  {
    x => x != item
  }

  /** The `(x) => !selected.includes(x)` callback. */
  function NotIn(selected: seq<string>): string -> bool
  {
    x => x !in selected
  }

  /** `list.includes(item) ? list.filter((x) => x !== item) : [...list, item]`. */
  function Toggle(list: seq<string>, item: string): seq<string>
  {
    if item in list then Filter(list, Other(item)) else list + [item]
  }

  /** `options.filter((o) => !selected.includes(o))`: the options still offered. */
  function Available(options: seq<string>, selected: seq<string>): seq<string>
  {
    Filter(options, NotIn(selected))
  }

  /** Toggling flips the membership of `item` and of nothing else. */
  lemma ToggleFlipsMembership(list: seq<string>, item: string)
    ensures item in Toggle(list, item) <==> item !in list
    ensures forall x :: x != item ==> (x in Toggle(list, item) <==> x in list)
  {
    if item in list {
      var r := Filter(list, Other(item));
      forall x | x != item && x in list ensures x in r {
        assert Other(item)(x);
      }
      forall x | x in r ensures x in list {
        assert x in multiset(r);
      }
    }
  }

  /** An absent item goes at the end; a present one is removed everywhere, the rest kept in order. */
  lemma ToggleShape(list: seq<string>, item: string)
    ensures item !in list ==> Toggle(list, item) == list + [item]
    ensures item in list ==> IsSubsequence(Toggle(list, item), list)
    ensures item in list ==> forall x :: x != item ==> multiset(Toggle(list, item))[x] == multiset(list)[x]
    ensures item in list ==> multiset(Toggle(list, item))[item] == 0
  {
    if item in list {
      ToggleFlipsMembership(list, item);
      FilterIsSubsequence(list, Other(item));
      FilterKeepsOthers(list, item);
    }
  }

  lemma {:induction false} FilterKeepsOthers(list: seq<string>, item: string)
    ensures forall x :: x != item ==> multiset(Filter(list, Other(item)))[x] == multiset(list)[x]
  {
    if list != [] {
      FilterKeepsOthers(list[1..], item);
      assert list == [list[0]] + list[1..];
      if list[0] != item {
        assert Filter(list, Other(item)) == [list[0]] + Filter(list[1..], Other(item));
      } else {
        assert Filter(list, Other(item)) == Filter(list[1..], Other(item));
      }
    }
  }

  /** Removing an item that was just appended gives back the original list. */
  lemma {:induction false} RemoveAppended(list: seq<string>, item: string)
    requires item !in list
    ensures Filter(list + [item], Other(item)) == list
  {
    if list == [] {
      assert [] + [item] == [item];
    } else {
      RemoveAppended(list[1..], item);
      assert (list + [item])[1..] == list[1..] + [item];
      assert Other(item)(list[0]);
      assert list == [list[0]] + list[1..];
    }
  }

  /** Toggling an absent item twice restores the list exactly. */
  lemma ToggleTwiceRestores(list: seq<string>, item: string)
    requires item !in list
    ensures Toggle(Toggle(list, item), item) == list
  {
    RemoveAppended(list, item);
  }

  /** Toggling never introduces a duplicate. */
  lemma TogglePreservesNoDuplicates(list: seq<string>, item: string)
    requires NoDuplicates(list)
    ensures NoDuplicates(Toggle(list, item))
  {
    var r := Toggle(list, item);
    if item !in list {
      forall x ensures multiset(r)[x] <= 1 {
        assert multiset(r) == multiset(list) + multiset{item};
      }
    } else {
      forall x ensures multiset(r)[x] <= 1 {
        assert multiset(r)[x] <= multiset(list)[x];
      }
    }
  }

  /**
   * The offered options are the available ones not selected: disjoint from
   * the selection, in the order of `options`, and together with the
   * selection covering every option.
   */
  lemma AvailableSplitsOptions(options: seq<string>, selected: seq<string>)
    ensures forall x :: x in Available(options, selected) ==> x in options && x !in selected
    ensures forall x :: x in options ==> x in Available(options, selected) || x in selected
    ensures IsSubsequence(Available(options, selected), options)
  {
    var r := Available(options, selected);
    FilterIsSubsequence(options, NotIn(selected));
    forall x | x in r ensures x in options && x !in selected {
      var i :| 0 <= i < |r| && r[i] == x;
      assert NotIn(selected)(r[i]);
      assert x in multiset(r);
    }
    forall x | x in options && x !in selected ensures x in r {
      assert NotIn(selected)(x);
    }
  }
}
