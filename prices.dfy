/**
 * The price list (PricesView.tsx): the category tabs, the search and tab
 * filter, and the grouping of the shown materials by category.
 */
module Prices {
  import opened Wrappers
  import opened Types
  import opened Seqs
  import opened Text

  /** The tab that shows every category. */
  const AllTab: string := "TODOS"

  function CategoryOf(m: Material): string { m.data.category }

  /** `categories`: the all-categories tab, then each material category once, in first-seen order. */
  function Tabs(materials: seq<Material>): (r: seq<string>)
    ensures |r| >= 1 && r[0] == AllTab
    ensures forall c :: c in r[1..] <==> exists m :: m in materials && m.data.category == c
    ensures NoDuplicates(r[1..])
    ensures forall i, j :: 1 <= i < j < |r| ==>
      FirstIndex(MapSeq(materials, CategoryOf), r[i]) < FirstIndex(MapSeq(materials, CategoryOf), r[j])
  {
    var cats := Dedup(MapSeq(materials, CategoryOf));
    assert forall c :: c in MapSeq(materials, CategoryOf) <==> exists m :: m in materials && m.data.category == c by {
      var all := MapSeq(materials, CategoryOf);
      forall c | c in all ensures exists m :: m in materials && m.data.category == c {
        var i :| 0 <= i < |all| && all[i] == c;
        assert materials[i] in materials;
      }
      forall c | exists m :: m in materials && m.data.category == c ensures c in all {
        var m :| m in materials && m.data.category == c;
        var i :| 0 <= i < |materials| && materials[i] == m;
        assert all[i] == c;
      }
    }
    assert ([AllTab] + cats)[1..] == cats;
    assert forall i :: 1 <= i < |cats| + 1 ==> ([AllTab] + cats)[i] == cats[i - 1];
    [AllTab] + cats
  }

  /** The search matches the name or the category, ignoring case; the tab is all or this category. */
  predicate Matches(m: Material, search: string, selectedCategory: string) {
    (Contains(Lower(m.data.name), Lower(search)) || Contains(Lower(m.data.category), Lower(search))) &&
    (selectedCategory == AllTab || m.data.category == selectedCategory)
  }

  function MatchesFilters(search: string, selectedCategory: string): Material -> bool {
    (m: Material) => Matches(m, search, selectedCategory)
  }

  /** `filteredMaterials`. */
  function FilterMaterials(materials: seq<Material>, search: string, selectedCategory: string): (r: seq<Material>)
    ensures forall m :: m in r <==> m in materials && Matches(m, search, selectedCategory)
  {
    Filter(materials, MatchesFilters(search, selectedCategory))
  }

  lemma FilterKeepsOrder(materials: seq<Material>, search: string, selectedCategory: string)
    ensures IsSubsequence(FilterMaterials(materials, search, selectedCategory), materials)
  {
    FilterIsSubsequence(materials, MatchesFilters(search, selectedCategory));
  }

  /** With the filters cleared every material is shown, in its order. */
  lemma ClearedFiltersShowAll(materials: seq<Material>)
    ensures FilterMaterials(materials, "", AllTab) == materials
  {
    forall m | m in materials ensures Matches(m, "", AllTab) {
      ContainsEmpty(Lower(m.data.name));
    }
    FilterKeepsAll(materials, MatchesFilters("", AllTab));
  }

  function InCategory(c: string): Material -> bool {
    (m: Material) => m.data.category == c
  }

  /** The group of one category: its materials in list order. */
  function GroupOf(s: seq<Material>, c: string): seq<Material> {
    Filter(s, InCategory(c))
  }

  /** `groups` holds, for each category of `s`, exactly that category's group. */
  ghost predicate GroupedAs(groups: map<string, seq<Material>>, s: seq<Material>) {
    (forall c :: c in groups <==> exists m :: m in s && m.data.category == c) &&
    (forall c :: c in groups ==> groups[c] == GroupOf(s, c))
  }

  /** One step of the reduction: `m` pushed onto its category's list. */
  lemma GroupStep(groups: map<string, seq<Material>>, s: seq<Material>, m: Material)
    requires GroupedAs(groups, s)
    ensures var c := m.data.category;
      GroupedAs(groups[c := (if c in groups then groups[c] else []) + [m]], s + [m])
  {
    var c := m.data.category;
    var g := groups[c := (if c in groups then groups[c] else []) + [m]];
    forall d ensures d in g <==> exists x :: x in s + [m] && x.data.category == d {
      if d != c && exists x :: x in s + [m] && x.data.category == d {
        var x :| x in s + [m] && x.data.category == d;
        assert x in s;
      }
    }
    forall d | d in g ensures g[d] == GroupOf(s + [m], d) {
      GroupOfAppend(s, m, d);
      if d == c && c !in groups {
        FilterDropsAll(s, InCategory(c));
      }
    }
  }

  lemma GroupOfAppend(s: seq<Material>, m: Material, d: string)
    ensures GroupOf(s + [m], d) == if m.data.category == d then GroupOf(s, d) + [m] else GroupOf(s, d)
  {
    FilterConcat(s, [m], InCategory(d));
    if m.data.category == d {
      assert GroupOf([m], d) == [m];
    } else {
      assert GroupOf([m], d) == [];
      assert GroupOf(s, d) + [] == GroupOf(s, d);
    }
  }

  /**
   * The names an object literal inherits from `Object.prototype`. Each
   * reads as a truthy value that has no `push`.
   */
  const InheritedKeys: set<string> := {
    "constructor", "__defineGetter__", "__defineSetter__", "hasOwnProperty",
    "__lookupGetter__", "__lookupSetter__", "isPrototypeOf", "propertyIsEnumerable",
    "toString", "valueOf", "__proto__", "toLocaleString"
  }

  /** The reduction of `groupedByFiltered` on an accumulator with no inherited names in play. */
  method GroupAll(filtered: seq<Material>) returns (groups: map<string, seq<Material>>)
    ensures forall c :: c in groups <==> exists m :: m in filtered && m.data.category == c
    ensures forall c :: c in groups ==> groups[c] == GroupOf(filtered, c)
  {
    groups := map[];
    var i := 0;
    while i < |filtered|
      invariant 0 <= i <= |filtered|
      invariant GroupedAs(groups, filtered[..i])
    {
      var m := filtered[i];
      GroupStep(groups, filtered[..i], m);
      assert filtered[..i + 1] == filtered[..i] + [m];
      if m.data.category !in groups {
        groups := groups[m.data.category := []];
      }
      groups := groups[m.data.category := groups[m.data.category] + [m]];
      i := i + 1;
    }
    assert filtered[..i] == filtered;
  }

  /**
   * `groupedByFiltered`: each material is pushed onto the list of its
   * category, the list being created on first use. The accumulator is an
   * object literal, so a category named after an inherited property is
   * taken as already present, its `push` call throws a `TypeError` and the
   * screen fails; `None` is that failure.
   */
  method GroupByCategory(filtered: seq<Material>) returns (groups: Option<map<string, seq<Material>>>)
    ensures groups.None? <==> exists m :: m in filtered && m.data.category in InheritedKeys
    ensures groups.Some? ==> forall c :: c in groups.value <==> exists m :: m in filtered && m.data.category == c
    ensures groups.Some? ==> forall c :: c in groups.value ==> groups.value[c] == GroupOf(filtered, c)
  {
    if exists m :: m in filtered && m.data.category in InheritedKeys {
      return None;
    }
    var all := GroupAll(filtered);
    return Some(all);
  }

  /** Each material lands in the group of its own category and in no other. */
  lemma GroupsPartition(filtered: seq<Material>, m: Material, c: string)
    requires m in filtered
    ensures m in GroupOf(filtered, c) <==> c == m.data.category
  {
  }

  /** How many entries of `cs` equal `x`. */
  function Occurrences(cs: seq<string>, x: string): nat {
    if cs == [] then 0 else (if cs[0] == x then 1 else 0) + Occurrences(cs[1..], x)
  }

  lemma {:induction false} OccursOnce(cs: seq<string>, x: string)
    requires NoDuplicates(cs) && x in cs
    ensures Occurrences(cs, x) == 1
  {
    if cs[0] == x {
      OccursNot(cs[1..], x);
    } else {
      assert x in cs[1..];
      OccursOnce(cs[1..], x);
    }
  }

  lemma {:induction false} OccursNot(cs: seq<string>, x: string)
    requires x !in cs
    ensures Occurrences(cs, x) == 0
  {
    if cs != [] {
      assert x !in cs[1..];
      OccursNot(cs[1..], x);
    }
  }

  /** The total size of the groups of the categories in `cs`. */
  function GroupSizes(s: seq<Material>, cs: seq<string>): nat {
    if cs == [] then 0 else |GroupOf(s, cs[0])| + GroupSizes(s, cs[1..])
  }

  lemma {:induction false} GroupSizesCons(m: Material, s: seq<Material>, cs: seq<string>)
    ensures GroupSizes([m] + s, cs) == GroupSizes(s, cs) + Occurrences(cs, m.data.category)
  {
    if cs != [] {
      FilterConcat([m], s, InCategory(cs[0]));
      if m.data.category == cs[0] {
        assert GroupOf([m], cs[0]) == [m];
      } else {
        assert GroupOf([m], cs[0]) == [];
      }
      GroupSizesCons(m, s, cs[1..]);
    }
  }

  /** When `cs` lists every category of `s` exactly once, the groups together hold all of `s`. */
  lemma {:induction false} GroupSizesTotal(s: seq<Material>, cs: seq<string>)
    requires NoDuplicates(cs)
    requires forall m :: m in s ==> m.data.category in cs
    ensures GroupSizes(s, cs) == |s|
  {
    if s == [] {
      GroupSizesEmpty(cs);
    } else {
      assert s == [s[0]] + s[1..];
      GroupSizesCons(s[0], s[1..], cs);
      OccursOnce(cs, s[0].data.category);
      GroupSizesTotal(s[1..], cs);
    }
  }

  lemma {:induction false} GroupSizesEmpty(cs: seq<string>)
    ensures GroupSizes([], cs) == 0
  {
    if cs != [] {
      GroupSizesEmpty(cs[1..]);
    }
  }

  /** The groups shown, one per distinct category of the shown materials, add up to the shown count. */
  lemma GroupSizesSumToFiltered(filtered: seq<Material>)
    ensures GroupSizes(filtered, Tabs(filtered)[1..]) == |filtered|
  {
    GroupSizesTotal(filtered, Tabs(filtered)[1..]);
  }

  /** The screen's filter state. */
  class Filters {
    var search: string
    var selectedCategory: string

    constructor ()
      ensures search == "" && selectedCategory == AllTab
    {
      search, selectedCategory := "", AllTab;
    }

    /** The clear-filters button; afterwards every material is shown. */
    method Clear(materials: seq<Material>)
      modifies this
      ensures search == "" && selectedCategory == AllTab
      ensures FilterMaterials(materials, search, selectedCategory) == materials
    {
      search, selectedCategory := "", AllTab;
      ClearedFiltersShowAll(materials);
    }
  }
}
