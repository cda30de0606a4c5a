/**
 * The transaction history (History.tsx): the type filter, the search over
 * person and material names, and the newest-first display.
 */
module History {
  import opened Types
  import opened Seqs
  import opened Text

  /** The filter buttons: every transaction, or one type only. */
  datatype TypeFilter = AllTypes | OnlyType(kind: TransactionType)

  predicate PassesType(t: Transaction, filter: TypeFilter) {
    filter.AllTypes? || t.data.kind == filter.kind
  }

  /** `items.some(...)`: some line's material name contains the lowered query. */
  predicate AnyItemMatches(items: seq<TransactionItem>, query: string) {
    items != [] && (Contains(Lower(items[0].materialName), query) || AnyItemMatches(items[1..], query))
  }

  lemma {:induction false} AnyItemMatchesIff(items: seq<TransactionItem>, query: string)
    ensures AnyItemMatches(items, query) <==>
      exists i :: 0 <= i < |items| && Contains(Lower(items[i].materialName), query)
  {
    if items != [] {
      AnyItemMatchesIff(items[1..], query);
      if exists i :: 0 <= i < |items| && Contains(Lower(items[i].materialName), query) {
        var i :| 0 <= i < |items| && Contains(Lower(items[i].materialName), query);
        if i > 0 {
          assert items[1..][i - 1] == items[i];
        }
      }
      if AnyItemMatches(items[1..], query) {
        var i :| 0 <= i < |items[1..]| && Contains(Lower(items[1..][i].materialName), query);
        assert items[1..][i] == items[i + 1];
      }
    }
  }

  /** The search matches the person or any material of the transaction, ignoring case. */
  predicate MatchesSearch(t: Transaction, search: string) {
    Contains(Lower(t.data.personName), Lower(search)) || AnyItemMatches(t.data.items, Lower(search))
  }

  function Passes(search: string, filter: TypeFilter): Transaction -> bool {
    (t: Transaction) => MatchesSearch(t, search) && PassesType(t, filter)
  }

  /** `filtered`. */
  function Filtered(txs: seq<Transaction>, search: string, filter: TypeFilter): (r: seq<Transaction>)
    ensures forall t :: t in r <==> t in txs && MatchesSearch(t, search) && PassesType(t, filter)
    ensures filter.OnlyType? ==> forall t :: t in r ==> t.data.kind == filter.kind
  {
    Filter(txs, Passes(search, filter))
  }

  lemma FilteredKeepsOrder(txs: seq<Transaction>, search: string, filter: TypeFilter)
    ensures IsSubsequence(Filtered(txs, search, filter), txs)
  {
    FilterIsSubsequence(txs, Passes(search, filter));
  }

  /** A search that hits a material line finds the transaction whatever its person's name. */
  lemma ItemHitFinds(txs: seq<Transaction>, t: Transaction, i: int, search: string)
    requires t in txs && 0 <= i < |t.data.items|
    requires Contains(Lower(t.data.items[i].materialName), Lower(search))
    ensures t in Filtered(txs, search, AllTypes)
  {
    AnyItemMatchesIff(t.data.items, Lower(search));
  }

  /** With no search and no type filter the whole history is listed. */
  lemma NoFiltersShowAll(txs: seq<Transaction>)
    ensures Filtered(txs, "", AllTypes) == txs
  {
    forall t | t in txs ensures MatchesSearch(t, "") {
      ContainsEmpty(Lower(t.data.personName));
    }
    FilterKeepsAll(txs, Passes("", AllTypes));
  }

  /** The two type filters split the unfiltered list between them. */
  lemma TypeFiltersPartition(txs: seq<Transaction>, search: string, t: Transaction)
    ensures t in Filtered(txs, search, AllTypes) <==>
      t in Filtered(txs, search, OnlyType(Buy)) || t in Filtered(txs, search, OnlyType(Sell))
  {
  }

  /** `filtered.slice().reverse()`: the newest transaction first. */
  function Displayed(txs: seq<Transaction>, search: string, filter: TypeFilter): (r: seq<Transaction>)
    ensures var f := Filtered(txs, search, filter);
      |r| == |f| && forall i :: 0 <= i < |f| ==> r[i] == f[|f| - 1 - i]
  {
    Reverse(Filtered(txs, search, filter))
  }

  /** The display lists the same transactions as the filter, only reordered. */
  lemma DisplayedIsPermutation(txs: seq<Transaction>, search: string, filter: TypeFilter)
    ensures multiset(Displayed(txs, search, filter)) == multiset(Filtered(txs, search, filter))
    ensures Reverse(Displayed(txs, search, filter)) == Filtered(txs, search, filter)
  {
    ReverseMultiset(Filtered(txs, search, filter));
    ReverseInvolution(Filtered(txs, search, filter));
  }
}
