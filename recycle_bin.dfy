/**
 * The trash screen (RecycleBin.tsx): the selection of trashed transactions
 * and the permanent deletion of the selected ones.
 */
module RecycleBin {
  import opened Wrappers
  import opened Types
  import opened Seqs

  function IsNot(id: Id): Id -> bool {
    (i: Id) => i != id
  }

  /** `toggleSelect`: a selected id is dropped (every copy of it), any other one is appended. */
  function Toggled(selected: seq<Id>, id: Id): (r: seq<Id>)
    ensures id in r <==> id !in selected
    ensures forall x :: x != id ==> (x in r <==> x in selected)
    ensures id !in selected ==> r == selected + [id]
  {
    if id in selected then Filter(selected, IsNot(id)) else selected + [id]
  }

  /** Toggling keeps the selection free of duplicates. */
  lemma ToggledNoDuplicates(selected: seq<Id>, id: Id)
    requires NoDuplicates(selected)
    ensures NoDuplicates(Toggled(selected, id))
  {
    if id in selected {
      FilterNoDuplicates(selected, IsNot(id));
    } else {
      AppendNoDuplicates(selected, id);
    }
  }

  /** Toggling an unselected id twice gives back the selection. */
  lemma ToggleTwice(selected: seq<Id>, id: Id)
    requires id !in selected
    ensures Toggled(Toggled(selected, id), id) == selected
  {
    FilterConcat(selected, [id], IsNot(id));
    FilterKeepsAll(selected, IsNot(id));
    FilterDropsAll([id], IsNot(id));
    assert selected + [] == selected;
  }

  /**
   * `toggleSelectAll`: empty when the selection has as many entries as the
   * trash, otherwise every trashed id in trash order. Only the counts are
   * compared.
   */
  function AllToggled(selected: seq<Id>, trash: seq<Transaction>): (r: seq<Id>)
    ensures |selected| == |trash| ==> r == []
    ensures |selected| != |trash| ==> |r| == |trash| && forall i :: 0 <= i < |trash| ==> r[i] == trash[i].id
  {
    if |selected| == |trash| then [] else IdsOf(trash)
  }

  /** Select-all pressed twice from a partial selection ends with nothing selected. */
  lemma SelectAllThenClear(selected: seq<Id>, trash: seq<Transaction>)
    requires |selected| != |trash|
    ensures AllToggled(AllToggled(selected, trash), trash) == []
  {
  }

  /**
   * The trash screen: the `trash` prop it is rendered with and its own
   * selection. The prop changes when the parent re-renders the screen
   * (after a restore or a permanent delete); the selection does not, so it
   * may keep ids that are no longer in the trash.
   */
  class Bin {
    var trash: seq<Transaction>
    var selectedIds: seq<Id>

    constructor (trash: seq<Transaction>)
      ensures this.trash == trash && selectedIds == []
    {
      this.trash := trash;
      selectedIds := [];
    }

    method ToggleSelect(id: Id)
      modifies this
      ensures selectedIds == Toggled(old(selectedIds), id) && trash == old(trash)
    {
      if id in selectedIds {
        selectedIds := Filter(selectedIds, IsNot(id));
      } else {
        selectedIds := selectedIds + [id];
      }
    }

    method ToggleSelectAll()
      modifies this
      ensures trash == old(trash)
      ensures selectedIds == AllToggled(old(selectedIds), trash)
    {
      if |selectedIds| == |trash| {
        selectedIds := [];
      } else {
        selectedIds := IdsOf(trash);
      }
    }

    /**
     * `handlePermanentDelete`: with an empty selection, or when the dialog
     * is declined, nothing happens; otherwise the selected ids are handed
     * to the delete handler and the selection is cleared.
     */
    method PermanentDelete(confirmed: bool) returns (dispatched: Option<seq<Id>>)
      modifies this
      ensures old(selectedIds) == [] || !confirmed ==> dispatched == None && selectedIds == old(selectedIds)
      ensures old(selectedIds) != [] && confirmed ==> dispatched == Some(old(selectedIds)) && selectedIds == []
      ensures trash == old(trash)
    {
      if |selectedIds| == 0 {
        return None;
      }
      if confirmed {
        dispatched := Some(selectedIds);
        selectedIds := [];
      } else {
        dispatched := None;
      }
    }

    /** The parent re-renders the screen with a new trash list; the selection is kept as it is. */
    method SetTrash(newTrash: seq<Transaction>)
      modifies this
      ensures trash == newTrash && selectedIds == old(selectedIds)
    {
      trash := newTrash;
    }
  }
}
