/**
 * The purchase and sale screen (TransactionForm.tsx): which materials are
 * offered, the price of the selected one, the basket of items being built,
 * and the transaction handed over on submit.
 *
 * `parse` stands for `parseFloat`: `None` is NaN.
 */
module TransactionForm {
  import opened Wrappers
  import opened Types
  import opened Seqs
  import opened Text

  /** A purchase offers what the yard buys, a sale what it sells. */
  predicate Offered(m: Material, kind: TransactionType) {
    if kind == Buy then m.data.availability.CanBuy() else m.data.availability.CanSell()
  }

  function OfferedFor(kind: TransactionType): Material -> bool {
    (m: Material) => Offered(m, kind)
  }

  function AvailableMaterials(materials: seq<Material>, kind: TransactionType): (r: seq<Material>)
    ensures forall m :: m in r <==> m in materials && Offered(m, kind)
    ensures kind == Buy ==> forall m :: m in r ==> m.data.availability != SellOnly
    ensures kind == Sell ==> forall m :: m in r ==> m.data.availability != BuyOnly
  {
    Filter(materials, OfferedFor(kind))
  }

  /** The price the form charges: the buy price on a purchase, the sell price on a sale, 0 with nothing selected. */
  function UnitPrice(selected: Option<Material>, kind: TransactionType): (p: real)
    ensures selected.None? ==> p == 0.0
    ensures selected.Some? && kind == Buy ==> p == selected.value.data.buyPrice
    ensures selected.Some? && kind == Sell ==> p == selected.value.data.sellPrice
  {
    match selected
    case None => 0.0
    case Some(m) => if kind == Buy then m.data.buyPrice else m.data.sellPrice
  }

  /** The weight field read as a number, a decimal comma accepted. */
  function ParseWeight(weight: string, parse: string -> Option<real>): Option<real> {
    parse(ReplaceFirst(weight, ',', '.'))
  }

  /** The running line total shown under the form: 0 while the weight is not a number. */
  function CurrentItemTotal(weight: string, unitPrice: real, parse: string -> Option<real>): (t: real)
    ensures ParseWeight(weight, parse).None? ==> t == 0.0
    ensures ParseWeight(weight, parse).Some? ==> t == ParseWeight(weight, parse).value * unitPrice
  {
    match ParseWeight(weight, parse)
    case None => 0.0
    case Some(w) => w * unitPrice
  }

  /** A basket line is consistent: a positive weight and its price times that weight. */
  predicate ValidItem(item: TransactionItem) {
    item.weight > 0.0 && item.total == item.weight * item.unitPrice
  }

  /**
   * The item `handleAddItem` would append, or `None` when it refuses: no
   * offered material has the selected id, or the weight is not a positive number.
   */
  function ItemToAdd(materials: seq<Material>, kind: TransactionType, selectedId: Id,
                     weight: string, parse: string -> Option<real>): (r: Option<TransactionItem>)
    ensures var sel := FindById(AvailableMaterials(materials, kind), selectedId);
      var w := ParseWeight(weight, parse);
      r.None? <==> sel.None? || w.None? || w.value <= 0.0
    ensures r.Some? ==> ValidItem(r.value)
    ensures r.Some? ==>
      var sel := FindById(AvailableMaterials(materials, kind), selectedId).value;
      sel in materials && Offered(sel, kind) && sel.id == selectedId &&
      r.value.materialName == sel.data.name &&
      r.value.weight == ParseWeight(weight, parse).value &&
      r.value.unitPrice == (if kind == Buy then sel.data.buyPrice else sel.data.sellPrice)
  {
    var selected := FindById(AvailableMaterials(materials, kind), selectedId);
    var w := ParseWeight(weight, parse);
    if selected.None? || w.None? || w.value <= 0.0 then None
    else
      var price := UnitPrice(selected, kind);
      Some(TransactionItem(selected.value.data.name, w.value, price, CurrentItemTotal(weight, price, parse)))
  }

  function BasketTotal(items: seq<TransactionItem>): real {
    if items == [] then 0.0 else items[0].total + BasketTotal(items[1..])
  }

  lemma {:induction false} BasketTotalConcat(a: seq<TransactionItem>, b: seq<TransactionItem>)
    ensures BasketTotal(a + b) == BasketTotal(a) + BasketTotal(b)
  {
    if a == [] {
      assert a + b == b;
    } else {
      assert (a + b)[1..] == a[1..] + b;
      BasketTotalConcat(a[1..], b);
    }
  }

  lemma BasketTotalSingle(item: TransactionItem)
    ensures BasketTotal([item]) == item.total
  {
    assert [item][1..] == [];
  }

  /** Removing a line takes exactly its total off the basket. */
  lemma BasketTotalRemoveAt(items: seq<TransactionItem>, idx: nat)
    requires idx < |items|
    ensures BasketTotal(RemoveAt(items, idx)) == BasketTotal(items) - items[idx].total
  {
    var before, x, after := items[..idx], items[idx], items[idx + 1..];
    assert items == (before + [x]) + after;
    BasketTotalConcat(before + [x], after);
    BasketTotalConcat(before, [x]);
    BasketTotalConcat(before, after);
    BasketTotalSingle(x);
  }

  /**
   * `handleSubmitTransaction`: refused with an empty basket or a blank name;
   * otherwise the basket, the trimmed name, the basket's total and the
   * submission instant.
   */
  function SubmitTransaction(kind: TransactionType, personName: string,
                             basket: seq<TransactionItem>, now: int): (r: Option<TransactionData>)
    ensures r.None? <==> basket == [] || Trim(personName) == []
    ensures r.Some? ==> r.value.kind == kind && r.value.items == basket && r.value.date == now
    ensures r.Some? ==> r.value.personName == Trim(personName) && r.value.personName != []
    ensures r.Some? ==> r.value.total == BasketTotal(basket)
  {
    if |basket| == 0 || Trim(personName) == [] then None
    else Some(TransactionData(kind, Trim(personName), basket, BasketTotal(basket), now))
  }

  /** The submitted transaction's total is what its lines add up to, line by line. */
  lemma {:induction false} SubmittedTotalIsLineSum(kind: TransactionType, personName: string,
                                                 basket: seq<TransactionItem>, item: TransactionItem, now: int)
    requires Trim(personName) != []
    ensures SubmitTransaction(kind, personName, basket + [item], now).value.total
      == BasketTotal(basket) + item.total
  {
    BasketTotalConcat(basket, [item]);
    BasketTotalSingle(item);
  }

  /**
   * The form's state while a transaction is being put together, with the
   * `type` prop it is rendered with. The purchase and sale screens are the
   * same component at the same place, so switching from one to the other
   * changes the prop and keeps the basket, the name, the weight and the
   * selection.
   */
  class Form {
    var kind: TransactionType
    const materials: seq<Material>
    const parse: string -> Option<real>
    var personName: string
    var selectedMaterialId: Id
    var weight: string
    var basket: seq<TransactionItem>

    /** Every line in the basket is consistent. */
    predicate Valid()
      reads this
    {
      forall i :: 0 <= i < |basket| ==> ValidItem(basket[i])
    }

    constructor (kind: TransactionType, materials: seq<Material>, parse: string -> Option<real>)
      ensures Valid()
      ensures this.kind == kind && this.materials == materials && this.parse == parse
      ensures personName == "" && selectedMaterialId == "" && weight == "" && basket == []
    {
      this.kind, this.materials, this.parse := kind, materials, parse;
      personName, selectedMaterialId, weight, basket := "", "", "", [];
    }

    /** `handleAddItem`: append the item and clear weight and selection, or change nothing. */
    method AddItem()
      requires Valid()
      modifies this
      ensures Valid()
      ensures var item := ItemToAdd(materials, kind, old(selectedMaterialId), old(weight), parse);
        if item.None? then
          basket == old(basket) && weight == old(weight) && selectedMaterialId == old(selectedMaterialId)
        else
          basket == old(basket) + [item.value] && weight == "" && selectedMaterialId == ""
      ensures personName == old(personName) && kind == old(kind)
    {
      var available := AvailableMaterials(materials, kind);
      var selectedMaterial := FindById(available, selectedMaterialId);
      var w := ParseWeight(weight, parse);
      if selectedMaterial.None? || w.None? || w.value <= 0.0 {
        return;
      }
      var price := UnitPrice(selectedMaterial, kind);
      var item := TransactionItem(selectedMaterial.value.data.name, w.value, price,
                                  CurrentItemTotal(weight, price, parse));
      basket := basket + [item];
      weight := "";
      selectedMaterialId := "";
    }

    /** The remove button of line `idx`: that line goes, the others keep their order. */
    method RemoveItem(idx: nat)
      requires Valid()
      modifies this
      ensures Valid()
      ensures basket == RemoveAt(old(basket), idx)
      ensures idx < |old(basket)| ==> BasketTotal(basket) == BasketTotal(old(basket)) - old(basket)[idx].total
      ensures personName == old(personName) && weight == old(weight)
      ensures selectedMaterialId == old(selectedMaterialId) && kind == old(kind)
    {
      if idx < |basket| {
        BasketTotalRemoveAt(basket, idx);
      }
      basket := RemoveAt(basket, idx);
    }

    /**
     * The screen is rendered again with the other `type`: every line already
     * in the basket keeps the price it was added at.
     */
    method SetKind(k: TransactionType)
      requires Valid()
      modifies this
      ensures Valid()
      ensures kind == k && basket == old(basket) && personName == old(personName)
      ensures weight == old(weight) && selectedMaterialId == old(selectedMaterialId)
    {
      kind := k;
    }

    /**
     * `handleSubmitTransaction`: what is handed to the completion handler,
     * built from the current kind and basket; the form itself is cleared
     * only later, by the timer.
     */
    method Submit(now: int) returns (tx: Option<TransactionData>)
      requires Valid()
      ensures tx == SubmitTransaction(kind, personName, basket, now)
      ensures tx.Some? ==> tx.value.kind == kind && tx.value.items == basket
      ensures tx.Some? ==> forall i :: 0 <= i < |tx.value.items| ==> ValidItem(tx.value.items[i])
    {
      if |basket| == 0 || Trim(personName) == [] {
        return None;
      }
      tx := Some(TransactionData(kind, Trim(personName), basket, BasketTotal(basket), now));
    }
  }
}
