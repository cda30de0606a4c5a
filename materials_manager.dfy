/**
 * The materials screen (MaterialsManager.tsx): the name search, the
 * validation that turns the form into a material to save, the category
 * list editor and the margin column.
 *
 * `parse` stands for `parseFloat`: `None` is NaN.
 */
module MaterialsManager {
  import opened Wrappers
  import opened Types
  import opened Seqs
  import opened Text

  /** The form as typed: prices are still text. */
  datatype MaterialForm = MaterialForm(
    id: string,
    name: string,
    category: string,
    buyPrice: string,
    sellPrice: string,
    availability: Availability)

  /** The first category, or the empty string when there is none (`categories[0] || ''`). */
  function FirstCategory(categories: seq<string>): string {
    if categories == [] then "" else categories[0]
  }

  /** The form after `resetForm`. */
  function EmptyForm(categories: seq<string>): MaterialForm {
    MaterialForm("", "", FirstCategory(categories), "", "", Both)
  }

  function ParsePrice(text: string, parse: string -> Option<real>): Option<real> {
    parse(ReplaceFirst(text, ',', '.'))
  }

  predicate NameMatches(m: Material, search: string) {
    Contains(Lower(m.data.name), Lower(search))
  }

  function MatchesName(search: string): Material -> bool {
    (m: Material) => NameMatches(m, search)
  }

  /** `filteredMaterials`: the materials whose name contains the search, ignoring case. */
  function SearchMaterials(materials: seq<Material>, search: string): (r: seq<Material>)
    ensures forall m :: m in r <==> m in materials && NameMatches(m, search)
  {
    Filter(materials, MatchesName(search))
  }

  /** An empty search shows every material; any search keeps the list's order. */
  lemma SearchEmptyKeepsAll(materials: seq<Material>)
    ensures SearchMaterials(materials, "") == materials
  {
    forall m | m in materials ensures NameMatches(m, "") {
      ContainsEmpty(Lower(m.data.name));
    }
    FilterKeepsAll(materials, MatchesName(""));
  }

  lemma SearchKeepsOrder(materials: seq<Material>, search: string)
    ensures IsSubsequence(SearchMaterials(materials, search), materials)
  {
    FilterIsSubsequence(materials, MatchesName(search));
  }

  /**
   * `handleSubmit`: the material to save, or `None` when the form is
   * refused. A price the availability rules out is stored as 0 and is not
   * read; the form id is sent only when it is not empty; an empty category
   * falls back to the first category.
   */
  function BuildMaterial(form: MaterialForm, categories: seq<string>,
                         parse: string -> Option<real>): (r: Option<Draft<MaterialData>>)
    ensures var buy := ParsePrice(form.buyPrice, parse);
      var sell := ParsePrice(form.sellPrice, parse);
      r.None? <==> (form.name == "" ||
                    (form.availability.CanBuy() && buy.None?) ||
                    (form.availability.CanSell() && sell.None?))
    ensures r.Some? ==>
      var d := r.value;
      d.data.name == form.name && d.data.availability == form.availability &&
      (d.id.Some? <==> form.id != "") && (d.id.Some? ==> d.id.value == form.id) &&
      d.data.category == (if form.category != "" then form.category else FirstCategory(categories)) &&
      (form.availability.CanBuy() ==> d.data.buyPrice == ParsePrice(form.buyPrice, parse).value) &&
      (form.availability.CanSell() ==> d.data.sellPrice == ParsePrice(form.sellPrice, parse).value) &&
      (form.availability == SellOnly ==> d.data.buyPrice == 0.0) &&
      (form.availability == BuyOnly ==> d.data.sellPrice == 0.0)
  {
    if form.name == "" then None
    else
      var buyVal := if form.availability == SellOnly then Some(0.0) else ParsePrice(form.buyPrice, parse);
      var sellVal := if form.availability == BuyOnly then Some(0.0) else ParsePrice(form.sellPrice, parse);
      if buyVal.None? || sellVal.None? then None
      else
        var id := if form.id != "" then Some(form.id) else None;
        var category := if form.category != "" then form.category else FirstCategory(categories);
        Some(Draft(id, MaterialData(form.name, category, buyVal.value, sellVal.value, form.availability)))
  }

  /** `startEdit`: the form filled from a stored material, prices written out by `show`. */
  function EditForm(m: Material, show: real -> string): (r: MaterialForm)
    ensures r.id == m.id && r.name == m.data.name && r.category == m.data.category
    ensures r.buyPrice == show(m.data.buyPrice) && r.sellPrice == show(m.data.sellPrice)
    ensures r.availability == m.data.availability
  {
    MaterialForm(m.id, m.data.name, m.data.category, show(m.data.buyPrice), show(m.data.sellPrice),
                 m.data.availability)
  }

  /**
   * Editing a material and saving it unchanged gives back the same record,
   * provided its prices read back as written and it already obeys the
   * availability rules.
   */
  lemma EditThenSubmit(m: Material, categories: seq<string>, show: real -> string,
                       parse: string -> Option<real>)
    requires m.id != "" && m.data.name != "" && m.data.category != ""
    requires ParsePrice(show(m.data.buyPrice), parse) == Some(m.data.buyPrice)
    requires ParsePrice(show(m.data.sellPrice), parse) == Some(m.data.sellPrice)
    requires m.data.availability == SellOnly ==> m.data.buyPrice == 0.0
    requires m.data.availability == BuyOnly ==> m.data.sellPrice == 0.0
    ensures BuildMaterial(EditForm(m, show), categories, parse) == Some(Draft(Some(m.id), m.data))
  {
  }

  /** `handleAddCategory`: the list to save, or `None` for a blank or already present name. */
  function AddCategory(categories: seq<string>, newName: string): (r: Option<seq<string>>)
    ensures r.None? <==> Trim(newName) == [] || Trim(newName) in categories
    ensures r.Some? ==> r.value == categories + [Trim(newName)]
  {
    var trimmed := Trim(newName);
    if trimmed != [] && trimmed !in categories then Some(categories + [trimmed]) else None
  }

  /** Adding never introduces a duplicate. */
  lemma AddCategoryNoDuplicates(categories: seq<string>, newName: string)
    requires NoDuplicates(categories)
    ensures AddCategory(categories, newName).Some? ==> NoDuplicates(AddCategory(categories, newName).value)
  {
    if AddCategory(categories, newName).Some? {
      AppendNoDuplicates(categories, Trim(newName));
    }
  }

  function IsNot(cat: string): string -> bool {
    (c: string) => c != cat
  }

  /** `handleRemoveCategory`: on confirmation, the list without any occurrence of `cat`. */
  function RemoveCategory(categories: seq<string>, cat: string, confirmed: bool): (r: Option<seq<string>>)
    ensures r.None? <==> !confirmed
    ensures r.Some? ==> forall c :: c in r.value <==> c in categories && c != cat
  {
    if confirmed then Some(Filter(categories, IsNot(cat))) else None
  }

  /** Removal keeps the remaining categories in order; a duplicate-free list stays duplicate-free. */
  lemma RemoveCategoryKeepsOrder(categories: seq<string>, cat: string)
    ensures IsSubsequence(RemoveCategory(categories, cat, true).value, categories)
    ensures NoDuplicates(categories) ==> NoDuplicates(RemoveCategory(categories, cat, true).value)
  {
    FilterIsSubsequence(categories, IsNot(cat));
    if NoDuplicates(categories) {
      FilterNoDuplicates(categories, IsNot(cat));
    }
  }

  /** Removing a category just added gives back the list as it was. */
  lemma AddThenRemoveCategory(categories: seq<string>, newName: string)
    requires AddCategory(categories, newName).Some?
    ensures RemoveCategory(AddCategory(categories, newName).value, Trim(newName), true) == Some(categories)
  {
    var t := Trim(newName);
    FilterConcat(categories, [t], IsNot(t));
    FilterKeepsAll(categories, IsNot(t));
    FilterDropsAll([t], IsNot(t));
    assert categories + [] == categories;
  }

  /** The margin column: shown, as sell minus buy price, only for materials both bought and sold. */
  function Margin(m: Material): (r: Option<real>)
    ensures r.Some? <==> m.data.availability == Both
    ensures r.Some? ==> r.value + m.data.buyPrice == m.data.sellPrice
  {
    if m.data.availability == Both then Some(m.data.sellPrice - m.data.buyPrice) else None
  }

  /**
   * The materials screen: the `categories` prop it is rendered with, and
   * its own state, the material form and the new-category field. The prop
   * changes when the parent saves a new list; the form and the field stay.
   */
  class Manager {
    var categories: seq<string>
    const parse: string -> Option<real>
    var form: MaterialForm
    var newCategoryName: string

    constructor (categories: seq<string>, parse: string -> Option<real>)
      ensures this.categories == categories && this.parse == parse
      ensures form == EmptyForm(categories) && newCategoryName == ""
    {
      this.categories, this.parse := categories, parse;
      form, newCategoryName := EmptyForm(categories), "";
    }

    /** `startEdit`. */
    method StartEdit(m: Material, show: real -> string)
      modifies this
      ensures form == EditForm(m, show) && newCategoryName == old(newCategoryName)
      ensures categories == old(categories)
    {
      form := EditForm(m, show);
    }

    /** `handleSubmit`: returns what is handed to the save handler; an accepted submit resets the form. */
    method Submit() returns (saved: Option<Draft<MaterialData>>)
      modifies this
      ensures saved == BuildMaterial(old(form), categories, parse)
      ensures form == if saved.Some? then EmptyForm(categories) else old(form)
      ensures newCategoryName == old(newCategoryName) && categories == old(categories)
    {
      saved := BuildMaterial(form, categories, parse);
      if saved.Some? {
        form := EmptyForm(categories);
      }
    }

    /** `handleAddCategory`: returns the list handed to the category handler; the field clears on success. */
    method AddCategoryFromField() returns (updated: Option<seq<string>>)
      modifies this
      ensures updated == AddCategory(categories, old(newCategoryName))
      ensures newCategoryName == if updated.Some? then "" else old(newCategoryName)
      ensures form == old(form) && categories == old(categories)
    {
      updated := AddCategory(categories, newCategoryName);
      if updated.Some? {
        newCategoryName := "";
      }
    }

    /** The parent re-renders the screen with a new category list; form and field are kept. */
    method SetCategories(newCategories: seq<string>)
      modifies this
      ensures categories == newCategories
      ensures form == old(form) && newCategoryName == old(newCategoryName)
    {
      categories := newCategories;
    }
  }
}
