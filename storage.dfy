/**
 * The repository over the six persisted collections (storageService.ts).
 *
 * Each storage key is a field of `Repository`; every operation reads the
 * whole collection, changes its copy and writes the collection back. The
 * pure functions before the class say what each operation does to a
 * collection; the lemmas after them are the guarantees the rest of the
 * application relies on, above all that a transaction id lives in exactly
 * one of the active list and the trash.
 */
module Storage {
  import opened Wrappers
  import opened Types
  import opened Seqs

  /** The category list served until a list has been saved. */
  const DefaultCategories: seq<string> :=
    ["Metais", "Plásticos", "Papéis/Papelão", "Eletrônicos", "Automotivo", "Outros"]

  /** A draft names a record to update only when its id is a non-empty string. */
  predicate HasId<T>(d: Draft<T>) {
    d.id.Some? && d.id.value != ""
  }

  /**
   * `saveMaterial` and `saveEmployee` on a collection: a draft with an id
   * replaces the first record carrying that id (a silent no-op when none
   * does); a draft without one is appended under `newId`.
   */
  function Saved<T(!new)>(s: seq<Stored<T>>, d: Draft<T>, newId: Id): (r: seq<Stored<T>>)
    ensures !HasId(d) ==> r == s + [Stored(newId, d.data)]
    ensures HasId(d) && d.id.value !in IdSet(s) ==> r == s
    ensures HasId(d) && d.id.value in IdSet(s) ==>
      var k := IndexOfId(s, d.id.value);
      |r| == |s| && r[k] == Stored(d.id.value, d.data) &&
      forall j :: 0 <= j < |s| && j != k ==> r[j] == s[j]
  {
    if HasId(d) then
      var k := IndexOfId(s, d.id.value);
      if k >= 0 then s[k := Stored(s[k].id, d.data)] else s
    else
      s + [Stored(newId, d.data)]
  }

  /** Saving keeps ids unique when a created record gets an unused id. */
  lemma SavedUnique<T(!new)>(s: seq<Stored<T>>, d: Draft<T>, newId: Id)
    requires UniqueIds(s)
    requires !HasId(d) ==> newId !in IdSet(s)
    ensures UniqueIds(Saved(s, d, newId))
    ensures IdSet(Saved(s, d, newId)) == if HasId(d) then IdSet(s) else IdSet(s) + {newId}
  {
    var r := Saved(s, d, newId);
    if !HasId(d) {
      UniqueAppend(s, Stored(newId, d.data));
      IdSetConcat(s, [Stored(newId, d.data)]);
    } else if d.id.value in IdSet(s) {
      var k := IndexOfId(s, d.id.value);
      assert forall j :: 0 <= j < |s| ==> r[j].id == s[j].id;
      forall id | id in IdSet(r) ensures id in IdSet(s) {
        var x :| x in r && x.id == id;
        var j :| 0 <= j < |r| && r[j] == x;
        assert s[j] in s;
      }
      forall id | id in IdSet(s) ensures id in IdSet(r) {
        var x :| x in s && x.id == id;
        var j :| 0 <= j < |s| && s[j] == x;
        assert r[j] in r;
      }
    }
  }

  /** Read-after-write: the saved record is what a lookup of its id finds. */
  lemma SavedReadBack<T(!new)>(s: seq<Stored<T>>, d: Draft<T>, newId: Id)
    requires UniqueIds(s)
    requires !HasId(d) ==> newId !in IdSet(s)
    requires HasId(d) ==> d.id.value in IdSet(s)
    ensures var id := if HasId(d) then d.id.value else newId;
      FindById(Saved(s, d, newId), id) == Some(Stored(id, d.data))
  {
    var r := Saved(s, d, newId);
    if !HasId(d) {
      var k := IndexOfId(r, newId);
      assert r[|s|] == Stored(newId, d.data);
      assert r[|s|] in r;
    } else {
      var id := d.id.value;
      var k := IndexOfId(s, id);
      assert r[k] in r;
    }
  }

  /**
   * `moveToTrash` (from the active list to the trash) and, with the roles
   * swapped, `restoreFromTrash`: when `from` holds `id`, every record with
   * that id leaves `from` and the first one found is appended to `to`;
   * otherwise nothing changes.
   */
  function Moved(from: seq<Transaction>, to: seq<Transaction>, id: Id): (r: (seq<Transaction>, seq<Transaction>))
    ensures id !in IdSet(from) ==> r == (from, to)
    ensures id in IdSet(from) ==> r == (Without(from, [id]), to + [from[IndexOfId(from, id)]])
  {
    match FindById(from, id)
    case None => (from, to)
    case Some(tx) => (Without(from, [id]), to + [tx])
  }

  /** Each id lives in exactly one of the two lists: no id twice, none in both. */
  ghost predicate Partitioned(active: seq<Transaction>, trash: seq<Transaction>) {
    UniqueIds(active + trash)
  }

  /**
   * Moving preserves the partition, keeps the set of ids, and leaves a
   * moved id in the destination only.
   */
  lemma MovePreservesPartition(from: seq<Transaction>, to: seq<Transaction>, id: Id)
    requires Partitioned(from, to)
    ensures Partitioned(Moved(from, to, id).0, Moved(from, to, id).1)
    ensures IdSet(Moved(from, to, id).0) + IdSet(Moved(from, to, id).1) == IdSet(from) + IdSet(to)
    ensures id in IdSet(from) ==> id !in IdSet(Moved(from, to, id).0) && id in IdSet(Moved(from, to, id).1)
  {
    UniqueConcat(from, to);
    if id in IdSet(from) {
      var tx := from[IndexOfId(from, id)];
      var from' := Without(from, [id]);
      var to' := to + [tx];
      assert tx in from;
      WithoutUnique(from, [id]);
      assert IdSet(from') == IdSet(from) - {id} by {
        forall y | y in IdSet(from) - {id} ensures y in IdSet(from') {
          var x :| x in from && x.id == y;
          assert x in from';
        }
      }
      UniqueAppend(to, tx);
      IdSetConcat(to, [tx]);
      assert IdSet([tx]) == {id};
      UniqueConcat(from', to');
    }
  }

  /** Restoring the record just appended to a list that did not hold its id. */
  lemma RestoreAppended(bin: seq<Transaction>, active: seq<Transaction>, tx: Transaction)
    requires forall j :: 0 <= j < |bin| ==> bin[j].id != tx.id
    ensures Moved(bin + [tx], active, tx.id) == (bin, active + [tx])
  {
    var bin1 := bin + [tx];
    assert bin1[|bin|] in bin1;
    assert IndexOfId(bin1, tx.id) == |bin|;
    assert tx.id in IdSet(bin1);
    WithoutConcat(bin, [tx], [tx.id]);
    WithoutMissingId(bin, tx.id);
    WithoutOfOwnId(tx);
    assert Without(bin1, [tx.id]) == bin + [];
    assert bin1[IndexOfId(bin1, tx.id)] == tx;
    var m := Moved(bin1, active, tx.id);
    assert m.0 == Without(bin1, [tx.id]);
    assert m.1 == active + [tx];
    assert bin + [] == bin;
  }

  /**
   * Trash then restore: the trash is as before and the transaction is back
   * in the active list, unchanged, at its end; no record is lost or gained.
   */
  lemma MoveThenRestore(active: seq<Transaction>, trash: seq<Transaction>, id: Id)
    requires Partitioned(active, trash)
    requires id in IdSet(active)
    ensures var moved := Moved(active, trash, id);
      var restored := Moved(moved.1, moved.0, id);
      var k := IndexOfId(active, id);
      restored.0 == trash &&
      restored.1 == active[..k] + active[k + 1..] + [active[k]] &&
      multiset(restored.1) == multiset(active)
  {
    var k := IndexOfId(active, id);
    var tx := active[k];
    TrashLacksActiveId(active, trash, k);
    var moved := Moved(active, trash, id);
    assert moved == (Without(active, [id]), trash + [tx]);
    RestoreAppended(trash, moved.0, tx);
    UniqueConcat(active, trash);
    WithoutUniqueOne(active, k);
    MoveToEndMultiset(active, k);
  }

  /** No trashed record shares an id with an active one. */
  lemma TrashLacksActiveId(active: seq<Transaction>, trash: seq<Transaction>, k: int)
    requires Partitioned(active, trash) && 0 <= k < |active|
    ensures forall j :: 0 <= j < |trash| ==> trash[j].id != active[k].id
  {
    forall j | 0 <= j < |trash| ensures trash[j].id != active[k].id {
      assert (active + trash)[k] == active[k];
      assert (active + trash)[|active| + j] == trash[j];
    }
  }

  /** Moving one element to the end keeps the multiset. */
  lemma MoveToEndMultiset<T>(s: seq<T>, k: int)
    requires 0 <= k < |s|
    ensures multiset(s[..k] + s[k + 1..] + [s[k]]) == multiset(s)
  {
    calc {
      multiset(s[..k] + s[k + 1..] + [s[k]]);
      multiset(s[..k] + [s[k]] + s[k + 1..]);
      { assert s[..k] + [s[k]] + s[k + 1..] == s; }
      multiset(s);
    }
  }

  /** `updatePaymentStatus` on the collection: only the first match's status changes. */
  function StatusUpdated(ps: seq<Payment>, id: Id, status: PaymentStatus): (r: seq<Payment>)
    ensures |r| == |ps|
    ensures id !in IdSet(ps) ==> r == ps
    ensures id in IdSet(ps) ==>
      var k := IndexOfId(ps, id);
      r[k] == Stored(ps[k].id, ps[k].data.(status := status)) &&
      forall j :: 0 <= j < |ps| && j != k ==> r[j] == ps[j]
  {
    var k := IndexOfId(ps, id);
    if k > -1 then ps[k := Stored(ps[k].id, ps[k].data.(status := status))] else ps
  }

  /**
   * After the update a lookup of the id finds the record with the new
   * status and every other field as before; ids stay unique, and a second
   * identical update changes nothing.
   */
  lemma StatusUpdatedReadBack(ps: seq<Payment>, id: Id, status: PaymentStatus)
    requires UniqueIds(ps) && id in IdSet(ps)
    ensures var r := StatusUpdated(ps, id, status);
      var old_ := FindById(ps, id).value;
      UniqueIds(r) &&
      FindById(r, id) == Some(Stored(id, old_.data.(status := status))) &&
      StatusUpdated(r, id, status) == r
  {
    var r := StatusUpdated(ps, id, status);
    var k := IndexOfId(ps, id);
    assert forall j :: 0 <= j < |ps| ==> r[j].id == ps[j].id;
    assert IndexOfId(r, id) == k by {
      var k' := IndexOfId(r, id);
      assert r[k] in r;
    }
  }

  class Repository {
    var materials: seq<Material>
    var transactions: seq<Transaction>
    var trash: seq<Transaction>
    /** The categories key; `None` until a list has been saved. */
    var savedCategories: Option<seq<string>>
    var employees: seq<Employee>
    var payments: seq<Payment>

    /** Every collection holds unique ids, and active and trashed transactions are partitioned. */
    ghost predicate Valid()
      reads this
    {
      UniqueIds(materials) && Partitioned(transactions, trash) &&
      UniqueIds(employees) && UniqueIds(payments)
    }

    /** Every id in use in any collection; the id generator never returns one of these. */
    ghost function UsedIds(): set<Id>
      reads this
    {
      IdSet(materials) + IdSet(transactions) + IdSet(trash) + IdSet(employees) + IdSet(payments)
    }

    /** What `getCategories` serves: the saved list, or the default list before any save. */
    function Categories(): (c: seq<string>)
      reads this
      ensures savedCategories.None? ==> c == DefaultCategories && |c| == 6
      ensures savedCategories.Some? ==> c == savedCategories.value
    {
      match savedCategories
      case None => DefaultCategories
      case Some(saved) => saved
    }

    /** Empty local storage. */
    constructor ()
      ensures Valid()
      ensures materials == [] && transactions == [] && trash == []
      ensures employees == [] && payments == [] && savedCategories == None
    {
      materials, transactions, trash := [], [], [];
      employees, payments, savedCategories := [], [], None;
    }

    method GetMaterials() returns (r: seq<Material>)
      ensures r == materials
    {
      r := materials;
    }

    method SaveMaterial(material: Draft<MaterialData>, newId: Id) returns (r: seq<Material>)
      requires Valid()
      requires !HasId(material) ==> newId !in UsedIds()
      modifies this
      ensures Valid()
      ensures materials == Saved(old(materials), material, newId) && r == materials
      ensures transactions == old(transactions) && trash == old(trash)
      ensures employees == old(employees) && payments == old(payments)
      ensures savedCategories == old(savedCategories)
    {
      var ms := materials;
      if HasId(material) {
        var index := IndexOfId(ms, material.id.value);
        if index > -1 {
          ms := ms[index := Stored(ms[index].id, material.data)];
        }
      } else {
        ms := ms + [Stored(newId, material.data)];
      }
      SavedUnique(materials, material, newId);
      materials := ms;
      r := ms;
    }

    method DeleteMaterial(id: Id) returns (r: seq<Material>)
      requires Valid()
      modifies this
      ensures Valid()
      ensures materials == Without(old(materials), [id]) && r == materials
      ensures transactions == old(transactions) && trash == old(trash)
      ensures employees == old(employees) && payments == old(payments)
      ensures savedCategories == old(savedCategories)
    {
      var ms := Without(materials, [id]);
      WithoutUnique(materials, [id]);
      materials := ms;
      r := ms;
    }

    method GetTransactions() returns (r: seq<Transaction>)
      ensures r == transactions
    {
      r := transactions;
    }

    method SaveTransaction(transaction: TransactionData, newId: Id) returns (r: seq<Transaction>)
      requires Valid()
      requires newId !in UsedIds()
      modifies this
      ensures Valid()
      ensures transactions == old(transactions) + [Stored(newId, transaction)] && r == transactions
      ensures materials == old(materials) && trash == old(trash)
      ensures employees == old(employees) && payments == old(payments)
      ensures savedCategories == old(savedCategories)
    {
      var txs := transactions;
      var newTx := Stored(newId, transaction);
      UniqueConcat(txs, trash);
      UniqueAppend(txs, newTx);
      IdSetConcat(txs, [newTx]);
      assert IdSet([newTx]) == {newId};
      txs := txs + [newTx];
      UniqueConcat(txs, trash);
      transactions := txs;
      r := txs;
    }

    /** Returns the active list as it was before the move, as the source does. */
    method MoveToTrash(id: Id) returns (r: seq<Transaction>)
      requires Valid()
      modifies this
      ensures Valid()
      ensures (transactions, trash) == Moved(old(transactions), old(trash), id)
      ensures r == old(transactions)
      ensures materials == old(materials) && employees == old(employees)
      ensures payments == old(payments) && savedCategories == old(savedCategories)
    {
      var txs := transactions;
      var bin := trash;
      var tx := FindById(txs, id);
      if tx.Some? {
        bin := bin + [tx.value];
        var filtered := Without(txs, [id]);
        MovePreservesPartition(transactions, trash, id);
        transactions := filtered;
        trash := bin;
      }
      r := txs;
    }

    method GetTrash() returns (r: seq<Transaction>)
      ensures r == trash
    {
      r := trash;
    }

    method RestoreFromTrash(id: Id)
      requires Valid()
      modifies this
      ensures Valid()
      ensures (trash, transactions) == Moved(old(trash), old(transactions), id)
      ensures materials == old(materials) && employees == old(employees)
      ensures payments == old(payments) && savedCategories == old(savedCategories)
    {
      var bin := trash;
      var txs := transactions;
      var tx := FindById(bin, id);
      if tx.Some? {
        txs := txs + [tx.value];
        var filteredTrash := Without(bin, [id]);
        UniqueConcat(transactions, trash);
        UniqueConcat(trash, transactions);
        MovePreservesPartition(trash, transactions, id);
        UniqueConcat(filteredTrash, txs);
        UniqueConcat(txs, filteredTrash);
        transactions := txs;
        trash := filteredTrash;
      }
    }

    method PermanentDeleteTrash(ids: seq<Id>) returns (r: seq<Transaction>)
      requires Valid()
      modifies this
      ensures Valid()
      ensures trash == Without(old(trash), ids) && r == trash
      ensures materials == old(materials) && transactions == old(transactions)
      ensures employees == old(employees) && payments == old(payments)
      ensures savedCategories == old(savedCategories)
    {
      var bin := Without(trash, ids);
      UniqueConcat(transactions, trash);
      WithoutUnique(trash, ids);
      assert IdSet(bin) <= IdSet(trash);
      UniqueConcat(transactions, bin);
      trash := bin;
      r := bin;
    }

    method GetEmployees() returns (r: seq<Employee>)
      ensures r == employees
    {
      r := employees;
    }

    method SaveEmployee(employee: Draft<EmployeeData>, newId: Id) returns (r: seq<Employee>)
      requires Valid()
      requires !HasId(employee) ==> newId !in UsedIds()
      modifies this
      ensures Valid()
      ensures employees == Saved(old(employees), employee, newId) && r == employees
      ensures materials == old(materials) && transactions == old(transactions)
      ensures trash == old(trash) && payments == old(payments)
      ensures savedCategories == old(savedCategories)
    {
      var es := employees;
      if HasId(employee) {
        var idx := IndexOfId(es, employee.id.value);
        if idx > -1 {
          es := es[idx := Stored(es[idx].id, employee.data)];
        }
      } else {
        es := es + [Stored(newId, employee.data)];
      }
      SavedUnique(employees, employee, newId);
      employees := es;
      r := es;
    }

    /** Deleting an employee leaves every payment record in place. */
    method DeleteEmployee(id: Id) returns (r: seq<Employee>)
      requires Valid()
      modifies this
      ensures Valid()
      ensures employees == Without(old(employees), [id]) && r == employees
      ensures payments == old(payments)
      ensures materials == old(materials) && transactions == old(transactions)
      ensures trash == old(trash) && savedCategories == old(savedCategories)
    {
      var filtered := Without(employees, [id]);
      WithoutUnique(employees, [id]);
      employees := filtered;
      r := filtered;
    }

    method GetPayments() returns (r: seq<Payment>)
      ensures r == payments
    {
      r := payments;
    }

    method SavePayment(payment: PaymentData, newId: Id) returns (r: seq<Payment>)
      requires Valid()
      requires newId !in UsedIds()
      modifies this
      ensures Valid()
      ensures payments == old(payments) + [Stored(newId, payment)] && r == payments
      ensures materials == old(materials) && transactions == old(transactions)
      ensures trash == old(trash) && employees == old(employees)
      ensures savedCategories == old(savedCategories)
    {
      var ps := payments;
      UniqueAppend(ps, Stored(newId, payment));
      ps := ps + [Stored(newId, payment)];
      payments := ps;
      r := ps;
    }

    /** The source's signature admits only the status `paid`. */
    method UpdatePaymentStatus(id: Id) returns (r: seq<Payment>)
      requires Valid()
      modifies this
      ensures Valid()
      ensures payments == StatusUpdated(old(payments), id, Paid) && r == payments
      ensures materials == old(materials) && transactions == old(transactions)
      ensures trash == old(trash) && employees == old(employees)
      ensures savedCategories == old(savedCategories)
    {
      var ps := payments;
      var idx := IndexOfId(ps, id);
      if idx > -1 {
        ps := ps[idx := Stored(ps[idx].id, ps[idx].data.(status := Paid))];
        StatusUpdatedReadBack(payments, id, Paid);
      }
      payments := ps;
      r := ps;
    }

    method GetCategories() returns (r: seq<string>)
      ensures r == Categories()
    {
      r := Categories();
    }

    method SaveCategories(categories: seq<string>) returns (r: seq<string>)
      requires Valid()
      modifies this
      ensures Valid()
      ensures savedCategories == Some(categories) && r == categories && Categories() == categories
      ensures materials == old(materials) && transactions == old(transactions)
      ensures trash == old(trash) && employees == old(employees) && payments == old(payments)
    {
      savedCategories := Some(categories);
      r := categories;
    }
  }
}
