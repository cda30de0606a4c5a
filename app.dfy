/**
 * The application shell (App.tsx): the screen shown for the current view,
 * the first-run seeding of the repository, and the handlers that change
 * the repository and then refresh the in-memory copies the screens read.
 *
 * Generated ids are method parameters, each required to be unused; `now`
 * is the clock reading.
 */
module App {
  import opened Wrappers
  import opened Types
  import opened Seqs
  import Storage
  import TransactionForm

  /** What `renderContent` puts on screen. */
  datatype Screen =
    | DashboardScreen | PricesScreen | ManagementScreen | EmployeesScreen
    | FormScreen(kind: TransactionType) | HistoryScreen | TrashScreen

  /** The screen for a view name; a name matching no case falls back to the dashboard. */
  function ScreenFor(name: string): (s: Screen)
    ensures name == DashboardView.Name() ==> s == DashboardScreen
    ensures name == PricesView.Name() ==> s == PricesScreen
    ensures name == ManagementView.Name() ==> s == ManagementScreen
    ensures name == EmployeesView.Name() ==> s == EmployeesScreen
    ensures name == BuyView.Name() ==> s == FormScreen(Buy)
    ensures name == SellView.Name() ==> s == FormScreen(Sell)
    ensures name == HistoryView.Name() ==> s == HistoryScreen
    ensures name == TrashView.Name() ==> s == TrashScreen
  {
    if name == "dashboard" then DashboardScreen
    else if name == "prices" then PricesScreen
    else if name == "management" then ManagementScreen
    else if name == "employees" then EmployeesScreen
    else if name == "buy" then FormScreen(Buy)
    else if name == "sell" then FormScreen(Sell)
    else if name == "history" then HistoryScreen
    else if name == "trash" then TrashScreen
    else DashboardScreen
  }

  /** The `default` case: a name that is no view's name shows the dashboard. */
  lemma UnknownNameShowsDashboard(name: string)
    requires forall v: View :: name != v.Name()
    ensures ScreenFor(name) == DashboardScreen
  {
    assert name != PricesView.Name() && name != ManagementView.Name();
    assert name != EmployeesView.Name() && name != BuyView.Name() && name != SellView.Name();
    assert name != HistoryView.Name() && name != TrashView.Name();
  }

  /** The eight view names are distinct, so each view reaches its own screen. */
  lemma ViewNamesDistinct(v: View, w: View)
    ensures v.Name() == w.Name() ==> v == w
  {
  }

  /** The four demonstration materials, all both bought and sold. */
  const SeedMaterials: seq<MaterialData> := [
    MaterialData("Cobre Mel", "Metais", 42.50, 48.00, Both),
    MaterialData("Alumínio Perfil", "Metais", 12.00, 15.50, Both),
    MaterialData("Ferro Pesado", "Metais", 0.80, 1.20, Both),
    MaterialData("Pet Transparente", "Plásticos", 2.10, 3.20, Both)
  ]

  /** The demonstration purchase: 10 kg of Cobre Mel at 42.50. */
  function SeedTransaction(now: int): TransactionData {
    TransactionData(Buy, "Fornecedor de Exemplo",
                    [TransactionItem("Cobre Mel", 10.0, 42.5, 425.0)], 425.0, now)
  }

  /** The seed purchase is consistent: its line is valid, priced at the seeded copper price, and its total is its lines' sum. */
  lemma SeedTransactionConsistent(now: int)
    ensures var tx := SeedTransaction(now);
      |tx.items| == 1 && TransactionForm.ValidItem(tx.items[0]) &&
      tx.items[0].materialName == SeedMaterials[0].name &&
      tx.items[0].unitPrice == SeedMaterials[0].buyPrice &&
      tx.total == TransactionForm.BasketTotal(tx.items)
  {
    TransactionForm.BasketTotalSingle(SeedTransaction(now).items[0]);
  }

  /** The first `n` seed materials stored under the first `n` generated ids. */
  function SeededMaterials(ids: seq<Id>, n: nat): (r: seq<Material>)
    requires n <= 4 && |ids| >= n
    ensures |r| == n && forall i :: 0 <= i < n ==> r[i] == Stored(ids[i], SeedMaterials[i])
  {
    seq(n, i requires 0 <= i < n => Stored(ids[i], SeedMaterials[i]))
  }

  /**
   * The seeding step of the start-up effect on an empty repository: each
   * demonstration material saved in turn, then the sample purchase.
   */
  method SeedRepository(repo: Storage.Repository, now: int, ids: seq<Id>)
    requires repo.Valid() && repo.materials == [] && repo.transactions == []
    requires |ids| == 5 && NoDuplicates(ids)
    requires forall i :: 0 <= i < 5 ==> ids[i] !in repo.UsedIds()
    modifies repo
    ensures repo.Valid()
    ensures repo.materials == SeededMaterials(ids, 4) && repo.transactions == [Stored(ids[4], SeedTransaction(now))]
    ensures repo.trash == old(repo.trash) && repo.employees == old(repo.employees)
    ensures repo.payments == old(repo.payments) && repo.savedCategories == old(repo.savedCategories)
  {
    for i := 0 to 4
      invariant repo.Valid()
      invariant repo.materials == SeededMaterials(ids, i) && repo.transactions == []
      invariant repo.trash == old(repo.trash) && repo.employees == old(repo.employees)
      invariant repo.payments == old(repo.payments) && repo.savedCategories == old(repo.savedCategories)
      invariant forall j :: i <= j < 5 ==> ids[j] !in repo.UsedIds()
    {
      ghost var before := repo.materials;
      var _ := repo.SaveMaterial(Draft(None, SeedMaterials[i]), ids[i]);
      IdSetConcat(before, [Stored(ids[i], SeedMaterials[i])]);
      assert IdSet([Stored(ids[i], SeedMaterials[i])]) == {ids[i]};
      assert repo.materials == SeededMaterials(ids, i + 1);
    }
    var _ := repo.SaveTransaction(SeedTransaction(now), ids[4]);
  }

  class App {
    const repo: Storage.Repository
    var currentView: View
    var materials: seq<Material>
    var transactions: seq<Transaction>
    var trash: seq<Transaction>
    var categories: seq<string>
    var employees: seq<Employee>
    var payments: seq<Payment>

    /** The in-memory copies agree with the repository. */
    ghost predicate Synced()
      reads this, repo
    {
      materials == repo.materials && transactions == repo.transactions && trash == repo.trash &&
      categories == repo.Categories() && employees == repo.employees && payments == repo.payments
    }

    /** The first render: the dashboard, every copy still empty. */
    constructor (repo: Storage.Repository)
      ensures this.repo == repo && currentView == DashboardView
      ensures materials == [] && transactions == [] && trash == []
      ensures categories == [] && employees == [] && payments == []
    {
      this.repo := repo;
      currentView := DashboardView;
      materials, transactions, trash := [], [], [];
      categories, employees, payments := [], [], [];
    }

    /** The `onBack` of the staff screen. */
    method Back()
      modifies this
      ensures currentView == DashboardView
      ensures materials == old(materials) && transactions == old(transactions) && trash == old(trash)
      ensures categories == old(categories) && employees == old(employees) && payments == old(payments)
    {
      currentView := DashboardView;
    }

    /**
     * The start-up effect: an empty repository (no materials and no active
     * transactions) is seeded with the four materials and the sample
     * purchase; then all six copies are read from the repository.
     */
    method Bootstrap(now: int, ids: seq<Id>)
      requires repo.Valid()
      requires |ids| == 5 && NoDuplicates(ids)
      requires forall i :: 0 <= i < 5 ==> ids[i] !in repo.UsedIds()
      modifies this, repo
      ensures repo.Valid() && Synced() && currentView == old(currentView)
      ensures old(repo.materials) == [] && old(repo.transactions) == [] ==>
        repo.materials == SeededMaterials(ids, 4) && repo.transactions == [Stored(ids[4], SeedTransaction(now))]
      ensures !(old(repo.materials) == [] && old(repo.transactions) == []) ==>
        repo.materials == old(repo.materials) && repo.transactions == old(repo.transactions)
      ensures repo.trash == old(repo.trash) && repo.employees == old(repo.employees)
      ensures repo.payments == old(repo.payments) && repo.savedCategories == old(repo.savedCategories)
    {
      var initialMaterials := repo.GetMaterials();
      var initialTransactions := repo.GetTransactions();
      if |initialMaterials| == 0 && |initialTransactions| == 0 {
        SeedRepository(repo, now, ids);
      }
      materials := repo.GetMaterials();
      transactions := repo.GetTransactions();
      trash := repo.GetTrash();
      categories := repo.GetCategories();
      employees := repo.GetEmployees();
      payments := repo.GetPayments();
    }

    /** `handleNewTransaction`. */
    method NewTransaction(tx: TransactionData, newId: Id)
      requires repo.Valid() && Synced() && newId !in repo.UsedIds()
      modifies this, repo
      ensures repo.Valid() && Synced() && currentView == old(currentView)
      ensures repo.transactions == old(repo.transactions) + [Stored(newId, tx)]
      ensures repo.materials == old(repo.materials) && repo.trash == old(repo.trash)
      ensures repo.employees == old(repo.employees) && repo.payments == old(repo.payments)
      ensures repo.savedCategories == old(repo.savedCategories)
    {
      var updated := repo.SaveTransaction(tx, newId);
      transactions := updated;
    }

    /** `handleMoveToTrash`: both transaction lists are read again. */
    method MoveToTrash(id: Id)
      requires repo.Valid() && Synced()
      modifies this, repo
      ensures repo.Valid() && Synced() && currentView == old(currentView)
      ensures (repo.transactions, repo.trash) == Storage.Moved(old(repo.transactions), old(repo.trash), id)
      ensures repo.materials == old(repo.materials) && repo.employees == old(repo.employees)
      ensures repo.payments == old(repo.payments) && repo.savedCategories == old(repo.savedCategories)
    {
      var _ := repo.MoveToTrash(id);
      transactions := repo.GetTransactions();
      trash := repo.GetTrash();
    }

    /** `handleRestoreTrash`: both transaction lists are read again. */
    method RestoreTrash(id: Id)
      requires repo.Valid() && Synced()
      modifies this, repo
      ensures repo.Valid() && Synced() && currentView == old(currentView)
      ensures (repo.trash, repo.transactions) == Storage.Moved(old(repo.trash), old(repo.transactions), id)
      ensures repo.materials == old(repo.materials) && repo.employees == old(repo.employees)
      ensures repo.payments == old(repo.payments) && repo.savedCategories == old(repo.savedCategories)
    {
      repo.RestoreFromTrash(id);
      transactions := repo.GetTransactions();
      trash := repo.GetTrash();
    }

    /** `handlePermanentDelete`: only the trash copy changes. */
    method PermanentDelete(ids: seq<Id>)
      requires repo.Valid() && Synced()
      modifies this, repo
      ensures repo.Valid() && Synced() && currentView == old(currentView)
      ensures repo.trash == Without(old(repo.trash), ids)
      ensures repo.transactions == old(repo.transactions) && repo.materials == old(repo.materials)
      ensures repo.employees == old(repo.employees) && repo.payments == old(repo.payments)
      ensures repo.savedCategories == old(repo.savedCategories)
      ensures transactions == old(transactions) && materials == old(materials)
      ensures employees == old(employees) && payments == old(payments) && categories == old(categories)
    {
      var updated := repo.PermanentDeleteTrash(ids);
      trash := updated;
    }

    /** `handleSaveEmployee`. */
    method SaveEmployee(emp: Draft<EmployeeData>, newId: Id)
      requires repo.Valid() && Synced()
      requires !Storage.HasId(emp) ==> newId !in repo.UsedIds()
      modifies this, repo
      ensures repo.Valid() && Synced() && currentView == old(currentView)
      ensures repo.employees == Storage.Saved(old(repo.employees), emp, newId)
      ensures repo.materials == old(repo.materials) && repo.transactions == old(repo.transactions)
      ensures repo.trash == old(repo.trash) && repo.payments == old(repo.payments)
      ensures repo.savedCategories == old(repo.savedCategories)
    {
      var updated := repo.SaveEmployee(emp, newId);
      employees := updated;
    }

    /** `handleDeleteEmployee`: after confirmation only employees change; payment history stays. */
    method DeleteEmployee(id: Id, confirmed: bool)
      requires repo.Valid() && Synced()
      modifies this, repo
      ensures repo.Valid() && Synced() && currentView == old(currentView)
      ensures repo.employees == if confirmed then Without(old(repo.employees), [id]) else old(repo.employees)
      ensures repo.payments == old(repo.payments) && payments == old(payments)
      ensures repo.materials == old(repo.materials) && repo.transactions == old(repo.transactions)
      ensures repo.trash == old(repo.trash) && repo.savedCategories == old(repo.savedCategories)
    {
      if confirmed {
        var updated := repo.DeleteEmployee(id);
        employees := updated;
      }
    }

    /** `handlePayDaily`: only payments change. */
    method PayDaily(pay: PaymentData, newId: Id)
      requires repo.Valid() && Synced() && newId !in repo.UsedIds()
      modifies this, repo
      ensures repo.Valid() && Synced() && currentView == old(currentView)
      ensures repo.payments == old(repo.payments) + [Stored(newId, pay)]
      ensures repo.materials == old(repo.materials) && repo.transactions == old(repo.transactions)
      ensures repo.trash == old(repo.trash) && repo.employees == old(repo.employees)
      ensures repo.savedCategories == old(repo.savedCategories)
    {
      var updated := repo.SavePayment(pay, newId);
      payments := updated;
    }

    /** `handleUpdatePayment`: only payments change. */
    method UpdatePayment(id: Id)
      requires repo.Valid() && Synced()
      modifies this, repo
      ensures repo.Valid() && Synced() && currentView == old(currentView)
      ensures repo.payments == Storage.StatusUpdated(old(repo.payments), id, Paid)
      ensures repo.materials == old(repo.materials) && repo.transactions == old(repo.transactions)
      ensures repo.trash == old(repo.trash) && repo.employees == old(repo.employees)
      ensures repo.savedCategories == old(repo.savedCategories)
    {
      var updated := repo.UpdatePaymentStatus(id);
      payments := updated;
    }

    /** The materials screen's save handler. */
    method SaveMaterial(m: Draft<MaterialData>, newId: Id)
      requires repo.Valid() && Synced()
      requires !Storage.HasId(m) ==> newId !in repo.UsedIds()
      modifies this, repo
      ensures repo.Valid() && Synced() && currentView == old(currentView)
      ensures repo.materials == Storage.Saved(old(repo.materials), m, newId)
      ensures repo.transactions == old(repo.transactions) && repo.trash == old(repo.trash)
      ensures repo.employees == old(repo.employees) && repo.payments == old(repo.payments)
      ensures repo.savedCategories == old(repo.savedCategories)
    {
      var updated := repo.SaveMaterial(m, newId);
      materials := updated;
    }

    /** The materials screen's delete handler. */
    method DeleteMaterial(id: Id)
      requires repo.Valid() && Synced()
      modifies this, repo
      ensures repo.Valid() && Synced() && currentView == old(currentView)
      ensures repo.materials == Without(old(repo.materials), [id])
      ensures repo.transactions == old(repo.transactions) && repo.trash == old(repo.trash)
      ensures repo.employees == old(repo.employees) && repo.payments == old(repo.payments)
      ensures repo.savedCategories == old(repo.savedCategories)
    {
      var updated := repo.DeleteMaterial(id);
      materials := updated;
    }

    /** The materials screen's category handler. */
    method UpdateCategories(c: seq<string>)
      requires repo.Valid() && Synced()
      modifies this, repo
      ensures repo.Valid() && Synced() && currentView == old(currentView)
      ensures repo.Categories() == c && categories == c
      ensures repo.materials == old(repo.materials) && repo.transactions == old(repo.transactions)
      ensures repo.trash == old(repo.trash) && repo.employees == old(repo.employees)
      ensures repo.payments == old(repo.payments)
    {
      var updated := repo.SaveCategories(c);
      categories := updated;
    }
  }
}
