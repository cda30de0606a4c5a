/**
 * The staff screen (EmployeesManager.tsx): each employee's pending day
 * payments, the paid history, the day-payment record, paying it, and the
 * employee record sent on save.
 */
module Employees {
  import opened Wrappers
  import opened Types
  import opened Seqs
  import Storage

  predicate IsPendingFor(p: Payment, employeeId: Id) {
    p.data.employeeId == employeeId && p.data.status == Pending
  }

  function PendingOf(employeeId: Id): Payment -> bool {
    (p: Payment) => IsPendingFor(p, employeeId)
  }

  /** The pending payments listed under an employee, in record order. */
  function PendingFor(payments: seq<Payment>, emp: Employee): (r: seq<Payment>)
    ensures forall p :: p in r <==> p in payments && p.data.employeeId == emp.id && p.data.status == Pending
    ensures IsSubsequence(r, payments)
  {
    FilterIsSubsequence(payments, PendingOf(emp.id));
    Filter(payments, PendingOf(emp.id))
  }

  function IsPaid(): Payment -> bool {
    (p: Payment) => p.data.status == Paid
  }

  /** The payments tab: the paid records, the latest first. */
  function PaidHistory(payments: seq<Payment>): (r: seq<Payment>)
    ensures forall p :: p in r <==> p in payments && p.data.status == Paid
  {
    var paid := Filter(payments, IsPaid());
    ReverseMultiset(paid);
    assert forall p :: p in Reverse(paid) <==> p in multiset(Reverse(paid));
    Reverse(paid)
  }

  /** The paid history is the paid records in reverse record order. */
  lemma PaidHistoryOrder(payments: seq<Payment>)
    ensures Reverse(PaidHistory(payments)) == Filter(payments, IsPaid())
    ensures IsSubsequence(Reverse(PaidHistory(payments)), payments)
  {
    ReverseInvolution(Filter(payments, IsPaid()));
    FilterIsSubsequence(payments, IsPaid());
  }

  /** "Lançar Diária": a pending record of the employee's day rate, stamped `now`. */
  function DailyRecord(emp: Employee, now: int): (r: PaymentData)
    ensures r.employeeId == emp.id && r.employeeName == emp.data.name
    ensures r.amount == emp.data.dailyRate && r.date == now && r.status == Pending
  {
    PaymentData(emp.id, emp.data.name, emp.data.dailyRate, now, Pending)
  }

  /** A recorded day payment shows up as pending under its employee. */
  lemma RecordedDayIsPending(payments: seq<Payment>, emp: Employee, now: int, newId: Id)
    ensures Stored(newId, DailyRecord(emp, now)) in PendingFor(payments + [Stored(newId, DailyRecord(emp, now))], emp)
  {
  }

  /**
   * "Pagar Diária" marks the record paid: it leaves the employee's pending
   * list and the paid history then holds it as the receipt shows it.
   */
  lemma PayingMovesRecord(payments: seq<Payment>, emp: Employee, p: Payment)
    requires UniqueIds(payments)
    requires p in PendingFor(payments, emp)
    ensures var after := Storage.StatusUpdated(payments, p.id, Paid);
      (forall q :: q in PendingFor(after, emp) ==> q.id != p.id) &&
      Stored(p.id, p.data.(status := Paid)) in PaidHistory(after)
  {
    var after := Storage.StatusUpdated(payments, p.id, Paid);
    var k := IndexOfId(payments, p.id);
    assert p.id in IdSet(payments);
    var j :| 0 <= j < |payments| && payments[j] == p;
    assert j == k;
    forall q | q in PendingFor(after, emp) ensures q.id != p.id {
      var i :| 0 <= i < |after| && after[i] == q;
      if i != k {
        assert after[i] == payments[i];
      }
    }
    assert after[k] in after;
  }

  /**
   * `handleSave`: the edited employee's id (none for a new one), the typed
   * name, the day rate as read, and always active.
   */
  function SaveRequest(editing: Option<Employee>, name: string, dailyRate: real): (r: Draft<EmployeeData>)
    ensures r.data == EmployeeData(name, dailyRate, true)
    ensures editing.None? ==> r.id.None?
    ensures editing.Some? ==> r.id == Some(editing.value.id)
  {
    Draft(if editing.Some? then Some(editing.value.id) else None, EmployeeData(name, dailyRate, true))
  }

  /** Saving an edit replaces the employee's record with the form's values, kept active. */
  lemma SaveEditReplaces(employees: seq<Employee>, e: Employee, name: string, dailyRate: real, newId: Id)
    requires UniqueIds(employees) && e in employees && e.id != ""
    ensures var saved := Storage.Saved(employees, SaveRequest(Some(e), name, dailyRate), newId);
      FindById(saved, e.id) == Some(Stored(e.id, EmployeeData(name, dailyRate, true))) && |saved| == |employees|
  {
    Storage.SavedReadBack(employees, SaveRequest(Some(e), name, dailyRate), newId);
  }

  /** Saving a new employee adds it under a fresh id. */
  lemma SaveNewAppends(employees: seq<Employee>, name: string, dailyRate: real, newId: Id)
    requires UniqueIds(employees) && newId !in IdSet(employees)
    ensures var saved := Storage.Saved(employees, SaveRequest(None, name, dailyRate), newId);
      UniqueIds(saved) && saved == employees + [Stored(newId, EmployeeData(name, dailyRate, true))]
  {
    Storage.SavedUnique(employees, SaveRequest(None, name, dailyRate), newId);
  }
}
