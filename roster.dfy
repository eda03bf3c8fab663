/** The list logic around the payroll engine: the employer-wide totals
    (index.tsx:857-866), saving and deleting records (index.tsx:869-887) and
    the list a signed-in user sees (index.tsx:950-960). */
module Roster {
  import opened Seqs
  import opened Payroll

  datatype Option<T> = None | Some(value: T)

  /* ---------------------------------------------------------------- */
  /* Employer-wide totals                                              */
  /* ---------------------------------------------------------------- */

  /** The four running sums of the dashboard. */
  datatype Stats = Stats(totalGross: real, totalNet: real, totalTax: real, totalCompanyCost: real)

  const NoStats: Stats := Stats(0.0, 0.0, 0.0, 0.0)

  /** The accumulator after adding one payslip. */
  function AddPayslip(acc: Stats, s: SalaryResult): Stats
  {
    Stats(acc.totalGross + s.gross, acc.totalNet + s.net, acc.totalTax + s.tax,
          acc.totalCompanyCost + s.companyCost)
  }

  /** Two sets of totals added field by field. */
  function Plus(a: Stats, b: Stats): Stats
  {
    Stats(a.totalGross + b.totalGross, a.totalNet + b.totalNet, a.totalTax + b.totalTax,
          a.totalCompanyCost + b.totalCompanyCost)
  }

  /** Adding a payslip after summing two sets of totals is adding it to the
      second set. */
  lemma PlusAddPayslip(x: Stats, y: Stats, s: SalaryResult)
    ensures AddPayslip(Plus(x, y), s) == Plus(x, AddPayslip(y, s))
  {
  }

  /** The totals over a roster: the reduce, one payslip at a time from the
      first record to the last. */
  function Totals(employees: seq<Employee>): Stats
    decreases |employees|
  {
    if employees == [] then NoStats
    else AddPayslip(Totals(employees[..|employees| - 1]), Salary(employees[|employees| - 1]))
  }

  /** The reduce of index.tsx:858-865: runs the engine on each record and
      adds its gross, net, tax and employer cost into the accumulator. */
  method ComputeStats(employees: seq<Employee>) returns (acc: Stats)
    ensures acc == Totals(employees)
  {
    acc := NoStats;
    for i := 0 to |employees|
      invariant acc == Totals(employees[..i])
    {
      var s := CalculateSalary(employees[i]);
      acc := acc.(totalGross := acc.totalGross + s.gross);
      acc := acc.(totalNet := acc.totalNet + s.net);
      acc := acc.(totalTax := acc.totalTax + s.tax);
      acc := acc.(totalCompanyCost := acc.totalCompanyCost + s.companyCost);
      assert employees[..i + 1][..i] == employees[..i];
    }
    assert employees[..|employees|] == employees;
  }

  /** The totals of two rosters put together are the sums of their
      totals. */
  lemma {:induction false} TotalsAppend(a: seq<Employee>, b: seq<Employee>)
    ensures Totals(a + b) == Plus(Totals(a), Totals(b))
    decreases |b|
  {
    if b == [] {
      assert a + b == a;
    } else {
      var b', last := b[..|b| - 1], b[|b| - 1];
      assert (a + b)[..|a + b| - 1] == a + b' && (a + b)[|a + b| - 1] == last;
      TotalsAppend(a, b');
      var s := Salary(last);
      calc {
        Totals(a + b);
        AddPayslip(Totals(a + b'), s);
        AddPayslip(Plus(Totals(a), Totals(b')), s);
        { PlusAddPayslip(Totals(a), Totals(b'), s); }
        Plus(Totals(a), AddPayslip(Totals(b'), s));
        Plus(Totals(a), Totals(b));
      }
    }
  }

  /** When no record has a negative insurance salary, the totals balance:
      tax is never negative, net pay and tax together stay within gross
      (insurance takes the rest), and the employer's cost is at least the
      gross payroll. */
  lemma {:induction false} TotalsBalance(employees: seq<Employee>)
    requires forall i :: 0 <= i < |employees| ==> 0.0 <= InsuranceSalary(employees[i])
    ensures 0.0 <= Totals(employees).totalTax
    ensures Totals(employees).totalNet + Totals(employees).totalTax <= Totals(employees).totalGross
    ensures Totals(employees).totalGross <= Totals(employees).totalCompanyCost
    decreases |employees|
  {
    if employees != [] {
      var last := employees[|employees| - 1];
      TotalsBalance(employees[..|employees| - 1]);
      TaxBounds(last);
      InsuranceBounds(last);
      NetPay(last);
    }
  }

  /* ---------------------------------------------------------------- */
  /* Saving and deleting records                                       */
  /* ---------------------------------------------------------------- */

  /** Some record carries `id`. */
  predicate HasId(employees: seq<Employee>, id: string)
  {
    exists i :: 0 <= i < |employees| && employees[i].id == id
  }

  /** No two records share an ID. */
  predicate UniqueIds(employees: seq<Employee>)
  {
    forall i, j :: 0 <= i < j < |employees| ==> employees[i].id != employees[j].id
  }

  /** The roster and the record open in the edit dialog, if any. */
  datatype RosterState = RosterState(employees: seq<Employee>, editing: Option<Employee>)

  /** Every record whose ID is `id` replaced by `emp`, the others kept in
      place. */
  function Replace(employees: seq<Employee>, id: string, emp: Employee): (r: seq<Employee>)
    ensures |r| == |employees|
    ensures forall i :: 0 <= i < |employees| && employees[i].id == id ==> r[i] == emp
    ensures forall i :: 0 <= i < |employees| && employees[i].id != id ==> r[i] == employees[i]
    decreases |employees|
  {
    if employees == [] then []
    else [if employees[0].id == id then emp else employees[0]] + Replace(employees[1..], id, emp)
  }

  /** `handleSaveEmployee`: with no record open for editing, a record whose
      ID is taken is refused and nothing changes; otherwise an open record is
      replaced, matched by its original ID, or the new record is appended,
      and the dialog closes. */
  function SaveEmployee(st: RosterState, emp: Employee): (r: RosterState)
    ensures st.editing.None? && HasId(st.employees, emp.id) ==> r == st
    ensures st.editing.None? && !HasId(st.employees, emp.id) ==> r == RosterState(st.employees + [emp], None)
    ensures st.editing.Some? ==> r == RosterState(Replace(st.employees, st.editing.value.id, emp), None)
  {
    if st.editing.None? && HasId(st.employees, emp.id) then st
    else
      match st.editing
      case Some(orig) => RosterState(Replace(st.employees, orig.id, emp), None)
      case None => RosterState(st.employees + [emp], None)
  }

  /** `handleDelete`: once the user confirms, every record with `id` goes
      and the rest keep their order; without confirmation nothing changes. */
  function DeleteEmployee(employees: seq<Employee>, id: string, confirmed: bool): (r: seq<Employee>)
    ensures !confirmed ==> r == employees
    ensures confirmed ==> !HasId(r, id)
    ensures IsSubsequence(r, employees)
  {
    SubsequenceReflexive(employees);
    if confirmed then Filter(employees, (e: Employee) => e.id != id) else employees
  }

  /** Deleting removes every occurrence of the records with that ID and no
      occurrence of any other record. */
  lemma DeleteExactly(employees: seq<Employee>, id: string, e: Employee)
    ensures multiset(DeleteEmployee(employees, id, true))[e]
            == if e.id == id then 0 else multiset(employees)[e]
  {
    FilterCount(employees, (x: Employee) => x.id != id, e);
  }

  /** Deleting an ID that no record carries changes nothing. */
  lemma DeleteAbsent(employees: seq<Employee>, id: string)
    requires !HasId(employees, id)
    ensures DeleteEmployee(employees, id, true) == employees
  {
    FilterAllPass(employees, (x: Employee) => x.id != id);
  }

  /** Deleting a freshly added record undoes the addition. */
  lemma DeleteUndoesAdd(st: RosterState, emp: Employee)
    requires st.editing.None? && !HasId(st.employees, emp.id)
    ensures DeleteEmployee(SaveEmployee(st, emp).employees, emp.id, true) == st.employees
  {
    var p := (x: Employee) => x.id != emp.id;
    FilterAppend(st.employees, [emp], p);
    FilterAllPass(st.employees, p);
    assert Filter([emp], p) == [];
  }

  /** Adding keeps IDs unique: a taken ID is refused and a fresh one
      appended. */
  lemma AddKeepsIdsUnique(st: RosterState, emp: Employee)
    requires st.editing.None? && UniqueIds(st.employees)
    ensures UniqueIds(SaveEmployee(st, emp).employees)
  {
  }

  /** Editing keeps IDs unique when the edited record keeps its ID or takes
      one no record carries. */
  lemma EditKeepsIdsUnique(st: RosterState, emp: Employee)
    requires st.editing.Some? && UniqueIds(st.employees)
    requires emp.id == st.editing.value.id || !HasId(st.employees, emp.id)
    ensures UniqueIds(SaveEmployee(st, emp).employees)
  {
    var r := SaveEmployee(st, emp).employees;
    forall i, j | 0 <= i < j < |r|
      ensures r[i].id != r[j].id
    {
      if emp.id != st.editing.value.id {
        assert st.employees[i].id != emp.id && st.employees[j].id != emp.id;
      }
    }
  }

  /** Only adding checks IDs: an edit that gives a record the ID of
      another creates two records with the same ID. */
  lemma EditCanDuplicateIds()
    ensures
      var a := Employee("NV001", "A", "Staff", 0.0, Gross, 0.0, 0, 1, "IT");
      var b := Employee("NV002", "B", "Staff", 0.0, Gross, 0.0, 0, 1, "IT");
      && UniqueIds([a, b])
      && !UniqueIds(SaveEmployee(RosterState([a, b], Some(b)), b.(id := "NV001")).employees)
  {
    var a := Employee("NV001", "A", "Staff", 0.0, Gross, 0.0, 0, 1, "IT");
    var b := Employee("NV002", "B", "Staff", 0.0, Gross, 0.0, 0, 1, "IT");
    var r := SaveEmployee(RosterState([a, b], Some(b)), b.(id := "NV001")).employees;
    assert r[0].id == r[1].id;
  }

  /* ---------------------------------------------------------------- */
  /* The visible list                                                  */
  /* ---------------------------------------------------------------- */

  /** `'admin' | 'employee'`. */
  datatype UserRole = Admin | EmployeeRole

  /** The signed-in user. */
  datatype CurrentUser = CurrentUser(id: string, name: string, role: UserRole)

  /** `toLowerCase` on one character: the ASCII capitals A to Z become
      small letters, every other character is kept. */
  function LowerChar(c: char): (r: char)
    ensures !('A' <= r <= 'Z')
    ensures 'A' <= c <= 'Z' ==> r as int - c as int == 32
    ensures !('A' <= c <= 'Z') ==> r == c
  {
    if 'A' <= c <= 'Z' then (c as int + 32) as char else c
  }

  /** `toLowerCase`, character by character. */
  function Lower(s: string): (r: string)
    ensures |r| == |s|
    ensures forall i :: 0 <= i < |s| ==> r[i] == LowerChar(s[i])
    decreases |s|
  {
    if s == [] then [] else [LowerChar(s[0])] + Lower(s[1..])
  }

  /** Lowering an already lowered string changes nothing. */
  lemma LowerIdempotent(s: string)
    ensures Lower(Lower(s)) == Lower(s)
  {
  }

  /** `t` occurs in `s` at position `i`. */
  predicate OccursAt(s: string, t: string, i: int)
  {
    0 <= i && i + |t| <= |s| && s[i..i + |t|] == t
  }

  /** `s.includes(t)`: `t` occurs somewhere in `s`. */
  predicate Includes(s: string, t: string)
  {
    exists i | 0 <= i <= |s| :: OccursAt(s, t, i)
  }

  /** The search box test: the lowered term occurs in the lowered name,
      department or ID. */
  predicate SearchMatches(e: Employee, searchTerm: string)
  {
    var q := Lower(searchTerm);
    Includes(Lower(e.name), q) || Includes(Lower(e.department), q) || Includes(Lower(e.id), q)
  }

  /** The role test: an admin sees every record, anyone else only the one
      with their own ID, and with nobody signed in no record passes. */
  predicate RoleAllows(user: Option<CurrentUser>, e: Employee)
  {
    match user
    case None => false
    case Some(u) => u.role == Admin || e.id == u.id
  }

  /** `filteredEmployees`: the records the role test lets through, then
      those the search box matches. */
  function VisibleEmployees(employees: seq<Employee>, user: Option<CurrentUser>, searchTerm: string): (r: seq<Employee>)
    ensures IsSubsequence(r, employees)
    ensures forall i :: 0 <= i < |r| ==> RoleAllows(user, r[i]) && SearchMatches(r[i], searchTerm)
  {
    var byRole := Filter(employees, (e: Employee) => RoleAllows(user, e));
    var r := Filter(byRole, (e: Employee) => SearchMatches(e, searchTerm));
    SubsequenceTransitive(r, byRole, employees);
    r
  }

  /** A record is visible exactly when it is on the roster, the role test
      lets it through and the search box matches it. */
  lemma VisibleMember(employees: seq<Employee>, user: Option<CurrentUser>, searchTerm: string, e: Employee)
    ensures e in VisibleEmployees(employees, user, searchTerm)
            <==> e in employees && RoleAllows(user, e) && SearchMatches(e, searchTerm)
  {
    var p := (x: Employee) => RoleAllows(user, x);
    FilterMember(employees, p, e);
    FilterMember(Filter(employees, p), (x: Employee) => SearchMatches(x, searchTerm), e);
  }

  /** A signed-in employee who is not an admin sees only records carrying
      their own ID. */
  lemma NonAdminSeesOwnRecord(employees: seq<Employee>, u: CurrentUser, searchTerm: string)
    requires u.role != Admin
    ensures forall i :: 0 <= i < |VisibleEmployees(employees, Some(u), searchTerm)| ==>
              VisibleEmployees(employees, Some(u), searchTerm)[i].id == u.id
  {
  }

  /** With nobody signed in, no record is visible. */
  lemma SignedOutSeesNothing(employees: seq<Employee>, searchTerm: string)
    ensures VisibleEmployees(employees, None, searchTerm) == []
  {
    FilterNonePass(employees, (x: Employee) => RoleAllows(None, x));
  }

  /** The empty string occurs in every string. */
  lemma EmptyTermMatches(e: Employee)
    ensures SearchMatches(e, "")
  {
    assert OccursAt(Lower(e.name), Lower(""), 0);
  }

  /** An empty search box keeps every record the role test lets through. */
  lemma EmptySearchKeepsAll(employees: seq<Employee>, user: Option<CurrentUser>)
    ensures VisibleEmployees(employees, user, "") == Filter(employees, (e: Employee) => RoleAllows(user, e))
  {
    var byRole := Filter(employees, (e: Employee) => RoleAllows(user, e));
    forall i | 0 <= i < |byRole|
      ensures SearchMatches(byRole[i], "")
    {
      EmptyTermMatches(byRole[i]);
    }
    FilterAllPass(byRole, (e: Employee) => SearchMatches(e, ""));
  }

  /** An admin with an empty search box sees the whole roster. */
  lemma AdminSeesAll(employees: seq<Employee>, u: CurrentUser)
    requires u.role == Admin
    ensures VisibleEmployees(employees, Some(u), "") == employees
  {
    EmptySearchKeepsAll(employees, Some(u));
    FilterAllPass(employees, (e: Employee) => RoleAllows(Some(u), e));
  }

  /** The search ignores the case of the term. */
  lemma SearchIgnoresCase(employees: seq<Employee>, user: Option<CurrentUser>, searchTerm: string)
    ensures VisibleEmployees(employees, user, Lower(searchTerm)) == VisibleEmployees(employees, user, searchTerm)
  {
    LowerIdempotent(searchTerm);
    var byRole := Filter(employees, (e: Employee) => RoleAllows(user, e));
    FilterCongruent(byRole, (e: Employee) => SearchMatches(e, Lower(searchTerm)), (e: Employee) => SearchMatches(e, searchTerm));
  }
}
