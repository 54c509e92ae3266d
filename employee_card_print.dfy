/** The badge printing screen of `EmployeeCardPrint.tsx`: the active
    employees matching a search, and the set of ids chosen for printing,
    toggled one at a time or all at once. */
module EmployeeCardPrint {
  import opened Common
  import opened Staff
  import Employees

  /** Only active records (status `Active`, `Readmitted` or `ativo`, not
      `demitido`) whose name or role matches the search, ignoring case. */
  predicate Listed(e: Employee, term: string)
  {
    (MatchesIgnoringCase(e.name, term) || MatchesIgnoringCase(e.role, term))
    && Employees.IsActiveStatus(e)
  }

  function FilteredEmployees(employees: seq<Employee>, term: string): (r: seq<Employee>)
    ensures IsSubsequence(r, employees)
    ensures forall e :: e in r <==> e in employees && Listed(e, term)
    ensures forall e :: multiset(r)[e] == if Listed(e, term) then multiset(employees)[e] else 0
    ensures forall e :: e in r ==> !IsTerminated(e)
  {
    FilterIsSubsequence(employees, (e: Employee) => Listed(e, term));
    FilterMultiplicity(employees, (e: Employee) => Listed(e, term));
    Filter(employees, (e: Employee) => Listed(e, term))
  }

  /** `toggleSelect`: `id` changes membership and no other id does. */
  function Toggled(selected: set<string>, id: string): (r: set<string>)
    ensures id in r <==> id !in selected
    ensures forall x :: x != id ==> (x in r <==> x in selected)
  {
    if id in selected then selected - {id} else selected + {id}
  }

  /** Toggling the same id twice restores the selection. */
  lemma ToggleTwice(selected: set<string>, id: string)
    ensures Toggled(Toggled(selected, id), id) == selected
  {
  }

  function IdsOf(employees: seq<Employee>): (ids: set<string>)
    ensures forall id :: id in ids <==> exists i :: 0 <= i < |employees| && employees[i].id == id
  {
    set i | 0 <= i < |employees| :: employees[i].id
  }

  /** `toggleSelectAll`: clears the selection when its size equals the
      number of rows shown, and otherwise selects exactly the shown ids. Only
      the sizes are compared, not the ids. */
  function SelectAll(selected: set<string>, shown: seq<Employee>): (r: set<string>)
    ensures |selected| == |shown| ==> r == {}
    ensures |selected| != |shown| ==> r == IdsOf(shown)
  {
    if |selected| == |shown| then {} else IdsOf(shown)
  }

  /** Because only sizes are compared, a selection of other employees the
      same size as the list is cleared rather than replaced. */
  lemma SelectAllComparesSizesOnly()
    ensures var shown := [SampleEmployee("y")];
            SelectAll({"x"}, shown) == {} && "y" !in SelectAll({"x"}, shown)
  {
  }

  function SampleEmployee(id: string): Employee
  {
    Employees.NewEmployee(id, 0)
  }

  predicate DistinctIds(employees: seq<Employee>)
  {
    forall i, j :: 0 <= i < j < |employees| ==> employees[i].id != employees[j].id
  }

  lemma {:induction false} DistinctIdsCount(employees: seq<Employee>)
    requires DistinctIds(employees)
    ensures |IdsOf(employees)| == |employees|
    decreases |employees|
  {
    if employees != [] {
      var n := |employees| - 1;
      var init := employees[..n];
      DistinctIdsCount(init);
      assert IdsOf(employees) == IdsOf(init) + {employees[n].id};
      assert employees[n].id !in IdsOf(init);
    }
  }

  /** With distinct ids and a list the selection does not already match in
      size, "select all" selects every row and pressing it again clears the
      selection. */
  lemma SelectAllThenClear(selected: set<string>, shown: seq<Employee>)
    requires DistinctIds(shown) && |selected| != |shown|
    ensures forall e :: e in shown ==> e.id in SelectAll(selected, shown)
    ensures SelectAll(SelectAll(selected, shown), shown) == {}
  {
    DistinctIdsCount(shown);
    forall e | e in shown
      ensures e.id in SelectAll(selected, shown)
    {
      var i :| 0 <= i < |shown| && shown[i] == e;
    }
  }

  /** The selection the screen keeps. */
  class CardSelection {
    var selectedIds: set<string>

    constructor ()
      ensures selectedIds == {}
    {
      selectedIds := {};
    }

    method ToggleSelect(id: string)
      modifies this`selectedIds
      ensures selectedIds == Toggled(old(selectedIds), id)
    {
      if id in selectedIds {
        selectedIds := selectedIds - {id};
      } else {
        selectedIds := selectedIds + {id};
      }
    }

    method ToggleSelectAll(shown: seq<Employee>)
      modifies this`selectedIds
      ensures selectedIds == SelectAll(old(selectedIds), shown)
    {
      if |selectedIds| == |shown| {
        selectedIds := {};
      } else {
        selectedIds := IdsOf(shown);
      }
    }

    /** The print button is enabled only when something is selected. */
    function CanPrint(): (enabled: bool)
      reads this`selectedIds
      ensures enabled <==> selectedIds != {}
    {
      |selectedIds| != 0
    }
  }
}
