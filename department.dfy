/** The Department/Employee association (DepartmentAggregate): a department
    lists its employees and every employee points back to the department that
    lists it. The department side is in charge: adding moves the employee out
    of its previous department, removing clears its back-reference. */
module DepartmentAggregate {
  import opened Common

  /** `List<T>.Remove(x)`: drops the first occurrence of x, if any. */
  function RemoveFirst<T(==)>(s: seq<T>, x: T): (r: seq<T>)
    ensures x !in s ==> r == s
    ensures x in s ==> |r| == |s| - 1
    ensures forall y :: y in r ==> y in s
    ensures forall y :: y in s && y != x ==> y in r
  {
    if s == [] then []
    else if s[0] == x then s[1..]
    else [s[0]] + RemoveFirst(s[1..], x)
  }

  /** No element occurs twice. */
  predicate NoDuplicates<T(==)>(s: seq<T>) {
    forall i, j :: 0 <= i < j < |s| ==> s[i] != s[j]
  }

  /** Removing from a list without duplicates removes every occurrence and
      keeps it free of duplicates. */
  lemma {:induction false} RemoveFirstNoDuplicates<T>(s: seq<T>, x: T)
    requires NoDuplicates(s)
    ensures x !in RemoveFirst(s, x)
    ensures NoDuplicates(RemoveFirst(s, x))
    decreases |s|
  {
    if s != [] && s[0] != x {
      assert NoDuplicates(s[1..]) by {
        forall i, j | 0 <= i < j < |s[1..]| ensures s[1..][i] != s[1..][j] {
          assert s[1..][i] == s[i + 1] && s[1..][j] == s[j + 1];
        }
      }
      RemoveFirstNoDuplicates(s[1..], x);
      var r := RemoveFirst(s, x);
      assert r == [s[0]] + RemoveFirst(s[1..], x);
      forall i, j | 0 <= i < j < |r| ensures r[i] != r[j] {
        if i == 0 {
          assert r[j] in RemoveFirst(s[1..], x);
          assert r[j] in s[1..];
          var k :| 0 <= k < |s[1..]| && s[1..][k] == r[j];
          assert s[k + 1] == r[j];
        } else {
          assert r[i] == RemoveFirst(s[1..], x)[i - 1];
          assert r[j] == RemoveFirst(s[1..], x)[j - 1];
        }
      }
    } else if s != [] {
      forall i, j | 0 <= i < j < |s[1..]| ensures s[1..][i] != s[1..][j] {
        assert s[1..][i] == s[i + 1] && s[1..][j] == s[j + 1];
      }
    }
  }

  class Employee {
    var name: string
    /** The department that lists this employee, or null. */
    var department: Department?

    /** `new Employee(name)`: no department yet. */
    constructor (name: string)
      ensures this.name == name && department == null
    {
      this.name := name;
      department := null;
    }

    /** `Employee.SetDepartment`, called by the department that adds it. */
    method SetDepartment(d: Department)
      modifies this
      ensures department == d && name == old(name)
    {
      department := d;
    }

    /** `Employee.ClearDepartment`, called by the department that removes it. */
    method ClearDepartment()
      modifies this
      ensures department == null && name == old(name)
    {
      department := null;
    }
  }

  class Department {
    const name: string
    /** `_employees`. */
    var employees: seq<Employee>

    /** `new Department(name)`: no employees yet. */
    constructor (name: string)
      ensures this.name == name && employees == []
    {
      this.name := name;
      employees := [];
    }

    /** `Department.AddEmployee(employee)`: null throws ArgumentNullException
        ("employee"); an employee already listed is left alone; otherwise it
        is first removed from the department it belongs to, then appended here
        and pointed at this department. The two sides stay consistent. */
    method AddEmployee(employee: Employee?, ghost depts: set<Department>, ghost emps: set<Employee>)
      returns (r: Outcome)
      requires Consistent(depts, emps) && this in depts
      requires employee != null ==> employee in emps
      modifies this, employee, if employee != null && employee.department != null then {employee.department} else {}
      ensures Consistent(depts, emps)
      ensures employee == null ==> r == Fail(ArgumentNull("employee")) && employees == old(employees)
      ensures employee != null ==> r == Pass && employee.department == this && employee in employees
      ensures employee != null ==> employee.name == old(employee.name)
      ensures employee != null && employee in old(employees) ==> employees == old(employees)
      ensures employee != null && employee !in old(employees) ==> employees == old(employees) + [employee]
      ensures employee != null && old(employee.department) != null && old(employee.department) != this ==>
                old(employee.department).employees
                  == RemoveFirst<Employee>(old(employee.department.employees), employee)
                && employee !in old(employee.department).employees
    {
      if employee == null {
        return Fail(ArgumentNull("employee"));
      }
      if employee in employees {
        return Pass;
      }
      if employee.department != null && employee.department != this {
        var previous := employee.department;
        var _ := previous.RemoveEmployee(employee, depts, emps);
      }
      ListedHasNoPointer(depts, emps, this, employee);
      employees := employees + [employee];
      employee.SetDepartment(this);
      return Pass;
    }

    /** `Department.RemoveEmployee(employee)`: null throws
        ArgumentNullException ("employee"); an employee not listed is left
        alone; otherwise it is removed and its department cleared. The two
        sides stay consistent. */
    method RemoveEmployee(employee: Employee?, ghost depts: set<Department>, ghost emps: set<Employee>)
      returns (r: Outcome)
      requires Consistent(depts, emps) && this in depts
      requires employee != null ==> employee in emps
      modifies this, employee
      ensures Consistent(depts, emps)
      ensures employee == null ==> r == Fail(ArgumentNull("employee")) && employees == old(employees)
      ensures employee != null ==> r == Pass && employee.name == old(employee.name)
      ensures employee != null && employee !in old(employees) ==>
                employees == old(employees) && employee.department == old(employee.department)
      ensures employee != null && employee in old(employees) ==>
                employees == RemoveFirst<Employee>(old(employees), employee) &&
                employee !in employees && employee.department == null
    {
      if employee == null {
        return Fail(ArgumentNull("employee"));
      }
      if employee !in employees {
        return Pass;
      }
      var listed: Employee := employee;
      RemoveFirstNoDuplicates(employees, listed);
      employees := RemoveFirst(employees, listed);
      employee.ClearDepartment();
      return Pass;
    }
  }

  /** The association holds over a set of departments and employees: each
      department lists each employee at most once, every listed employee
      points back to it, and every employee with a department is listed by
      it. */
  ghost predicate Consistent(depts: set<Department>, emps: set<Employee>)
    reads depts, emps
  {
    (forall d :: d in depts ==> NoDuplicates(d.employees)) &&
    (forall d, e :: d in depts && e in d.employees ==> e in emps && e.department == d) &&
    (forall e :: e in emps && e.department != null ==> e.department in depts && e in e.department.employees)
  }

  /** In a consistent world, an employee not listed by d does not point to d. */
  lemma ListedHasNoPointer(depts: set<Department>, emps: set<Employee>, d: Department, e: Employee)
    requires Consistent(depts, emps) && d in depts && e in emps
    requires e !in d.employees
    ensures e.department != d
  {
  }

  /** DepartmentEmployeeSpecs.ReassigningEmployee_RemovesFromPreviousDepartment:
      adding an employee of d1 to d2 moves it, and d1 no longer lists it. */
  method ReassignScenario() returns (d1: Department, d2: Department, e: Employee)
    ensures e.department == d2 && e in d2.employees && e !in d1.employees
  {
    d1 := new Department("Sales");
    d2 := new Department("Marketing");
    e := new Employee("Carol");
    ghost var depts := {d1, d2};
    ghost var emps := {e};
    var r := d1.AddEmployee(e, depts, emps);
    assert e.department == d1 && e in d1.employees;
    r := d2.AddEmployee(e, depts, emps);
  }

  /** DepartmentEmployeeSpecs.RemovingEmployee_FromDepartment_ClearsEmployeeDepartment. */
  method RemoveScenario() returns (d: Department, e: Employee)
    ensures e.department == null && e !in d.employees
  {
    d := new Department("IT");
    e := new Employee("Dave");
    var r := d.AddEmployee(e, {d}, {e});
    r := d.RemoveEmployee(e, {d}, {e});
  }
}
