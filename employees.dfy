/**
 * DesignPatterns/Composite/Main.java: employees with a Java-int salary.
 * Directors and heads of department (Hod) also keep a list of subordinates;
 * Doo and Teacher keep none. A bonus raises only the receiver's own salary.
 */
module Employees {
  import opened JavaLang

  datatype Role =
    | Director
    | Hod(dept: string)
    | Doo(dept: string)
    | Teacher(qualification: string, isAvailable: Option<bool>)
  {
    /** Only Director and Hod manage subordinates. */
    predicate Manages()
    {
      Director? || Hod?
    }
  }

  class Employee {
    const role: Role
    const name: string
    var salary: int32
    /** The subordinate list of a Director or Hod; null for the other roles. */
    const subordinates: JList?<Employee>

    constructor (role: Role, name: string, salary: int32)
      ensures this.role == role && this.name == name && this.salary == salary
      ensures role.Manages() <==> subordinates != null
      ensures subordinates != null ==> fresh(subordinates) && subordinates.elems == []
    {
      this.role := role;
      this.name := name;
      this.salary := salary;
      if role.Manages() {
        subordinates := new JList();
      } else {
        subordinates := null;
      }
    }

    /** giveBonus: salary += bonus, wrapping around as Java int addition does. */
    method GiveBonus(bonus: int32)
      modifies this
      ensures salary == Wrap32(old(salary) + bonus)
    {
      salary := Wrap32(salary + bonus);
    }

    /** add: append a subordinate, duplicates included. */
    method Add(e: Employee)
      requires subordinates != null
      modifies subordinates
      ensures subordinates.elems == old(subordinates.elems) + [e]
    {
      subordinates.Add(e);
    }

    /** remove: drop the first equal subordinate; an absent one changes nothing. */
    method Remove(e: Employee)
      requires subordinates != null
      modifies subordinates
      ensures subordinates.elems == RemoveFirst(old(subordinates.elems), e)
    {
      var _ := subordinates.Remove(e);
    }

    /** getSubordinates hands out the live list itself. */
    method GetSubordinates() returns (list: JList<Employee>)
      requires subordinates != null
      ensures list == subordinates
    {
      list := subordinates;
    }
  }

  /**
   * Two bonuses in a row leave the same salary as their exact sum paid at
   * once, wrap-around included; within the int range the salary rises by
   * exactly that sum.
   */
  lemma BonusesAccumulate(salary: int32, a: int32, b: int32)
    ensures Wrap32(Wrap32(salary + a) + b) == Wrap32(salary + a + b)
    ensures INT_MIN <= salary + a + b <= INT_MAX ==> Wrap32(salary + a + b) == salary + a + b
  {
    Wrap32Sum(salary + a, b);
  }

  /**
   * A bonus paid to a director changes only the director's salary: its
   * subordinates' salaries and its subordinate list stay as they were.
   */
  method DirectorBonusStaysLocal(director: Employee, bonus: int32)
    requires director.subordinates != null
    modifies director
    ensures director.salary == Wrap32(old(director.salary) + bonus)
    ensures director.subordinates.elems == old(director.subordinates.elems)
    ensures forall e :: e in director.subordinates.elems && e != director ==> e.salary == old(e.salary)
  {
    director.GiveBonus(bonus);
  }
}
