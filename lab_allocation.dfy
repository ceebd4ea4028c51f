/**
 * Lab allocation (Midterm_Exam): students with an odd registration number get
 * a Linux computer, students with an even one a Windows computer. Each
 * strategy appends one text line per student it handles to its own
 * `allocatedDetails` list, and hands out cursors over that live list.
 *
 * The computer registry is a HashMap<Integer, Computer> that the strategies
 * only iterate, through values(); it is modelled as the sequence of its values
 * in iteration order.
 */
module LabAllocation {
  import opened JavaLang

  datatype Student = Student(regNo: int32, name: string, discipline: string, semester: int32)

  datatype Computer = Computer(computerNo: int32, os: string, tools: string)

  /**
   * The strategy's test on a registration number: `regNo % 2 != 0` with Java's
   * remainder for the odd strategy, `regNo % 2 == 0` for the even one.
   */
  predicate Handles(wantOdd: bool, s: Student)
  {
    (JavaRem(s.regNo, 2) != 0) == wantOdd
  }

  /** The operating system each strategy looks for. */
  function OsFor(wantOdd: bool): string
  {
    if wantOdd then "Linux" else "Windows"
  }

  /** The message of the IllegalStateException thrown when no such computer exists. */
  function NoComputerMessage(wantOdd: bool): string
  {
    if wantOdd then "No Linux computers available" else "No Windows computers available"
  }

  /** One line of `allocatedDetails`. */
  function Entry(wantOdd: bool, s: Student, c: Computer): string
  {
    s.name + " allocated " + OsFor(wantOdd) + " computer " + IntToString(c.computerNo)
  }

  /** Index of the first computer (in iteration order) whose OS equals `os` ignoring case. */
  function FirstWithOs(computers: seq<Computer>, os: string): (r: Option<nat>)
    ensures r.Some? ==> r.value < |computers|
  {
    if computers == [] then None
    else if EqualsIgnoreCase(computers[0].os, os) then Some(0)
    else match FirstWithOs(computers[1..], os)
      case None => None
      case Some(i) => Some(i + 1)
  }

  /** The students a strategy handles, in list order. */
  function Selected(wantOdd: bool, students: seq<Student>): seq<Student>
  {
    if students == [] then []
    else
      var last := students[|students| - 1];
      Selected(wantOdd, students[..|students| - 1]) + (if Handles(wantOdd, last) then [last] else [])
  }

  /** The lines appended for `selected`, all naming the same computer `c`. */
  function Entries(wantOdd: bool, selected: seq<Student>, c: Computer): seq<string>
  {
    if selected == [] then []
    else Entries(wantOdd, selected[..|selected| - 1], c) + [Entry(wantOdd, selected[|selected| - 1], c)]
  }

  /**
   * What one call of allocateComputers does: the lines it appends, or the
   * exception it throws. The search does not depend on the student, so the
   * first handled student throws before any line is appended, and with no
   * handled student the search never runs.
   */
  function Allocation(wantOdd: bool, students: seq<Student>, computers: seq<Computer>): Result<seq<string>>
  {
    var selected := Selected(wantOdd, students);
    if selected == [] then Ok([])
    else match FirstWithOs(computers, OsFor(wantOdd))
      case None => Throws(IllegalState(NoComputerMessage(wantOdd)))
      case Some(i) => Ok(Entries(wantOdd, selected, computers[i]))
  }

  // ---------------------------------------------------------------------------
  // Properties of the specification

  /**
   * FirstWithOs finds a computer with the OS and none before it has the OS,
   * or reports that no computer has it.
   */
  lemma {:induction false} FirstWithOsSpec(computers: seq<Computer>, os: string)
    ensures var r := FirstWithOs(computers, os);
      r.Some? ==>
        EqualsIgnoreCase(computers[r.value].os, os) &&
        forall j :: 0 <= j < r.value ==> !EqualsIgnoreCase(computers[j].os, os)
    ensures FirstWithOs(computers, os).None? <==> forall j :: 0 <= j < |computers| ==> !EqualsIgnoreCase(computers[j].os, os)
  {
    if computers != [] && !EqualsIgnoreCase(computers[0].os, os) {
      FirstWithOsSpec(computers[1..], os);
      assert forall j :: 1 <= j < |computers| ==> computers[j] == computers[1..][j - 1];
    }
  }

  /** The first match is unique: an index that matches with no match before it is the one FirstWithOs finds. */
  lemma {:induction false} FirstWithOsAt(computers: seq<Computer>, os: string, i: nat)
    requires i < |computers| && EqualsIgnoreCase(computers[i].os, os)
    requires forall j :: 0 <= j < i ==> !EqualsIgnoreCase(computers[j].os, os)
    ensures FirstWithOs(computers, os) == Some(i)
  {
    if i > 0 {
      assert !EqualsIgnoreCase(computers[0].os, os);
      assert forall j :: 0 <= j < i - 1 ==> computers[1..][j] == computers[j + 1];
      FirstWithOsAt(computers[1..], os, i - 1);
    }
  }

  /** Selected keeps exactly the handled students, in their order. */
  lemma {:induction false} SelectedSpec(wantOdd: bool, students: seq<Student>)
    ensures forall x :: x in Selected(wantOdd, students) <==> x in students && Handles(wantOdd, x)
    ensures multiset(Selected(wantOdd, students)) <= multiset(students)
  {
    if students != [] {
      var init := students[..|students| - 1];
      SelectedSpec(wantOdd, init);
      assert students == init + [students[|students| - 1]];
    }
  }

  /** The odd and the even strategy split the student list between them: each student goes to exactly one. */
  lemma {:induction false} OddEvenPartition(students: seq<Student>)
    ensures multiset(Selected(true, students)) + multiset(Selected(false, students)) == multiset(students)
    ensures |Selected(true, students)| + |Selected(false, students)| == |students|
  {
    if students != [] {
      var init, last := students[..|students| - 1], students[|students| - 1];
      OddEvenPartition(init);
      assert students == init + [last];
      assert multiset(students) == multiset(init) + multiset{last};
      if Handles(true, last) {
        assert Selected(true, students) == Selected(true, init) + [last];
        assert Selected(false, students) == Selected(false, init) + [];
      } else {
        assert Selected(true, students) == Selected(true, init) + [];
        assert Selected(false, students) == Selected(false, init) + [last];
      }
    }
  }

  /** The odd strategy's test is oddness, negative registration numbers included. */
  lemma HandlesOdd(s: Student)
    ensures Handles(true, s) <==> s.regNo % 2 == 1
    ensures Handles(false, s) <==> s.regNo % 2 == 0
  {
    JavaRemTwo(s.regNo);
  }

  /** No handled student exists exactly when Selected is empty. */
  lemma {:induction false} SelectedEmpty(wantOdd: bool, students: seq<Student>)
    ensures Selected(wantOdd, students) == [] <==> forall k :: 0 <= k < |students| ==> !Handles(wantOdd, students[k])
  {
    if students != [] {
      var init := students[..|students| - 1];
      SelectedEmpty(wantOdd, init);
      assert forall k :: 0 <= k < |init| ==> init[k] == students[k];
    }
  }

  /** Line k of Entries names the k-th selected student and the one computer. */
  lemma {:induction false} EntriesAt(wantOdd: bool, selected: seq<Student>, c: Computer)
    ensures |Entries(wantOdd, selected, c)| == |selected|
    ensures forall k :: 0 <= k < |selected| ==> Entries(wantOdd, selected, c)[k] == Entry(wantOdd, selected[k], c)
  {
    if selected != [] {
      EntriesAt(wantOdd, selected[..|selected| - 1], c);
    }
  }

  /**
   * allocateComputers throws exactly when some student is handled and no
   * computer has the wanted OS; otherwise it appends one line per handled
   * student, in input order, and every line names the first computer found.
   */
  lemma AllocationSpec(wantOdd: bool, students: seq<Student>, computers: seq<Computer>)
    ensures Allocation(wantOdd, students, computers).Throws? <==>
      (exists k :: 0 <= k < |students| && Handles(wantOdd, students[k])) &&
      (forall j :: 0 <= j < |computers| ==> !EqualsIgnoreCase(computers[j].os, OsFor(wantOdd)))
    ensures Allocation(wantOdd, students, computers).Throws? ==>
      Allocation(wantOdd, students, computers).error == IllegalState(NoComputerMessage(wantOdd))
    ensures Allocation(wantOdd, students, computers).Ok? ==>
      var lines := Allocation(wantOdd, students, computers).value;
      var selected := Selected(wantOdd, students);
      |lines| == |selected| &&
      (selected != [] ==>
        exists c :: c in computers && EqualsIgnoreCase(c.os, OsFor(wantOdd)) &&
          forall k :: 0 <= k < |lines| ==> lines[k] == Entry(wantOdd, selected[k], c))
  {
    SelectedEmpty(wantOdd, students);
    var selected := Selected(wantOdd, students);
    FirstWithOsSpec(computers, OsFor(wantOdd));
    if selected != [] {
      match FirstWithOs(computers, OsFor(wantOdd)) {
        case None =>
        case Some(i) =>
          EntriesAt(wantOdd, selected, computers[i]);
          assert computers[i] in computers;
      }
    }
  }

  // ---------------------------------------------------------------------------
  // The strategies and the cursor

  /**
   * findLinuxComputer / findWindowsComputer: the loop over computers.values()
   * that returns the first computer with the wanted OS, or throws.
   */
  method FindComputer(wantOdd: bool, computers: seq<Computer>) returns (r: Result<Computer>)
    ensures r == match FirstWithOs(computers, OsFor(wantOdd))
      case None => Throws(IllegalState(NoComputerMessage(wantOdd)))
      case Some(i) => Ok(computers[i])
  {
    var i := 0;
    while i < |computers|
      invariant 0 <= i <= |computers|
      invariant forall j :: 0 <= j < i ==> !EqualsIgnoreCase(computers[j].os, OsFor(wantOdd))
    {
      if EqualsIgnoreCase(computers[i].os, OsFor(wantOdd)) {
        FirstWithOsAt(computers, OsFor(wantOdd), i);
        return Ok(computers[i]);
      }
      i := i + 1;
    }
    FirstWithOsSpec(computers, OsFor(wantOdd));
    return Throws(IllegalState(NoComputerMessage(wantOdd)));
  }

  /**
   * The loop of allocateComputers, shared by both strategies: for each handled
   * student, look the computer up again and append one line.
   */
  method AllocateInto(details: JList<string>, wantOdd: bool, students: seq<Student>, computers: seq<Computer>)
    returns (thrown: Option<Exception>)
    modifies details
    ensures Allocation(wantOdd, students, computers).Ok? ==>
      thrown == None && details.elems == old(details.elems) + Allocation(wantOdd, students, computers).value
    ensures Allocation(wantOdd, students, computers).Throws? ==>
      thrown == Some(Allocation(wantOdd, students, computers).error) && details.elems == old(details.elems)
  {
    ghost var lines: seq<string> := [];
    var i := 0;
    while i < |students|
      invariant 0 <= i <= |students|
      invariant Allocation(wantOdd, students[..i], computers) == Ok(lines)
      invariant details.elems == old(details.elems) + lines
    {
      AllocationStep(wantOdd, students, i, computers, lines);
      var t := AllocateStudent(details, wantOdd, students[i], computers);
      if t.Some? {
        return t;
      }
      lines := lines + StudentStep(wantOdd, students[i], computers).value;
      i := i + 1;
    }
    assert students[..i] == students;
    return None;
  }

  /** What handling one student does: nothing, one line naming the first matching computer, or the exception. */
  function StudentStep(wantOdd: bool, s: Student, computers: seq<Computer>): Result<seq<string>>
  {
    if !Handles(wantOdd, s) then Ok([])
    else match FirstWithOs(computers, OsFor(wantOdd))
      case None => Throws(IllegalState(NoComputerMessage(wantOdd)))
      case Some(k) => Ok([Entry(wantOdd, s, computers[k])])
  }

  /** The body of the loop for one student: look the computer up and append a line, or throw. */
  method AllocateStudent(details: JList<string>, wantOdd: bool, s: Student, computers: seq<Computer>)
    returns (thrown: Option<Exception>)
    modifies details
    ensures StudentStep(wantOdd, s, computers).Ok? ==>
      thrown == None && details.elems == old(details.elems) + StudentStep(wantOdd, s, computers).value
    ensures StudentStep(wantOdd, s, computers).Throws? ==>
      thrown == Some(StudentStep(wantOdd, s, computers).error) && details.elems == old(details.elems)
  {
    thrown := None;
    if Handles(wantOdd, s) {
      var found := FindComputer(wantOdd, computers);
      if found.Throws? {
        return Some(found.error);
      }
      details.Add(Entry(wantOdd, s, found.value));
    }
  }

  /**
   * One more student extends the allocation of a prefix by that student's
   * step; a student whose step throws makes the whole list throw the same
   * exception, and can only come before any line was appended.
   */
  lemma AllocationStep(wantOdd: bool, students: seq<Student>, i: nat, computers: seq<Computer>, lines: seq<string>)
    requires i < |students|
    requires Allocation(wantOdd, students[..i], computers) == Ok(lines)
    ensures StudentStep(wantOdd, students[i], computers).Ok? ==>
      Allocation(wantOdd, students[..i + 1], computers) == Ok(lines + StudentStep(wantOdd, students[i], computers).value)
    ensures StudentStep(wantOdd, students[i], computers).Throws? ==>
      lines == [] && Allocation(wantOdd, students, computers) == StudentStep(wantOdd, students[i], computers)
  {
    SelectedStep(wantOdd, students, i);
    var sel := Selected(wantOdd, students[..i]);
    if !Handles(wantOdd, students[i]) {
      assert sel + [] == sel && lines + [] == lines;
    } else {
      match FirstWithOs(computers, OsFor(wantOdd))
      case None =>
        SelectedPrefix(wantOdd, students, i + 1);
      case Some(k) =>
        EntriesSnoc(wantOdd, sel, students[i], computers[k]);
        assert lines == Entries(wantOdd, sel, computers[k]);
    }
  }

  /** Taking one more student extends Selected by that student when it is handled. */
  lemma SelectedStep(wantOdd: bool, students: seq<Student>, i: nat)
    requires i < |students|
    ensures Selected(wantOdd, students[..i + 1])
      == Selected(wantOdd, students[..i]) + (if Handles(wantOdd, students[i]) then [students[i]] else [])
  {
    assert students[..i + 1][..i] == students[..i];
  }

  /** A handled student in a prefix makes Selected of the whole list non-empty. */
  lemma SelectedPrefix(wantOdd: bool, students: seq<Student>, n: nat)
    requires n <= |students| && Selected(wantOdd, students[..n]) != []
    ensures Selected(wantOdd, students) != []
  {
    SelectedEmpty(wantOdd, students[..n]);
    SelectedEmpty(wantOdd, students);
  }

  lemma EntriesSnoc(wantOdd: bool, selected: seq<Student>, x: Student, c: Computer)
    ensures Entries(wantOdd, selected + [x], c) == Entries(wantOdd, selected, c) + [Entry(wantOdd, x, c)]
  {
    assert (selected + [x])[..|selected|] == selected;
  }

  class OddRegAllocationStrategy {
    const allocatedDetails: JList<string>

    constructor ()
      ensures fresh(allocatedDetails) && allocatedDetails.elems == []
    {
      allocatedDetails := new JList();
    }

    /** findLinuxComputer: the first Linux computer, or IllegalStateException. */
    method FindLinuxComputer(computers: seq<Computer>) returns (r: Result<Computer>)
      ensures r.Ok? <==> exists j :: 0 <= j < |computers| && EqualsIgnoreCase(computers[j].os, "Linux")
      ensures r.Ok? ==> r.value in computers && EqualsIgnoreCase(r.value.os, "Linux")
      ensures r.Ok? ==> FirstWithOs(computers, "Linux").Some? && r.value == computers[FirstWithOs(computers, "Linux").value]
      ensures r.Throws? ==> r.error == IllegalState("No Linux computers available")
    {
      r := FindComputer(true, computers);
      FirstWithOsSpec(computers, "Linux");
      if r.Ok? {
        assert computers[FirstWithOs(computers, "Linux").value] in computers;
      }
    }

    /** allocateComputers: appends one line per odd-numbered student; the list is never cleared. */
    method AllocateComputers(students: seq<Student>, computers: seq<Computer>) returns (thrown: Option<Exception>)
      modifies allocatedDetails
      ensures Allocation(true, students, computers).Ok? ==>
        thrown == None && allocatedDetails.elems == old(allocatedDetails.elems) + Allocation(true, students, computers).value
      ensures Allocation(true, students, computers).Throws? ==>
        thrown == Some(IllegalState("No Linux computers available")) && allocatedDetails.elems == old(allocatedDetails.elems)
    {
      thrown := AllocateInto(allocatedDetails, true, students, computers);
    }

    /** createIterator: a new cursor at position 0 over the live list. */
    method CreateIterator() returns (it: ListDetailsIterator)
      ensures fresh(it) && it.details == allocatedDetails && it.position == 0
    {
      it := new ListDetailsIterator(allocatedDetails);
    }
  }

  class EvenRegAllocationStrategy {
    const allocatedDetails: JList<string>

    constructor ()
      ensures fresh(allocatedDetails) && allocatedDetails.elems == []
    {
      allocatedDetails := new JList();
    }

    /** findWindowsComputer: the first Windows computer, or IllegalStateException. */
    method FindWindowsComputer(computers: seq<Computer>) returns (r: Result<Computer>)
      ensures r.Ok? <==> exists j :: 0 <= j < |computers| && EqualsIgnoreCase(computers[j].os, "Windows")
      ensures r.Ok? ==> r.value in computers && EqualsIgnoreCase(r.value.os, "Windows")
      ensures r.Ok? ==> FirstWithOs(computers, "Windows").Some? && r.value == computers[FirstWithOs(computers, "Windows").value]
      ensures r.Throws? ==> r.error == IllegalState("No Windows computers available")
    {
      r := FindComputer(false, computers);
      FirstWithOsSpec(computers, "Windows");
      if r.Ok? {
        assert computers[FirstWithOs(computers, "Windows").value] in computers;
      }
    }

    /** allocateComputers: appends one line per even-numbered student; the list is never cleared. */
    method AllocateComputers(students: seq<Student>, computers: seq<Computer>) returns (thrown: Option<Exception>)
      modifies allocatedDetails
      ensures Allocation(false, students, computers).Ok? ==>
        thrown == None && allocatedDetails.elems == old(allocatedDetails.elems) + Allocation(false, students, computers).value
      ensures Allocation(false, students, computers).Throws? ==>
        thrown == Some(IllegalState("No Windows computers available")) && allocatedDetails.elems == old(allocatedDetails.elems)
    {
      thrown := AllocateInto(allocatedDetails, false, students, computers);
    }

    /** createIterator: a new cursor at position 0 over the live list. */
    method CreateIterator() returns (it: ListDetailsIterator)
      ensures fresh(it) && it.details == allocatedDetails && it.position == 0
    {
      it := new ListDetailsIterator(allocatedDetails);
    }
  }

  /** A cursor over a list it shares with its strategy; it never changes the list. */
  class ListDetailsIterator {
    const details: JList<string>
    var position: nat

    constructor (details: JList<string>)
      ensures this.details == details && position == 0
    {
      this.details := details;
      position := 0;
    }

    method HasNext() returns (b: bool)
      ensures b <==> position < |details.elems|
    {
      b := position < |details.elems|;
    }

    /** next: the element at the cursor, then one step on; NoSuchElementException when exhausted. */
    method Next() returns (r: Result<string>)
      modifies this
      ensures old(position) < |details.elems| ==>
        r == Ok(details.elems[old(position)]) && position == old(position) + 1
      ensures old(position) >= |details.elems| ==>
        r == Throws(NoSuchElement) && position == old(position)
    {
      var more := HasNext();
      if !more {
        return Throws(NoSuchElement);
      }
      r := Ok(details.elems[position]);
      position := position + 1;
    }
  }

  /**
   * printDetails: drains a cursor. The lines produced are exactly the rest of
   * the list from the cursor, in order, and the cursor ends at the end.
   */
  method PrintDetails(it: ListDetailsIterator) returns (printed: seq<string>)
    requires it.position <= |it.details.elems|
    modifies it
    ensures printed == it.details.elems[old(it.position)..]
    ensures it.position == |it.details.elems|
  {
    printed := [];
    var more := it.HasNext();
    while more
      invariant old(it.position) <= it.position <= |it.details.elems|
      invariant printed == it.details.elems[old(it.position)..it.position]
      invariant more <==> it.position < |it.details.elems|
      decreases |it.details.elems| - it.position
    {
      var line := it.Next();
      printed := printed + [line.value];
      more := it.HasNext();
    }
  }

  // ---------------------------------------------------------------------------
  // The demonstration in Main

  function DemoStudents(): seq<Student>
  {
    [Student(1, "Alice", "Computer Science", 2), Student(2, "Bob", "Electrical Engineering", 3),
     Student(3, "Charlie", "Mechanical Engineering", 1), Student(4, "Diana", "Physics", 2)]
  }

  /** computers.values() of the demo map, keys 1 to 4 in HashMap order. */
  function DemoComputers(): seq<Computer>
  {
    [Computer(1, "Linux", "Programming Tools"), Computer(2, "Windows", "Office Suite"),
     Computer(3, "Linux", "Engineering Software"), Computer(4, "Windows", "Data Analysis Tools")]
  }

  /** Both odd students, Alice and Charlie, get computer 1, in that order. */
  lemma DemoOddAllocation()
    ensures Allocation(true, DemoStudents(), DemoComputers())
      == Ok([Entry(true, DemoStudents()[0], DemoComputers()[0]), Entry(true, DemoStudents()[2], DemoComputers()[0])])
  {
    var s := DemoStudents();
    DemoParity();
    DemoSelected(true);
    var cs := DemoComputers();
    FirstWithOsAt(cs, "Linux", 0);
    EntriesSnoc(true, [], s[0], cs[0]);
    EntriesSnoc(true, [s[0]], s[2], cs[0]);
    assert [s[0]] + [s[2]] == [s[0], s[2]];
    assert Entries(true, [s[0], s[2]], cs[0]) == [Entry(true, s[0], cs[0]), Entry(true, s[2], cs[0])];
  }

  /** Both even students, Bob and Diana, get computer 2, in that order. */
  lemma DemoEvenAllocation()
    ensures Allocation(false, DemoStudents(), DemoComputers())
      == Ok([Entry(false, DemoStudents()[1], DemoComputers()[1]), Entry(false, DemoStudents()[3], DemoComputers()[1])])
  {
    var s := DemoStudents();
    DemoParity();
    DemoSelected(false);
    var cs := DemoComputers();
    assert !EqualsIgnoreCase(cs[0].os, "Windows");
    FirstWithOsAt(cs, "Windows", 1);
    EntriesSnoc(false, [], s[1], cs[1]);
    EntriesSnoc(false, [s[1]], s[3], cs[1]);
    assert [s[1]] + [s[3]] == [s[1], s[3]];
    assert Entries(false, [s[1], s[3]], cs[1]) == [Entry(false, s[1], cs[1]), Entry(false, s[3], cs[1])];
  }

  lemma DemoParity()
    ensures Handles(true, DemoStudents()[0]) && Handles(false, DemoStudents()[1])
    ensures Handles(true, DemoStudents()[2]) && Handles(false, DemoStudents()[3])
  {
    assert JavaDiv(1, 2) == 0 && JavaDiv(2, 2) == 1 && JavaDiv(3, 2) == 1 && JavaDiv(4, 2) == 2;
  }

  lemma DemoSelected(wantOdd: bool)
    requires Handles(true, DemoStudents()[0]) && Handles(false, DemoStudents()[1])
    requires Handles(true, DemoStudents()[2]) && Handles(false, DemoStudents()[3])
    ensures Selected(wantOdd, DemoStudents())
      == if wantOdd then [DemoStudents()[0], DemoStudents()[2]] else [DemoStudents()[1], DemoStudents()[3]]
  {
    var s := DemoStudents();
    assert s[..0] == [] && s[..4] == s;
    var first, second := if wantOdd then s[0] else s[1], if wantOdd then s[2] else s[3];
    SelectedStep(wantOdd, s, 0);
    SelectedStep(wantOdd, s, 1);
    assert Selected(wantOdd, s[..2]) == [first];
    SelectedStep(wantOdd, s, 2);
    SelectedStep(wantOdd, s, 3);
    assert Selected(wantOdd, s[..4]) == [first] + [second];
  }
}
