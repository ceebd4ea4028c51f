/**
 * The university admission pipeline (FinalExam/UniversityAdmissionSystem.java):
 * a lazily created admission system that notifies its observers in order, a
 * strategy that sets a student's department, a facade, departments with a
 * cursor over their live student list, and a short-circuit chain of
 * eligibility handlers built on String predicates.
 *
 * Java's null for a String field or a reference is None / a nullable class
 * reference; a dereference of null is a thrown NullPointerException.
 */
module Admission {
  import opened JavaLang

  // ---------------------------------------------------------------------------
  // Strategies and students

  datatype AdmissionStrategy = ComputerScienceAdmission | MathematicsAdmission

  /** The department each strategy writes into the student. */
  function DepartmentOf(strategy: AdmissionStrategy): string
  {
    match strategy
    case ComputerScienceAdmission => "Computer Science"
    case MathematicsAdmission => "Mathematics"
  }

  /** String concatenation prints a null String as "null". */
  function Show(s: Option<string>): string
  {
    if s.Some? then s.value else "null"
  }

  class Student {
    const name: string
    const admissionStrategy: Option<AdmissionStrategy>
    var registrationDetails: Option<string>
    var selectedDepartment: Option<string>
    var currentDepartment: Option<string>
    var currentMarks: Option<string>

    constructor (name: string, admissionStrategy: Option<AdmissionStrategy>)
      ensures this.name == name && this.admissionStrategy == admissionStrategy
      ensures registrationDetails == None && selectedDepartment == None
      ensures currentDepartment == None && currentMarks == None
    {
      this.name := name;
      this.admissionStrategy := admissionStrategy;
      registrationDetails := None;
      selectedDepartment := None;
      currentDepartment := None;
      currentMarks := None;
    }

    method SetRegistrationDetails(details: Option<string>)
      modifies this
      ensures registrationDetails == details
      ensures selectedDepartment == old(selectedDepartment) && currentDepartment == old(currentDepartment)
      ensures currentMarks == old(currentMarks)
    {
      registrationDetails := details;
    }

    method SelectDepartment(department: Option<string>)
      modifies this
      ensures selectedDepartment == department
      ensures registrationDetails == old(registrationDetails) && currentDepartment == old(currentDepartment)
      ensures currentMarks == old(currentMarks)
    {
      selectedDepartment := department;
    }

    method SetCurrentDepartment(department: Option<string>)
      modifies this
      ensures currentDepartment == department
      ensures registrationDetails == old(registrationDetails) && selectedDepartment == old(selectedDepartment)
      ensures currentMarks == old(currentMarks)
    {
      currentDepartment := department;
    }

    method SetCurrentMarks(marks: Option<string>)
      modifies this
      ensures currentMarks == marks
      ensures registrationDetails == old(registrationDetails) && selectedDepartment == old(selectedDepartment)
      ensures currentDepartment == old(currentDepartment)
    {
      currentMarks := marks;
    }

    /** getDetails: the four lines an observer prints. */
    function Details(): string
      reads this
    {
      "Name: " + name + "\nSelected Department: " + Show(selectedDepartment)
        + "\nCurrent Department: " + Show(currentDepartment) + "\nCurrent Marks: " + Show(currentMarks)
    }

    /**
     * applyForAdmission: the strategy sets the current department first, then
     * the admission system notifies its observers. A null strategy throws
     * before anything changes; a null system throws after the department is set.
     */
    method ApplyForAdmission(system: AdmissionSystem?) returns (r: Result<seq<Update>>)
      modifies this
      ensures registrationDetails == old(registrationDetails) && selectedDepartment == old(selectedDepartment)
      ensures currentMarks == old(currentMarks)
      ensures admissionStrategy.None? ==> r == Throws(NullPointer) && currentDepartment == old(currentDepartment)
      ensures admissionStrategy.Some? ==> currentDepartment == Some(DepartmentOf(admissionStrategy.value))
      ensures admissionStrategy.Some? && system == null ==> r == Throws(NullPointer)
      ensures admissionStrategy.Some? && system != null ==>
        r.Ok? && Delivered(r.value, system.observers, name, Details())
    {
      if admissionStrategy.None? {
        return Throws(NullPointer);
      }
      ApplyStrategy(admissionStrategy.value, this);
      if system == null {
        return Throws(NullPointer);
      }
      var updates := system.NotifyObservers(this);
      r := Ok(updates);
    }
  }

  /** ComputerScienceAdmissionStrategy / MathematicsAdmissionStrategy .applyForAdmission. */
  method ApplyStrategy(strategy: AdmissionStrategy, student: Student)
    modifies student
    ensures student.currentDepartment == Some(DepartmentOf(strategy))
    ensures student.registrationDetails == old(student.registrationDetails)
    ensures student.selectedDepartment == old(student.selectedDepartment)
    ensures student.currentMarks == old(student.currentMarks)
  {
    student.SetCurrentDepartment(Some(DepartmentOf(strategy)));
  }

  /** ComputerScienceStudentPrototype.clone: a new student with no details. */
  method CloneComputerScienceStudent() returns (s: Student)
    ensures fresh(s) && s.name == "CS Clone" && s.admissionStrategy == Some(ComputerScienceAdmission)
    ensures s.registrationDetails == None && s.currentMarks == None
    ensures s.selectedDepartment == None && s.currentDepartment == None
  {
    s := new Student("CS Clone", Some(ComputerScienceAdmission));
  }

  /** MathematicsStudentPrototype.clone: a new student with no details. */
  method CloneMathematicsStudent() returns (s: Student)
    ensures fresh(s) && s.name == "Math Clone" && s.admissionStrategy == Some(MathematicsAdmission)
    ensures s.registrationDetails == None && s.currentMarks == None
    ensures s.selectedDepartment == None && s.currentDepartment == None
  {
    s := new Student("Math Clone", Some(MathematicsAdmission));
  }

  // ---------------------------------------------------------------------------
  // The admission system: singleton and observers

  /** The two concrete observers; each prints the student's name and details. */
  datatype Observer = Parent | Teacher

  /** What one observer's update call received. */
  datatype Update = Update(observer: Observer, name: string, details: string)

  /** Every observer in `observers` got exactly one update, in order, carrying `name` and `details`. */
  predicate Delivered(updates: seq<Update>, observers: seq<Observer>, name: string, details: string)
  {
    |updates| == |observers| &&
    forall i :: 0 <= i < |updates| ==> updates[i] == Update(observers[i], name, details)
  }

  class AdmissionSystem {
    var observers: seq<Observer>

    constructor ()
      ensures observers == []
    {
      observers := [];
    }

    /** addObserver appends; the same observer may be added twice. */
    method AddObserver(observer: Observer)
      modifies this
      ensures observers == old(observers) + [observer]
    {
      observers := observers + [observer];
    }

    /** notifyObservers: one update per registered observer, in registration order. */
    method NotifyObservers(student: Student) returns (updates: seq<Update>)
      ensures Delivered(updates, observers, student.name, student.Details())
    {
      updates := [];
      var i := 0;
      while i < |observers|
        invariant 0 <= i <= |observers|
        invariant Delivered(updates, observers[..i], student.name, student.Details())
      {
        updates := updates + [Update(observers[i], student.name, student.Details())];
        i := i + 1;
      }
      assert observers[..i] == observers;
    }
  }

  /** The static `instance` field of AdmissionSystem. */
  class AdmissionSystemInstance {
    var instance: AdmissionSystem?

    constructor ()
      ensures instance == null
    {
      instance := null;
    }

    /** getInstance: creates the system on the first call and returns that same object ever after. */
    method GetInstance() returns (system: AdmissionSystem)
      modifies this
      ensures old(instance) != null ==> system == old(instance)
      ensures old(instance) == null ==> fresh(system) && system.observers == []
      ensures instance == system
    {
      if instance == null {
        instance := new AdmissionSystem();
      }
      system := instance;
    }
  }

  /** Two calls of getInstance, with anything in between that does not reset it, give the same object. */
  method GetInstanceTwice(holder: AdmissionSystemInstance) returns (first: AdmissionSystem, second: AdmissionSystem)
    modifies holder
    ensures first == second
  {
    first := holder.GetInstance();
    second := holder.GetInstance();
  }

  /** AdmissionFacade.performAdmission forwards to the student. */
  class AdmissionFacade {
    const admissionSystem: AdmissionSystem?

    constructor (admissionSystem: AdmissionSystem?)
      ensures this.admissionSystem == admissionSystem
    {
      this.admissionSystem := admissionSystem;
    }

    method PerformAdmission(student: Student) returns (r: Result<seq<Update>>)
      modifies student
      ensures student.registrationDetails == old(student.registrationDetails)
      ensures student.selectedDepartment == old(student.selectedDepartment)
      ensures student.currentMarks == old(student.currentMarks)
      ensures student.admissionStrategy.None? ==>
        r == Throws(NullPointer) && student.currentDepartment == old(student.currentDepartment)
      ensures student.admissionStrategy.Some? ==>
        student.currentDepartment == Some(DepartmentOf(student.admissionStrategy.value))
      ensures student.admissionStrategy.Some? && admissionSystem == null ==> r == Throws(NullPointer)
      ensures student.admissionStrategy.Some? && admissionSystem != null ==>
        r.Ok? && Delivered(r.value, admissionSystem.observers, student.name, student.Details())
    {
      r := student.ApplyForAdmission(admissionSystem);
    }
  }

  // ---------------------------------------------------------------------------
  // Departments and their cursor

  class Department {
    const name: string
    const students: JList<Student>

    constructor (name: string)
      ensures this.name == name && fresh(students) && students.elems == []
    {
      this.name := name;
      students := new JList();
    }

    /** addStudent appends; a student may belong to several departments. */
    method AddStudent(student: Student)
      modifies students
      ensures students.elems == old(students.elems) + [student]
    {
      students.Add(student);
    }

    /** iterator: a new cursor at index 0 over the live list. */
    method Iterator() returns (it: DepartmentIterator)
      ensures fresh(it) && it.students == students && it.currentIndex == 0
    {
      it := new DepartmentIterator(students);
    }
  }

  class DepartmentIterator {
    const students: JList<Student>
    var currentIndex: nat

    constructor (students: JList<Student>)
      ensures this.students == students && currentIndex == 0
    {
      this.students := students;
      currentIndex := 0;
    }

    method HasNext() returns (b: bool)
      ensures b <==> currentIndex < |students.elems|
    {
      b := currentIndex < |students.elems|;
    }

    /**
     * next: `students.get(currentIndex++)`. The index moves on before get
     * checks it, so a call past the end throws IndexOutOfBoundsException and
     * still advances the index.
     */
    method Next() returns (r: Result<Student>)
      modifies this
      ensures currentIndex == old(currentIndex) + 1
      ensures old(currentIndex) < |students.elems| ==> r == Ok(students.elems[old(currentIndex)])
      ensures old(currentIndex) >= |students.elems| ==> r == Throws(IndexOutOfBounds)
    {
      var index := currentIndex;
      currentIndex := currentIndex + 1;
      r := students.Get(index);
    }
  }

  /** The loop of the demo over one department: the students in addStudent order. */
  method VisitDepartment(d: Department) returns (visited: seq<Student>)
    ensures visited == d.students.elems
  {
    var it := d.Iterator();
    visited := [];
    var more := it.HasNext();
    while more
      invariant it.students == d.students && it.currentIndex <= |d.students.elems|
      invariant visited == d.students.elems[..it.currentIndex]
      invariant more <==> it.currentIndex < |d.students.elems|
      decreases |d.students.elems| - it.currentIndex
    {
      var s := it.Next();
      visited := visited + [s.value];
      more := it.HasNext();
    }
  }

  // ---------------------------------------------------------------------------
  // Eligibility: chain of responsibility

  datatype TestHandler = ComputerScienceTest | MathematicsTest

  datatype EligibilityHandler =
    | EligibilityCheck(next: Option<EligibilityHandler>)
    | DepartmentEligibility(department: string, testHandler: Option<TestHandler>, next: Option<EligibilityHandler>)

  /** handleAdmission: CS passes marks starting with "A", Mathematics marks containing "A+". */
  function HandleAdmission(test: TestHandler, marks: Option<string>): (r: Result<bool>)
    ensures marks.None? <==> r == Throws(NullPointer)
  {
    if marks.None? then Throws(NullPointer)
    else match test
      case ComputerScienceTest => Ok(StartsWith(marks.value, "A"))
      case MathematicsTest => Ok(Contains(marks.value, "A+"))
  }

  /**
   * handleRequest on a student with the given registration details and marks.
   * The general check passes on "Excellent" and otherwise asks its successor;
   * a department handler is `test || (next != null && next.handleRequest)`.
   * The only exception is NullPointerException from an unset field or test.
   */
  function HandleRequest(h: EligibilityHandler, details: Option<string>, marks: Option<string>): (r: Result<bool>)
    ensures r.Throws? ==> r.error == NullPointer
    ensures h.EligibilityCheck? && details.None? ==> r == Throws(NullPointer)
    ensures h.DepartmentEligibility? && (h.testHandler.None? || marks.None?) ==> r == Throws(NullPointer)
  {
    match h
    case EligibilityCheck(next) =>
      if details.None? then Throws(NullPointer)
      else
        var isEligible := Contains(details.value, "Excellent");
        if !isEligible && next.Some? then HandleRequest(next.value, details, marks)
        else Ok(isEligible)
    case DepartmentEligibility(_, test, next) =>
      if test.None? then Throws(NullPointer)
      else match HandleAdmission(test.value, marks)
        case Throws(e) => Throws(e)
        case Ok(passed) =>
          if passed then Ok(true)
          else if next.Some? then HandleRequest(next.value, details, marks)
          else Ok(false)
  }

  // An independent reading of the chain: the list of checks it runs, scanned
  // left to right until one passes or throws.

  datatype Check = GeneralCheck | TestCheck(test: Option<TestHandler>)

  function Checks(h: EligibilityHandler): (cs: seq<Check>)
    ensures |cs| > 0
  {
    var here := if h.EligibilityCheck? then GeneralCheck else TestCheck(h.testHandler);
    [here] + (if h.next.Some? then Checks(h.next.value) else [])
  }

  function RunCheck(c: Check, details: Option<string>, marks: Option<string>): Result<bool>
  {
    match c
    case GeneralCheck => if details.None? then Throws(NullPointer) else Ok(Contains(details.value, "Excellent"))
    case TestCheck(test) => if test.None? then Throws(NullPointer) else HandleAdmission(test.value, marks)
  }

  function Scan(cs: seq<Check>, details: Option<string>, marks: Option<string>): Result<bool>
  {
    if cs == [] then Ok(false)
    else match RunCheck(cs[0], details, marks)
      case Throws(e) => Throws(e)
      case Ok(passed) => if passed then Ok(true) else Scan(cs[1..], details, marks)
  }

  /** handleRequest runs the checks of the chain in order and stops at the first pass or exception. */
  lemma {:induction false} HandleRequestScans(h: EligibilityHandler, details: Option<string>, marks: Option<string>)
    ensures HandleRequest(h, details, marks) == Scan(Checks(h), details, marks)
  {
    if h.next.Some? {
      HandleRequestScans(h.next.value, details, marks);
    }
    assert Checks(h)[1..] == (if h.next.Some? then Checks(h.next.value) else []);
  }

  /** When no check can throw, the scan is the disjunction of the checks. */
  lemma {:induction false} ScanIsDisjunction(cs: seq<Check>, details: Option<string>, marks: Option<string>)
    requires forall i :: 0 <= i < |cs| ==> RunCheck(cs[i], details, marks).Ok?
    ensures Scan(cs, details, marks) == Ok(exists i :: 0 <= i < |cs| && RunCheck(cs[i], details, marks) == Ok(true))
  {
    if cs != [] {
      ScanIsDisjunction(cs[1..], details, marks);
      if RunCheck(cs[0], details, marks) == Ok(false) {
        assert forall i :: 1 <= i < |cs| ==> cs[i] == cs[1..][i - 1];
      }
    }
  }

  /** Every department handler in the chain has its test set. */
  predicate TestsSet(h: EligibilityHandler)
  {
    (h.DepartmentEligibility? ==> h.testHandler.Some?) && (h.next.Some? ==> TestsSet(h.next.value))
  }

  lemma {:induction false} TestsSetChecks(h: EligibilityHandler)
    requires TestsSet(h)
    ensures forall i :: 0 <= i < |Checks(h)| ==> Checks(h)[i] == GeneralCheck || Checks(h)[i].test.Some?
  {
    if h.next.Some? {
      TestsSetChecks(h.next.value);
      assert forall i :: 1 <= i < |Checks(h)| ==> Checks(h)[i] == Checks(h.next.value)[i - 1];
    }
  }

  /**
   * With registration details and marks set and every test set, a student is
   * eligible exactly when some handler of the chain accepts them.
   */
  lemma EligibleIffSomeCheckPasses(h: EligibilityHandler, details: string, marks: string)
    requires TestsSet(h)
    ensures HandleRequest(h, Some(details), Some(marks))
      == Ok(exists i :: 0 <= i < |Checks(h)| && RunCheck(Checks(h)[i], Some(details), Some(marks)) == Ok(true))
  {
    HandleRequestScans(h, Some(details), Some(marks));
    TestsSetChecks(h);
    ScanIsDisjunction(Checks(h), Some(details), Some(marks));
  }

  // ---------------------------------------------------------------------------
  // The demonstration in main

  const Student1Details := "High School Transcript: Excellent"
  const Student2Details := "High School Transcript: Good"

  /** The general handler alone finds student1 ("Excellent") eligible. */
  lemma DemoStudent1Eligible()
    ensures HandleRequest(EligibilityCheck(None), Some(Student1Details), Some("A+")) == Ok(true)
  {
    assert Student1Details[24..33] == "Excellent";
    assert OccursAt(Student1Details, "Excellent", 24);
    ContainsAt(Student1Details, "Excellent");
  }

  /** The general handler alone finds student2 ("Good") not eligible: there is no 'E' in the details. */
  lemma DemoStudent2NotEligible()
    ensures HandleRequest(EligibilityCheck(None), Some(Student2Details), Some("B")) == Ok(false)
  {
    assert !Contains(Student2Details, "Excellent") by {
      assert 'E' !in Student2Details;
      NotContainsWithoutFirstChar(Student2Details, "Excellent");
    }
  }

  /** The department handlers built in main: CS passes "A+" marks, Mathematics rejects "B" with "Good" details. */
  lemma DemoDepartmentEligibility()
    ensures HandleRequest(DepartmentEligibility("Computer Science", Some(ComputerScienceTest), Some(EligibilityCheck(None))),
                          Some(Student1Details), Some("A+")) == Ok(true)
    ensures HandleRequest(DepartmentEligibility("Mathematics", Some(MathematicsTest), Some(EligibilityCheck(None))),
                          Some(Student2Details), Some("B")) == Ok(false)
  {
    DemoStudent1Eligible();
    DemoStudent2NotEligible();
    assert !StartsWith("B", "A+") && !Contains("B"[1..], "A+");
  }
}
