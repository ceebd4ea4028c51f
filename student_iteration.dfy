/**
 * The Iterator exercise in Practice/IteratorClient.java: a student list that
 * only grows, and cursors over that live list which return null once
 * exhausted.
 */
module StudentIteration {
  import opened JavaLang

  datatype Student = Student(name: string, id: int32)

  class StudentList {
    const students: JList<Student>

    constructor ()
      ensures fresh(students) && students.elems == []
    {
      students := new JList();
    }

    /** addStudent appends to the end. */
    method AddStudent(student: Student)
      modifies students
      ensures students.elems == old(students.elems) + [student]
    {
      students.Add(student);
    }

    /** getStudents hands out the list itself, not a copy. */
    method GetStudents() returns (list: JList<Student>)
      ensures list == students
    {
      list := students;
    }

    /** createIterator: an independent cursor at position 0 over the live list. */
    method CreateIterator() returns (it: StudentIterator)
      ensures fresh(it) && it.students == students && it.position == 0
    {
      it := new StudentIterator(students);
    }
  }

  class StudentIterator {
    const students: JList<Student>
    var position: nat

    constructor (students: JList<Student>)
      ensures this.students == students && position == 0
    {
      this.students := students;
      position := 0;
    }

    method HasNext() returns (b: bool)
      ensures b <==> position < |students.elems|
    {
      b := position < |students.elems|;
    }

    /** next: the student at the cursor, then one step on; null, without moving, when exhausted. */
    method Next() returns (r: Option<Student>)
      modifies this
      ensures old(position) < |students.elems| ==>
        r == Some(students.elems[old(position)]) && position == old(position) + 1
      ensures old(position) >= |students.elems| ==> r == None && position == old(position)
    {
      var more := HasNext();
      if more {
        var student := students.elems[position];
        position := position + 1;
        return Some(student);
      }
      return None;
    }
  }

  /** The loop of main: every student from the cursor on, in list order, none of them null. */
  method Traverse(it: StudentIterator) returns (visited: seq<Student>)
    requires it.position <= |it.students.elems|
    modifies it
    ensures visited == it.students.elems[old(it.position)..]
    ensures it.position == |it.students.elems|
  {
    visited := [];
    var more := it.HasNext();
    while more
      invariant old(it.position) <= it.position <= |it.students.elems|
      invariant visited == it.students.elems[old(it.position)..it.position]
      invariant more <==> it.position < |it.students.elems|
      decreases |it.students.elems| - it.position
    {
      var s := it.Next();
      visited := visited + [s.value];
      more := it.HasNext();
    }
  }

  /**
   * A cursor created before a student is added still visits that student,
   * because it reads the live list.
   */
  method LateAdditionIsVisited() returns (visited: seq<Student>)
    ensures visited == [Student("Alice", 101), Student("Bob", 102)]
  {
    var list := new StudentList();
    list.AddStudent(Student("Alice", 101));
    var it := list.CreateIterator();
    list.AddStudent(Student("Bob", 102));
    visited := Traverse(it);
  }

  /** Two cursors over one list move independently. */
  method IndependentCursors() returns (first: Option<Student>, again: Option<Student>)
    ensures first == again == Some(Student("Alice", 101))
  {
    var list := new StudentList();
    list.AddStudent(Student("Alice", 101));
    list.AddStudent(Student("Bob", 102));
    var a := list.CreateIterator();
    var b := list.CreateIterator();
    first := a.Next();
    again := b.Next();
  }
}
