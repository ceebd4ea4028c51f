/**
 * DesignPatterns/Iterator: NameRepository hands out a bidirectional cursor
 * (NameIterator) over a fixed array of four students.
 *
 * `previous()` returns `names[index--]`: the element AT the cursor, then one
 * step back. Java evaluates `index--` before the array bounds check, so at
 * the end of the array (index 4) the index becomes 3 and the access throws
 * ArrayIndexOutOfBoundsException. The cursor as written is therefore not an
 * inverse of `next()`; the corrected `names[--index]` is, and both are modelled.
 */
module NameRepository {
  import opened JavaLang

  datatype Student = Student(regNo: int32, name: string, gender: string, phoneNumber: string)

  /** The four students every NameIterator is created with. */
  function Roster(): seq<Student>
  {
    [Student(1, "Quaid Ahmed", "Male", "123-456-7890"),
     Student(2, "Qaziiii", "Male", "123-456-7890"),
     Student(2, "Shah je", "Male", "123-456-7890"),
     Student(3, "GZain", "Male", "123-456-7890")]
  }

  /** One cursor move: what the call returned and the index afterwards. */
  datatype Step = Step(result: Result<Option<Student>>, index: int)

  /** next(): `names[index++]` when index < length, else null. */
  function NextStep(names: seq<Student>, index: int): (r: Step)
    ensures r.result.Ok?
    ensures r.result.value.Some? <==> 0 <= index < |names|
    ensures r.result.value.Some? ==> r.result.value.value == names[index] && r.index == index + 1
    ensures r.result.value.None? ==> r.index == index
  {
    if 0 <= index < |names| then Step(Ok(Some(names[index])), index + 1)
    else Step(Ok(None), index)
  }

  /** previous() as written: `names[index--]` when index > 0, else null. */
  function PreviousStep(names: seq<Student>, index: int): (r: Step)
    ensures r.result.Throws? <==> |names| <= index && 0 < index
    ensures r.index == if 0 < index then index - 1 else index
    ensures 0 < index < |names| ==> r.result == Ok(Some(names[index]))
    ensures index <= 0 ==> r.result == Ok(None)
  {
    if index > 0 then
      if index < |names| then Step(Ok(Some(names[index])), index - 1)
      else Step(Throws(IndexOutOfBounds), index - 1)
    else Step(Ok(None), index)
  }

  /** previous() as evidently intended: `names[--index]` when index > 0, else null. */
  function PreviousCorrectedStep(names: seq<Student>, index: int): Step
  {
    if 0 < index <= |names| then Step(Ok(Some(names[index - 1])), index - 1)
    else Step(Ok(None), index)
  }

  /**
   * As written, next() at i returns names[i] and the following previous()
   * returns names[i + 1], not names[i]; at the last element the previous()
   * throws. The index itself does come back to i.
   */
  lemma NextThenPreviousAsWritten(names: seq<Student>, i: nat)
    requires i < |names|
    ensures NextStep(names, i).result == Ok(Some(names[i]))
    ensures PreviousStep(names, NextStep(names, i).index).index == i
    ensures i + 1 < |names| ==> PreviousStep(names, NextStep(names, i).index).result == Ok(Some(names[i + 1]))
    ensures i + 1 == |names| ==> PreviousStep(names, NextStep(names, i).index).result == Throws(IndexOutOfBounds)
  {
  }

  /** The concrete defect: after four next() calls on the roster, previous() throws. */
  lemma PreviousAtEndThrows()
    ensures PreviousStep(Roster(), 4) == Step(Throws(IndexOutOfBounds), 3)
  {
  }

  /** With `names[--index]`, previous() undoes next(): it returns the same element and restores the index. */
  lemma NextThenPreviousCorrected(names: seq<Student>, i: nat)
    requires i < |names|
    ensures NextStep(names, i).result == Ok(Some(names[i]))
    ensures PreviousCorrectedStep(names, NextStep(names, i).index) == Step(Ok(Some(names[i])), i)
  {
  }

  /** ...and next() undoes the corrected previous(), so the corrected cursor walks both ways. */
  lemma PreviousCorrectedThenNext(names: seq<Student>, i: nat)
    requires 0 < i <= |names|
    ensures NextStep(names, PreviousCorrectedStep(names, i).index)
      == Step(PreviousCorrectedStep(names, i).result, i)
  {
  }

  /** The corrected previous() never throws and keeps the index within [0, length]. */
  lemma PreviousCorrectedInBounds(names: seq<Student>, i: int)
    requires 0 <= i <= |names|
    ensures PreviousCorrectedStep(names, i).result.Ok?
    ensures 0 <= PreviousCorrectedStep(names, i).index <= |names|
  {
  }

  class NameRepository {
    constructor ()
    {
    }

    /** getIterator: a fresh cursor at index 0 over a fresh array of the four students. */
    method GetIterator() returns (it: NameIterator)
      ensures fresh(it) && fresh(it.names) && it.Valid()
      ensures it.names[..] == Roster() && it.index == 0
    {
      it := new NameIterator();
    }
  }

  class NameIterator {
    const names: array<Student>
    var index: int

    /** The cursor stays within [0, length]; the array holds four students. */
    ghost predicate Valid()
      reads this
    {
      names.Length == 4 && 0 <= index <= names.Length
    }

    constructor ()
      ensures fresh(names) && Valid() && names[..] == Roster() && index == 0
    {
      index := 0;
      names := new Student[4] [Student(1, "Quaid Ahmed", "Male", "123-456-7890"),
                               Student(2, "Qaziiii", "Male", "123-456-7890"),
                               Student(2, "Shah je", "Male", "123-456-7890"),
                               Student(3, "GZain", "Male", "123-456-7890")];
    }

    method HasNext() returns (b: bool)
      ensures b <==> index < names.Length
    {
      b := index < names.Length;
    }

    method HasPrevious() returns (b: bool)
      ensures b <==> index > 0
    {
      b := index > 0;
    }

    method Next() returns (r: Option<Student>)
      requires Valid()
      modifies this
      ensures Valid()
      ensures Step(Ok(r), index) == NextStep(old(names[..]), old(index))
    {
      var more := HasNext();
      if more {
        r := Some(names[index]);
        index := index + 1;
      } else {
        r := None;
      }
    }

    /** previous() as written, including the throw at the end of the array. */
    method Previous() returns (r: Result<Option<Student>>)
      requires Valid()
      modifies this
      ensures Valid()
      ensures Step(r, index) == PreviousStep(old(names[..]), old(index))
    {
      var more := HasPrevious();
      if more {
        var at := index;
        index := index - 1;
        if at < names.Length {
          r := Ok(Some(names[at]));
        } else {
          r := Throws(IndexOutOfBounds);
        }
      } else {
        r := Ok(None);
      }
    }

    /** previous() with `names[--index]`. */
    method PreviousCorrected() returns (r: Option<Student>)
      requires Valid()
      modifies this
      ensures Valid()
      ensures Step(Ok(r), index) == PreviousCorrectedStep(old(names[..]), old(index))
    {
      var more := HasPrevious();
      if more {
        index := index - 1;
        r := Some(names[index]);
      } else {
        r := None;
      }
    }

    /** moveToLast: index = length - 1, the last element rather than past it. */
    method MoveToLast()
      requires Valid()
      modifies this
      ensures Valid() && index == names.Length - 1
    {
      index := names.Length - 1;
    }

    method MoveToFirst()
      requires Valid()
      modifies this
      ensures Valid() && index == 0
    {
      index := 0;
    }
  }

  /** A full forward traversal, as in printAllStudents: the four students in order, leaving the index at 4. */
  method TraverseForward(it: NameIterator) returns (visited: seq<Student>)
    requires it.Valid() && it.index == 0
    modifies it
    ensures it.Valid() && it.index == 4
    ensures visited == it.names[..]
  {
    visited := [];
    var more := it.HasNext();
    while more
      invariant it.Valid()
      invariant visited == it.names[..it.index]
      invariant more <==> it.index < it.names.Length
      decreases it.names.Length - it.index
    {
      var s := it.Next();
      visited := visited + [s.value];
      more := it.HasNext();
    }
  }
}
