/**
 * Practice/MementoStructure.java: an Originator whose string state can be
 * saved into immutable mementos, kept in order by a CareTaker, and restored
 * from any of them later.
 */
module MementoStructure {
  import opened JavaLang

  /** A memento only carries the saved state; it has no setter. */
  datatype Memento = Memento(state: Option<string>)

  class Originator {
    /** The current state; null until the first setState. */
    var state: Option<string>

    constructor ()
      ensures state == None
    {
      state := None;
    }

    method SetState(s: Option<string>)
      modifies this
      ensures state == s
    {
      state := s;
    }

    method GetState() returns (s: Option<string>)
      ensures s == state
    {
      s := state;
    }

    /** saveStateToMemento: a snapshot of the current state; the originator is unchanged. */
    method SaveStateToMemento() returns (m: Memento)
      ensures m.state == state
    {
      m := Memento(state);
    }

    /** getStateFromMemento: the state becomes the memento's. */
    method GetStateFromMemento(m: Memento)
      modifies this
      ensures state == m.state
    {
      state := m.state;
    }
  }

  class CareTaker {
    var mementoList: seq<Memento>

    constructor ()
      ensures mementoList == []
    {
      mementoList := [];
    }

    method Add(m: Memento)
      modifies this
      ensures mementoList == old(mementoList) + [m]
    {
      mementoList := mementoList + [m];
    }

    /** get: the index-th memento added, or IndexOutOfBounds. */
    method Get(index: int32) returns (r: Result<Memento>)
      ensures 0 <= index < |mementoList| ==> r == Ok(mementoList[index])
      ensures !(0 <= index < |mementoList|) ==> r == Throws(IndexOutOfBounds)
    {
      if 0 <= index < |mementoList| {
        r := Ok(mementoList[index]);
      } else {
        r := Throws(IndexOutOfBounds);
      }
    }
  }

  /**
   * The round trip: save, then any number of setState calls, then restore
   * from the saved memento gives back the state at the time of saving.
   * `changed` is the state just before the restore: the last change, or
   * the saved state when there was none.
   */
  method SaveChangeRestore(o: Originator, changes: seq<Option<string>>) returns (m: Memento, changed: Option<string>)
    modifies o
    ensures changed == if changes == [] then old(o.state) else changes[|changes| - 1]
    ensures m.state == old(o.state) && o.state == old(o.state)
  {
    m := o.SaveStateToMemento();
    var i := 0;
    while i < |changes|
      invariant 0 <= i <= |changes|
      invariant m.state == old(o.state)
      invariant o.state == if i == 0 then old(o.state) else changes[i - 1]
    {
      o.SetState(changes[i]);
      i := i + 1;
    }
    changed := o.GetState();
    o.GetStateFromMemento(m);
  }

  /** The main program: the current state is "State #4", the two saved ones "State #2" and "State #3". */
  method Demo() returns (current: Option<string>, first: Option<string>, second: Option<string>)
    ensures current == Some("State #4")
    ensures first == Some("State #2") && second == Some("State #3")
  {
    var originator := new Originator();
    var careTaker := new CareTaker();
    originator.SetState(Some("State #1"));
    originator.SetState(Some("State #2"));
    var m := originator.SaveStateToMemento();
    careTaker.Add(m);
    originator.SetState(Some("State #3"));
    m := originator.SaveStateToMemento();
    careTaker.Add(m);
    originator.SetState(Some("State #4"));
    current := originator.GetState();
    var r := careTaker.Get(0);
    originator.GetStateFromMemento(r.value);
    first := originator.GetState();
    r := careTaker.Get(1);
    originator.GetStateFromMemento(r.value);
    second := originator.GetState();
  }
}
