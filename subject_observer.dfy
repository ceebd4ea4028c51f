/**
 * DesignPatterns/Observer/subjectClasses/Subject.java: a subject with an int
 * state and a list of observers. Setting the state notifies every entry of
 * the list once, in attach order; an observer attached twice is updated
 * twice. Each observer counts the update calls it has received, and the
 * console records whose update() wrote a line, in order; the text of the
 * line is left out.
 */
module SubjectObserver {
  import opened JavaLang

  datatype ObserverKind = BinaryObserver | OctalObserver | HexaObserver

  /**
   * Standard output, as far as the observers use it: each update() writes
   * one line, so the console is modelled by the observers whose update()
   * ran, in the order the lines were written.
   */
  class Console {
    var updated: seq<Observer>

    constructor ()
      ensures updated == []
    {
      updated := [];
    }
  }

  class Observer {
    const kind: ObserverKind
    /** How many times update() has been called on this observer. */
    var updates: nat

    constructor (kind: ObserverKind)
      ensures this.kind == kind && updates == 0
    {
      this.kind := kind;
      updates := 0;
    }

    /** update(): counted here, and its console line is recorded in out, after all earlier ones. */
    method Update(out: Console)
      modifies this, out
      ensures updates == old(updates) + 1
      ensures out.updated == old(out.updated) + [this]
    {
      updates := updates + 1;
      out.updated := out.updated + [this];
    }
  }

  class Subject {
    var observers: seq<Observer>
    var state: int32

    constructor ()
      ensures observers == [] && state == 0
    {
      observers := [];
      state := 0;
    }

    method GetState() returns (s: int32)
      ensures s == state
    {
      s := state;
    }

    /** setState: store the new state, then notify all observers. */
    method SetState(s: int32, out: Console)
      modifies this, (set o | o in observers), out
      ensures state == s && observers == old(observers)
      ensures forall o :: o in observers ==> o.updates == old(o.updates) + multiset(observers)[o]
      ensures out.updated == old(out.updated) + observers
    {
      state := s;
      NotifyAllObservers(out);
    }

    /** attach: append, duplicates included. */
    method Attach(o: Observer)
      modifies this
      ensures observers == old(observers) + [o] && state == old(state)
    {
      observers := observers + [o];
    }

    /** notifyAllObservers: update() once per list entry, in list order; the subject is unchanged. */
    method NotifyAllObservers(out: Console)
      modifies (set o | o in observers), out
      ensures forall o :: o in observers ==> o.updates == old(o.updates) + multiset(observers)[o]
      ensures out.updated == old(out.updated) + observers
    {
      var i := 0;
      while i < |observers|
        invariant 0 <= i <= |observers|
        invariant forall o :: o in observers ==> o.updates == old(o.updates) + multiset(observers[..i])[o]
        invariant out.updated == old(out.updated) + observers[..i]
      {
        assert observers[..i + 1] == observers[..i] + [observers[i]];
        observers[i].Update(out);
        i := i + 1;
      }
      assert observers[..i] == observers;
    }

    /** detach: remove the first occurrence only; the state is not touched. */
    method Detach(o: Observer)
      modifies this
      ensures observers == RemoveFirst(old(observers), o) && state == old(state)
    {
      observers := RemoveFirst(observers, o);
    }
  }

  /**
   * Each attach adds one to the number of updates an observer gets per
   * notification; a detach right after attaching an observer that was not
   * attached before restores the list exactly.
   */
  lemma AttachDetachCounts(observers: seq<Observer>, o: Observer)
    ensures multiset(observers + [o])[o] == multiset(observers)[o] + 1
    ensures RemoveFirst(observers + [o], o) == if o in observers then RemoveFirst(observers, o) + [o] else observers
  {
    assert multiset(observers + [o]) == multiset(observers) + multiset{o};
    RemoveFirstAfterAppend(observers, o);
  }
}
