/**
 * Practice/ObserverPattern.java: a restaurant keeps a list of observers
 * (owner, cook, waiter) and notifies each entry once, in registration
 * order; and a template-method complaint in which only a complaint about
 * the cook goes on to be submitted. Each observer counts the update calls
 * it has received, and the console records whose update() wrote a line, in
 * order; the text of the line is left out.
 */
module RestaurantObserver {
  import opened JavaLang

  datatype ObserverKind = Owner | Cook | Waiter

  /**
   * Standard output, as far as the observers use it: each update() writes
   * one line, so the console is modelled by the observers whose update()
   * ran, in the order the lines were written.
   */
  class Console {
    var updated: seq<Observer>

    constructor ()
      ensures updated == []
    {
      updated := [];
    }
  }

  class Observer {
    const kind: ObserverKind
    /** How many times update() has been called on this observer. */
    var updates: nat

    constructor (kind: ObserverKind)
      ensures this.kind == kind && updates == 0
    {
      this.kind := kind;
      updates := 0;
    }

    /** update(): counted here, and its console line is recorded in out, after all earlier ones. */
    method Update(out: Console)
      modifies this, out
      ensures updates == old(updates) + 1
      ensures out.updated == old(out.updated) + [this]
    {
      updates := updates + 1;
      out.updated := out.updated + [this];
    }
  }

  class Restaurant {
    var observers: seq<Observer>

    constructor ()
      ensures observers == []
    {
      observers := [];
    }

    /** registerObserver: append, duplicates included. */
    method RegisterObserver(o: Observer)
      modifies this
      ensures observers == old(observers) + [o]
    {
      observers := observers + [o];
    }

    /** removeObserver: remove the first occurrence; an absent observer changes nothing. */
    method RemoveObserver(o: Observer)
      modifies this
      ensures observers == RemoveFirst(old(observers), o)
    {
      observers := RemoveFirst(observers, o);
    }

    /** notifyObservers: update() once per list entry, in list order. */
    method NotifyObservers(out: Console)
      modifies (set o | o in observers), out
      ensures forall o :: o in observers ==> o.updates == old(o.updates) + multiset(observers)[o]
      ensures out.updated == old(out.updated) + observers
    {
      var i := 0;
      while i < |observers|
        invariant 0 <= i <= |observers|
        invariant forall o :: o in observers ==> o.updates == old(o.updates) + multiset(observers[..i])[o]
        invariant out.updated == old(out.updated) + observers[..i]
      {
        assert observers[..i + 1] == observers[..i] + [observers[i]];
        observers[i].Update(out);
        i := i + 1;
      }
      assert observers[..i] == observers;
    }
  }

  /**
   * The main program registers the owner, the cook and the waiter but never
   * notifies them, so none of them receives an update.
   */
  method Demo() returns (restaurant: Restaurant, owner: Observer, cook: Observer, waiter: Observer)
    ensures restaurant.observers == [owner, cook, waiter]
    ensures owner.updates == 0 && cook.updates == 0 && waiter.updates == 0
  {
    restaurant := new Restaurant();
    owner := new Observer(Owner);
    cook := new Observer(Cook);
    waiter := new Observer(Waiter);
    restaurant.RegisterObserver(owner);
    restaurant.RegisterObserver(cook);
    restaurant.RegisterObserver(waiter);
    var _ := Complaint();
  }

  // ---------------------------------------------------------------------------
  // The complaint template

  datatype ComplaintKind = CookComplaint | WaiterComplaint

  /** The steps of complain(), in order. */
  datatype ComplaintStep = ComplainAboutCook | ComplainAboutWaiter | SubmitComplaint

  /** complain(): a cook complaint is then submitted; a waiter complaint is not. */
  function Complain(c: ComplaintKind): seq<ComplaintStep>
  {
    match c
    case CookComplaint => [ComplainAboutCook, SubmitComplaint]
    case WaiterComplaint => [ComplainAboutWaiter]
  }

  /** Exactly the complaints about the cook are submitted, and each is submitted once, last. */
  lemma SubmittedIffCook(c: ComplaintKind)
    ensures SubmitComplaint in Complain(c) <==> c == CookComplaint
    ensures c == CookComplaint ==> Complain(c)[|Complain(c)| - 1] == SubmitComplaint
    ensures c == CookComplaint ==> multiset(Complain(c))[SubmitComplaint] == 1
  {
    if c == WaiterComplaint {
      assert Complain(c) == [ComplainAboutWaiter];
    }
  }

  /** Customer.complaint: always a complaint about the cook. */
  method Complaint() returns (steps: seq<ComplaintStep>)
    ensures steps == Complain(CookComplaint)
    ensures SubmitComplaint in steps
  {
    steps := Complain(CookComplaint);
    SubmittedIffCook(CookComplaint);
  }
}
