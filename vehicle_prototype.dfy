/**
 * Practice/Exam.java: prototype vehicles (a car with a top speed, a bus with
 * a capacity) whose clone copies every field into a new object, and a
 * registry that stores vehicles under "brand model" and hands out clones.
 */
module VehiclePrototype {
  import opened JavaLang

  /** The subtype of a vehicle with the field only that subtype has. */
  datatype VehicleKind = Car(maxSpeed: int32) | Bus(capacity: int32)

  class Vehicle {
    const brand: string
    const model: string
    const color: string
    const kind: VehicleKind

    constructor (brand: string, model: string, color: string, kind: VehicleKind)
      ensures this.brand == brand && this.model == model && this.color == color && this.kind == kind
    {
      this.brand := brand;
      this.model := model;
      this.color := color;
      this.kind := kind;
    }

    /** clone: through the copy constructor, a new object of the same subtype with every field copied. */
    method Clone() returns (c: Vehicle)
      ensures fresh(c) && SameFields(c, this)
    {
      c := new Vehicle(brand, model, color, kind);
    }
  }

  /** The two vehicles agree on brand, model, colour, subtype and the subtype's field. */
  predicate SameFields(a: Vehicle, b: Vehicle)
  {
    a.brand == b.brand && a.model == b.model && a.color == b.color && a.kind == b.kind
  }

  /** The registry key of a vehicle. */
  function CacheKey(v: Vehicle): string
  {
    v.brand + " " + v.model
  }

  /**
   * The key is the brand, one space, then the model: two vehicles whose
   * brands have the same length share a key exactly when brand and model
   * agree.
   */
  lemma CacheKeyParts(v: Vehicle, w: Vehicle)
    ensures |CacheKey(v)| == |v.brand| + 1 + |v.model|
    ensures CacheKey(v)[..|v.brand|] == v.brand && CacheKey(v)[|v.brand|] == ' '
    ensures CacheKey(v)[|v.brand| + 1..] == v.model
    ensures |v.brand| == |w.brand| ==> (CacheKey(v) == CacheKey(w) <==> v.brand == w.brand && v.model == w.model)
  {
    var k := CacheKey(v);
    assert k[..|v.brand|] == v.brand;
    assert k[|v.brand| + 1..] == v.model;
    if |v.brand| == |w.brand| && CacheKey(v) == CacheKey(w) {
      assert CacheKey(w)[..|w.brand|] == w.brand;
      assert CacheKey(w)[|w.brand| + 1..] == w.model;
    }
  }

  /** The registry after putting each vehicle of the list in turn under its key. */
  function PutAll(m: map<string, Vehicle>, vehicles: seq<Vehicle>): map<string, Vehicle>
    decreases |vehicles|
  {
    if vehicles == [] then m
    else
      var last := vehicles[|vehicles| - 1];
      PutAll(m, vehicles[..|vehicles| - 1])[CacheKey(last) := last]
  }

  /**
   * Putting a list adds exactly the keys of its vehicles and leaves every
   * other entry as it was.
   */
  lemma {:induction false} PutAllKeys(m: map<string, Vehicle>, vehicles: seq<Vehicle>, k: string)
    ensures k in PutAll(m, vehicles) <==> k in m || exists i :: 0 <= i < |vehicles| && CacheKey(vehicles[i]) == k
    ensures (forall i :: 0 <= i < |vehicles| ==> CacheKey(vehicles[i]) != k) && k in m ==>
      PutAll(m, vehicles)[k] == m[k]
    decreases |vehicles|
  {
    if vehicles != [] {
      var init := vehicles[..|vehicles| - 1];
      PutAllKeys(m, init, k);
      if exists i :: 0 <= i < |init| && CacheKey(init[i]) == k {
        var i :| 0 <= i < |init| && CacheKey(init[i]) == k;
        assert vehicles[i] == init[i];
      }
      if exists i :: 0 <= i < |vehicles| && CacheKey(vehicles[i]) == k {
        var i :| 0 <= i < |vehicles| && CacheKey(vehicles[i]) == k;
        if i < |init| {
          assert init[i] == vehicles[i];
        }
      }
    }
  }

  /**
   * A later vehicle with the same key overwrites an earlier one: the entry
   * for a key is the last vehicle of the list that has it.
   */
  lemma {:induction false} PutAllLastWins(m: map<string, Vehicle>, vehicles: seq<Vehicle>, i: int)
    requires 0 <= i < |vehicles|
    requires forall j :: i < j < |vehicles| ==> CacheKey(vehicles[j]) != CacheKey(vehicles[i])
    ensures CacheKey(vehicles[i]) in PutAll(m, vehicles)
    ensures PutAll(m, vehicles)[CacheKey(vehicles[i])] == vehicles[i]
    decreases |vehicles|
  {
    var init := vehicles[..|vehicles| - 1];
    if i < |vehicles| - 1 {
      assert init[i] == vehicles[i];
      forall j | i < j < |init|
        ensures CacheKey(init[j]) != CacheKey(init[i])
      {
        assert init[j] == vehicles[j];
      }
      PutAllLastWins(m, init, i);
    }
  }

  class VehicleCache {
    var cache: map<string, Vehicle>

    /** The registry starts with a blue Bugatti Chiron (261) and a white Mercedes Setra (48). */
    constructor ()
      ensures cache.Keys == {"Bugatti Chiron", "Mercedes Setra"}
      ensures cache["Bugatti Chiron"].kind == Car(261) && cache["Bugatti Chiron"].color == "Blue"
      ensures cache["Mercedes Setra"].kind == Bus(48) && cache["Mercedes Setra"].color == "White"
    {
      var car := new Vehicle("Bugatti", "Chiron", "Blue", Car(261));
      var bus := new Vehicle("Mercedes", "Setra", "White", Bus(48));
      assert CacheKey(car) == "Bugatti Chiron";
      assert CacheKey(bus) == "Mercedes Setra";
      cache := map[CacheKey(car) := car, CacheKey(bus) := bus];
    }

    /**
     * get: a new clone of the stored vehicle, never the stored object; an
     * absent key dereferences null.
     */
    method Get(key: string) returns (r: Result<Vehicle>)
      ensures key !in cache ==> r == Throws(NullPointer)
      ensures key in cache ==> r.Ok? && fresh(r.value) && SameFields(r.value, cache[key])
    {
      if key !in cache {
        return Throws(NullPointer);
      }
      var copy := cache[key].Clone();
      return Ok(copy);
    }

    /** put: each vehicle in list order is stored itself under its key, replacing any entry there. */
    method Put(vehicles: seq<Vehicle>)
      modifies this
      ensures cache == PutAll(old(cache), vehicles)
    {
      var i := 0;
      while i < |vehicles|
        invariant 0 <= i <= |vehicles|
        invariant cache == PutAll(old(cache), vehicles[..i])
      {
        assert vehicles[..i + 1][..i] == vehicles[..i];
        cache := cache[CacheKey(vehicles[i]) := vehicles[i]];
        i := i + 1;
      }
      assert vehicles[..i] == vehicles;
    }
  }

  /**
   * The program's run: after putting a car and a bus, looking up
   * "car_brand car_model" gives a copy of the car, not the car itself.
   */
  method ExamDemo() returns (car: Vehicle, copy: Result<Vehicle>)
    ensures copy.Ok? && copy.value != car && SameFields(copy.value, car)
    ensures copy.value.kind == Car(300)
  {
    car := new Vehicle("car_brand", "car_model", "car_color", Car(300));
    var bus := new Vehicle("bus_brand", "bus_model", "bus_color", Bus(8));
    var registry := new VehicleCache();
    ghost var before := registry.cache;
    registry.Put([car, bus]);
    assert CacheKey(car) == "car_brand car_model";
    assert CacheKey(bus) == "bus_brand bus_model";
    assert CacheKey(bus) != CacheKey(car) by {
      assert CacheKey(bus)[0] != CacheKey(car)[0];
    }
    PutAllLastWins(before, [car, bus], 0);
    copy := registry.Get("car_brand car_model");
  }
}
