/**
 * Practice/DecoratorMealOrder.java: a basic meal wrapped by decorators that
 * each append their extra to the wrapped meal's description. The prices are
 * floating point and are left out. A decorator only holds the meal it
 * wraps, which stays as it was, so meals are values here.
 */
module MealDecorator {

  datatype Meal =
    | BasicMeal
    | Forwarding(decoratedMeal: Meal)
    | SaladDecorator(decoratedMeal: Meal)
    | DessertDecorator(decoratedMeal: Meal)

  /**
   * getDescription: "Basic Meal", with each decorator appending its extra
   * after the wrapped description; so every description starts with
   * "Basic Meal", and is exactly that when no extra was added.
   */
  function Description(m: Meal): (r: string)
    ensures |r| >= 10 && r[..10] == "Basic Meal"
    ensures Extras(m) == [] ==> r == "Basic Meal"
  {
    match m
    case BasicMeal => "Basic Meal"
    case Forwarding(inner) => Description(inner)
    case SaladDecorator(inner) => Description(inner) + ", Salad"
    case DessertDecorator(inner) => Description(inner) + ", Dessert"
  }

  /** The extras of a meal, innermost decorator first. */
  function Extras(m: Meal): seq<string>
  {
    match m
    case BasicMeal => []
    case Forwarding(inner) => Extras(inner)
    case SaladDecorator(inner) => Extras(inner) + ["Salad"]
    case DessertDecorator(inner) => Extras(inner) + ["Dessert"]
  }

  /** The extras joined, each preceded by ", ". */
  function Joined(extras: seq<string>): string
  {
    if extras == [] then "" else Joined(extras[..|extras| - 1]) + ", " + extras[|extras| - 1]
  }

  /** Joining one more extra appends ", " and that extra. */
  lemma JoinedSnoc(extras: seq<string>, x: string)
    ensures Joined(extras + [x]) == Joined(extras) + ", " + x
  {
    assert (extras + [x])[..|extras|] == extras;
  }

  /** A description of the expected shape keeps that shape when one more extra is appended. */
  lemma AppendExtra(d: string, extras: seq<string>, x: string)
    requires d == "Basic Meal" + Joined(extras)
    ensures d + (", " + x) == "Basic Meal" + Joined(extras + [x])
  {
    JoinedSnoc(extras, x);
  }

  /**
   * Every description is "Basic Meal" followed by the extras, innermost
   * first; a forwarding decorator adds nothing.
   */
  lemma {:induction false} DescriptionSpec(m: Meal)
    ensures Description(m) == "Basic Meal" + Joined(Extras(m))
  {
    match m
    case BasicMeal =>
    case Forwarding(inner) => DescriptionSpec(inner);
    case SaladDecorator(inner) =>
      DescriptionSpec(inner);
      assert ", Salad" == ", " + "Salad";
      AppendExtra(Description(inner), Extras(inner), "Salad");
    case DessertDecorator(inner) =>
      DescriptionSpec(inner);
      assert ", Dessert" == ", " + "Dessert";
      AppendExtra(Description(inner), Extras(inner), "Dessert");
  }

  /** The four meals of the demo. */
  lemma DemoDescriptions()
    ensures Description(BasicMeal) == "Basic Meal"
    ensures Description(SaladDecorator(BasicMeal)) == "Basic Meal, Salad"
    ensures Description(DessertDecorator(BasicMeal)) == "Basic Meal, Dessert"
    ensures Description(DessertDecorator(SaladDecorator(BasicMeal))) == "Basic Meal, Salad, Dessert"
  {
    var salad := Description(SaladDecorator(BasicMeal));
    assert salad == "Basic Meal" + ", Salad";
    assert Description(DessertDecorator(BasicMeal)) == "Basic Meal" + ", Dessert";
    assert Description(DessertDecorator(SaladDecorator(BasicMeal))) == salad + ", Dessert";
  }

  /** Decorating in the other order gives a different description: the order of wrapping is kept. */
  lemma OrderMatters()
    ensures Description(SaladDecorator(DessertDecorator(BasicMeal))) != Description(DessertDecorator(SaladDecorator(BasicMeal)))
  {
    assert Description(SaladDecorator(DessertDecorator(BasicMeal)))[12] == 'D';
    assert Description(DessertDecorator(SaladDecorator(BasicMeal)))[12] == 'S';
  }
}
