/**
 * Practice/Builder.java: a concrete builder that owns one product and sets
 * one of its three parts per build step, and a director that runs the three
 * steps in order. A part that was never set is null, here None.
 */
module BuilderPattern {
  import opened JavaLang

  /** The three parts of a product, as a value. */
  datatype Parts = Parts(partA: Option<string>, partB: Option<string>, partC: Option<string>)

  datatype Step = StepA | StepB | StepC

  /** What one build step does to the parts: sets its own part and nothing else. */
  function Apply(step: Step, p: Parts): Parts
  {
    match step
    case StepA => p.(partA := Some("Part A"))
    case StepB => p.(partB := Some("Part B"))
    case StepC => p.(partC := Some("Part C"))
  }

  /** The parts after running the steps in order. */
  function Run(steps: seq<Step>, p: Parts): Parts
    decreases |steps|
  {
    if steps == [] then p else Run(steps[1..], Apply(steps[0], p))
  }

  /** Every part is set. */
  predicate Complete(p: Parts)
  {
    p == Parts(Some("Part A"), Some("Part B"), Some("Part C"))
  }

  /**
   * A run sets exactly the parts of the steps it contains: a part whose step
   * occurs is set, a part whose step does not occur keeps its value.
   */
  lemma {:induction false} RunSetsItsParts(steps: seq<Step>, p: Parts)
    ensures Run(steps, p).partA == if StepA in steps then Some("Part A") else p.partA
    ensures Run(steps, p).partB == if StepB in steps then Some("Part B") else p.partB
    ensures Run(steps, p).partC == if StepC in steps then Some("Part C") else p.partC
    decreases |steps|
  {
    if steps != [] {
      RunSetsItsParts(steps[1..], Apply(steps[0], p));
      assert steps == [steps[0]] + steps[1..];
      assert forall s :: s in steps <==> s == steps[0] || s in steps[1..];
    }
  }

  /** The director's sequence completes any product, and so does any order of the same steps. */
  lemma ConstructCompletes(p: Parts)
    ensures Complete(Run([StepA, StepB, StepC], p))
    ensures Run([StepC, StepB, StepA], p) == Run([StepA, StepB, StepC], p)
  {
    RunSetsItsParts([StepA, StepB, StepC], p);
    RunSetsItsParts([StepC, StepB, StepA], p);
  }

  class Product {
    var partA: Option<string>
    var partB: Option<string>
    var partC: Option<string>

    constructor ()
      ensures Current() == Parts(None, None, None)
    {
      partA := None;
      partB := None;
      partC := None;
    }

    function Current(): Parts
      reads this
    {
      Parts(partA, partB, partC)
    }
  }

  class ConcreteBuilder {
    const product: Product

    constructor ()
      ensures fresh(product) && product.Current() == Parts(None, None, None)
    {
      product := new Product();
    }

    method BuildPartA()
      modifies product
      ensures product.Current() == Apply(StepA, old(product.Current()))
    {
      product.partA := Some("Part A");
    }

    method BuildPartB()
      modifies product
      ensures product.Current() == Apply(StepB, old(product.Current()))
    {
      product.partB := Some("Part B");
    }

    method BuildPartC()
      modifies product
      ensures product.Current() == Apply(StepC, old(product.Current()))
    {
      product.partC := Some("Part C");
    }

    /** getResult: always the one product this builder owns. */
    method GetResult() returns (p: Product)
      ensures p == product
    {
      p := product;
    }
  }

  /** construct: build part A, then B, then C, each once. */
  method Construct(builder: ConcreteBuilder)
    modifies builder.product
    ensures builder.product.Current() == Run([StepA, StepB, StepC], old(builder.product.Current()))
    ensures Complete(builder.product.Current())
  {
    ghost var p0 := builder.product.Current();
    builder.BuildPartA();
    builder.BuildPartB();
    builder.BuildPartC();
    ConstructCompletes(p0);
    assert Run([StepC], Apply(StepB, Apply(StepA, p0))) == Apply(StepC, Apply(StepB, Apply(StepA, p0)));
    assert [StepA, StepB, StepC][1..] == [StepB, StepC];
    assert [StepB, StepC][1..] == [StepC];
  }

  /** The client's run: the product taken from the builder after construct has all three parts. */
  method BuilderClient() returns (product: Product)
    ensures Complete(product.Current())
  {
    var builder := new ConcreteBuilder();
    Construct(builder);
    product := builder.GetResult();
  }
}
