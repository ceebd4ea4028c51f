/**
 * DesignPatterns/Strategy: three arithmetic operations on Java ints, each
 * also a link of a chain of responsibility. computeInRange applies a node's
 * own operation when both arguments lie in its band, passes the pair to its
 * successor otherwise, and gives 0 past the end of the chain. The Context
 * runs a configured operation directly, and always evaluates the fixed
 * chain Add -> Subtract -> Multiply for computeInRange.
 */
module StrategyChain {
  import opened JavaLang

  datatype Operation = Add | Subtract | Multiply

  /**
   * A Computer node: its operation and its successor. Add is built with a
   * (possibly null) Subtract, Subtract with no successor or a Multiply, and
   * Multiply never gets a successor.
   */
  datatype Computer = Computer(op: Operation, next: Option<Computer>)

  /** The exact mathematical result of an operation. */
  function Exact(op: Operation, a: int, b: int): int
  {
    match op
    case Add => a + b
    case Subtract => a - b
    case Multiply => a * b
  }

  /** doOperation: the Java int result, which wraps around on overflow. */
  function DoOperation(op: Operation, a: int32, b: int32): (r: int32)
    ensures INT_MIN <= Exact(op, a, b) <= INT_MAX ==> r == Exact(op, a, b)
    ensures (Exact(op, a, b) - r) % 0x1_0000_0000 == 0
  {
    Wrap32(Exact(op, a, b))
  }

  /** The band a node accepts: both arguments in [0,100], [100,1000] or [1000,5000]. */
  predicate InBand(op: Operation, a: int, b: int)
  {
    match op
    case Add => 0 <= a <= 100 && 0 <= b <= 100
    case Subtract => 100 <= a <= 1000 && 100 <= b <= 1000
    case Multiply => 1000 <= a <= 5000 && 1000 <= b <= 5000
  }

  /** Inside its band no operation overflows: the largest product is 25,000,000. */
  lemma InBandExact(op: Operation, a: int32, b: int32)
    requires InBand(op, a, b)
    ensures DoOperation(op, a, b) == Exact(op, a, b)
    ensures op == Multiply ==> 1000000 <= Exact(op, a, b) <= 25000000
  {
    if op == Multiply {
      ProductInBand(a, b);
    }
  }

  /** Both factors in [1000, 5000]: the product lies in [1,000,000, 25,000,000]. */
  lemma ProductInBand(a: int, b: int)
    requires 1000 <= a <= 5000 && 1000 <= b <= 5000
    ensures 1000000 <= a * b <= 25000000
  {
    var x, y := a - 1000, b - 1000;
    MulAtMost(x, y, 4000);
    assert a * b == 1000000 + 1000 * x + 1000 * y + x * y;
  }

  /** A product of naturals grows with its first factor. */
  lemma {:induction false} MulAtMost(x: nat, y: nat, c: nat)
    requires x <= c
    ensures 0 <= x * y <= c * y
    decreases y
  {
    if y > 0 {
      MulAtMost(x, y - 1, c);
      assert x * y == x * (y - 1) + x;
      assert c * y == c * (y - 1) + c;
    }
  }

  /** The operations of a chain, in order. */
  function Ops(c: Computer): (ops: seq<Operation>)
    ensures |ops| > 0 && ops[0] == c.op
  {
    match c.next
    case None => [c.op]
    case Some(n) => [c.op] + Ops(n)
  }

  /** computeInRange: the first node whose band holds the pair computes; past the end the result is 0. */
  function ComputeInRange(c: Computer, a: int32, b: int32): int32
  {
    if InBand(c.op, a, b) then DoOperation(c.op, a, b)
    else match c.next
      case Some(n) => ComputeInRange(n, a, b)
      case None => 0
  }

  /** Node `i` is the first of the chain whose band holds the pair. */
  predicate FirstInBand(ops: seq<Operation>, a: int, b: int, i: int)
  {
    0 <= i < |ops| && InBand(ops[i], a, b)
    && forall j :: 0 <= j < i ==> !InBand(ops[j], a, b)
  }

  /**
   * computeInRange gives the exact result of the first node whose band holds
   * the pair, and 0 when no node's band does.
   */
  lemma ComputeInRangeSpec(c: Computer, a: int32, b: int32)
    ensures forall i :: FirstInBand(Ops(c), a, b, i) ==> ComputeInRange(c, a, b) == Exact(Ops(c)[i], a, b)
    ensures (forall i :: 0 <= i < |Ops(c)| ==> !InBand(Ops(c)[i], a, b)) ==> ComputeInRange(c, a, b) == 0
  {
    forall i | FirstInBand(Ops(c), a, b, i)
      ensures ComputeInRange(c, a, b) == Exact(Ops(c)[i], a, b)
    {
      ComputeInRangeFirst(c, a, b, i);
    }
    if forall i :: 0 <= i < |Ops(c)| ==> !InBand(Ops(c)[i], a, b) {
      ComputeInRangeNone(c, a, b);
    }
  }

  /** The first node whose band holds the pair computes the result. */
  lemma {:induction false} ComputeInRangeFirst(c: Computer, a: int32, b: int32, i: int)
    requires FirstInBand(Ops(c), a, b, i)
    ensures ComputeInRange(c, a, b) == Exact(Ops(c)[i], a, b)
  {
    var ops := Ops(c);
    if i == 0 {
      InBandExact(c.op, a, b);
    } else {
      assert !InBand(ops[0], a, b);
      var n := c.next.value;
      assert ops == [c.op] + Ops(n);
      assert FirstInBand(Ops(n), a, b, i - 1) by {
        forall j | 0 <= j < i - 1
          ensures !InBand(Ops(n)[j], a, b)
        {
          assert Ops(n)[j] == ops[j + 1];
        }
      }
      ComputeInRangeFirst(n, a, b, i - 1);
    }
  }

  /** When no node's band holds the pair the chain gives 0. */
  lemma {:induction false} ComputeInRangeNone(c: Computer, a: int32, b: int32)
    requires forall i :: 0 <= i < |Ops(c)| ==> !InBand(Ops(c)[i], a, b)
    ensures ComputeInRange(c, a, b) == 0
  {
    assert !InBand(Ops(c)[0], a, b);
    match c.next
    case None =>
    case Some(n) =>
      var ops := Ops(c);
      assert ops == [c.op] + Ops(n);
      forall k | 0 <= k < |Ops(n)|
        ensures !InBand(Ops(n)[k], a, b)
      {
        assert Ops(n)[k] == ops[k + 1];
      }
      ComputeInRangeNone(n, a, b);
  }

  /** A lone Multiply (which never gets a successor) or a Subtract built with no successor gives 0 outside its band. */
  lemma StandaloneOutsideBand(op: Operation, a: int32, b: int32)
    requires !InBand(op, a, b)
    ensures ComputeInRange(Computer(op, None), a, b) == 0
  {
  }

  /** The chain Context.computeInRange builds: Add -> Subtract -> Multiply. */
  function DefaultChain(): Computer
  {
    Computer(Add, Some(Computer(Subtract, Some(Computer(Multiply, None)))))
  }

  /** The Context keeps the strategy it was built with. */
  datatype Context = Context(strategy: Operation)

  /** executeStrategy runs the configured operation. */
  function ExecuteStrategy(ctx: Context, a: int32, b: int32): (r: int32)
    ensures INT_MIN <= Exact(ctx.strategy, a, b) <= INT_MAX ==> r == Exact(ctx.strategy, a, b)
  {
    DoOperation(ctx.strategy, a, b)
  }

  /** Context.computeInRange ignores the configured strategy and evaluates the default chain. */
  function ContextComputeInRange(ctx: Context, a: int32, b: int32): int32
  {
    ComputeInRange(DefaultChain(), a, b)
  }

  /**
   * The bands of Context.computeInRange: a + b if both are in [0,100],
   * otherwise a - b if both are in [100,1000], otherwise a * b if both are
   * in [1000,5000], otherwise 0; the configured strategy plays no part.
   */
  lemma ContextBands(ctx: Context, a: int32, b: int32)
    ensures InBand(Add, a, b) ==> ContextComputeInRange(ctx, a, b) == a + b
    ensures !InBand(Add, a, b) && InBand(Subtract, a, b) ==> ContextComputeInRange(ctx, a, b) == a - b
    ensures !InBand(Add, a, b) && !InBand(Subtract, a, b) && InBand(Multiply, a, b)
      ==> ContextComputeInRange(ctx, a, b) == a * b
    ensures !InBand(Add, a, b) && !InBand(Subtract, a, b) && !InBand(Multiply, a, b)
      ==> ContextComputeInRange(ctx, a, b) == 0
    ensures forall other: Context :: ContextComputeInRange(other, a, b) == ContextComputeInRange(ctx, a, b)
  {
    var ops := Ops(DefaultChain());
    assert ops == [Add, Subtract, Multiply];
    ComputeInRangeSpec(DefaultChain(), a, b);
    if InBand(Add, a, b) {
      assert FirstInBand(ops, a, b, 0);
    } else if InBand(Subtract, a, b) {
      assert FirstInBand(ops, a, b, 1);
    } else if InBand(Multiply, a, b) {
      assert FirstInBand(ops, a, b, 2);
    }
  }

  /**
   * Overlapping band edges go to the earlier node, and pairs split across
   * bands fall through to 0: (100,100) gives 200, (1000,1000) gives 0,
   * (10,500) gives 0, (10,5) gives 15 and (10000,20000) gives 0.
   */
  lemma ContextExamples(ctx: Context)
    ensures ContextComputeInRange(ctx, 100, 100) == 200
    ensures ContextComputeInRange(ctx, 1000, 1000) == 0
    ensures ContextComputeInRange(ctx, 10, 500) == 0
    ensures ContextComputeInRange(ctx, 10, 5) == 15
    ensures ContextComputeInRange(ctx, 10000, 20000) == 0
  {
    ContextBands(ctx, 100, 100);
    ContextBands(ctx, 1000, 1000);
    ContextBands(ctx, 10, 500);
    ContextBands(ctx, 10, 5);
    ContextBands(ctx, 10000, 20000);
  }
}
