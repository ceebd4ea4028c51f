/**
 * Practice/composite/CompositeBox.java: leaf boxes with a fixed price and
 * composite boxes (SmallBox, BigBox) holding a list of boxes. A composite's
 * price is the Java-int sum of its children's prices; a leaf ignores add
 * and remove.
 *
 * Nothing stops a composite from being added to itself, and then
 * calculatePrice never returns. Prices are therefore defined relative to a
 * ghost `rank` map under which every child ranks strictly below its parent,
 * which holds exactly for the acyclic box structures.
 */
module CompositeBox {
  import opened JavaLang

  datatype BoxKind = ProductBox | GameBox | ToyBox | BookBox | SmallBox | BigBox
  {
    predicate IsLeaf()
    {
      !(this == SmallBox || this == BigBox)
    }
  }

  class Box {
    const kind: BoxKind
    const name: string
    const price: int32
    var boxes: seq<Box>

    /** A leaf box with its name and price. */
    constructor Leaf(kind: BoxKind, name: string, price: int32)
      requires kind.IsLeaf()
      ensures this.kind == kind && this.name == name && this.price == price && boxes == []
    {
      this.kind := kind;
      this.name := name;
      this.price := price;
      boxes := [];
    }

    /** An empty SmallBox or BigBox. */
    constructor Composite(kind: BoxKind)
      requires !kind.IsLeaf()
      ensures this.kind == kind && boxes == []
    {
      this.kind := kind;
      name := "";
      price := 0;
      boxes := [];
    }

    /** add: a composite appends the box, duplicates included; a leaf does nothing. */
    method Add(box: Box)
      modifies this
      ensures boxes == if kind.IsLeaf() then old(boxes) else old(boxes) + [box]
    {
      if !kind.IsLeaf() {
        boxes := boxes + [box];
      }
    }

    /** remove: a composite drops the first equal box, if any; a leaf does nothing. */
    method Remove(box: Box)
      modifies this
      ensures boxes == if kind.IsLeaf() then old(boxes) else RemoveFirst(old(boxes), box)
    {
      if !kind.IsLeaf() {
        boxes := RemoveFirst(boxes, box);
      }
    }

    /** calculatePrice: a leaf's own price; a composite's sum over its boxes, with int wrap-around. */
    method CalculatePrice(ghost rank: map<Box, nat>) returns (total: int32)
      requires WellRanked(rank) && this in rank
      ensures total == Wrap32(Price(this, rank))
      decreases rank[this]
    {
      if kind.IsLeaf() {
        return price;
      }
      total := 0;
      var i := 0;
      while i < |boxes|
        invariant 0 <= i <= |boxes|
        invariant total == Wrap32(SumPrices(boxes[..i], rank, rank[this]))
      {
        var p := boxes[i].CalculatePrice(rank);
        SumPricesStep(boxes, i, rank, rank[this]);
        Wrap32Sum(SumPrices(boxes[..i], rank, rank[this]), Price(boxes[i], rank));
        total := Wrap32(total + p);
        i := i + 1;
      }
      assert boxes[..i] == boxes;
    }
  }

  /** Every box in the map's domain has all its children in the domain, at a strictly lower rank. */
  ghost predicate WellRanked(rank: map<Box, nat>)
    reads rank.Keys
  {
    forall b, i :: b in rank && 0 <= i < |b.boxes| ==> b.boxes[i] in rank && rank[b.boxes[i]] < rank[b]
  }

  /** Every box of the list is ranked, below `bound`. */
  ghost predicate RankedBelow(s: seq<Box>, rank: map<Box, nat>, bound: nat)
  {
    forall i :: 0 <= i < |s| ==> s[i] in rank && rank[s[i]] < bound
  }

  /** The exact price of a box: its own price for a leaf, the sum of its children's for a composite. */
  ghost function Price(b: Box, rank: map<Box, nat>): int
    requires WellRanked(rank) && b in rank
    reads rank.Keys
    decreases rank[b], 1
  {
    if b.kind.IsLeaf() then b.price else SumPrices(b.boxes, rank, rank[b])
  }

  /** The exact sum of the prices of a list of boxes ranked below `bound`. */
  ghost function SumPrices(s: seq<Box>, rank: map<Box, nat>, bound: nat): int
    requires WellRanked(rank)
    requires RankedBelow(s, rank, bound)
    reads rank.Keys
    decreases bound, 0, |s|
  {
    if s == [] then 0 else SumPrices(s[..|s| - 1], rank, bound) + Price(s[|s| - 1], rank)
  }

  /** The price of a concatenation of box lists is the sum of their prices. */
  lemma {:induction false} SumPricesAppend(s: seq<Box>, t: seq<Box>, rank: map<Box, nat>, bound: nat)
    requires WellRanked(rank)
    requires RankedBelow(s, rank, bound)
    requires RankedBelow(t, rank, bound)
    ensures RankedBelow(s + t, rank, bound)
    ensures SumPrices(s + t, rank, bound) == SumPrices(s, rank, bound) + SumPrices(t, rank, bound)
    decreases |t|
  {
    assert RankedBelow(s + t, rank, bound) by {
      forall i | 0 <= i < |s + t|
        ensures (s + t)[i] in rank && rank[(s + t)[i]] < bound
      {
        if i >= |s| {
          assert (s + t)[i] == t[i - |s|];
        }
      }
    }
    if t == [] {
      assert s + t == s;
    } else {
      var u := t[..|t| - 1];
      SumPricesAppend(s, u, rank, bound);
      assert (s + t)[..|s + t| - 1] == s + u;
    }
  }

  /** One more box of a list adds its price to the sum of the prefix before it. */
  lemma SumPricesStep(s: seq<Box>, i: nat, rank: map<Box, nat>, bound: nat)
    requires WellRanked(rank) && i < |s|
    requires RankedBelow(s, rank, bound)
    ensures RankedBelow(s[..i + 1], rank, bound)
    ensures SumPrices(s[..i + 1], rank, bound) == SumPrices(s[..i], rank, bound) + Price(s[i], rank)
  {
    assert s[..i + 1][..i] == s[..i];
  }

  /** Adding a box to a composite raises the sum of its children's prices by that box's price. */
  lemma SumPricesAdd(s: seq<Box>, box: Box, rank: map<Box, nat>, bound: nat)
    requires WellRanked(rank) && box in rank && rank[box] < bound
    requires RankedBelow(s, rank, bound)
    ensures RankedBelow(s + [box], rank, bound)
    ensures SumPrices(s + [box], rank, bound) == SumPrices(s, rank, bound) + Price(box, rank)
  {
    assert (s + [box])[..|s|] == s;
  }

  /**
   * Removing a box that is present lowers the sum by that box's price;
   * removing an absent one changes nothing.
   */
  lemma SumPricesRemove(s: seq<Box>, box: Box, rank: map<Box, nat>, bound: nat)
    requires WellRanked(rank) && box in rank && rank[box] < bound
    requires RankedBelow(s, rank, bound)
    ensures RankedBelow(RemoveFirst(s, box), rank, bound)
    ensures SumPrices(RemoveFirst(s, box), rank, bound)
      == if box in s then SumPrices(s, rank, bound) - Price(box, rank) else SumPrices(s, rank, bound)
  {
    if box in s {
      RemoveFirstPresent(s, box);
      var k := FirstIndex(s, box);
      RankedBelowSlice(s, 0, k, rank, bound);
      RankedBelowSlice(s, k + 1, |s|, rank, bound);
      assert s == s[0..k] + [box] + s[k + 1..|s|];
      SumPricesSplice(s[0..k], box, s[k + 1..|s|], rank, bound);
    } else {
      RemoveFirstAbsent(s, box);
    }
  }

  /** Taking one box out of the middle of a list lowers its sum by that box's price. */
  lemma SumPricesSplice(pre: seq<Box>, box: Box, post: seq<Box>, rank: map<Box, nat>, bound: nat)
    requires WellRanked(rank) && box in rank && rank[box] < bound
    requires RankedBelow(pre, rank, bound) && RankedBelow(post, rank, bound)
    ensures RankedBelow(pre + [box] + post, rank, bound) && RankedBelow(pre + post, rank, bound)
    ensures SumPrices(pre + [box] + post, rank, bound) == SumPrices(pre + post, rank, bound) + Price(box, rank)
  {
    SumPricesAdd(pre, box, rank, bound);
    SumPricesAppend(pre + [box], post, rank, bound);
    SumPricesAppend(pre, post, rank, bound);
  }

  /** Every slice of a ranked list is ranked. */
  lemma RankedBelowSlice(s: seq<Box>, i: nat, j: nat, rank: map<Box, nat>, bound: nat)
    requires i <= j <= |s|
    requires RankedBelow(s, rank, bound)
    ensures RankedBelow(s[i..j], rank, bound)
  {
    forall n | 0 <= n < j - i
      ensures s[i..j][n] in rank && rank[s[i..j][n]] < bound
    {
      assert s[i..j][n] == s[i + n];
    }
  }

  /** The boxes of the main program: Laptop 1000 and PS5 500 in the small box; Lego 50, Harry Potter 10 and the small box in the big one. */
  method BuildDemo() returns (product: Box, game: Box, toy: Box, book: Box, small: Box, big: Box)
    ensures fresh(product) && fresh(game) && fresh(toy) && fresh(book) && fresh(small) && fresh(big)
    ensures product.kind == ProductBox && product.price == 1000 && product.boxes == []
    ensures game.kind == GameBox && game.price == 500 && game.boxes == []
    ensures toy.kind == ToyBox && toy.price == 50 && toy.boxes == []
    ensures book.kind == BookBox && book.price == 10 && book.boxes == []
    ensures small.kind == SmallBox && small.boxes == [product, game]
    ensures big.kind == BigBox && big.boxes == [toy, book, small]
  {
    product, game, small := BuildSmallBox();
    toy := new Box.Leaf(ToyBox, "Lego", 50);
    book := new Box.Leaf(BookBox, "Harry Potter", 10);
    big := new Box.Composite(BigBox);
    big.Add(toy);
    big.Add(book);
    big.Add(small);
  }

  /** The small box of the main program, holding the laptop and the PS5. */
  method BuildSmallBox() returns (product: Box, game: Box, small: Box)
    ensures fresh(product) && fresh(game) && fresh(small)
    ensures product.kind == ProductBox && product.price == 1000 && product.boxes == []
    ensures game.kind == GameBox && game.price == 500 && game.boxes == []
    ensures small.kind == SmallBox && small.boxes == [product, game]
  {
    product := new Box.Leaf(ProductBox, "Laptop", 1000);
    game := new Box.Leaf(GameBox, "PS5", 500);
    small := new Box.Composite(SmallBox);
    small.Add(product);
    small.Add(game);
  }

  /** The demo structure, as the ranked boxes the prices are defined on. */
  ghost predicate DemoStructure(product: Box, game: Box, toy: Box, book: Box, small: Box, big: Box)
    reads product, game, toy, book, small, big
  {
    && product.kind.IsLeaf() && product.price == 1000 && product.boxes == []
    && game.kind.IsLeaf() && game.price == 500 && game.boxes == []
    && toy.kind.IsLeaf() && toy.price == 50 && toy.boxes == []
    && book.kind.IsLeaf() && book.price == 10 && book.boxes == []
    && !small.kind.IsLeaf() && small.boxes == [product, game]
    && !big.kind.IsLeaf() && big.boxes == [toy, book, small]
  }

  /** The ranks of the demo boxes: leaves 0, the small box 1, the big box 2. */
  lemma DemoRanked(product: Box, game: Box, toy: Box, book: Box, small: Box, big: Box, rank: map<Box, nat>)
    requires DemoStructure(product, game, toy, book, small, big)
    requires rank == map[product := 0, game := 0, toy := 0, book := 0, small := 1, big := 2]
    ensures rank[product] == 0 && rank[game] == 0 && rank[toy] == 0 && rank[book] == 0
    ensures rank[small] == 1 && rank[big] == 2
    ensures WellRanked(rank)
  {
    assert small != big;
  }

  /** On the demo structure the small box costs 1500 and the big box 1560. */
  lemma DemoPrices(product: Box, game: Box, toy: Box, book: Box, small: Box, big: Box, rank: map<Box, nat>)
    requires DemoStructure(product, game, toy, book, small, big)
    requires rank == map[product := 0, game := 0, toy := 0, book := 0, small := 1, big := 2]
    ensures WellRanked(rank)
    ensures Price(small, rank) == 1500 && Price(big, rank) == 1560
  {
    DemoRanked(product, game, toy, book, small, big, rank);
    SmallBoxPrice(product, game, small, rank);
    BigBoxPrice(toy, book, small, big, rank);
  }

  /** The small box holds the laptop and the PS5. */
  lemma SmallBoxPrice(product: Box, game: Box, small: Box, rank: map<Box, nat>)
    requires WellRanked(rank)
    requires product in rank && game in rank && small in rank
    requires rank[product] == 0 && rank[game] == 0 && rank[small] == 1
    requires product.kind.IsLeaf() && product.price == 1000
    requires game.kind.IsLeaf() && game.price == 500
    requires !small.kind.IsLeaf() && small.boxes == [product, game]
    ensures Price(small, rank) == 1500
  {
    assert Price(small, rank) == SumPrices([product, game], rank, 1);
    SumPricesAdd([], product, rank, 1);
    SumPricesAdd([product], game, rank, 1);
    assert [product] + [game] == [product, game];
  }

  /** The big box holds the Lego, the book and the small box. */
  lemma BigBoxPrice(toy: Box, book: Box, small: Box, big: Box, rank: map<Box, nat>)
    requires WellRanked(rank)
    requires toy in rank && book in rank && small in rank && big in rank
    requires rank[toy] == 0 && rank[book] == 0 && rank[small] == 1 && rank[big] == 2
    requires toy.kind.IsLeaf() && toy.price == 50
    requires book.kind.IsLeaf() && book.price == 10
    requires Price(small, rank) == 1500
    requires !big.kind.IsLeaf() && big.boxes == [toy, book, small]
    ensures Price(big, rank) == 1560
  {
    assert Price(big, rank) == SumPrices([toy, book, small], rank, 2);
    SumPricesThree(toy, book, small, rank, 2);
  }

  /** The sum over a list of three boxes. */
  lemma SumPricesThree(x: Box, y: Box, z: Box, rank: map<Box, nat>, bound: nat)
    requires WellRanked(rank)
    requires x in rank && rank[x] < bound && y in rank && rank[y] < bound && z in rank && rank[z] < bound
    ensures RankedBelow([x, y, z], rank, bound)
    ensures SumPrices([x, y, z], rank, bound) == Price(x, rank) + Price(y, rank) + Price(z, rank)
  {
    SumPricesAdd([], x, rank, bound);
    assert [] + [x] == [x];
    SumPricesAdd([x], y, rank, bound);
    assert [x] + [y] == [x, y];
    SumPricesAdd([x, y], z, rank, bound);
    assert [x, y] + [z] == [x, y, z];
  }

  /** The main program's two prices. */
  method Demo() returns (smallPrice: int32, bigPrice: int32)
    ensures smallPrice == 1500 && bigPrice == 1560
  {
    var product, game, toy, book, small, big := BuildDemo();
    ghost var rank := map[product := 0, game := 0, toy := 0, book := 0, small := 1, big := 2];
    DemoPrices(product, game, toy, book, small, big, rank);
    smallPrice := small.CalculatePrice(rank);
    bigPrice := big.CalculatePrice(rank);
  }
}
