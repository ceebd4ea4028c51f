/**
 * DesignPatterns/Flyweight: two static caches of tree types keyed by
 * name + color + otherTreeData. A hit returns the stored object; a miss
 * creates one, stores it and returns it. java.awt.Color enters only through
 * its string form, modelled as a string. Each static map is held by one
 * factory object.
 */
module TreeFlyweight {
  import opened JavaLang

  /** The cache key of both factories: the three strings run together, with no separator. */
  function TreeKey(name: string, color: string, otherTreeData: string): (r: string)
    ensures |r| == |name| + |color| + |otherTreeData|
    ensures r[..|name|] == name && r[|r| - |otherTreeData|..] == otherTreeData
  {
    name + color + otherTreeData
  }

  /** The key only sees the concatenation: ("Oak", "Red") and ("Oa", "kRed") collide. */
  lemma TreeKeyCollision()
    ensures TreeKey("Oak", "Red", "") == TreeKey("Oa", "kRed", "")
  {
    assert "Oak" + "Red" == "Oa" + "kRed";
  }

  // ---------------------------------------------------------------------------
  // TreeFactory.java

  class TreeType {
    const name: string
    const color: string
    const otherTreeData: string
    const isFruitTree: bool
    const countOfFruits: int32

    constructor (name: string, color: string, otherTreeData: string, isFruitTree: bool, countOfFruits: int32)
      ensures this.name == name && this.color == color && this.otherTreeData == otherTreeData
      ensures this.isFruitTree == isFruitTree && this.countOfFruits == countOfFruits
    {
      this.name := name;
      this.color := color;
      this.otherTreeData := otherTreeData;
      this.isFruitTree := isFruitTree;
      this.countOfFruits := countOfFruits;
    }
  }

  class TreeFactory {
    var treeTypes: map<string, TreeType>

    constructor ()
      ensures treeTypes == map[]
    {
      treeTypes := map[];
    }

    /** getTreeType: the stored type on a hit; on a miss a new type from all five arguments, stored under the key. */
    method GetTreeType(name: string, color: string, otherTreeData: string, isFruitTree: bool, countOfFruits: int32)
      returns (result: TreeType)
      modifies this
      ensures TreeKey(name, color, otherTreeData) in old(treeTypes) ==>
        result == old(treeTypes)[TreeKey(name, color, otherTreeData)] && treeTypes == old(treeTypes)
      ensures TreeKey(name, color, otherTreeData) !in old(treeTypes) ==>
        fresh(result) && treeTypes == old(treeTypes)[TreeKey(name, color, otherTreeData) := result]
      ensures TreeKey(name, color, otherTreeData) !in old(treeTypes) ==>
        result.name == name && result.color == color && result.otherTreeData == otherTreeData
        && result.isFruitTree == isFruitTree && result.countOfFruits == countOfFruits
    {
      var key := TreeKey(name, color, otherTreeData);
      if key in treeTypes {
        result := treeTypes[key];
      } else {
        result := new TreeType(name, color, otherTreeData, isFruitTree, countOfFruits);
        treeTypes := treeTypes[key := result];
      }
    }
  }

  /**
   * isFruitTree and countOfFruits are not part of the key: a later request
   * differing only in them gets the type created first, with its fruit data.
   */
  method FruitDataIgnoredOnHit() returns (first: TreeType, second: TreeType)
    ensures first == second && second.isFruitTree && second.countOfFruits == 10
  {
    var factory := new TreeFactory();
    first := factory.GetTreeType("Apple", "Green", "", true, 10);
    second := factory.GetTreeType("Apple", "Green", "", false, 0);
  }

  // ---------------------------------------------------------------------------
  // TreeTypeFactory.java

  class BasicTreeType {
    const color: string

    constructor (color: string)
      ensures this.color == color
    {
      this.color := color;
    }
  }

  class TreeTypeFactory {
    var treeTypes: map<string, BasicTreeType>

    constructor ()
      ensures treeTypes == map[]
    {
      treeTypes := map[];
    }

    /** getTreeType: the stored type on a hit; on a miss a new type from the color alone. */
    method GetTreeType(name: string, color: string, otherTreeData: string) returns (result: BasicTreeType)
      modifies this
      ensures TreeKey(name, color, otherTreeData) in old(treeTypes) ==>
        result == old(treeTypes)[TreeKey(name, color, otherTreeData)] && treeTypes == old(treeTypes)
      ensures TreeKey(name, color, otherTreeData) !in old(treeTypes) ==>
        fresh(result) && result.color == color
        && treeTypes == old(treeTypes)[TreeKey(name, color, otherTreeData) := result]
    {
      var key := TreeKey(name, color, otherTreeData);
      if key in treeTypes {
        result := treeTypes[key];
      } else {
        result := new BasicTreeType(color);
        treeTypes := treeTypes[key := result];
      }
    }
  }

  /**
   * The map only grows: after any sequence of requests every key stored
   * before still maps to the same object.
   */
  method RequestsOnlyGrow(factory: TreeTypeFactory, requests: seq<(string, string, string)>)
    modifies factory
    ensures forall k :: k in old(factory.treeTypes) ==> k in factory.treeTypes && factory.treeTypes[k] == old(factory.treeTypes)[k]
    ensures forall r :: r in requests ==> TreeKey(r.0, r.1, r.2) in factory.treeTypes
  {
    var i := 0;
    while i < |requests|
      invariant 0 <= i <= |requests|
      invariant forall k :: k in old(factory.treeTypes) ==> k in factory.treeTypes && factory.treeTypes[k] == old(factory.treeTypes)[k]
      invariant forall j :: 0 <= j < i ==> TreeKey(requests[j].0, requests[j].1, requests[j].2) in factory.treeTypes
    {
      var _ := factory.GetTreeType(requests[i].0, requests[i].1, requests[i].2);
      i := i + 1;
    }
  }
}
