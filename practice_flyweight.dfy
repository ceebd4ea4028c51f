/**
 * Practice/flyweight: two factories that cache flyweight objects in a
 * HashMap through computeIfAbsent. A key already present yields the stored
 * object itself; a missing key creates one object, stores it and never
 * replaces it afterwards.
 */
module PracticeFlyweight {
  import opened JavaLang

  // ---------------------------------------------------------------------------
  // FlyWeightStructure.java

  datatype FlyweightKind = ConcreteFlyweight | UnsharedConcreteFlyweight

  class Flyweight {
    const kind: FlyweightKind
    const intrinsicState: string

    constructor (kind: FlyweightKind, intrinsicState: string)
      ensures this.kind == kind && this.intrinsicState == intrinsicState
    {
      this.kind := kind;
      this.intrinsicState := intrinsicState;
    }
  }

  /** What a miss creates: a shared flyweight for exactly "shared", an unshared one for any other key. */
  predicate CreatedFor(key: string, f: Flyweight)
  {
    if key == "shared" then f.kind == ConcreteFlyweight && f.intrinsicState == "Shared"
    else f.kind == UnsharedConcreteFlyweight && f.intrinsicState == "Unshared"
  }

  class FlyweightFactory {
    var flyweights: map<string, Flyweight>

    constructor ()
      ensures flyweights == map[]
    {
      flyweights := map[];
    }

    /** getFlyweight: the cached object for the key, created and cached on the first request. */
    method GetFlyweight(key: string) returns (f: Flyweight)
      modifies this
      ensures key in old(flyweights) ==> f == old(flyweights)[key] && flyweights == old(flyweights)
      ensures key !in old(flyweights) ==> fresh(f) && CreatedFor(key, f) && flyweights == old(flyweights)[key := f]
    {
      if key in flyweights {
        f := flyweights[key];
      } else {
        if key == "shared" {
          f := new Flyweight(ConcreteFlyweight, "Shared");
        } else {
          f := new Flyweight(UnsharedConcreteFlyweight, "Unshared");
        }
        flyweights := flyweights[key := f];
      }
    }
  }

  /**
   * Asking twice for the same key gives the identical object, whether the
   * first request created it or not, and the second request adds nothing.
   */
  method RepeatedRequestsShare(factory: FlyweightFactory, key: string) returns (first: Flyweight, second: Flyweight)
    modifies factory
    ensures first == second && key in factory.flyweights && factory.flyweights[key] == first
    ensures old(factory.flyweights).Keys <= factory.flyweights.Keys
    ensures |factory.flyweights.Keys - old(factory.flyweights).Keys| <= 1
  {
    first := factory.GetFlyweight(key);
    ghost var between := factory.flyweights;
    second := factory.GetFlyweight(key);
    assert factory.flyweights == between;
    if key !in old(factory.flyweights) {
      assert factory.flyweights.Keys - old(factory.flyweights).Keys == {key};
    } else {
      assert factory.flyweights.Keys - old(factory.flyweights).Keys == {};
    }
  }

  // ---------------------------------------------------------------------------
  // TextEditorFlyWeight.java

  class FontFlyweight {
    const fontName: string
    const fontSize: int32
    const fontColor: string

    constructor (fontName: string, fontSize: int32, fontColor: string)
      ensures this.fontName == fontName && this.fontSize == fontSize && this.fontColor == fontColor
    {
      this.fontName := fontName;
      this.fontSize := fontSize;
      this.fontColor := fontColor;
    }
  }

  /** The cache key: the four arguments joined by underscores, the key first and the colour last. */
  function FontKey(key: string, fontName: string, fontSize: int32, fontColor: string): (r: string)
    ensures |r| > |key| + |fontColor| + 3
    ensures r[..|key|] == key && r[|key|] == '_' && r[|r| - |fontColor|..] == fontColor
  {
    key + "_" + fontName + "_" + IntToString(fontSize) + "_" + fontColor
  }

  /**
   * Two argument tuples can join to the same key when a name contains an
   * underscore: ("a_b", "c") and ("a", "b_c") collide.
   */
  lemma FontKeyCollision()
    ensures ("a_b", "c") != ("a", "b_c")
    ensures FontKey("a_b", "c", 12, "Black") == FontKey("a", "b_c", 12, "Black")
  {
    assert "a_b" + "_" + "c" == "a" + "_" + "b_c";
  }

  class FontFlyweightFactory {
    var fonts: map<string, FontFlyweight>

    /** Distinct keys hold distinct flyweights. */
    ghost predicate Valid()
      reads this
    {
      forall k1, k2 :: k1 in fonts && k2 in fonts && k1 != k2 ==> fonts[k1] != fonts[k2]
    }

    constructor ()
      ensures fonts == map[] && Valid()
    {
      fonts := map[];
    }

    /** getFont: the flyweight cached under the joined key, created from these arguments on a miss. */
    method GetFont(key: string, fontName: string, fontSize: int32, fontColor: string) returns (f: FontFlyweight)
      requires Valid()
      modifies this
      ensures Valid()
      ensures FontKey(key, fontName, fontSize, fontColor) in old(fonts) ==>
        f == old(fonts)[FontKey(key, fontName, fontSize, fontColor)] && fonts == old(fonts)
      ensures FontKey(key, fontName, fontSize, fontColor) !in old(fonts) ==>
        fresh(f) && fonts == old(fonts)[FontKey(key, fontName, fontSize, fontColor) := f]
      ensures FontKey(key, fontName, fontSize, fontColor) !in old(fonts) ==>
        f.fontName == fontName && f.fontSize == fontSize && f.fontColor == fontColor
    {
      var k := FontKey(key, fontName, fontSize, fontColor);
      if k in fonts {
        f := fonts[k];
      } else {
        f := new FontFlyweight(fontName, fontSize, fontColor);
        fonts := fonts[k := f];
      }
    }
  }

  /**
   * The editor's run: the two identical Arial requests share one flyweight,
   * the Times New Roman request gets a different one.
   */
  method EditorDemo() returns (font1: FontFlyweight, font2: FontFlyweight, font3: FontFlyweight)
    ensures font1 == font2 && font3 != font1
    ensures font1.fontName == "Arial" && font3.fontName == "Times New Roman" && font3.fontSize == 14
  {
    var factory := new FontFlyweightFactory();
    font1 := factory.GetFont("Arial", "Arial", 12, "Black");
    font2 := factory.GetFont("Arial", "Arial", 12, "Black");
    assert FontKey("Arial", "Arial", 12, "Black")[0] == 'A';
    assert FontKey("Times New Roman", "Times New Roman", 14, "Red")[0] == 'T';
    font3 := factory.GetFont("Times New Roman", "Times New Roman", 14, "Red");
  }

  /**
   * Colliding arguments share one flyweight, which keeps the first caller's
   * attributes.
   */
  method CollidingArgumentsShare() returns (f1: FontFlyweight, f2: FontFlyweight)
    ensures f1 == f2 && f2.fontName == "c"
  {
    var factory := new FontFlyweightFactory();
    f1 := factory.GetFont("a_b", "c", 12, "Black");
    FontKeyCollision();
    f2 := factory.GetFont("a", "b_c", 12, "Black");
  }
}
