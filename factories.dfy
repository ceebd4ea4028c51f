/**
 * The abstract-factory producers: DesignPatterns/abstractFactory picks a
 * shape factory by a flag and a double-bordered shape by name (ignoring
 * case); Practice/abstractFactory picks a UI theme factory by name
 * (ignoring case) whose products all share its theme. The rounded and plain
 * shape factories are not part of this model beyond their identity. Every
 * call creates a new object; an unknown choice gives null.
 */
module AbstractFactories {
  import opened JavaLang

  // ---------------------------------------------------------------------------
  // FactoryProducer.java, DoubleBorderFactory.java

  datatype ShapeFactoryKind = RoundedShapeFactory | ShapeFactory | DoubleBorderFactory

  datatype ShapeKind = DoubleBorderedRectangle | DoubleBorderedTriangle

  class Shape {
    const kind: ShapeKind

    constructor (kind: ShapeKind)
      ensures this.kind == kind
    {
      this.kind := kind;
    }
  }

  /** The shape a double-border factory makes for a name; None is null. */
  function DoubleBorderShapeFor(shapeType: string): Option<ShapeKind>
  {
    if EqualsIgnoreCase(shapeType, "DOUBLERECTANGLE") then Some(DoubleBorderedRectangle)
    else if EqualsIgnoreCase(shapeType, "DOUBLETRIANGLE") then Some(DoubleBorderedTriangle)
    else None
  }

  /**
   * A name selects the rectangle exactly when it equals "DOUBLERECTANGLE"
   * ignoring case, the triangle exactly when it equals "DOUBLETRIANGLE",
   * and null exactly when it equals neither.
   */
  lemma DoubleBorderShapeForSpec(shapeType: string)
    ensures DoubleBorderShapeFor(shapeType) == Some(DoubleBorderedRectangle) <==> EqualsIgnoreCase(shapeType, "DOUBLERECTANGLE")
    ensures DoubleBorderShapeFor(shapeType) == Some(DoubleBorderedTriangle) <==> EqualsIgnoreCase(shapeType, "DOUBLETRIANGLE")
    ensures DoubleBorderShapeFor(shapeType).None? <==>
      !EqualsIgnoreCase(shapeType, "DOUBLERECTANGLE") && !EqualsIgnoreCase(shapeType, "DOUBLETRIANGLE")
  {
  }

  /** Each shape name is recognised in any letter case, and the two names never select each other's shape. */
  lemma DoubleBorderShapeNames()
    ensures DoubleBorderShapeFor("doubleRectangle") == Some(DoubleBorderedRectangle)
    ensures DoubleBorderShapeFor("DoubleTriangle") == Some(DoubleBorderedTriangle)
    ensures DoubleBorderShapeFor("RECTANGLE") == None
  {
    assert EqualsIgnoreCase("doubleRectangle", "DOUBLERECTANGLE");
    assert ToLowerAscii("DoubleTriangle"[6]) != ToLowerAscii("DOUBLERECTANGLE"[6]);
    assert EqualsIgnoreCase("DoubleTriangle", "DOUBLETRIANGLE");
  }

  class ShapeFactoryObject {
    const kind: ShapeFactoryKind

    constructor (kind: ShapeFactoryKind)
      ensures this.kind == kind
    {
      this.kind := kind;
    }

    /** DoubleBorderFactory.getShape: a new shape for a known name, null otherwise. */
    method GetShape(shapeType: string) returns (s: Shape?)
      requires kind == DoubleBorderFactory
      ensures DoubleBorderShapeFor(shapeType).None? <==> s == null
      ensures s != null ==> fresh(s) && s.kind == DoubleBorderShapeFor(shapeType).value
    {
      if EqualsIgnoreCase(shapeType, "DOUBLERECTANGLE") {
        s := new Shape(DoubleBorderedRectangle);
      } else if EqualsIgnoreCase(shapeType, "DOUBLETRIANGLE") {
        s := new Shape(DoubleBorderedTriangle);
      } else {
        s := null;
      }
    }
  }

  /** getFactory: a new rounded-shape factory when asked for rounded shapes, a new plain one otherwise. */
  method GetFactory(rounded: bool) returns (f: ShapeFactoryObject)
    ensures fresh(f)
    ensures f.kind == (if rounded then RoundedShapeFactory else ShapeFactory)
  {
    if rounded {
      f := new ShapeFactoryObject(RoundedShapeFactory);
    } else {
      f := new ShapeFactoryObject(ShapeFactory);
    }
  }

  /** getDoubleBorderFactory: a new double-border factory, or null. */
  method GetDoubleBorderFactory(doubleBorder: bool) returns (f: ShapeFactoryObject?)
    ensures doubleBorder <==> f != null
    ensures f != null ==> fresh(f) && f.kind == DoubleBorderFactory
  {
    if doubleBorder {
      f := new ShapeFactoryObject(DoubleBorderFactory);
    } else {
      f := null;
    }
  }

  // ---------------------------------------------------------------------------
  // AbstractFactory.java (Practice)

  datatype Theme = LightTheme | DarkTheme

  datatype WidgetKind = Button | Checkbox

  class Widget {
    const theme: Theme
    const kind: WidgetKind

    constructor (theme: Theme, kind: WidgetKind)
      ensures this.theme == theme && this.kind == kind
    {
      this.theme := theme;
      this.kind := kind;
    }
  }

  /** The theme the producer selects for a choice; None is null. */
  function ThemeFor(choice: string): Option<Theme>
  {
    if EqualsIgnoreCase(choice, "LightTheme") then Some(LightTheme)
    else if EqualsIgnoreCase(choice, "DarkTheme") then Some(DarkTheme)
    else None
  }

  /**
   * A choice selects the light theme exactly when it equals "LightTheme"
   * ignoring case, the dark theme exactly when it equals "DarkTheme", and
   * null exactly when it equals neither.
   */
  lemma ThemeForSpec(choice: string)
    ensures ThemeFor(choice) == Some(LightTheme) <==> EqualsIgnoreCase(choice, "LightTheme")
    ensures ThemeFor(choice) == Some(DarkTheme) <==> EqualsIgnoreCase(choice, "DarkTheme")
    ensures ThemeFor(choice).None? <==> !EqualsIgnoreCase(choice, "LightTheme") && !EqualsIgnoreCase(choice, "DarkTheme")
  {
  }

  /** The choice is read ignoring letter case, and the two themes are told apart by their first letter. */
  lemma ThemeChoices()
    ensures ThemeFor("lighttheme") == Some(LightTheme)
    ensures ThemeFor("DARKTHEME") == Some(DarkTheme)
    ensures ThemeFor("Blue") == None
  {
    assert EqualsIgnoreCase("lighttheme", "LightTheme");
    assert ToLowerAscii("DARKTHEME"[0]) != ToLowerAscii("LightTheme"[0]);
    assert EqualsIgnoreCase("DARKTHEME", "DarkTheme");
  }

  class UIFactory {
    const theme: Theme

    constructor (theme: Theme)
      ensures this.theme == theme
    {
      this.theme := theme;
    }

    /** createButton: a new button of this factory's theme. */
    method CreateButton() returns (b: Widget)
      ensures fresh(b) && b.kind == Button && b.theme == theme
    {
      b := new Widget(theme, Button);
    }

    /** createCheckbox: a new checkbox of this factory's theme. */
    method CreateCheckbox() returns (c: Widget)
      ensures fresh(c) && c.kind == Checkbox && c.theme == theme
    {
      c := new Widget(theme, Checkbox);
    }
  }

  /** FactoryProducer.getFactory: a new factory for the chosen theme, or null. */
  method GetThemeFactory(choice: string) returns (f: UIFactory?)
    ensures ThemeFor(choice).None? <==> f == null
    ensures f != null ==> fresh(f) && f.theme == ThemeFor(choice).value
  {
    if EqualsIgnoreCase(choice, "LightTheme") {
      f := new UIFactory(LightTheme);
    } else if EqualsIgnoreCase(choice, "DarkTheme") {
      f := new UIFactory(DarkTheme);
    } else {
      f := null;
    }
  }

  /** The client's run: each factory's button and checkbox share its theme, and the themes never mix. */
  method ThemeClient() returns (lightButton: Widget, lightCheckbox: Widget, darkButton: Widget, darkCheckbox: Widget)
    ensures lightButton.theme == LightTheme && lightCheckbox.theme == LightTheme
    ensures darkButton.theme == DarkTheme && darkCheckbox.theme == DarkTheme
    ensures lightButton.kind == Button && lightCheckbox.kind == Checkbox
  {
    assert EqualsIgnoreCase("LightTheme", "LightTheme");
    var light := GetThemeFactory("LightTheme");
    assert ToLowerAscii("DarkTheme"[0]) != ToLowerAscii("LightTheme"[0]);
    assert EqualsIgnoreCase("DarkTheme", "DarkTheme");
    var dark := GetThemeFactory("DarkTheme");
    lightButton := light.CreateButton();
    lightCheckbox := light.CreateCheckbox();
    darkButton := dark.CreateButton();
    darkCheckbox := dark.CreateCheckbox();
  }
}
