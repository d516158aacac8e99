/** UI component styling: decorators wrap a component and prefix its
    rendering; the plain decorator is transparent. */
module UIDecorators {

  datatype Component =
    | Basic
    | Plain(inner: Component)
    | Border(inner: Component)
    | Color(color: string, inner: Component)

  const BASIC: string := "Basic UI Component"

  /** `render` of each class. */
  function Render(c: Component): (s: string)
    ensures |s| >= |BASIC| && s[|s| - |BASIC|..] == BASIC
  {
    match c
    case Basic => BASIC
    case Plain(inner) => Render(inner)
    case Border(inner) => "Border + " + Render(inner)
    case Color(color, inner) => "Color(" + color + ") + " + Render(inner)
  }

  /** A decorator layer, listed outermost first in a stack. */
  datatype Layer = PlainLayer | BorderLayer | ColorLayer(color: string)

  function Wrap(stack: seq<Layer>, base: Component): Component
  {
    if |stack| == 0 then base
    else
      match stack[0]
      case PlainLayer => Plain(Wrap(stack[1..], base))
      case BorderLayer => Border(Wrap(stack[1..], base))
      case ColorLayer(color) => Color(color, Wrap(stack[1..], base))
  }

  /** The text each layer contributes. */
  function Prefix(l: Layer): string
  {
    match l
    case PlainLayer => ""
    case BorderLayer => "Border + "
    case ColorLayer(color) => "Color(" + color + ") + "
  }

  function Prefixes(stack: seq<Layer>): string
  {
    if |stack| == 0 then "" else Prefix(stack[0]) + Prefixes(stack[1..])
  }

  /** Any render stack is the layers' prefixes, outermost first, followed by
      the basic component's text. */
  lemma {:induction false} RenderStack(stack: seq<Layer>)
    ensures Render(Wrap(stack, Basic)) == Prefixes(stack) + BASIC
  {
    if |stack| > 0 {
      var rest := Wrap(stack[1..], Basic);
      var tail := Prefixes(stack[1..]);
      RenderStack(stack[1..]);
      assert Render(rest) == tail + BASIC;
      var p := Prefix(stack[0]);
      assert Prefixes(stack) == p + tail;
      match stack[0]
      case PlainLayer =>
        assert Wrap(stack, Basic) == Plain(rest);
        assert p + tail == tail;
      case BorderLayer =>
        assert Wrap(stack, Basic) == Border(rest);
        assert Render(Border(rest)) == p + (tail + BASIC);
        assert p + (tail + BASIC) == (p + tail) + BASIC;
      case ColorLayer(color) =>
        assert Wrap(stack, Basic) == Color(color, rest);
        assert Render(Color(color, rest)) == p + (tail + BASIC);
        assert p + (tail + BASIC) == (p + tail) + BASIC;
    }
  }

  /** The client run: basic, bordered, then coloured red around the border. */
  lemma ClientRun()
    ensures Render(Basic) == "Basic UI Component"
    ensures Render(Border(Basic)) == "Border + " + "Basic UI Component"
    ensures Render(Color("red", Border(Basic))) == "Color(" + "red" + ") + " + ("Border + " + "Basic UI Component")
  {
  }
}

/** Coffee shop: a base coffee costs 5; milk adds 2 and sugar adds 1; the
    plain decorator passes the cost through. */
module CoffeeDecorators {

  datatype Coffee =
    | Simple
    | Plain(inner: Coffee)
    | Milk(inner: Coffee)
    | Sugar(inner: Coffee)

  /** `cost` of each class. */
  function Cost(c: Coffee): (n: int)
    ensures c.Simple? ==> n == 5
    ensures c.Plain? ==> n == Cost(c.inner)
    ensures c.Milk? ==> n == Cost(c.inner) + 2
    ensures c.Sugar? ==> n == Cost(c.inner) + 1
  {
    match c
    case Simple => 5
    case Plain(inner) => Cost(inner)
    case Milk(inner) => Cost(inner) + 2
    case Sugar(inner) => Cost(inner) + 1
  }

  function Milks(c: Coffee): nat
  {
    match c
    case Simple => 0
    case Plain(inner) => Milks(inner)
    case Milk(inner) => 1 + Milks(inner)
    case Sugar(inner) => Milks(inner)
  }

  function Sugars(c: Coffee): nat
  {
    match c
    case Simple => 0
    case Plain(inner) => Sugars(inner)
    case Milk(inner) => Sugars(inner)
    case Sugar(inner) => 1 + Sugars(inner)
  }

  /** Any stack costs 5 + 2 per milk + 1 per sugar. */
  lemma {:induction false} CostFormula(c: Coffee)
    ensures Cost(c) == 5 + 2 * Milks(c) + Sugars(c)
  {
    match c
    case Simple =>
    case Plain(inner) => CostFormula(inner);
    case Milk(inner) => CostFormula(inner);
    case Sugar(inner) => CostFormula(inner);
  }

  /** So the wrapping order does not matter: equal counts, equal cost. */
  lemma OrderIrrelevant(a: Coffee, b: Coffee)
    requires Milks(a) == Milks(b) && Sugars(a) == Sugars(b)
    ensures Cost(a) == Cost(b)
  {
    CostFormula(a);
    CostFormula(b);
  }

  /** The client run: 5, 7, 8. */
  lemma ClientRun()
    ensures Cost(Simple) == 5 && Cost(Milk(Simple)) == 7 && Cost(Sugar(Milk(Simple))) == 8
  {
  }
}
