/** Document export: text and image elements dispatch to the matching
    `visit` method of an HTML or Markdown exporter; a document exports as the
    per-element outputs joined by newlines. */
module DocumentExport {
  import opened Outcomes

  datatype Element = BaseElement | Text(content: string) | Image(url: string, caption: string)

  datatype Visitor = BaseVisitor | HtmlExport | MarkdownExport

  /** `visitText` of each visitor. */
  function VisitText(v: Visitor, content: string): (r: Result<string>)
    ensures v.BaseVisitor? <==> r.Err?
    ensures v.HtmlExport? ==> r == Ok("<p>" + content + "</p>")
    ensures v.MarkdownExport? ==> r == Ok(content)
  {
    match v
    case BaseVisitor => Err("visitText method must be implemented")
    case HtmlExport => Ok("<p>" + content + "</p>")
    case MarkdownExport => Ok(content)
  }

  /** `visitImage` of each visitor. */
  function VisitImage(v: Visitor, url: string, caption: string): (r: Result<string>)
    ensures v.BaseVisitor? <==> r.Err?
    ensures v.HtmlExport? ==> r == Ok("<img src=\"" + url + "\" alt=\"" + caption + "\" />")
    ensures v.MarkdownExport? ==> r == Ok("![" + caption + "](" + url + ")")
  {
    match v
    case BaseVisitor => Err("visitImage method must be implemented")
    case HtmlExport => Ok("<img src=\"" + url + "\" alt=\"" + caption + "\" />")
    case MarkdownExport => Ok("![" + caption + "](" + url + ")")
  }

  /** `accept`: double dispatch on the element's class. */
  function Accept(e: Element, v: Visitor): (r: Result<string>)
    ensures e.Text? ==> r == VisitText(v, e.content)
    ensures e.Image? ==> r == VisitImage(v, e.url, e.caption)
    ensures e.BaseElement? ==> r == Err("accept method must be implemented")
  {
    match e
    case BaseElement => Err("accept method must be implemented")
    case Text(content) => VisitText(v, content)
    case Image(url, caption) => VisitImage(v, url, caption)
  }

  /** `document.map(element => element.accept(visitor))`: stops at the first
      element that throws. */
  function AcceptAll(doc: seq<Element>, v: Visitor): (r: Result<seq<string>>)
    ensures r.Ok? <==> forall i :: 0 <= i < |doc| ==> Accept(doc[i], v).Ok?
    ensures r.Ok? ==> |r.value| == |doc| && forall i :: 0 <= i < |doc| ==> r.value[i] == Accept(doc[i], v).value
  {
    if |doc| == 0 then Ok([])
    else
      match Accept(doc[0], v)
      case Err(m) => Err(m)
      case Ok(first) =>
        match AcceptAll(doc[1..], v)
        case Err(m) => Err(m)
        case Ok(rest) => Ok([first] + rest)
  }

  /** `Array.prototype.join('\n')`. */
  function Join(parts: seq<string>): string
  {
    if |parts| == 0 then "" else if |parts| == 1 then parts[0] else parts[0] + "\n" + Join(parts[1..])
  }

  /** Exporting a document: the joined outputs. */
  function Export(doc: seq<Element>, v: Visitor): (r: Result<string>)
    ensures r.Ok? <==> AcceptAll(doc, v).Ok?
    ensures r.Ok? ==> r.value == Join(AcceptAll(doc, v).value)
  {
    match AcceptAll(doc, v)
    case Err(m) => Err(m)
    case Ok(parts) => Ok(Join(parts))
  }

  /** Neither concrete exporter ever fails on text and image elements. */
  lemma ConcreteExportersTotal(doc: seq<Element>, v: Visitor)
    requires !v.BaseVisitor?
    requires forall i :: 0 <= i < |doc| ==> !doc[i].BaseElement?
    ensures Export(doc, v).Ok?
  {
  }

  /** Markdown exports text elements unchanged. */
  lemma MarkdownTextIsIdentity(content: string)
    ensures Accept(Text(content), MarkdownExport) == Ok(content)
  {
  }

  /** The client run: a paragraph and an image, exported to HTML. */
  lemma ClientRun()
    ensures Export([Text("This is a paragraph."), Image("image.jpg", "A beautiful sunset")], HtmlExport) ==
      Ok("<p>" + "This is a paragraph." + "</p>" + "\n" +
         ("<img src=\"" + "image.jpg" + "\" alt=\"" + "A beautiful sunset" + "\" />"))
  {
    var doc := [Text("This is a paragraph."), Image("image.jpg", "A beautiful sunset")];
    var parts := AcceptAll(doc, HtmlExport).value;
    assert |parts| == 2;
    assert parts[1..] == [parts[1]];
  }
}

/** Shape areas: `accept` dispatches circles to `visitCircle` and rectangles
    to `visitRectangle`; only the integer rectangle area is modelled. */
module AreaVisitor {

  datatype Shape = Circle(radius: int) | Rectangle(width: int, height: int)

  /** Which visitor method `accept` calls, with the shape's own fields. */
  datatype Visit = VisitCircle(r: int) | VisitRectangle(w: int, h: int)

  function Accept(s: Shape): (v: Visit)
    ensures s.Circle? <==> v.VisitCircle?
    ensures s.Circle? ==> v.r == s.radius
    ensures s.Rectangle? ==> v.w == s.width && v.h == s.height
  {
    match s
    case Circle(radius) => VisitCircle(radius)
    case Rectangle(w, h) => VisitRectangle(w, h)
  }

  /** `AreaCalculatorVisitor.visitRectangle`. */
  function RectangleArea(w: int, h: int): (area: int)
    ensures area == 0 <==> w == 0 || h == 0
    ensures w >= 0 && h >= 0 ==> area >= 0
    ensures w >= 1 && h >= 1 ==> area >= w && area >= h
  {
    w * h
  }

  /** The client's shapes: the circle of radius 5 goes to `visitCircle`,
      whose floating-point area is not modelled, and the 4 by 6 rectangle
      goes to `visitRectangle` and has area 24. */
  lemma ClientRectangle()
    ensures var v := Accept(Circle(5)); v == VisitCircle(5)
    ensures var v := Accept(Rectangle(4, 6)); v.VisitRectangle? && RectangleArea(v.w, v.h) == 24
  {
  }
}
