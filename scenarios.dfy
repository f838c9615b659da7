/** Whole-page scenarios: trees built with the constructors, rendered with
    Render, and the exact text they produce (html/element_test.go). */
module HtmlScenarios {
  import opened Wrappers
  import opened Strings
  import opened CssConfig
  import opened HtmlElement
  import CssGenerator
  import CssUtilities
  import HtmlText
  import HtmlContainer
  import HtmlDocument

  /** `<tag>`, the inner text, `</tag>`. */
  function Wrap(tag: string, inner: string): string
  {
    "<" + tag + ">" + inner + "</" + tag + ">"
  }

  /** The same with one attribute in the opening tag. */
  function WrapWith(tag: string, key: string, value: string, inner: string): string
  {
    "<" + tag + Attribute(key, value) + ">" + inner + "</" + tag + ">"
  }

  /** Two trees rendered one after the other. */
  lemma ConcatTwo(a: Node, b: Node)
    ensures ConcatHtml([a, b]) == HtmlOf(a) + HtmlOf(b)
  {
    assert [a, b][..1] == [a];
    ConcatOne(a);
  }

  lemma ConcatOne(a: Node)
    ensures ConcatHtml([a]) == HtmlOf(a)
  {
    assert [a][..0] == [];
  }

  /** A tag outside the self-closing list wraps its content and children. */
  lemma WrapOf(tag: string, content: string, kids: seq<Node>)
    requires tag != "" && !IsSelfClosing(tag)
    ensures HtmlOf(Node(tag, content, map[], kids)) == Wrap(tag, content + ConcatHtml(kids))
  {
    PlainTagHtml(tag, content, kids);
    StringAssoc("<" + tag + ">", content, ConcatHtml(kids));
  }

  /** A leaf: the content between the tags. */
  lemma LeafWrap(tag: string, content: string)
    requires tag != "" && !IsSelfClosing(tag)
    ensures HtmlOf(Node(tag, content, map[], [])) == Wrap(tag, content)
  {
    var none: seq<Node> := [];
    WrapOf(tag, content, none);
    assert content + ConcatHtml(none) == content;
  }

  /** A container holding two text elements. */
  lemma NestedHtml(box: string, h: string, p: string, heading: string, para: string)
    requires box in HtmlContainer.ContainerTags && h in HtmlText.TextTags && p in HtmlText.TextTags
    ensures HtmlOf(Node(box, "", map[], [Node(h, heading, map[], []), Node(p, para, map[], [])])) ==
      Wrap(box, Wrap(h, heading) + Wrap(p, para))
  {
    var none: seq<Node> := [];
    var hn := Node(h, heading, map[], none);
    var pn := Node(p, para, map[], none);
    HtmlText.TextHtml(h, heading, none);
    HtmlText.TextHtml(p, para, none);
    HtmlContainer.ContainerHtml(box, "", [hn, pn]);
    LeafWrap(h, heading);
    LeafWrap(p, para);
    ConcatTwo(hn, pn);
    WrapOf(box, "", [hn, pn]);
    assert "" + ConcatHtml([hn, pn]) == ConcatHtml([hn, pn]);
  }

  /** A page: a head holding `headKids`, a body holding `bodyKids`. */
  lemma PageHtml(html: string, head: string, body: string, headKids: seq<Node>, bodyKids: seq<Node>)
    requires html == "html" && head == "head" && body == "body"
    ensures HtmlOf(Node(html, "", map[], [Node(head, "", map[], headKids), Node(body, "", map[], bodyKids)])) ==
      Wrap(html, Wrap(head, ConcatHtml(headKids)) + Wrap(body, ConcatHtml(bodyKids)))
  {
    var hn := Node(head, "", map[], headKids);
    var bn := Node(body, "", map[], bodyKids);
    HtmlDocument.DocumentHtml(head, "", headKids);
    HtmlDocument.DocumentHtml(body, "", bodyKids);
    HtmlDocument.DocumentHtml(html, "", [hn, bn]);
    WrapOf(head, "", headKids);
    WrapOf(body, "", bodyKids);
    WrapOf(html, "", [hn, bn]);
    assert "" + ConcatHtml(headKids) == ConcatHtml(headKids);
    assert "" + ConcatHtml(bodyKids) == ConcatHtml(bodyKids);
    ConcatTwo(hn, bn);
    assert "" + ConcatHtml([hn, bn]) == ConcatHtml([hn, bn]);
  }

  /** A title alone. */
  lemma TitleHtml(title: string, text: string)
    requires title == "title"
    ensures ConcatHtml([Node(title, text, map[], [])]) == Wrap(title, text)
  {
    var none: seq<Node> := [];
    HtmlDocument.DocumentHtml(title, text, none);
    LeafWrap(title, text);
    ConcatOne(Node(title, text, map[], none));
  }

  /** A title followed by an injected style element. */
  lemma TitleStyleHtml(title: string, style: string, text: string, css: string)
    requires title == "title" && style == "style"
    ensures ConcatHtml([Node(title, text, map[], []), StyleNode(css)]) == Wrap(title, text) + Wrap(style, css)
  {
    var none: seq<Node> := [];
    HtmlDocument.DocumentHtml(title, text, none);
    HtmlDocument.DocumentHtml(style, css, none);
    LeafWrap(title, text);
    LeafWrap(style, css);
    assert StyleNode(css) == Node(style, css, map[], none);
    ConcatTwo(Node(title, text, map[], none), StyleNode(css));
  }

  /** A heading followed by a paragraph. */
  lemma TwoTextsHtml(h: string, p: string, heading: string, para: string)
    requires h in HtmlText.TextTags && p in HtmlText.TextTags
    ensures ConcatHtml([Node(h, heading, map[], []), Node(p, para, map[], [])]) == Wrap(h, heading) + Wrap(p, para)
  {
    var none: seq<Node> := [];
    HtmlText.TextHtml(h, heading, none);
    HtmlText.TextHtml(p, para, none);
    LeafWrap(h, heading);
    LeafWrap(p, para);
    ConcatTwo(Node(h, heading, map[], none), Node(p, para, map[], none));
  }

  /** A container with one class attribute and some content. */
  lemma ClassBoxHtml(box: string, cls: string, content: string)
    requires box in HtmlContainer.ContainerTags
    ensures ConcatHtml([Node(box, content, map["class" := cls], [])]) == WrapWith(box, "class", cls, content)
  {
    var none: seq<Node> := [];
    var n := Node(box, content, map["class" := cls], none);
    assert !IsSelfClosing(box) by {
      HtmlContainer.ContainerHtml(box, content, none);
    }
    var open := OpenTag(n);
    assert open == "<" + box + Attribute("class", cls) by {
      OneAttribute(box, "class", cls);
      assert OpenTag(n) == OpenTag(Node(box, "", map["class" := cls], none));
    }
    assert ChildrenHtml(n, 0) == "";
    assert open + ">" + content + "" == open + ">" + content;
    ConcatOne(n);
  }

  /** Two class names joined by one space. */
  lemma JoinTwo(a: string, b: string)
    ensures Join([a, b], " ") == a + " " + b
  {
    assert [a, b][1..] == [b];
  }

  /** Nested elements, with nothing tracked, render as written. */
  method NestedElements(loaded: ConfigResult) returns (html: string)
    ensures html == Wrap("div", Wrap("h1", "Welcome") + Wrap("p", "This is a test paragraph"))
  {
    var heading, para := "Welcome", "This is a test paragraph";
    var t := new CssUtilities.Tracker();
    var h1 := HtmlText.H1(heading);
    var p := HtmlText.P(para);
    var div := HtmlContainer.Div([h1, p]);
    NodeValuesAllPresent([h1, p]);
    assert NodeValues([h1, p]) == [h1.Value(), p.Value()];
    html := div.Render(t, loaded);
    ghost var d, h, q := "div", "h1", "p";
    NestedHtml(d, h, q, heading, para);
  }

  /** The page of the document test: a head with a title, a body with a
      heading and a paragraph. */
  method BuildPage(title: string, heading: string, para: string) returns (doc: Element)
    ensures fresh(doc)
    ensures doc.Value() == Node("html", "", map[], [
              Node("head", "", map[], [Node("title", title, map[], [])]),
              Node("body", "", map[], [Node("h1", heading, map[], []), Node("p", para, map[], [])])])
  {
    var te := HtmlDocument.Title(title);
    var head := HtmlDocument.Head([te]);
    NodeValuesAllPresent([te]);
    assert NodeValues([te]) == [te.Value()];
    var h1 := HtmlText.H1(heading);
    var p := HtmlText.P(para);
    var body := HtmlDocument.Body([h1, p]);
    NodeValuesAllPresent([h1, p]);
    assert NodeValues([h1, p]) == [h1.Value(), p.Value()];
    doc := HtmlDocument.Html([head, body]);
    NodeValuesAllPresent([head, body]);
    assert NodeValues([head, body]) == [head.Value(), body.Value()];
  }

  /** A complete document with a head but nothing tracked gets no style
      element. */
  method CompleteDocument(loaded: ConfigResult) returns (html: string)
    ensures html == Wrap("html", Wrap("head", Wrap("title", "Test Page")) +
                                 Wrap("body", Wrap("h1", "Welcome to Test Page") +
                                              Wrap("p", "This is a test paragraph with some content.")))
  {
    var title, heading, para := "Test Page", "Welcome to Test Page", "This is a test paragraph with some content.";
    var t := new CssUtilities.Tracker();
    var doc := BuildPage(title, heading, para);
    html := doc.Render(t, loaded);
    ghost var ht, hd, bd, tt, h, q := "html", "head", "body", "title", "h1", "p";
    PageHtml(ht, hd, bd, [Node(tt, title, map[], [])], [Node(h, heading, map[], []), Node(q, para, map[], [])]);
    TitleHtml(tt, title);
    TwoTextsHtml(h, q, heading, para);
  }

  /** Appending to the head of a titled page. */
  lemma InjectedTree(tn: Node, body: Node, style: Node)
    ensures ValidPath(Node("html", "", map[], [Node("head", "", map[], [tn]), body]), [0])
    ensures AppendAt(Node("html", "", map[], [Node("head", "", map[], [tn]), body]), [0], style) ==
      Node("html", "", map[], [Node("head", "", map[], [tn, style]), body])
  {
    var head := Node("head", "", map[], [tn]);
    var doc := Node("html", "", map[], [head, body]);
    assert AppendAt(head, [], style) == Node("head", "", map[], [tn, style]);
    assert [0][1..] == [];
  }

  /** A div with some content and a padding and a background class. */
  method ClassedDiv(t: CssUtilities.Tracker, content: string, size: int, shade: int) returns (div: Element, a: string, b: string)
    modifies t
    ensures fresh(div)
    ensures a == "p-" + IntToString(size) && b == "bg-red-" + IntToString(shade)
    ensures t.used == old(t.used) + {a, b}
    ensures div.Value() == Node("div", content, map["class" := a + " " + b], [])
  {
    div := HtmlContainer.Div([]);
    div := div.SetContent(content);
    a := CssUtilities.P(t, size);
    b := CssUtilities.BgRed(t, shade);
    div := div.Class([a, b]);
    JoinTwo(a, b);
  }

  /** A page whose head holds a title and whose body holds one element. */
  method PageAround(title: string, box: Element) returns (doc: Element)
    ensures fresh(doc)
    ensures doc.Value() == Node("html", "", map[], [
              Node("head", "", map[], [Node("title", title, map[], [])]),
              Node("body", "", map[], [box.Value()])])
  {
    ghost var bv := box.Value();
    var te := HtmlDocument.Title(title);
    NodeValuesAllPresent([te]);
    var head := HtmlDocument.Head([te]);
    ghost var hv := head.Value();
    assert hv == Node("head", "", map[], [Node("title", title, map[], [])]);
    NodeValuesAllPresent([box]);
    var body := HtmlDocument.Body([box]);
    ghost var yv := body.Value();
    assert yv == Node("body", "", map[], [bv]);
    doc := HtmlDocument.Html([head, body]);
    NodeValuesAllPresent([head, body]);
    assert NodeValues([head, body]) == [hv, yv];
  }

  /** The tree StyledPage renders: a titled head and a body holding one div
      with content and the classes `p-n bg-red-m`, both recorded. */
  method StyledTree(t: CssUtilities.Tracker, title: string, content: string, size: int, shade: int)
    returns (doc: Element, cls: string)
    modifies t
    ensures fresh(doc)
    ensures cls == "p-" + IntToString(size) + " " + ("bg-red-" + IntToString(shade))
    ensures t.used == old(t.used) + {"p-" + IntToString(size), "bg-red-" + IntToString(shade)}
    ensures doc.Value() == Node("html", "", map[], [
              Node("head", "", map[], [Node("title", title, map[], [])]),
              Node("body", "", map[], [Node("div", content, map["class" := cls], [])])])
  {
    var div, a, b := ClassedDiv(t, content, size, shade);
    doc := PageAround(title, div);
    cls := a + " " + b;
  }

  /** A titled page around a classed div: the minimal stylesheet for the
      names tracked so far is injected as the last child of the head. */
  method StyledPage(t: CssUtilities.Tracker, loaded: ConfigResult, title: string, content: string, size: int, shade: int)
    returns (html: string)
    modifies t
    ensures t.used == old(t.used) + {"p-" + IntToString(size), "bg-red-" + IntToString(shade)}
    ensures html == Wrap("html",
                      Wrap("head", Wrap("title", title) +
                                   Wrap("style", CssGenerator.Serialize(CssGenerator.MinimalRules(t.used, loaded)))) +
                      Wrap("body", WrapWith("div", "class", "p-" + IntToString(size) + " " + ("bg-red-" + IntToString(shade)), content)))
  {
    var doc, cls := StyledTree(t, title, content, size, shade);
    html := doc.Render(t, loaded);
    InjectedPageHtml(title, CssGenerator.Serialize(CssGenerator.MinimalRules(t.used, loaded)), cls, content);
  }

  /** Rendering the StyledTree page with a stylesheet `css`: the head is the
      first child, and the style element lands right after the title. */
  lemma InjectedPageHtml(title: string, css: string, cls: string, content: string)
    ensures var doc := Node("html", "", map[], [
              Node("head", "", map[], [Node("title", title, map[], [])]),
              Node("body", "", map[], [Node("div", content, map["class" := cls], [])])]);
            FindHead(doc) == Some([0]) &&
            HtmlOf(AppendAt(doc, [0], StyleNode(css))) ==
              Wrap("html", Wrap("head", Wrap("title", title) + Wrap("style", css)) +
                           Wrap("body", WrapWith("div", "class", cls, content)))
  {
    var tn := Node("title", title, map[], []);
    var body := Node("body", "", map[], [Node("div", content, map["class" := cls], [])]);
    HtmlDocument.DocumentHeadFound([tn], [body]);
    InjectedTree(tn, body, StyleNode(css));
    StyledTreeHtml(title, css, cls, content);
  }

  /** The page StyledPage renders, for any stylesheet text. */
  lemma StyledTreeHtml(title: string, css: string, cls: string, content: string)
    ensures HtmlOf(Node("html", "", map[], [
              Node("head", "", map[], [Node("title", title, map[], []), StyleNode(css)]),
              Node("body", "", map[], [Node("div", content, map["class" := cls], [])])])) ==
      Wrap("html", Wrap("head", Wrap("title", title) + Wrap("style", css)) +
                   Wrap("body", WrapWith("div", "class", cls, content)))
  {
    var ht, hd, bd, tt, st, d := "html", "head", "body", "title", "style", "div";
    PageHtml(ht, hd, bd, [Node(tt, title, map[], []), StyleNode(css)], [Node(d, content, map["class" := cls], [])]);
    TitleStyleHtml(tt, st, title, css);
    ClassBoxHtml(d, cls, content);
  }

  /** The class names the injection scenario builds. */
  lemma PaddingClass()
    ensures "p-" + IntToString(4) == "p-4"
  {
    assert IntToString(4) == "4";
  }

  lemma BackgroundClass()
    ensures "bg-red-" + IntToString(100) == "bg-red-100"
  {
    assert IntToString(100) == "100";
  }

  /** With `p-4` and `bg-red-100` tracked, the minimal stylesheet for exactly
      those names is injected as the last child of the head. */
  method RenderWithCSSInjection(loaded: ConfigResult) returns (html: string)
    ensures html == Wrap("html",
                      Wrap("head", Wrap("title", "CSS Test") +
                                   Wrap("style", CssGenerator.Serialize(CssGenerator.MinimalRules({"p-4", "bg-red-100"}, loaded)))) +
                      Wrap("body", WrapWith("div", "class", "p-4" + " " + "bg-red-100", "Test content")))
  {
    var t := new CssUtilities.Tracker();
    html := StyledPage(t, loaded, "CSS Test", "Test content", 4, 100);
    PaddingClass();
    BackgroundClass();
    assert t.used == {"p-4", "bg-red-100"};
  }
}
