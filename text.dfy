/** The text constructors (html/text.go). */
module HtmlText {
  import opened Strings
  import opened HtmlElement

  /** The tagged text elements this file builds. */
  const TextTags: seq<string> := ["h1", "h2", "h3", "h4", "h5", "h6", "p", "span", "a"]

  method H1(content: string) returns (e: Element)
    ensures fresh(e) && e.Value() == Node("h1", content, map[], [])
  {
    e := new Element.Leaf("h1", content);
  }

  method H2(content: string) returns (e: Element)
    ensures fresh(e) && e.Value() == Node("h2", content, map[], [])
  {
    e := new Element.Leaf("h2", content);
  }

  method H3(content: string) returns (e: Element)
    ensures fresh(e) && e.Value() == Node("h3", content, map[], [])
  {
    e := new Element.Leaf("h3", content);
  }

  method H4(content: string) returns (e: Element)
    ensures fresh(e) && e.Value() == Node("h4", content, map[], [])
  {
    e := new Element.Leaf("h4", content);
  }

  method H5(content: string) returns (e: Element)
    ensures fresh(e) && e.Value() == Node("h5", content, map[], [])
  {
    e := new Element.Leaf("h5", content);
  }

  method H6(content: string) returns (e: Element)
    ensures fresh(e) && e.Value() == Node("h6", content, map[], [])
  {
    e := new Element.Leaf("h6", content);
  }

  method P(content: string) returns (e: Element)
    ensures fresh(e) && e.Value() == Node("p", content, map[], [])
  {
    e := new Element.Leaf("p", content);
  }

  method Span(content: string) returns (e: Element)
    ensures fresh(e) && e.Value() == Node("span", content, map[], [])
  {
    e := new Element.Leaf("span", content);
  }

  /** Text: an element without a tag, which renders as its content alone. */
  method Text(content: string) returns (e: Element)
    ensures fresh(e) && e.Value() == Node("", content, map[], [])
  {
    e := new Element.Leaf("", content);
  }

  /** A: an empty anchor; its target is set afterwards with Attr. */
  method A() returns (e: Element)
    ensures fresh(e) && e.Value() == Node("a", "", map[], [])
  {
    e := new Element("a");
  }

  /** No text tag is self-closing: `<tag>`, the content and `</tag>`. */
  lemma TextHtml(tag: string, content: string, kids: seq<Node>)
    requires tag in TextTags
    ensures !IsSelfClosing(tag)
    ensures HtmlOf(Node(tag, content, map[], kids)) == "<" + tag + ">" + content + ConcatHtml(kids) + "</" + tag + ">"
  {
    NotSelfClosing(tag);
    PlainTagHtml(tag, content, kids);
  }

  /** Text(c) renders exactly as c. */
  lemma TextHtmlIsContent(content: string)
    ensures HtmlOf(Node("", content, map[], [])) == content
  {
    TextRendersContent(content, [], map[]);
  }
}
