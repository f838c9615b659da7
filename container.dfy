/** The container constructors (html/container.go). */
module HtmlContainer {
  import opened Strings
  import opened HtmlElement

  /** The tags this file builds. */
  const ContainerTags: seq<string> := ["div", "section", "article", "header", "footer", "nav", "main"]

  method Div(kids: seq<Element?>) returns (e: Element)
    ensures fresh(e) && e.Value() == Node("div", "", map[], NodeValues(kids))
  {
    e := NewWithChildren("div", kids);
  }

  method Section(kids: seq<Element?>) returns (e: Element)
    ensures fresh(e) && e.Value() == Node("section", "", map[], NodeValues(kids))
  {
    e := NewWithChildren("section", kids);
  }

  method Article(kids: seq<Element?>) returns (e: Element)
    ensures fresh(e) && e.Value() == Node("article", "", map[], NodeValues(kids))
  {
    e := NewWithChildren("article", kids);
  }

  method Header(kids: seq<Element?>) returns (e: Element)
    ensures fresh(e) && e.Value() == Node("header", "", map[], NodeValues(kids))
  {
    e := NewWithChildren("header", kids);
  }

  method Footer(kids: seq<Element?>) returns (e: Element)
    ensures fresh(e) && e.Value() == Node("footer", "", map[], NodeValues(kids))
  {
    e := NewWithChildren("footer", kids);
  }

  method Nav(kids: seq<Element?>) returns (e: Element)
    ensures fresh(e) && e.Value() == Node("nav", "", map[], NodeValues(kids))
  {
    e := NewWithChildren("nav", kids);
  }

  /** Main in the source; a method of that name would be taken for a
      program entry point. */
  method MainElement(kids: seq<Element?>) returns (e: Element)
    ensures fresh(e) && e.Value() == Node("main", "", map[], NodeValues(kids))
  {
    e := NewWithChildren("main", kids);
  }

  /** No container tag is self-closing: a container renders its children in
      order between its opening and closing tags. */
  lemma ContainerHtml(tag: string, content: string, kids: seq<Node>)
    requires tag in ContainerTags
    ensures !IsSelfClosing(tag)
    ensures HtmlOf(Node(tag, content, map[], kids)) == "<" + tag + ">" + content + ConcatHtml(kids) + "</" + tag + ">"
  {
    NotSelfClosing(tag);
    PlainTagHtml(tag, content, kids);
  }
}
