/** The list constructors (html/list.go). */
module HtmlList {
  import opened Strings
  import opened HtmlElement

  /** The tags this file builds. */
  const ListTags: seq<string> := ["ul", "ol", "li", "dl", "dt", "dd"]

  method Ul(kids: seq<Element?>) returns (e: Element)
    ensures fresh(e) && e.Value() == Node("ul", "", map[], NodeValues(kids))
  {
    e := NewWithChildren("ul", kids);
  }

  method Ol(kids: seq<Element?>) returns (e: Element)
    ensures fresh(e) && e.Value() == Node("ol", "", map[], NodeValues(kids))
  {
    e := NewWithChildren("ol", kids);
  }

  method Li(content: string) returns (e: Element)
    ensures fresh(e) && e.Value() == Node("li", content, map[], [])
  {
    e := new Element.Leaf("li", content);
  }

  method Dl(kids: seq<Element?>) returns (e: Element)
    ensures fresh(e) && e.Value() == Node("dl", "", map[], NodeValues(kids))
  {
    e := NewWithChildren("dl", kids);
  }

  method Dt(content: string) returns (e: Element)
    ensures fresh(e) && e.Value() == Node("dt", content, map[], [])
  {
    e := new Element.Leaf("dt", content);
  }

  method Dd(content: string) returns (e: Element)
    ensures fresh(e) && e.Value() == Node("dd", content, map[], [])
  {
    e := new Element.Leaf("dd", content);
  }

  /** No list tag is self-closing, so every list element renders its
      content and children and ends with its closing tag. */
  lemma ListHtml(tag: string, content: string, kids: seq<Node>)
    requires tag in ListTags
    ensures !IsSelfClosing(tag)
    ensures HtmlOf(Node(tag, content, map[], kids)) == "<" + tag + ">" + content + ConcatHtml(kids) + "</" + tag + ">"
  {
    NotSelfClosing(tag);
    PlainTagHtml(tag, content, kids);
  }
}
