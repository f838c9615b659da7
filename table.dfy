/** The table constructors (html/table.go). */
module HtmlTable {
  import opened Strings
  import opened HtmlElement

  /** The tags this file builds. */
  const TableTags: seq<string> := ["table", "thead", "tbody", "tfoot", "tr", "th", "td", "caption"]

  method Table(kids: seq<Element?>) returns (e: Element)
    ensures fresh(e) && e.Value() == Node("table", "", map[], NodeValues(kids))
  {
    e := NewWithChildren("table", kids);
  }

  method Thead(kids: seq<Element?>) returns (e: Element)
    ensures fresh(e) && e.Value() == Node("thead", "", map[], NodeValues(kids))
  {
    e := NewWithChildren("thead", kids);
  }

  method Tbody(kids: seq<Element?>) returns (e: Element)
    ensures fresh(e) && e.Value() == Node("tbody", "", map[], NodeValues(kids))
  {
    e := NewWithChildren("tbody", kids);
  }

  method Tfoot(kids: seq<Element?>) returns (e: Element)
    ensures fresh(e) && e.Value() == Node("tfoot", "", map[], NodeValues(kids))
  {
    e := NewWithChildren("tfoot", kids);
  }

  method Tr(kids: seq<Element?>) returns (e: Element)
    ensures fresh(e) && e.Value() == Node("tr", "", map[], NodeValues(kids))
  {
    e := NewWithChildren("tr", kids);
  }

  method Th(content: string) returns (e: Element)
    ensures fresh(e) && e.Value() == Node("th", content, map[], [])
  {
    e := new Element.Leaf("th", content);
  }

  method Td(content: string) returns (e: Element)
    ensures fresh(e) && e.Value() == Node("td", content, map[], [])
  {
    e := new Element.Leaf("td", content);
  }

  method Caption(content: string) returns (e: Element)
    ensures fresh(e) && e.Value() == Node("caption", content, map[], [])
  {
    e := new Element.Leaf("caption", content);
  }

  /** No table tag is self-closing, so every table element renders its
      content and children and ends with its closing tag. */
  lemma TableHtml(tag: string, content: string, kids: seq<Node>)
    requires tag in TableTags
    ensures !IsSelfClosing(tag)
    ensures HtmlOf(Node(tag, content, map[], kids)) == "<" + tag + ">" + content + ConcatHtml(kids) + "</" + tag + ">"
  {
    NotSelfClosing(tag);
    PlainTagHtml(tag, content, kids);
  }
}
