/** The document constructors (html/document.go). */
module HtmlDocument {
  import opened Strings
  import opened HtmlElement
  import opened Sorting
  import opened Wrappers

  method Html(kids: seq<Element?>) returns (e: Element)
    ensures fresh(e) && e.Value() == Node("html", "", map[], NodeValues(kids))
  {
    e := NewWithChildren("html", kids);
  }

  /** Head: tag `head`, the exact tag the head search matches. */
  method Head(kids: seq<Element?>) returns (e: Element)
    ensures fresh(e) && e.Value() == Node("head", "", map[], NodeValues(kids))
  {
    e := NewWithChildren("head", kids);
  }

  method Body(kids: seq<Element?>) returns (e: Element)
    ensures fresh(e) && e.Value() == Node("body", "", map[], NodeValues(kids))
  {
    e := NewWithChildren("body", kids);
  }

  method Title(content: string) returns (e: Element)
    ensures fresh(e) && e.Value() == Node("title", content, map[], [])
  {
    e := new Element.Leaf("title", content);
  }

  method Meta() returns (e: Element)
    ensures fresh(e) && e.Value() == Node("meta", "", map[], [])
  {
    e := new Element("meta");
  }

  method Link() returns (e: Element)
    ensures fresh(e) && e.Value() == Node("link", "", map[], [])
  {
    e := new Element("link");
  }

  method Script(content: string) returns (e: Element)
    ensures fresh(e) && e.Value() == Node("script", content, map[], [])
  {
    e := new Element.Leaf("script", content);
  }

  /** Style: the element Render injects. */
  method Style(content: string) returns (e: Element)
    ensures fresh(e) && e.Value() == StyleNode(content)
  {
    e := new Element.Leaf("style", content);
  }

  /** meta and link are self-closing and render as bare tags. */
  lemma MetaLinkHtml(tag: string)
    requires tag == "meta" || tag == "link"
    ensures IsSelfClosing(tag)
    ensures HtmlOf(Node(tag, "", map[], [])) == "<" + tag + " />"
  {
    LowerTag(tag);
    var none: map<string, string> := map[];
    assert SortedSeq(none.Keys) == [];
  }

  /** The document tags are not self-closing. */
  lemma DocumentHtml(tag: string, content: string, kids: seq<Node>)
    requires tag in ["html", "head", "body", "title", "script", "style"]
    ensures !IsSelfClosing(tag)
    ensures HtmlOf(Node(tag, content, map[], kids)) == "<" + tag + ">" + content + ConcatHtml(kids) + "</" + tag + ">"
  {
    NotSelfClosing(tag);
    PlainTagHtml(tag, content, kids);
  }

  /** In a document whose first child is a head, that head is the one found. */
  lemma {:induction false} DocumentHeadFound(headKids: seq<Node>, rest: seq<Node>)
    ensures FindHead(Node("html", "", map[], [Node("head", "", map[], headKids)] + rest)) == Some([0])
  {
    var doc := Node("html", "", map[], [Node("head", "", map[], headKids)] + rest);
    assert doc.tag != "head";
    assert FindHead(doc.children[0]) == Some([]);
    assert FindHeadFrom(doc, 0) == Some([0] + []);
    assert [0] + [] == [0];
  }
}
