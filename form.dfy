/** The form constructors (html/form.go). */
module HtmlForm {
  import opened Strings
  import opened HtmlElement

  method Form(kids: seq<Element?>) returns (e: Element)
    ensures fresh(e) && e.Value() == Node("form", "", map[], NodeValues(kids))
  {
    e := NewWithChildren("form", kids);
  }

  method Input(inputType: string) returns (e: Element)
    ensures fresh(e) && e.Value() == Node("input", "", map["type" := inputType], [])
  {
    e := new Element("input");
    e := e.Attr("type", inputType);
  }

  method Button(content: string) returns (e: Element)
    ensures fresh(e) && e.Value() == Node("button", content, map[], [])
  {
    e := new Element.Leaf("button", content);
  }

  method Textarea(content: string) returns (e: Element)
    ensures fresh(e) && e.Value() == Node("textarea", content, map[], [])
  {
    e := new Element.Leaf("textarea", content);
  }

  method Select(kids: seq<Element?>) returns (e: Element)
    ensures fresh(e) && e.Value() == Node("select", "", map[], NodeValues(kids))
  {
    e := NewWithChildren("select", kids);
  }

  method Option(content: string) returns (e: Element)
    ensures fresh(e) && e.Value() == Node("option", content, map[], [])
  {
    e := new Element.Leaf("option", content);
  }

  method Label(content: string) returns (e: Element)
    ensures fresh(e) && e.Value() == Node("label", content, map[], [])
  {
    e := new Element.Leaf("label", content);
  }

  /** Input(t) renders self-closing with its single `type` attribute,
      ` type="t"`. */
  lemma InputHtml(inputType: string)
    ensures IsSelfClosing("input")
    ensures HtmlOf(Node("input", "", map["type" := inputType], [])) == "<input" + Attribute("type", inputType) + " />"
  {
    assert IsSelfClosing("input") by {
      LowerTag("input");
    }
    OneAttribute("input", "type", inputType);
    assert "<" + "input" == "<input";
  }

  /** The other form tags are not self-closing, so a textarea's content sits
      between its opening and closing tags. */
  lemma FormHtml(tag: string, content: string, kids: seq<Node>)
    requires tag in ["form", "button", "textarea", "select", "option", "label"]
    ensures !IsSelfClosing(tag)
    ensures HtmlOf(Node(tag, content, map[], kids)) == "<" + tag + ">" + content + ConcatHtml(kids) + "</" + tag + ">"
  {
    NotSelfClosing(tag);
    PlainTagHtml(tag, content, kids);
  }
}
