/** The media constructors (html/media.go). */
module HtmlMedia {
  import opened Strings
  import opened HtmlElement

  method Img(src: string) returns (e: Element)
    ensures fresh(e) && e.Value() == Node("img", "", map["src" := src], [])
  {
    e := new Element("img");
    e := e.Attr("src", src);
  }

  method Video(kids: seq<Element?>) returns (e: Element)
    ensures fresh(e) && e.Value() == Node("video", "", map[], NodeValues(kids))
  {
    e := NewWithChildren("video", kids);
  }

  method Audio(kids: seq<Element?>) returns (e: Element)
    ensures fresh(e) && e.Value() == Node("audio", "", map[], NodeValues(kids))
  {
    e := NewWithChildren("audio", kids);
  }

  method Source(src: string) returns (e: Element)
    ensures fresh(e) && e.Value() == Node("source", "", map["src" := src], [])
  {
    e := new Element("source");
    e := e.Attr("src", src);
  }

  /** img and source are self-closing: the single `src` attribute, then ` />`. */
  lemma MediaHtml(tag: string, src: string)
    requires tag == "img" || tag == "source"
    ensures IsSelfClosing(tag)
    ensures HtmlOf(Node(tag, "", map["src" := src], [])) == "<" + tag + " src=\"" + src + "\" />"
  {
    assert ToLower(tag) == tag by {
      LowerTag(tag);
    }
    OneAttribute(tag, "src", src);
  }

  /** video and audio are not self-closing: their children sit between the
      opening and closing tags. */
  lemma PlayerHtml(tag: string, kids: seq<Node>)
    requires tag == "video" || tag == "audio"
    ensures !IsSelfClosing(tag)
    ensures HtmlOf(Node(tag, "", map[], kids)) == "<" + tag + ">" + ConcatHtml(kids) + "</" + tag + ">"
  {
    NotSelfClosing(tag);
    PlainTagHtml(tag, "", kids);
    assert "<" + tag + ">" + "" == "<" + tag + ">";
  }
}
