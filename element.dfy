/** The HTML element tree (html/element.go).

    A Go `Element` holds its children as values (`[]Element`): `AddChildren`
    stores a shallow copy of each child, and `findHead` hands out a pointer
    into the receiver's own tree. A shallow copy shares its children's
    storage with the original; here every copy is an independent value. A
    tree value is a `Node`, and the mutable receiver of the fluent setters is
    an `Element` object whose fields are the four fields of the Go struct. A nil attribute map and an empty one
    render alike and are both `map[]`. */
module HtmlElement {
  import opened Wrappers
  import opened Strings
  import opened Sorting
  import opened CssConfig
  import CssGenerator
  import CssUtilities

  /** An element tree as a value. */
  datatype Node = Node(tag: string, content: string, attributes: map<string, string>, children: seq<Node>)

  /** The element `Render` injects into the head: a `style` element holding
      the stylesheet text (the value `Style(css)` builds). */
  function StyleNode(css: string): (n: Node)
    ensures n.tag == "style" && n.content == css
    ensures n.attributes == map[] && n.children == []
  {
    Node("style", css, map[], [])
  }

  /** The elements among `kids` other than `self`. */
  function Others(self: Element?, kids: seq<Element?>): set<Element>
  {
    set k: Element | k in kids && k != self
  }

  /** The values of the non-nil elements of `kids`, in order. */
  function NodeValues(kids: seq<Element?>): (vs: seq<Node>)
    reads Others(null, kids)
    ensures |vs| <= |kids|
    decreases |kids|
  {
    if kids == [] then []
    else
      var k := kids[|kids| - 1];
      NodeValues(kids[..|kids| - 1]) + (if k == null then [] else [k.Value()])
  }

  /** The children of an element whose tag, content and attributes are
      `tag`, `content` and `attributes` after `AddChildren(kids)` started from
      `children`. Each non-nil element is copied when its turn comes, so an
      element passed to its own `AddChildren` is copied with the children
      appended before it. */
  function Appended(self: Element, tag: string, content: string, attributes: map<string, string>,
                    children: seq<Node>, kids: seq<Element?>): (r: seq<Node>)
    reads Others(self, kids)
    ensures |r| <= |children| + |kids|
    decreases |kids|
  {
    if kids == [] then children
    else
      var before := Appended(self, tag, content, attributes, children, kids[..|kids| - 1]);
      var k := kids[|kids| - 1];
      if k == null then before
      else if k == self then before + [Node(tag, content, attributes, before)]
      else before + [k.Value()]
  }

  /** When the receiver is not among its arguments, `AddChildren` appends the
      values of the non-nil arguments in argument order. */
  lemma {:induction false} AppendedNotSelf(self: Element, tag: string, content: string,
                                           attributes: map<string, string>, children: seq<Node>,
                                           kids: seq<Element?>)
    requires self !in kids
    ensures Appended(self, tag, content, attributes, children, kids) == children + NodeValues(kids)
    decreases |kids|
  {
    if kids != [] {
      var init := kids[..|kids| - 1];
      assert self !in init by {
        assert forall j :: 0 <= j < |init| ==> init[j] == kids[j];
      }
      AppendedNotSelf(self, tag, content, attributes, children, init);
    }
  }

  /** Nil arguments leave no trace. */
  lemma {:induction false} NodeValuesSkipsNil(kids: seq<Element?>)
    ensures NodeValues(kids + [null]) == NodeValues(kids)
  {
    assert (kids + [null])[..|kids|] == kids;
  }

  /** Non-nil arguments all arrive, in order. */
  lemma {:induction false} NodeValuesAllPresent(kids: seq<Element?>)
    requires forall i :: 0 <= i < |kids| ==> kids[i] != null
    ensures |NodeValues(kids)| == |kids|
    ensures forall i :: 0 <= i < |kids| ==> NodeValues(kids)[i] == kids[i].Value()
    decreases |kids|
  {
    if kids != [] {
      var init := kids[..|kids| - 1];
      NodeValuesAllPresent(init);
    }
  }

  class Element {
    var tag: string
    var content: string
    var attributes: map<string, string>
    var children: seq<Node>

    /** The tree this element currently stands for. */
    function Value(): Node
      reads this
    {
      Node(tag, content, attributes, children)
    }

    /** New(tag): an element with only its tag set. */
    constructor (tag: string)
      ensures Value() == Node(tag, "", map[], [])
    {
      this.tag := tag;
      content := "";
      attributes := map[];
      children := [];
    }

    /** The `&Element{Tag: tag, Content: content}` literal. */
    constructor Leaf(tag: string, content: string)
      ensures Value() == Node(tag, content, map[], [])
    {
      this.tag := tag;
      this.content := content;
      attributes := map[];
      children := [];
    }

    /** Class: the `class` attribute becomes the names joined by single
        spaces, replacing any earlier value; nothing else changes. */
    method Class(classes: seq<string>) returns (self: Element)
      modifies this
      ensures self == this
      ensures Value() == old(Value()).(attributes := old(attributes)["class" := Join(classes, " ")])
    {
      attributes := attributes["class" := Join(classes, " ")];
      self := this;
    }

    /** ID: set the `id` attribute; nothing else changes. */
    method ID(id: string) returns (self: Element)
      modifies this
      ensures self == this
      ensures Value() == old(Value()).(attributes := old(attributes)["id" := id])
    {
      attributes := attributes["id" := id];
      self := this;
    }

    /** Attr: set one attribute; nothing else changes. */
    method Attr(key: string, value: string) returns (self: Element)
      modifies this
      ensures self == this
      ensures Value() == old(Value()).(attributes := old(attributes)[key := value])
    {
      attributes := attributes[key := value];
      self := this;
    }

    /** SetContent: replace the text content; nothing else changes. */
    method SetContent(content: string) returns (self: Element)
      modifies this
      ensures self == this
      ensures Value() == old(Value()).(content := content)
    {
      this.content := content;
      self := this;
    }

    /** AddChildren: append a copy of every non-nil argument, in order. */
    method AddChildren(kids: seq<Element?>) returns (self: Element)
      modifies this
      ensures self == this
      ensures tag == old(tag) && content == old(content) && attributes == old(attributes)
      ensures children == Appended(this, old(tag), old(content), old(attributes), old(children), kids)
    {
      var i := 0;
      while i < |kids|
        invariant 0 <= i <= |kids|
        invariant tag == old(tag) && content == old(content) && attributes == old(attributes)
        invariant children == Appended(this, tag, content, attributes, old(children), kids[..i])
      {
        assert kids[..i + 1][..i] == kids[..i];
        ghost var next := Appended(this, tag, content, attributes, old(children), kids[..i + 1]);
        var k := kids[i];
        if k != null {
          children := children + [k.Value()];
        }
        assert this !in Others(this, kids[..i + 1]);
        assert children == next;
        i := i + 1;
      }
      assert kids[..i] == kids;
      self := this;
    }

    /** Render: when the tree has a head and some class was tracked, append a
        `style` element holding the minimal stylesheet to the first head's
        children; then return the tree's HTML. */
    method Render(t: CssUtilities.Tracker, loaded: ConfigResult) returns (html: string)
      modifies this
      ensures FindHead(old(Value())).None? || t.used == {} ==> Value() == old(Value())
      ensures FindHead(old(Value())).Some? && t.used != {} ==>
        Value() == AppendAt(old(Value()), FindHead(old(Value())).value,
                            StyleNode(CssGenerator.Serialize(CssGenerator.MinimalRules(t.used, loaded))))
      ensures html == HtmlOf(Value())
    {
      InjectStyle(t, loaded);
      html := ToHtml(Value());
    }

    /** The injection step of Render: the tree is left as it is unless it has
        a head and some class was tracked. */
    method InjectStyle(t: CssUtilities.Tracker, loaded: ConfigResult)
      modifies this
      ensures FindHead(old(Value())).None? || t.used == {} ==> Value() == old(Value())
      ensures FindHead(old(Value())).Some? && t.used != {} ==>
        Value() == AppendAt(old(Value()), FindHead(old(Value())).value,
                            StyleNode(CssGenerator.Serialize(CssGenerator.MinimalRules(t.used, loaded))))
    {
      var head := FindHeadIn(Value());
      if head.Some? {
        var used := t.GetUsedClasses();
        if |used| > 0 {
          var sheet := CssUtilities.GenerateMinimalCSS(t, loaded);
          var css := sheet.Generate();
          var injected := AppendAt(Value(), head.value, StyleNode(css));
          children := injected.children;
        }
      }
    }
  }

  /** The shape shared by every container constructor: an element with only
      its tag set, then `AddChildren` with the arguments. */
  method NewWithChildren(tag: string, kids: seq<Element?>) returns (e: Element)
    ensures fresh(e)
    ensures e.Value() == Node(tag, "", map[], NodeValues(kids))
  {
    e := new Element(tag);
    e := e.AddChildren(kids);
    AppendedNotSelf(e, tag, "", map[], [], kids);
  }

  // ---------------------------------------------------------------------------
  // Paths into a tree, and findHead
  // ---------------------------------------------------------------------------

  /** `path` lists child indices leading from `n` to a node of its tree. */
  predicate ValidPath(n: Node, path: seq<nat>)
    decreases path
  {
    path == [] || (path[0] < |n.children| && ValidPath(n.children[path[0]], path[1..]))
  }

  /** The node `path` leads to. */
  function At(n: Node, path: seq<nat>): Node
    requires ValidPath(n, path)
    decreases path
  {
    if path == [] then n else At(n.children[path[0]], path[1..])
  }

  /** Some node of the tree has the tag `head`. */
  predicate HasHead(n: Node)
  {
    n.tag == "head" || exists j :: 0 <= j < |n.children| && HasHead(n.children[j])
  }

  /** The path to the first `head` in pre-order: the node itself when its tag
      is exactly `head`, otherwise the first head inside its children taken
      left to right; None when there is none. */
  function FindHead(n: Node): (r: Option<seq<nat>>)
    ensures r.None? <==> !HasHead(n)
    ensures r.Some? ==> ValidPath(n, r.value) && At(n, r.value).tag == "head"
    ensures n.tag == "head" ==> r == Some([])
    ensures r.Some? && r.value != [] ==>
      n.tag != "head" && r.value[0] < |n.children| &&
      FindHead(n.children[r.value[0]]) == Some(r.value[1..]) &&
      forall j :: 0 <= j < r.value[0] ==> !HasHead(n.children[j])
    decreases n, |n.children| + 1
  {
    if n.tag == "head" then Some([]) else FindHeadFrom(n, 0)
  }

  /** The first head inside `n.children[i..]`. */
  function FindHeadFrom(n: Node, i: nat): (r: Option<seq<nat>>)
    ensures r.None? <==> forall j :: i <= j < |n.children| ==> !HasHead(n.children[j])
    ensures r.Some? ==>
      r.value != [] && i <= r.value[0] < |n.children| &&
      FindHead(n.children[r.value[0]]) == Some(r.value[1..]) &&
      ValidPath(n, r.value) && At(n, r.value).tag == "head" &&
      forall j :: i <= j < r.value[0] ==> !HasHead(n.children[j])
    decreases n, |n.children| - i
  {
    if i >= |n.children| then None
    else
      match FindHead(n.children[i])
      case Some(p) =>
        var r := [i] + p;
        assert r[1..] == p;
        Some(r)
      case None => FindHeadFrom(n, i + 1)
  }

  /** findHead: the same search, as the source runs it, with an early exit
      from the loop over the children. */
  method FindHeadIn(n: Node) returns (r: Option<seq<nat>>)
    ensures r == FindHead(n)
    decreases n
  {
    if n.tag == "head" {
      return Some([]);
    }
    var i := 0;
    while i < |n.children|
      invariant 0 <= i <= |n.children|
      invariant FindHeadFrom(n, i) == FindHeadFrom(n, 0)
    {
      var found := FindHeadIn(n.children[i]);
      if found.Some? {
        return Some([i] + found.value);
      }
      i := i + 1;
    }
    return None;
  }

  /** The tree with `c` appended to the children of the node `path` leads to. */
  function AppendAt(n: Node, path: seq<nat>, c: Node): (r: Node)
    requires ValidPath(n, path)
    ensures r.tag == n.tag && r.content == n.content && r.attributes == n.attributes
    ensures ValidPath(r, path)
    ensures At(r, path).children == At(n, path).children + [c]
    ensures At(r, path).tag == At(n, path).tag
    decreases path
  {
    if path == [] then n.(children := n.children + [c])
    else n.(children := n.children[path[0] := AppendAt(n.children[path[0]], path[1..], c)])
  }

  /** `p` is a prefix of `q`. */
  predicate IsPrefix(p: seq<nat>, q: seq<nat>)
  {
    |p| <= |q| && q[..|p|] == p
  }

  /** Appending below `path` leaves every subtree off that path as it was. */
  lemma {:induction false} AppendAtElsewhere(n: Node, path: seq<nat>, c: Node, q: seq<nat>)
    requires ValidPath(n, path) && ValidPath(n, q)
    requires !IsPrefix(q, path)
    ensures ValidPath(AppendAt(n, path, c), q)
    ensures At(AppendAt(n, path, c), q) == At(n, q)
    decreases path
  {
    assert q != [];
    var r := AppendAt(n, path, c);
    if path == [] {
      assert r.children[..|n.children|] == n.children;
      assert r.children[q[0]] == n.children[q[0]];
    } else if q[0] != path[0] {
      assert r.children[q[0]] == n.children[q[0]];
    } else {
      AppendAtElsewhere(n.children[q[0]], path[1..], c, q[1..]);
    }
  }

  /** The head keeps its place: after an injection the search finds the same
      head again, so a second `Render` appends a second `style` element. */
  lemma {:induction false} FindHeadAfterAppend(n: Node, path: seq<nat>, c: Node)
    requires FindHead(n) == Some(path)
    ensures FindHead(AppendAt(n, path, c)) == Some(path)
    decreases path
  {
    var r := AppendAt(n, path, c);
    if path != [] {
      var i := path[0];
      FindHeadAfterAppend(n.children[i], path[1..], c);
      assert FindHead(r.children[i]) == Some(path[1..]);
      forall j | 0 <= j < i
        ensures r.children[j] == n.children[j]
      {
      }
      FindHeadFromSkips(r, 0, i);
      assert path == [i] + path[1..];
    }
  }

  /** When no head lies in the children before `k`, the search from `i`
      continues at `k`. */
  lemma FindHeadFromSkips(n: Node, i: nat, k: nat)
    requires i <= k <= |n.children|
    requires forall j :: i <= j < k ==> !HasHead(n.children[j])
    ensures FindHeadFrom(n, i) == FindHeadFrom(n, k)
  {
    var a := FindHeadFrom(n, i);
    var b := FindHeadFrom(n, k);
    if a.Some? {
      var x := a.value[0];
      assert HasHead(n.children[x]);
      assert k <= x;
      assert b.Some?;
      var y := b.value[0];
      assert HasHead(n.children[y]);
      assert x == y;
      assert a.value == [x] + a.value[1..];
      assert b.value == [y] + b.value[1..];
    } else {
      assert b.None?;
    }
  }

  // ---------------------------------------------------------------------------
  // toHTML
  // ---------------------------------------------------------------------------

  /** The 14 tags written in the self-closing form. */
  const SelfClosingTags: seq<string> :=
    ["area", "base", "br", "col", "embed", "hr", "img", "input",
     "link", "meta", "param", "source", "track", "wbr"]

  /** isSelfClosing: the tag, lower-cased, is one of the 14. */
  predicate IsSelfClosing(tag: string)
  {
    ToLower(tag) in SelfClosingTags
  }

  /** The length and the first two letters, lower-cased, of a tag (a blank
      where the tag is shorter). This fingerprint is a proof device, not part
      of the Go code: two tags with different fingerprints differ, so a tag
      whose fingerprint is none of the 14 below is not in the list, without
      comparing it against each of the 14 strings. */
  function LowerShape(tag: string): (int, char, char)
  {
    (|tag|, if |tag| > 0 then ToLowerChar(tag[0]) else ' ', if |tag| > 1 then ToLowerChar(tag[1]) else ' ')
  }

  /** The shapes of the 14 self-closing tags. */
  const SelfClosingShapes: set<(int, char, char)> :=
    {(4, 'a', 'r'), (4, 'b', 'a'), (2, 'b', 'r'), (3, 'c', 'o'), (5, 'e', 'm'), (2, 'h', 'r'), (3, 'i', 'm'),
     (5, 'i', 'n'), (4, 'l', 'i'), (4, 'm', 'e'), (5, 'p', 'a'), (6, 's', 'o'), (5, 't', 'r'), (3, 'w', 'b')}

  lemma SelfClosingShape(t: string)
    requires t in SelfClosingTags
    ensures LowerShape(t) in SelfClosingShapes
  {
  }

  /** A self-closing tag, in any letter case, has the shape of one of the
      14. */
  lemma SelfClosingTagShape(tag: string)
    ensures IsSelfClosing(tag) ==> LowerShape(tag) in SelfClosingShapes
  {
    var t := ToLower(tag);
    if |tag| > 0 { ToLowerAt(tag, 0); }
    if |tag| > 1 { ToLowerAt(tag, 1); }
    assert LowerShape(t) == LowerShape(tag);
    if t in SelfClosingTags {
      SelfClosingShape(t);
    }
  }

  /** A tag whose shape is not that of a self-closing tag is not
      self-closing, in any letter case. */
  lemma NotSelfClosing(tag: string)
    requires LowerShape(tag) !in SelfClosingShapes
    ensures !IsSelfClosing(tag)
  {
    SelfClosingTagShape(tag);
  }

  /** The document tags Render looks for and injects are not self-closing. */
  lemma DocumentTagsNotSelfClosing(tag: string)
    requires tag in {"head", "style", "html", "body", "title", "script"}
    ensures !IsSelfClosing(tag)
  {
    NotSelfClosing(tag);
  }

  /** The match ignores case. */
  lemma SelfClosingIgnoresCase()
    ensures IsSelfClosing("IMG") && IsSelfClosing("Br") && IsSelfClosing("img")
    ensures !IsSelfClosing("div") && !IsSelfClosing("DIV")
  {
    assert ToLower("IMG") == "img";
    assert ToLower("Br") == "br";
    NotSelfClosing("div");
    NotSelfClosing("DIV");
  }

  /** One attribute as written inside an opening tag. */
  function Attribute(key: string, value: string): string
  {
    " " + key + "=\"" + value + "\""
  }

  /** The attributes named by `keys`, in that order. */
  function AttrsText(keys: seq<string>, attrs: map<string, string>): string
    requires forall k :: k in keys ==> k in attrs
    decreases |keys|
  {
    if keys == [] then ""
    else AttrsText(keys[..|keys| - 1], attrs) + Attribute(keys[|keys| - 1], attrs[keys[|keys| - 1]])
  }

  /** All attributes, in ascending key order. */
  ghost function AttrsOf(attrs: map<string, string>): string
  {
    AttrsText(SortedSeq(attrs.Keys), attrs)
  }

  /** `<tag` and the attributes in ascending key order. */
  ghost function OpenTag(n: Node): string
  {
    "<" + n.tag + AttrsOf(n.attributes)
  }

  /** The HTML of an element tree: the content alone for an element without
      a tag; the self-closing form for the 14 void tags; otherwise the
      opening tag, the content, the children in order and the closing tag. */
  ghost function HtmlOf(n: Node): string
    decreases n, |n.children| + 1
  {
    if n.tag == "" then n.content
    else if IsSelfClosing(n.tag) then OpenTag(n) + " />"
    else OpenTag(n) + ">" + n.content + ChildrenHtml(n, |n.children|) + "</" + n.tag + ">"
  }

  /** The HTML of the first `i` children of `n`, one after another. */
  ghost function ChildrenHtml(n: Node, i: nat): string
    requires i <= |n.children|
    decreases n, i
  {
    if i == 0 then "" else ChildrenHtml(n, i - 1) + HtmlOf(n.children[i - 1])
  }

  /** The attribute loop of toHTML, visiting the keys in ascending order. */
  method AttrsHtml(attrs: map<string, string>) returns (s: string)
    ensures s == AttrsOf(attrs)
  {
    var keys := SortedKeys(attrs);
    assert forall k :: k in keys ==> k in attrs;
    s := KeyedAttrs(keys, attrs);
  }

  /** The loop of AttrsHtml over keys already in order. */
  method KeyedAttrs(keys: seq<string>, attrs: map<string, string>) returns (s: string)
    requires forall k :: k in keys ==> k in attrs
    ensures s == AttrsText(keys, attrs)
  {
    s := "";
    var i := 0;
    while i < |keys|
      invariant 0 <= i <= |keys|
      invariant s == AttrsText(keys[..i], attrs)
    {
      AttrsTextStep(keys, attrs, i);
      s := s + Attribute(keys[i], attrs[keys[i]]);
      i := i + 1;
    }
    assert keys[..i] == keys;
  }

  /** One more key adds its attribute at the end. */
  lemma AttrsTextStep(keys: seq<string>, attrs: map<string, string>, i: nat)
    requires forall k :: k in keys ==> k in attrs
    requires i < |keys|
    ensures AttrsText(keys[..i + 1], attrs) == AttrsText(keys[..i], attrs) + Attribute(keys[i], attrs[keys[i]])
  {
    assert keys[..i + 1][..i] == keys[..i];
  }

  /** The children loop of toHTML. */
  method ChildrenToHtml(n: Node) returns (s: string)
    ensures s == ChildrenHtml(n, |n.children|)
    decreases n, 0
  {
    s := "";
    var j := 0;
    while j < |n.children|
      invariant 0 <= j <= |n.children|
      invariant s == ChildrenHtml(n, j)
    {
      var child := ToHtml(n.children[j]);
      s := s + child;
      j := j + 1;
    }
  }

  /** toHTML, building the text piece by piece. */
  method ToHtml(n: Node) returns (html: string)
    ensures html == HtmlOf(n)
    decreases n, 1
  {
    if n.tag == "" {
      return n.content;
    }
    var attrs := AttrsHtml(n.attributes);
    html := "<" + n.tag + attrs;
    if IsSelfClosing(n.tag) {
      html := html + " />";
      return;
    }
    html := html + ">";
    if n.content != "" {
      html := html + n.content;
    }
    var kids := ChildrenToHtml(n);
    html := html + kids;
    html := html + "</" + n.tag + ">";
  }

  // ---------------------------------------------------------------------------
  // What the rendering promises
  // ---------------------------------------------------------------------------

  /** An element without a tag renders as its content; children are ignored. */
  lemma TextRendersContent(content: string, children: seq<Node>, attributes: map<string, string>)
    ensures HtmlOf(Node("", content, attributes, children)) == content
  {
  }

  /** A self-closing element renders as its opening tag closed by ` />`;
      content and children are dropped. */
  lemma SelfClosingForm(n: Node)
    requires n.tag != "" && IsSelfClosing(n.tag)
    ensures HtmlOf(n) == OpenTag(n) + " />"
    ensures HtmlOf(n) == HtmlOf(n.(content := "", children := []))
  {
  }

  /** Any other element is closed by `</tag>`. */
  lemma ClosingTag(n: Node)
    requires n.tag != "" && !IsSelfClosing(n.tag)
    ensures HtmlOf(n) == OpenTag(n) + ">" + n.content + ChildrenHtml(n, |n.children|) + "</" + n.tag + ">"
    ensures |HtmlOf(n)| >= |n.tag| + 3
    ensures HtmlOf(n)[|HtmlOf(n)| - |n.tag| - 3..] == "</" + n.tag + ">"
  {
    var p := OpenTag(n) + ">" + n.content + ChildrenHtml(n, |n.children|);
    var q := "</" + n.tag + ">";
    CloseTagGroup(p, n.tag);
    assert |q| == |n.tag| + 3;
    assert (p + q)[|p + q| - |q|..] == q;
  }

  /** A closing tag appended to a text can be read as one piece. */
  lemma CloseTagGroup(p: string, tag: string)
    ensures p + "</" + tag + ">" == p + ("</" + tag + ">")
  {
    StringAssoc(p, "</", tag);
    StringAssoc(p, "</" + tag, ">");
  }

  /** The children's HTML depends only on the children. */
  lemma {:induction false} ChildrenHtmlSame(n: Node, m: Node, i: nat)
    requires i <= |n.children| && i <= |m.children|
    requires n.children[..i] == m.children[..i]
    ensures ChildrenHtml(n, i) == ChildrenHtml(m, i)
  {
    if i > 0 {
      assert n.children[i - 1] == n.children[..i][i - 1];
      assert n.children[..i - 1] == n.children[..i][..i - 1];
      assert m.children[..i - 1] == m.children[..i][..i - 1];
      ChildrenHtmlSame(n, m, i - 1);
    }
  }

  /** The children of an element are rendered one after another, in order. */
  lemma {:induction false} ChildrenInOrder(tag: string, content: string, kids: seq<Node>)
    ensures ChildrenHtml(Node(tag, content, map[], kids), |kids|) == ConcatHtml(kids)
    decreases |kids|
  {
    if kids != [] {
      var init := kids[..|kids| - 1];
      ChildrenInOrder(tag, content, init);
      ChildrenHtmlSame(Node(tag, content, map[], kids), Node(tag, content, map[], init), |init|);
    }
  }

  /** The HTML of a list of trees, one after another. */
  ghost function ConcatHtml(kids: seq<Node>): string
    decreases |kids|
  {
    if kids == [] then "" else ConcatHtml(kids[..|kids| - 1]) + HtmlOf(kids[|kids| - 1])
  }

  /** An element without attributes whose tag is not self-closing: the
      opening tag, the content, the children one after another, the closing
      tag. */
  lemma PlainTagHtml(tag: string, content: string, kids: seq<Node>)
    requires tag != "" && !IsSelfClosing(tag)
    ensures HtmlOf(Node(tag, content, map[], kids)) == "<" + tag + ">" + content + ConcatHtml(kids) + "</" + tag + ">"
  {
    var n := Node(tag, content, map[], kids);
    NoAttributes(n);
    ChildrenInOrder(tag, content, kids);
  }

  /** Without attributes the opening tag is `<` and the tag. */
  lemma NoAttributes(n: Node)
    requires n.attributes == map[]
    ensures OpenTag(n) == "<" + n.tag
  {
    assert SortedSeq(n.attributes.Keys) == [];
    assert AttrsOf(n.attributes) == "";
  }

  /** A tag made of lower-case letters and digits is its own lower case. */
  lemma {:induction false} LowerTag(tag: string)
    requires forall i :: 0 <= i < |tag| ==> !IsUpperAscii(tag[i])
    ensures ToLower(tag) == tag
  {
    if tag != [] {
      LowerTag(tag[1..]);
    }
  }

  /** A tag with content and no attributes or children. */
  lemma LeafHtml(tag: string, content: string)
    requires tag != "" && !IsSelfClosing(tag)
    ensures HtmlOf(Node(tag, content, map[], [])) == "<" + tag + ">" + content + "</" + tag + ">"
  {
    var n := Node(tag, content, map[], []);
    NoAttributes(n);
    assert ChildrenHtml(n, 0) == "";
    assert "<" + tag + ">" + content + "" == "<" + tag + ">" + content;
  }

  /** An element with a single attribute and nothing else. */
  lemma OneAttribute(tag: string, key: string, value: string)
    requires tag != ""
    ensures OpenTag(Node(tag, "", map[key := value], [])) == "<" + tag + Attribute(key, value)
  {
    var attrs := map[key := value];
    assert attrs.Keys == {key};
    var keys := SortedSeq(attrs.Keys);
    assert |keys| == 1;
    assert keys[0] in attrs.Keys;
    assert keys == [key];
    assert AttrsText(keys, attrs) == AttrsText([], attrs) + Attribute(key, value);
  }

  /** Appending a child to an element adds that child's HTML just before
      the closing tag. */
  lemma AppendChildHtml(n: Node, c: Node)
    requires n.tag != "" && !IsSelfClosing(n.tag)
    ensures HtmlOf(n.(children := n.children + [c])) ==
      OpenTag(n) + ">" + n.content + ChildrenHtml(n, |n.children|) + HtmlOf(c) + "</" + n.tag + ">"
  {
    var k := |n.children|;
    var m := n.(children := n.children + [c]);
    assert ChildrenHtml(m, k + 1) == ChildrenHtml(n, k) + HtmlOf(c) by {
      assert m.children[k] == c;
      assert m.children[..k] == n.children[..k];
      ChildrenHtmlSame(m, n, k);
    }
    assert OpenTag(m) == OpenTag(n);
    assert HtmlOf(m) == OpenTag(n) + ">" + n.content + (ChildrenHtml(n, k) + HtmlOf(c)) + "</" + n.tag + ">";
    StringAssoc(OpenTag(n) + ">" + n.content, ChildrenHtml(n, k), HtmlOf(c));
  }

  /** The injected element renders as `<style>`, the stylesheet text, and
      `</style>`, and becomes the last thing inside the head. */
  lemma InjectedStyleHtml(head: Node, css: string)
    requires head.tag == "head"
    ensures HtmlOf(head.(children := head.children + [StyleNode(css)])) ==
      OpenTag(head) + ">" + head.content + ChildrenHtml(head, |head.children|) +
      "<style>" + css + "</style>" + "</head>"
  {
    var style := StyleNode(css);
    var y := OpenTag(head) + ">" + head.content + ChildrenHtml(head, |head.children|);
    DocumentTagsNotSelfClosing("head");
    AppendChildHtml(head, style);
    StyleNodeHtml(css);
    CloseTagGroup(y + HtmlOf(style), "head");
    assert "</" + "head" + ">" == "</head>";
    StringAssoc(y, "<style>" + css, "</style>");
    StringAssoc(y, "<style>", css);
  }

  /** The style element renders as `<style>`, the stylesheet text and
      `</style>`. */
  lemma StyleNodeHtml(css: string)
    ensures HtmlOf(StyleNode(css)) == "<style>" + css + "</style>"
  {
    DocumentTagsNotSelfClosing("style");
    LeafHtml("style", css);
    CloseTagGroup("<" + "style" + ">" + css, "style");
    assert "<" + "style" + ">" == "<style>";
    assert "</" + "style" + ">" == "</style>";
  }
}
