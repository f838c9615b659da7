/** The generator of the class-constructor source file
    (css/internal/go_generator.go): it turns the configuration into a list of
    Go function texts, one per constructor, that a text template then joins
    into `utilities.go`. */
module GoGenerator {
  import opened Wrappers
  import opened Strings
  import opened CssConfig

  // ---------------------------------------------------------------------------
  // toCamelCase
  // ---------------------------------------------------------------------------

  /** What one part contributes: nothing when empty, else its title case. */
  function Piece(part: string): string
  {
    if part == "" then "" else Title(part)
  }

  /** The camel-case form of the first `n` hyphen-separated parts: every
      non-empty part title-cased, the parts run together. */
  function CamelOfPrefix(parts: seq<string>, n: nat): string
    requires n <= |parts|
  {
    if n == 0 then "" else CamelOfPrefix(parts, n - 1) + Piece(parts[n - 1])
  }

  /** The camel-case form of all the parts. */
  function CamelOf(parts: seq<string>): string
  {
    CamelOfPrefix(parts, |parts|)
  }

  /** The camel-case form of a class name. */
  function CamelCase(input: string): string
  {
    CamelOf(Split(input, '-'))
  }

  lemma {:induction false} CamelOfPrefixNoHyphen(parts: seq<string>, n: nat)
    requires n <= |parts|
    requires forall i :: 0 <= i < |parts| ==> '-' !in parts[i]
    ensures '-' !in CamelOfPrefix(parts, n)
  {
    if n > 0 {
      CamelOfPrefixNoHyphen(parts, n - 1);
      TitleFromKeepsHyphens(true, parts[n - 1]);
    }
  }

  /** Parts without hyphens give a camel-case form without hyphens. */
  lemma CamelOfNoHyphen(parts: seq<string>)
    requires forall i :: 0 <= i < |parts| ==> '-' !in parts[i]
    ensures '-' !in CamelOf(parts)
  {
    CamelOfPrefixNoHyphen(parts, |parts|);
  }

  /** The first `n` parts alone decide the camel-case form of a prefix. */
  lemma {:induction false} CamelOfPrefixSame(p: seq<string>, q: seq<string>, n: nat)
    requires n <= |p| && n <= |q|
    requires forall i :: 0 <= i < n ==> p[i] == q[i]
    ensures CamelOfPrefix(p, n) == CamelOfPrefix(q, n)
  {
    if n > 0 {
      CamelOfPrefixSame(p, q, n - 1);
      assert p[n - 1] == q[n - 1];
    }
  }

  /** One more part of `b` extends the camel-case form of `a + b` by that
      part's piece. */
  lemma CamelOfAppendStep(a: seq<string>, b: seq<string>, k: nat)
    requires 0 < k <= |b|
    requires CamelOfPrefix(a + b, |a| + k - 1) == CamelOf(a) + CamelOfPrefix(b, k - 1)
    ensures CamelOfPrefix(a + b, |a| + k) == CamelOf(a) + CamelOfPrefix(b, k)
  {
    var x, y, z := CamelOf(a), CamelOfPrefix(b, k - 1), Piece(b[k - 1]);
    assert (a + b)[|a| + k - 1] == b[k - 1];
    assert CamelOfPrefix(a + b, |a| + k) == x + y + z;
    assert CamelOfPrefix(b, k) == y + z;
    StringAssoc(x, y, z);
  }

  lemma {:induction false} CamelOfAppendFrom(a: seq<string>, b: seq<string>, k: nat)
    requires k <= |b|
    ensures CamelOfPrefix(a + b, |a| + k) == CamelOf(a) + CamelOfPrefix(b, k)
  {
    if k == 0 {
      CamelOfAppendBase(a, b);
    } else {
      CamelOfAppendFrom(a, b, k - 1);
      CamelOfAppendStep(a, b, k);
    }
  }

  /** The parts of `a` alone give the camel-case form of `a`. */
  lemma CamelOfAppendBase(a: seq<string>, b: seq<string>)
    ensures CamelOfPrefix(a + b, |a|) == CamelOf(a) + CamelOfPrefix(b, 0)
  {
    CamelOfPrefixSame(a + b, a, |a|);
    assert CamelOf(a) + "" == CamelOf(a);
  }

  /** The camel-case form of a concatenation of part lists. */
  lemma CamelOfAppend(a: seq<string>, b: seq<string>)
    ensures CamelOf(a + b) == CamelOf(a) + CamelOf(b)
  {
    var ab := a + b;
    assert |ab| == |a| + |b|;
    CamelOfAppendFrom(a, b, |b|);
    assert CamelOf(ab) == CamelOfPrefix(ab, |a| + |b|);
  }

  /** Splitting at any occurrence of the separator gives the parts before it
      followed by the parts after it. */
  lemma {:induction false} SplitAt(a: string, b: string, sep: char)
    ensures Split(a + [sep] + b, sep) == Split(a, sep) + Split(b, sep)
    decreases |a|
  {
    if a == [] {
      assert [] + [sep] + b == [sep] + b;
      assert ([sep] + b)[1..] == b;
    } else {
      SplitAt(a[1..], b, sep);
      if a[0] == sep {
        SplitAtSeparator(a, b, sep);
      } else {
        SplitAtPlain(a, b, sep);
      }
    }
  }

  /** The step of SplitAt when the text starts with the separator. */
  lemma SplitAtSeparator(a: string, b: string, sep: char)
    requires a != [] && a[0] == sep
    requires Split(a[1..] + [sep] + b, sep) == Split(a[1..], sep) + Split(b, sep)
    ensures Split(a + [sep] + b, sep) == Split(a, sep) + Split(b, sep)
  {
    var t := a + [sep] + b;
    assert t[0] == sep && t[1..] == a[1..] + [sep] + b;
    var head, tail := Split(a[1..], sep), Split(b, sep);
    assert Split(t, sep) == [""] + (head + tail);
    assert [""] + (head + tail) == ([""] + head) + tail;
  }

  /** The step of SplitAt when the text starts with another character. */
  lemma SplitAtPlain(a: string, b: string, sep: char)
    requires a != [] && a[0] != sep
    requires Split(a[1..] + [sep] + b, sep) == Split(a[1..], sep) + Split(b, sep)
    ensures Split(a + [sep] + b, sep) == Split(a, sep) + Split(b, sep)
  {
    var t := a + [sep] + b;
    assert t[0] == a[0] && t[1..] == a[1..] + [sep] + b;
    var head, tail := Split(a[1..], sep), Split(b, sep);
    assert Split(t, sep) == [[a[0]] + (head + tail)[0]] + (head + tail)[1..];
    assert Split(a, sep) == [[a[0]] + head[0]] + head[1..];
    ConsAppendTail([a[0]], head, tail);
  }

  /** Extending the first part of a non-empty part list commutes with
      appending more parts. */
  lemma ConsAppendTail(c: string, head: seq<string>, tail: seq<string>)
    requires head != []
    ensures [c + (head + tail)[0]] + (head + tail)[1..] == ([c + head[0]] + head[1..]) + tail
  {
    assert (head + tail)[0] == head[0];
    assert (head + tail)[1..] == head[1..] + tail;
  }

  /** toCamelCase, as the source runs it: split at hyphens, title-case and
      append the non-empty parts, then drop any hyphen left (there is none). */
  method ToCamelCase(input: string) returns (result: string)
    ensures result == CamelCase(input)
    ensures '-' !in result
  {
    var parts := Split(input, '-');
    result := "";
    var i := 0;
    while i < |parts|
      invariant 0 <= i <= |parts|
      invariant result == CamelOfPrefix(parts, i)
    {
      assert CamelOfPrefix(parts, i + 1) == CamelOfPrefix(parts, i) + Piece(parts[i]);
      if parts[i] != "" {
        result := result + Title(parts[i]);
      }
      i := i + 1;
    }
    assert result == CamelOf(parts);
    CamelOfNoHyphen(parts);
    NoHyphenNoOccurrence(result);
    ReplaceAllNoOccurrence(result, "-", "");
    result := ReplaceAll(result, "-", "");
  }

  /** Text without a hyphen character has no occurrence of the one-character
      text `-`. */
  lemma NoHyphenNoOccurrence(s: string)
    requires '-' !in s
    ensures !Occurs(s, "-")
  {
    forall k | 0 <= k <= |s| - 1
      ensures !OccursAt(s, "-", k)
    {
      assert s[k..k + 1][0] == s[k];
    }
  }

  /** Text without the separator splits into itself alone. */
  lemma {:induction false} SplitNoSeparator(s: string, sep: char)
    requires sep !in s
    ensures Split(s, sep) == [s]
  {
    if s != [] {
      SplitNoSeparator(s[1..], sep);
      assert s == [s[0]] + s[1..];
    }
  }

  /** A doubled hyphen contributes nothing more than a single one. */
  lemma CamelCaseSkipsEmptyParts(a: string, b: string)
    ensures CamelCase(a + "--" + b) == CamelCase(a + "-" + b)
  {
    var sa, sb := Split(a, '-'), Split(b, '-');
    assert Split(a + "--" + b, '-') == sa + ([""] + sb) by {
      assert a + "--" + b == a + ['-'] + ("-" + b);
      SplitAt(a, "-" + b, '-');
      assert [] + ['-'] + b == "-" + b;
      SplitAt("", b, '-');
    }
    assert Split(a + "-" + b, '-') == sa + sb by {
      assert a + "-" + b == a + ['-'] + b;
      SplitAt(a, b, '-');
    }
    calc {
      CamelOf(sa + ([""] + sb));
    == { CamelOfAppend(sa, [""] + sb); }
      CamelOf(sa) + CamelOf([""] + sb);
    == { CamelOfAppend([""], sb); assert CamelOf([""]) == ""; assert "" + CamelOf(sb) == CamelOf(sb); }
      CamelOf(sa) + CamelOf(sb);
    == { CamelOfAppend(sa, sb); }
      CamelOf(sa + sb);
    }
  }

  /** A name of two hyphen-free words joined by one hyphen becomes the two
      title-cased words run together. */
  lemma CamelCaseOfPair(x: string, y: string)
    requires x != "" && y != "" && '-' !in x && '-' !in y
    ensures CamelCase(x + "-" + y) == Title(x) + Title(y)
  {
    assert x + "-" + y == x + ['-'] + y;
    SplitAt(x, y, '-');
    SplitNoSeparator(x, '-');
    SplitNoSeparator(y, '-');
    assert [x] + [y] == [x, y];
    CamelOfTwo(x, y);
  }

  /** `inline-block` becomes `InlineBlock`, the name of its constructor. */
  lemma InlineBlockName(name: string)
    requires name == "inline-block"
    ensures CamelCase(name) == "InlineBlock"
  {
    var x, y := "inline", "block";
    assert name == x + "-" + y;
    CamelCaseOfPair(x, y);
    TitleOfLowerWord(x);
    TitleOfLowerWord(y);
  }

  /** Two non-empty parts are title-cased and run together. */
  lemma CamelOfTwo(x: string, y: string)
    requires x != "" && y != ""
    ensures CamelOf([x, y]) == Title(x) + Title(y)
  {
    assert CamelOfPrefix([x, y], 1) == "" + Title(x);
  }

  // ---------------------------------------------------------------------------
  // The function texts
  // ---------------------------------------------------------------------------

  /** A constructor without parameters that tracks and returns `className`. */
  function KeywordFunc(funcName: string, className: string): string
  {
    "// " + funcName + " applies " + className + " utility\nfunc " + funcName + "() Class {\n\ttrackClass(\"" +
    className + "\")\n\treturn \"" + className + "\"\n}"
  }

  /** A constructor of `prefix-<n>` from an integer parameter. */
  function IntFunc(docName: string, docWhat: string, funcName: string, param: string, prefix: string): string
  {
    "// " + docName + " applies " + docWhat + " utility\nfunc " + funcName + "(" + param + " int) Class {\n" +
    "\tclassName := fmt.Sprintf(\"" + prefix + "-%d\", " + param + ")\n\ttrackClass(className)\n\treturn Class(className)\n}"
  }

  /** A constructor of `prefix<s>` from a string parameter. */
  function StringFunc(funcName: string, docWhat: string, param: string, prefix: string): string
  {
    "// " + funcName + " applies " + docWhat + " utility\nfunc " + funcName + "(" + param + " string) Class {\n" +
    "\tclassName := fmt.Sprintf(\"" + prefix + "%s\", " + param + ")\n\ttrackClass(className)\n\treturn Class(className)\n}"
  }

  /** The constructor of a colour's `bg-` or `text-` classes; the `text-`
      variant's comment line ends with two spaces. */
  function ShadeFunc(funcName: string, kind: string, colorName: string, trailer: string): string
  {
    "// " + funcName + " applies " + kind + "-" + colorName + "-shade utility" + trailer + "\nfunc " + funcName +
    "(shade int) Class {\n\tclassName := fmt.Sprintf(\"" + kind + "-" + colorName + "-%d\", shade)\n" +
    "\ttrackClass(className)\n\treturn Class(className)\n}"
  }

  /** The fixed text of the Shadow constructor. */
  const ShadowFunc: string :=
    "// Shadow applies shadow utility\nfunc Shadow(size ...string) Class {\n\tvar className string\n" +
    "\tif len(size) > 0 && size[0] != \"\" {\n\t\tclassName = fmt.Sprintf(\"shadow-%s\", size[0])\n" +
    "\t} else {\n\t\tclassName = \"shadow\"\n\t}\n\ttrackClass(className)\n\treturn Class(className)\n}"

  // ---------------------------------------------------------------------------
  // Function names
  // ---------------------------------------------------------------------------

  /** The name of a spacing constructor: the title-cased prefix, unless its
      second character is not upper case, in which case only the first
      character of the prefix is upper-cased. */
  function SpacingFuncName(prefix: string): (name: string)
    ensures |name| == |prefix|
  {
    var name := Title(prefix);
    if |name| > 1 && [name[1]] != ToUpper([name[1]]) then ToUpper(prefix[..1]) + prefix[1..]
    else name
  }

  /** For a lower-case prefix the name is the prefix with its first letter
      upper-cased (`px` gives `Px`). */
  lemma SpacingFuncNameLower(prefix: string)
    requires |prefix| > 0 && forall i :: 0 <= i < |prefix| ==> IsLowerAscii(prefix[i])
    ensures SpacingFuncName(prefix) == [ToUpperChar(prefix[0])] + prefix[1..]
  {
    TitleOfLowerWord(prefix);
    assert ToUpper(prefix[..1]) == [ToUpperChar(prefix[0])];
  }

  /** The name of a colour's constructors: `Bg` or `Text` and the title-cased
      colour name. */
  function BgFuncName(colorName: string): string { "Bg" + Title(colorName) }

  function TextFuncName(colorName: string): string { "Text" + Title(colorName) }

  /** The name of a text-size constructor: `Text` and the title-cased size,
      except `2xl` and `3xl`, whose size is upper-cased. */
  function TextSizeFuncName(sizeName: string): string
  {
    if sizeName == "2xl" || sizeName == "3xl" then "Text" + ToUpper(sizeName) else "Text" + Title(sizeName)
  }

  /** `2xl` and `3xl` read `XL`; the other numbered sizes keep `xl`, because
      title-casing does not touch a letter that follows a digit. */
  lemma TextSizeNames()
    ensures TextSizeFuncName("2xl") == "Text2XL"
    ensures TextSizeFuncName("3xl") == "Text3XL"
    ensures TextSizeFuncName("4xl") == "Text4xl"
    ensures TextSizeFuncName("lg") == "TextLg"
  {
    assert ToUpper("2xl") == "2XL";
    assert ToUpper("3xl") == "3XL";
    assert Title("4xl") == "4xl";
    TitleOfLowerWord("lg");
  }

  // ---------------------------------------------------------------------------
  // The lists each generator appends
  // ---------------------------------------------------------------------------

  /** One keyword constructor per entry, named by the camel case of its name. */
  function KeywordFunctions(items: seq<NamedProperty>): (fs: seq<string>)
    ensures |fs| == |items|
    decreases |items|
  {
    if items == [] then []
    else
      var last := items[|items| - 1];
      KeywordFunctions(items[..|items| - 1]) + [KeywordFunc(CamelCase(last.name), last.name)]
  }

  function SpacingFunction(p: PrefixedProperty): string
  {
    IntFunc(p.name, p.name, SpacingFuncName(p.prefix), "size", p.prefix)
  }

  /** One integer constructor per spacing property, in order. */
  function SpacingFunctions(props: seq<PrefixedProperty>): (fs: seq<string>)
    ensures |fs| == |props|
    decreases |props|
  {
    if props == [] then []
    else SpacingFunctions(props[..|props| - 1]) + [SpacingFunction(props[|props| - 1])]
  }

  /** One more property adds its constructor at the end. */
  lemma SpacingFunctionsStep(props: seq<PrefixedProperty>, i: nat)
    requires i < |props|
    ensures SpacingFunctions(props[..i + 1]) == SpacingFunctions(props[..i]) + [SpacingFunction(props[i])]
  {
    assert props[..i + 1][..i] == props[..i];
  }

  /** One more keyword adds its constructor at the end. */
  lemma KeywordFunctionsStep(items: seq<NamedProperty>, i: nat)
    requires i < |items|
    ensures KeywordFunctions(items[..i + 1]) ==
      KeywordFunctions(items[..i]) + [KeywordFunc(CamelCase(items[i].name), items[i].name)]
  {
    assert items[..i + 1][..i] == items[..i];
  }

  function BgFunction(colorName: string): string
  {
    ShadeFunc(BgFuncName(colorName), "bg", colorName, "")
  }

  function TextFunction(colorName: string): string
  {
    ShadeFunc(TextFuncName(colorName), "text", colorName, "  ")
  }

  /** Two constructors per colour, the `Bg` one first. */
  function ColorFunctions(colors: seq<ColorFamily>): (fs: seq<string>)
    ensures |fs| == 2 * |colors|
    decreases |colors|
  {
    if colors == [] then []
    else
      var c := colors[|colors| - 1];
      ColorFunctions(colors[..|colors| - 1]) + [BgFunction(c.name), TextFunction(c.name)]
  }

  /** One more colour adds its two constructors at the end. */
  lemma ColorFunctionsStep(colors: seq<ColorFamily>, i: nat)
    requires i < |colors|
    ensures ColorFunctions(colors[..i + 1]) ==
      ColorFunctions(colors[..i]) + [BgFunction(colors[i].name)] + [TextFunction(colors[i].name)]
  {
    assert colors[..i + 1][..i] == colors[..i];
  }

  /** The constructors of colour `i` sit at places `2i` and `2i + 1`. */
  lemma {:induction false} ColorFunctionsAt(colors: seq<ColorFamily>, i: nat)
    requires i < |colors|
    ensures ColorFunctions(colors)[2 * i] == BgFunction(colors[i].name)
    ensures ColorFunctions(colors)[2 * i + 1] == TextFunction(colors[i].name)
    decreases |colors|
  {
    var init := colors[..|colors| - 1];
    if i < |colors| - 1 {
      ColorFunctionsAt(init, i);
      assert init[i] == colors[i];
    }
  }

  /** Display, justify, align and direction keywords; the wrap entries get no
      constructor. */
  function LayoutFunctions(layout: LayoutConfig): (fs: seq<string>)
    ensures |fs| == |layout.display| + |layout.justify| + |layout.align| + |layout.direction|
  {
    KeywordFunctions(layout.display) + KeywordFunctions(layout.justify) +
    KeywordFunctions(layout.align) + KeywordFunctions(layout.direction)
  }

  function TextSizeFunction(t: TextSize): string
  {
    KeywordFunc(TextSizeFuncName(t.name), "text-" + t.name)
  }

  function TextSizeFunctions(sizes: seq<TextSize>): (fs: seq<string>)
    ensures |fs| == |sizes|
    decreases |sizes|
  {
    if sizes == [] then []
    else TextSizeFunctions(sizes[..|sizes| - 1]) + [TextSizeFunction(sizes[|sizes| - 1])]
  }

  /** One more size adds its constructor at the end. */
  lemma TextSizeFunctionsStep(sizes: seq<TextSize>, i: nat)
    requires i < |sizes|
    ensures TextSizeFunctions(sizes[..i + 1]) == TextSizeFunctions(sizes[..i]) + [TextSizeFunction(sizes[i])]
  {
    assert sizes[..i + 1][..i] == sizes[..i];
  }

  /** Sizes, then align, weight and family keywords; decoration entries get
      no constructor. */
  function TypographyFunctions(typography: TypographyConfig): (fs: seq<string>)
    ensures |fs| == |typography.sizes| + |typography.align| + |typography.weight| + |typography.families|
  {
    TextSizeFunctions(typography.sizes) + KeywordFunctions(typography.align) +
    KeywordFunctions(typography.weight) + KeywordFunctions(typography.families)
  }

  function BorderFunction(p: PrefixedProperty, param: string): string
  {
    var name := CamelCase(p.name);
    IntFunc(name, p.name, name, param, p.prefix)
  }

  function BorderFunctions(props: seq<PrefixedProperty>, param: string): (fs: seq<string>)
    ensures |fs| == |props|
    decreases |props|
  {
    if props == [] then []
    else BorderFunctions(props[..|props| - 1], param) + [BorderFunction(props[|props| - 1], param)]
  }

  /** One more property adds its constructor at the end. */
  lemma BorderFunctionsStep(props: seq<PrefixedProperty>, param: string, i: nat)
    requires i < |props|
    ensures BorderFunctions(props[..i + 1], param) == BorderFunctions(props[..i], param) + [BorderFunction(props[i], param)]
  {
    assert props[..i + 1][..i] == props[..i];
  }

  /** Width constructors, radius constructors, then the special radius
      keywords; the style entries get no constructor. */
  function BordersFunctions(borders: BordersConfig): (fs: seq<string>)
    ensures |fs| == |borders.widthProperties| + |borders.radiusProperties| + |borders.radiusSpecial|
  {
    BorderFunctions(borders.widthProperties, "width") + BorderFunctions(borders.radiusProperties, "radius") +
    KeywordFunctions(borders.radiusSpecial)
  }

  /** The six fixed sizing constructors. */
  function SizingFunctions(): (fs: seq<string>)
    ensures |fs| == 6
  {
    [StringFunc("W", "width", "size", "w-"),
     StringFunc("H", "height", "size", "h-"),
     StringFunc("MaxW", "max-width", "size", "max-w-"),
     StringFunc("MinW", "min-width", "size", "min-w-"),
     StringFunc("MaxH", "max-height", "size", "max-h-"),
     StringFunc("MinH", "min-height", "size", "min-h-")]
  }

  const DirectionNames: seq<string> := ["Top", "Right", "Bottom", "Left"]

  function DirectionFunction(dir: string): string
  {
    StringFunc(dir, ToLower(dir) + " position", "value", ToLower(dir) + "-")
  }

  /** The four side constructors, Top, Right, Bottom, Left, each building
      the lower-cased side name. */
  function DirectionFunctions(): (fs: seq<string>)
    ensures |fs| == 4
    ensures forall i :: 0 <= i < 4 ==> fs[i] == DirectionFunction(DirectionNames[i])
  {
    seq(4, i requires 0 <= i < 4 => DirectionFunction(DirectionNames[i]))
  }

  /** The sides come in the order Top, Right, Bottom, Left, and each builds
      its lower-cased name. */
  lemma DirectionOrder()
    ensures DirectionFunctions() ==
      [DirectionFunction("Top"), DirectionFunction("Right"), DirectionFunction("Bottom"), DirectionFunction("Left")]
    ensures ToLower("Top") == "top" && ToLower("Right") == "right"
    ensures ToLower("Bottom") == "bottom" && ToLower("Left") == "left"
  {
  }

  const InsetFunctions: seq<string> :=
    [StringFunc("Inset", "inset", "value", "inset-"),
     StringFunc("InsetX", "horizontal inset", "value", "inset-x-"),
     StringFunc("InsetY", "vertical inset", "value", "inset-y-")]

  const ZFunction: string := StringFunc("Z", "z-index", "value", "z-")

  /** Position types, the four sides, the three insets, z-index, then the
      overflow keywords. */
  function PositionFunctions(position: PositionConfig): (fs: seq<string>)
    ensures |fs| == |position.types| + 4 + 3 + 1 + |position.overflow|
  {
    KeywordFunctions(position.types) + DirectionFunctions() + InsetFunctions + [ZFunction] +
    KeywordFunctions(position.overflow)
  }

  const OpacityFunction: string := IntFunc("Opacity", "opacity", "Opacity", "value", "opacity")

  /** Opacity and Shadow, then the cursor, user-select, pointer-events,
      visibility and screen-reader keywords. */
  function EffectsFunctions(effects: EffectsConfig): (fs: seq<string>)
    ensures |fs| == 2 + |effects.cursor| + |effects.userSelect| + |effects.pointerEvents| +
                    |effects.visibility| + |effects.screenReaders|
  {
    [OpacityFunction, ShadowFunc] + KeywordFunctions(effects.cursor) + KeywordFunctions(effects.userSelect) +
    KeywordFunctions(effects.pointerEvents) + KeywordFunctions(effects.visibility) +
    KeywordFunctions(effects.screenReaders)
  }

  /** Everything GenerateUtilitiesCode hands to the template, section by
      section. */
  function AllFunctions(cfg: Config): (fs: seq<string>)
    ensures |fs| == |cfg.spacing.properties| + 2 * |cfg.colors| +
      (|cfg.layout.display| + |cfg.layout.justify| + |cfg.layout.align| + |cfg.layout.direction|) +
      (|cfg.typography.sizes| + |cfg.typography.align| + |cfg.typography.weight| + |cfg.typography.families|) +
      (|cfg.borders.widthProperties| + |cfg.borders.radiusProperties| + |cfg.borders.radiusSpecial|) +
      6 + (|cfg.position.types| + 8 + |cfg.position.overflow|) +
      (2 + |cfg.effects.cursor| + |cfg.effects.userSelect| + |cfg.effects.pointerEvents| +
       |cfg.effects.visibility| + |cfg.effects.screenReaders|)
  {
    SpacingFunctions(cfg.spacing.properties) + ColorFunctions(cfg.colors) + LayoutFunctions(cfg.layout) +
    TypographyFunctions(cfg.typography) + BordersFunctions(cfg.borders) + SizingFunctions() +
    PositionFunctions(cfg.position) + EffectsFunctions(cfg.effects)
  }

  // ---------------------------------------------------------------------------
  // The generator object
  // ---------------------------------------------------------------------------

  /** Appending lists one after another appends their concatenation. */
  lemma Regroup2(s: seq<string>, a: seq<string>, b: seq<string>)
    ensures s + a + b == s + (a + b)
  {
  }

  lemma Regroup3(s: seq<string>, a: seq<string>, b: seq<string>, c: seq<string>)
    ensures s + a + b + c == s + (a + b + c)
  {
  }

  lemma Regroup4(s: seq<string>, a: seq<string>, b: seq<string>, c: seq<string>, d: seq<string>)
    ensures s + a + b + c + d == s + (a + b + c + d)
  {
  }

  lemma Regroup5(s: seq<string>, a: seq<string>, b: seq<string>, c: seq<string>, d: seq<string>, e: seq<string>)
    ensures s + a + b + c + d + e == s + (a + b + c + d + e)
  {
  }

  lemma Regroup6(s: seq<string>, a: seq<string>, b: seq<string>, c: seq<string>, d: seq<string>,
                 e: seq<string>, f: seq<string>)
    ensures s + a + b + c + d + e + f == s + (a + b + c + d + e + f)
  {
  }

  class CodeGenerator {
    /** The function texts added so far, in order. */
    var functions: seq<string>

    /** NewCodeGenerator. */
    constructor ()
      ensures functions == []
    {
      functions := [];
    }

    /** AddFunction: append one text at the end. */
    method AddFunction(code: string)
      modifies this
      ensures functions == old(functions) + [code]
    {
      functions := functions + [code];
    }

    /** The loop shared by every keyword section. */
    method AddKeywordFunctions(items: seq<NamedProperty>)
      modifies this
      ensures functions == old(functions) + KeywordFunctions(items)
    {
      var i := 0;
      while i < |items|
        invariant 0 <= i <= |items|
        invariant functions == old(functions) + KeywordFunctions(items[..i])
      {
        var name := ToCamelCase(items[i].name);
        var f := KeywordFunc(name, items[i].name);
        AddFunction(f);
        KeywordFunctionsStep(items, i);
        Regroup2(old(functions), KeywordFunctions(items[..i]), [f]);
        i := i + 1;
      }
      assert items[..i] == items;
    }

    method GenerateSpacingFunctions(spacing: SpacingConfig)
      modifies this
      ensures functions == old(functions) + SpacingFunctions(spacing.properties)
    {
      var props := spacing.properties;
      var i := 0;
      while i < |props|
        invariant 0 <= i <= |props|
        invariant functions == old(functions) + SpacingFunctions(props[..i])
      {
        var funcName := SpacingFuncName(props[i].prefix);
        var f := IntFunc(props[i].name, props[i].name, funcName, "size", props[i].prefix);
        AddFunction(f);
        SpacingFunctionsStep(props, i);
        Regroup2(old(functions), SpacingFunctions(props[..i]), [f]);
        i := i + 1;
      }
      assert props[..i] == props;
    }

    method GenerateColorFunctions(colors: seq<ColorFamily>)
      modifies this
      ensures functions == old(functions) + ColorFunctions(colors)
    {
      var i := 0;
      while i < |colors|
        invariant 0 <= i <= |colors|
        invariant functions == old(functions) + ColorFunctions(colors[..i])
      {
        var name := colors[i].name;
        var bg := ShadeFunc(BgFuncName(name), "bg", name, "");
        var text := ShadeFunc(TextFuncName(name), "text", name, "  ");
        AddFunction(bg);
        AddFunction(text);
        ColorFunctionsStep(colors, i);
        Regroup3(old(functions), ColorFunctions(colors[..i]), [bg], [text]);
        i := i + 1;
      }
      assert colors[..i] == colors;
    }

    method GenerateLayoutFunctions(layout: LayoutConfig)
      modifies this
      ensures functions == old(functions) + LayoutFunctions(layout)
    {
      ghost var start := functions;
      AddKeywordFunctions(layout.display);
      AddKeywordFunctions(layout.justify);
      AddKeywordFunctions(layout.align);
      AddKeywordFunctions(layout.direction);
      Regroup4(start, KeywordFunctions(layout.display), KeywordFunctions(layout.justify),
               KeywordFunctions(layout.align), KeywordFunctions(layout.direction));
    }

    method GenerateTypographyFunctions(typography: TypographyConfig)
      modifies this
      ensures functions == old(functions) + TypographyFunctions(typography)
    {
      var sizes := typography.sizes;
      var i := 0;
      while i < |sizes|
        invariant 0 <= i <= |sizes|
        invariant functions == old(functions) + TextSizeFunctions(sizes[..i])
      {
        var sizeName := sizes[i].name;
        var funcName := "Text" + Title(sizeName);
        if sizeName == "2xl" || sizeName == "3xl" {
          funcName := "Text" + ToUpper(sizeName);
        }
        var f := KeywordFunc(funcName, "text-" + sizeName);
        AddFunction(f);
        TextSizeFunctionsStep(sizes, i);
        Regroup2(old(functions), TextSizeFunctions(sizes[..i]), [f]);
        i := i + 1;
      }
      assert sizes[..i] == sizes;
      AddKeywordFunctions(typography.align);
      AddKeywordFunctions(typography.weight);
      AddKeywordFunctions(typography.families);
      Regroup4(old(functions), TextSizeFunctions(sizes), KeywordFunctions(typography.align),
               KeywordFunctions(typography.weight), KeywordFunctions(typography.families));
    }

    method AddBorderFunctions(props: seq<PrefixedProperty>, param: string)
      modifies this
      ensures functions == old(functions) + BorderFunctions(props, param)
    {
      var i := 0;
      while i < |props|
        invariant 0 <= i <= |props|
        invariant functions == old(functions) + BorderFunctions(props[..i], param)
      {
        var name := ToCamelCase(props[i].name);
        var f := IntFunc(name, props[i].name, name, param, props[i].prefix);
        AddFunction(f);
        BorderFunctionsStep(props, param, i);
        Regroup2(old(functions), BorderFunctions(props[..i], param), [f]);
        i := i + 1;
      }
      assert props[..i] == props;
    }

    method GenerateBorderFunctions(borders: BordersConfig)
      modifies this
      ensures functions == old(functions) + BordersFunctions(borders)
    {
      AddBorderFunctions(borders.widthProperties, "width");
      AddBorderFunctions(borders.radiusProperties, "radius");
      AddKeywordFunctions(borders.radiusSpecial);
      Regroup3(old(functions), BorderFunctions(borders.widthProperties, "width"),
               BorderFunctions(borders.radiusProperties, "radius"), KeywordFunctions(borders.radiusSpecial));
    }

    /** Six fixed constructors, whatever the sizing configuration says. */
    method GenerateSizingFunctions(sizing: SizingConfig)
      modifies this
      ensures functions == old(functions) + SizingFunctions()
    {
      AddFunction(StringFunc("W", "width", "size", "w-"));
      AddFunction(StringFunc("H", "height", "size", "h-"));
      AddFunction(StringFunc("MaxW", "max-width", "size", "max-w-"));
      AddFunction(StringFunc("MinW", "min-width", "size", "min-w-"));
      AddFunction(StringFunc("MaxH", "max-height", "size", "max-h-"));
      AddFunction(StringFunc("MinH", "min-height", "size", "min-h-"));
    }

    /** The loop over the four sides inside GeneratePositionFunctions. */
    method AddDirectionFunctions()
      modifies this
      ensures functions == old(functions) + DirectionFunctions()
    {
      var i := 0;
      while i < |DirectionNames|
        invariant 0 <= i <= 4
        invariant functions == old(functions) + DirectionFunctions()[..i]
      {
        var dir := DirectionNames[i];
        AddFunction(StringFunc(dir, ToLower(dir) + " position", "value", ToLower(dir) + "-"));
        assert DirectionFunctions()[..i + 1] == DirectionFunctions()[..i] + [DirectionFunction(dir)];
        i := i + 1;
      }
      assert DirectionFunctions()[..4] == DirectionFunctions();
    }

    method GeneratePositionFunctions(position: PositionConfig)
      modifies this
      ensures functions == old(functions) + PositionFunctions(position)
    {
      AddKeywordFunctions(position.types);
      AddDirectionFunctions();
      ghost var afterSides := functions;
      AddFunction(InsetFunctions[0]);
      AddFunction(InsetFunctions[1]);
      AddFunction(InsetFunctions[2]);
      assert functions == afterSides + InsetFunctions;
      AddFunction(ZFunction);
      AddKeywordFunctions(position.overflow);
      assert functions == old(functions) + KeywordFunctions(position.types) + DirectionFunctions() +
                          InsetFunctions + [ZFunction] + KeywordFunctions(position.overflow);
      Regroup5(old(functions), KeywordFunctions(position.types), DirectionFunctions(),
               InsetFunctions, [ZFunction], KeywordFunctions(position.overflow));
    }

    method GenerateEffectsFunctions(effects: EffectsConfig)
      modifies this
      ensures functions == old(functions) + EffectsFunctions(effects)
    {
      AddFunction(OpacityFunction);
      AddFunction(ShadowFunc);
      assert functions == old(functions) + [OpacityFunction, ShadowFunc];
      AddKeywordFunctions(effects.cursor);
      AddKeywordFunctions(effects.userSelect);
      AddKeywordFunctions(effects.pointerEvents);
      AddKeywordFunctions(effects.visibility);
      AddKeywordFunctions(effects.screenReaders);
      Regroup6(old(functions), [OpacityFunction, ShadowFunc], KeywordFunctions(effects.cursor),
               KeywordFunctions(effects.userSelect), KeywordFunctions(effects.pointerEvents),
               KeywordFunctions(effects.visibility), KeywordFunctions(effects.screenReaders));
    }
  }

  /** GenerateUtilitiesCode, up to the list of function texts it renders: on a
      loading error nothing is generated and the error is returned. */
  method GenerateUtilitiesCode(loaded: ConfigResult) returns (functions: seq<string>, err: Option<string>)
    ensures loaded.LoadFailed? ==> functions == [] && err == Some(loaded.error)
    ensures loaded.Loaded? ==> err == None && functions == AllFunctions(loaded.config)
  {
    if loaded.LoadFailed? {
      return [], Some(loaded.error);
    }
    var cfg := loaded.config;
    var cg := new CodeGenerator();
    cg.GenerateSpacingFunctions(cfg.spacing);
    cg.GenerateColorFunctions(cfg.colors);
    cg.GenerateLayoutFunctions(cfg.layout);
    cg.GenerateTypographyFunctions(cfg.typography);
    cg.GenerateBorderFunctions(cfg.borders);
    cg.GenerateSizingFunctions(cfg.sizing);
    cg.GeneratePositionFunctions(cfg.position);
    cg.GenerateEffectsFunctions(cfg.effects);
    assert [] + SpacingFunctions(cfg.spacing.properties) == SpacingFunctions(cfg.spacing.properties);
    functions := cg.functions;
    err := None;
  }
}
