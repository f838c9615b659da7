/** The stylesheet, its sorted serialisation, the expansion of the
    configuration into rules, the hard-coded fallback rule set and the
    tree-shaking filter (css/internal/css_generator.go). */
module CssGenerator {
  import opened Wrappers
  import opened Strings
  import opened Sorting
  import opened CssConfig

  /** One `AddRule(selector, declaration)` call. */
  datatype Rule = Rule(selector: string, declaration: string)

  // ---------------------------------------------------------------------------
  // Rule tables: a sequence of AddRule calls and the map it leaves behind
  // ---------------------------------------------------------------------------

  /** The table left by applying `rs` in order to `m`, each call overwriting
      the declaration of its selector. */
  function ApplyAll(m: map<string, string>, rs: seq<Rule>): map<string, string>
    decreases |rs|
  {
    if rs == [] then m
    else
      var last := rs[|rs| - 1];
      ApplyAll(m, rs[..|rs| - 1])[last.selector := last.declaration]
  }

  /** The selectors `rs` writes. */
  function Selectors(rs: seq<Rule>): (sels: set<string>)
    ensures forall i :: 0 <= i < |rs| ==> rs[i].selector in sels
    ensures forall k :: k in sels ==> exists i :: 0 <= i < |rs| && rs[i].selector == k
    decreases |rs|
  {
    if rs == [] then {}
    else Selectors(rs[..|rs| - 1]) + {rs[|rs| - 1].selector}
  }

  /** No selector is written twice by `rs`. */
  predicate DistinctSelectors(rs: seq<Rule>)
  {
    forall i, j :: 0 <= i < j < |rs| ==> rs[i].selector != rs[j].selector
  }

  /** `rs[i]` is the last call of `rs` that writes its selector. */
  predicate LastWrite(rs: seq<Rule>, i: int)
  {
    0 <= i < |rs| && forall j :: i < j < |rs| ==> rs[j].selector != rs[i].selector
  }

  /** The table holds exactly the old selectors and the written ones. */
  lemma {:induction false} ApplyAllKeys(m: map<string, string>, rs: seq<Rule>)
    ensures ApplyAll(m, rs).Keys == m.Keys + Selectors(rs)
    decreases |rs|
  {
    if rs != [] {
      ApplyAllKeys(m, rs[..|rs| - 1]);
    }
  }

  /** Last write wins: a written selector maps to the declaration of its last
      write. */
  lemma {:induction false} ApplyAllLastWrite(m: map<string, string>, rs: seq<Rule>, i: int)
    requires LastWrite(rs, i)
    ensures rs[i].selector in ApplyAll(m, rs) && ApplyAll(m, rs)[rs[i].selector] == rs[i].declaration
    decreases |rs|
  {
    var n := |rs| - 1;
    if i < n {
      assert LastWrite(rs[..n], i);
      ApplyAllLastWrite(m, rs[..n], i);
    }
  }

  /** A selector no call writes keeps its old declaration. */
  lemma {:induction false} ApplyAllUntouched(m: map<string, string>, rs: seq<Rule>, k: string)
    requires k in m && k !in Selectors(rs)
    ensures k in ApplyAll(m, rs) && ApplyAll(m, rs)[k] == m[k]
    decreases |rs|
  {
    if rs != [] {
      ApplyAllUntouched(m, rs[..|rs| - 1], k);
    }
  }

  /** Every AddRule of `a` is applied before every AddRule of `b`. */
  lemma {:induction false} ApplyAllAppend(m: map<string, string>, a: seq<Rule>, b: seq<Rule>)
    ensures ApplyAll(m, a + b) == ApplyAll(ApplyAll(m, a), b)
    decreases |b|
  {
    if b == [] {
      assert a + b == a;
    } else {
      var n := |b| - 1;
      assert (a + b)[..|a + b| - 1] == a + b[..n];
      assert (a + b)[|a + b| - 1] == b[n];
      ApplyAllAppend(m, a, b[..n]);
    }
  }

  /** Without repeated selectors every rule survives with its own declaration. */
  lemma ApplyAllDistinct(m: map<string, string>, rs: seq<Rule>)
    requires DistinctSelectors(rs)
    ensures forall i :: 0 <= i < |rs| ==> rs[i].selector in ApplyAll(m, rs) && ApplyAll(m, rs)[rs[i].selector] == rs[i].declaration
  {
    forall i | 0 <= i < |rs|
      ensures rs[i].selector in ApplyAll(m, rs) && ApplyAll(m, rs)[rs[i].selector] == rs[i].declaration
    {
      ApplyAllLastWrite(m, rs, i);
    }
  }

  /** Without repeated selectors the order of the AddRule calls does not
      matter: the same rules in any order give the same table. */
  lemma ApplyAllOrderIndependent(m: map<string, string>, a: seq<Rule>, b: seq<Rule>)
    requires DistinctSelectors(a) && DistinctSelectors(b)
    requires forall r :: r in a <==> r in b
    ensures ApplyAll(m, a) == ApplyAll(m, b)
  {
    ApplyAllKeys(m, a);
    ApplyAllKeys(m, b);
    SameSelectors(a, b);
    forall k | k in ApplyAll(m, a) ensures ApplyAll(m, a)[k] == ApplyAll(m, b)[k] {
      ApplyAllAgreeAt(m, a, b, k);
    }
  }

  /** The same rules, in whatever order, write the same selectors. */
  lemma SameSelectors(a: seq<Rule>, b: seq<Rule>)
    requires forall r :: r in a <==> r in b
    ensures Selectors(a) == Selectors(b)
  {
    forall k | k in Selectors(a) ensures k in Selectors(b) {
      var i :| 0 <= i < |a| && a[i].selector == k;
      assert a[i] in b;
    }
    forall k | k in Selectors(b) ensures k in Selectors(a) {
      var i :| 0 <= i < |b| && b[i].selector == k;
      assert b[i] in a;
    }
  }

  /** One entry of ApplyAllOrderIndependent: the two tables agree on `k`. */
  lemma ApplyAllAgreeAt(m: map<string, string>, a: seq<Rule>, b: seq<Rule>, k: string)
    requires DistinctSelectors(a) && DistinctSelectors(b)
    requires forall r :: r in a <==> r in b
    requires k in m || k in Selectors(a)
    ensures k in ApplyAll(m, a) && k in ApplyAll(m, b) && ApplyAll(m, a)[k] == ApplyAll(m, b)[k]
  {
    SameSelectors(a, b);
    if k in Selectors(a) {
      var i :| 0 <= i < |a| && a[i].selector == k;
      assert a[i] in b;
      var j :| 0 <= j < |b| && b[j] == a[i];
      ApplyAllLastWrite(m, a, i);
      ApplyAllLastWrite(m, b, j);
    } else {
      ApplyAllUntouched(m, a, k);
      ApplyAllUntouched(m, b, k);
    }
  }

  /** Without repeated selectors, and none already present, each rule adds
      exactly one entry. */
  lemma {:induction false} ApplyAllSize(m: map<string, string>, rs: seq<Rule>)
    requires DistinctSelectors(rs)
    requires forall i :: 0 <= i < |rs| ==> rs[i].selector !in m
    ensures |ApplyAll(m, rs)| == |m| + |rs|
    decreases |rs|
  {
    if rs != [] {
      var n := |rs| - 1;
      var init := rs[..n];
      var last := rs[n].selector;
      assert last !in ApplyAll(m, init) by {
        ApplyAllKeys(m, init);
        assert last !in Selectors(init);
      }
      assert DistinctSelectors(init);
      ApplyAllSize(m, init);
      assert ApplyAll(m, rs) == ApplyAll(m, init)[last := rs[n].declaration];
    }
  }

  // ---------------------------------------------------------------------------
  // The stylesheet and its serialisation
  // ---------------------------------------------------------------------------

  /** One output line: `selector { declaration }` and a newline. */
  function Line(selector: string, declaration: string): string
  {
    selector + " { " + declaration + " }\n"
  }

  /** The lines of `selectors`, in that order, each with its declaration in `m`. */
  function Lines(selectors: seq<string>, m: map<string, string>): string
    requires forall s :: s in selectors ==> s in m
    decreases |selectors|
  {
    if selectors == [] then ""
    else
      var last := selectors[|selectors| - 1];
      Lines(selectors[..|selectors| - 1], m) + Line(last, m[last])
  }

  /** One more selector adds its line at the end. */
  lemma LinesStep(selectors: seq<string>, m: map<string, string>, i: nat)
    requires i < |selectors|
    requires forall s :: s in selectors ==> s in m
    ensures Lines(selectors[..i + 1], m) == Lines(selectors[..i], m) + Line(selectors[i], m[selectors[i]])
  {
    assert selectors[..i + 1][..i] == selectors[..i];
  }

  /** The canonical text of a rule table: one line per rule, selectors in
      ascending byte order. */
  ghost function Serialize(m: map<string, string>): string
  {
    Lines(SortedSeq(m.Keys), m)
  }

  class Stylesheet {
    var rules: map<string, string>

    /** NewStylesheet. */
    constructor ()
      ensures rules == map[]
    {
      rules := map[];
    }

    method AddRule(selector: string, properties: string)
      modifies this
      ensures rules == old(rules)[selector := properties]
    {
      rules := rules[selector := properties];
    }

    /** One pass of generateBasicUtilities' spacing loop: the padding rule,
        then the margin rule, for size `i`. */
    method AddSpacingPair(i: int)
      modifies this
      ensures rules == old(rules)[PaddingRule(i).selector := PaddingRule(i).declaration]
                                 [MarginRule(i).selector := MarginRule(i).declaration]
    {
      AddRule(".p-" + IntToString(i), "padding: " + Fixed2(25 * i) + "rem");
      AddRule(".m-" + IntToString(i), "margin: " + Fixed2(25 * i) + "rem");
    }

    /** One `for ... { s.AddRule(...) }` loop of the generator. */
    method AddRules(rs: seq<Rule>)
      modifies this
      ensures rules == ApplyAll(old(rules), rs)
    {
      var i := 0;
      while i < |rs|
        invariant 0 <= i <= |rs|
        invariant rules == ApplyAll(old(rules), rs[..i])
      {
        AddRule(rs[i].selector, rs[i].declaration);
        assert rs[..i + 1][..i] == rs[..i];
        i := i + 1;
      }
      assert rs[..|rs|] == rs;
    }

    /** Collect the selectors, sort them and write one line per rule. */
    method GenerateCSS() returns (css: string)
      ensures css == Serialize(rules)
    {
      if |rules| == 0 {
        assert SortedSeq(rules.Keys) == [];
        return "";
      }
      var selectors := SortedKeys(rules);
      css := "";
      var i := 0;
      while i < |selectors|
        invariant 0 <= i <= |selectors|
        invariant forall s :: s in selectors ==> s in rules
        invariant css == Lines(selectors[..i], rules)
      {
        var properties := rules[selectors[i]];
        LinesStep(selectors, rules, i);
        css := css + Line(selectors[i], properties);
        i := i + 1;
      }
      assert selectors[..|selectors|] == selectors;
    }
  }

  /** A rule table serialises to the empty text exactly when it is empty. */
  lemma SerializeEmpty(m: map<string, string>)
    ensures Serialize(m) == "" <==> |m| == 0
  {
    var keys := SortedSeq(m.Keys);
    if |m| != 0 {
      assert |keys| > 0;
      var last := keys[|keys| - 1];
      assert |Line(last, m[last])| > 0;
    }
  }

  /** Adding a rule twice for one selector keeps the later declaration; the
      selector is listed exactly once in the output and the other rules keep
      theirs. */
  lemma Overwrite(m: map<string, string>, selector: string, first: string, second: string)
    ensures var m' := m[selector := first][selector := second];
      && m' == m[selector := second]
      && m'[selector] == second
      && (forall k :: k in m && k != selector ==> k in m' && m'[k] == m[k])
      && (exists i :: 0 <= i < |SortedSeq(m'.Keys)| && SortedSeq(m'.Keys)[i] == selector
            && forall j :: 0 <= j < |SortedSeq(m'.Keys)| && SortedSeq(m'.Keys)[j] == selector ==> j == i)
  {
    var m' := m[selector := first][selector := second];
    var keys := SortedSeq(m'.Keys);
    assert selector in keys;
    var i :| 0 <= i < |keys| && keys[i] == selector;
    forall j | 0 <= j < |keys| && keys[j] == selector ensures j == i {
      SortedIndexUnique(keys, i, j);
    }
  }

  /** A one-rule table with an empty declaration prints two spaces between
      the braces. */
  lemma SerializeEmptyDeclaration(selector: string)
    ensures Serialize(map[selector := ""]) == selector + " {  }\n"
  {
    var m := map[selector := ""];
    var keys := SortedSeq(m.Keys);
    assert keys[0] in {selector};
    assert keys == [selector];
    assert keys[..0] == [];
    assert Lines(keys, m) == "" + Line(selector, "");
  }

  /** The three rules of the stylesheet test serialise in ascending order,
      whatever order they were added in. */
  lemma SerializeThreeRules()
    ensures Serialize(map[".class-c" := "margin: 10px", ".class-a" := "color: blue", ".class-b" := "background: white"])
      == Line(".class-a", "color: blue") + Line(".class-b", "background: white") + Line(".class-c", "margin: 10px")
  {
    var m := map[".class-c" := "margin: 10px", ".class-a" := "color: blue", ".class-b" := "background: white"];
    var order := [".class-a", ".class-b", ".class-c"];
    ThreeClassesSorted();
    StrictlySortedUnique(order, SortedSeq(m.Keys));
    LinesOfThree(".class-a", ".class-b", ".class-c", m);
  }

  /** The three selectors of SerializeThreeRules, in ascending order. */
  lemma ThreeClassesSorted()
    ensures StrictlySorted([".class-a", ".class-b", ".class-c"])
  {
    LexLessAtFirstDifference(".class-a", ".class-b", 7);
    LexLessAtFirstDifference(".class-b", ".class-c", 7);
    LexLessTransitive(".class-a", ".class-b", ".class-c");
  }

  lemma LinesOfThree(a: string, b: string, c: string, m: map<string, string>)
    requires a in m && b in m && c in m
    ensures Lines([a, b, c], m) == Line(a, m[a]) + Line(b, m[b]) + Line(c, m[c])
  {
    assert [a, b, c][..2] == [a, b];
    assert [a, b][..1] == [a];
    assert [a][..0] == [];
    assert Lines([a], m) == "" + Line(a, m[a]) == Line(a, m[a]);
    assert Lines([a, b], m) == Lines([a], m) + Line(b, m[b]);
    assert Lines([a, b, c], m) == Lines([a, b], m) + Line(c, m[c]);
  }

  // ---------------------------------------------------------------------------
  // Expanding the configuration
  // ---------------------------------------------------------------------------

  /** A selector of the form `.name`. */
  predicate IsClassSelector(selector: string)
  {
    |selector| > 0 && selector[0] == '.'
  }

  /** Every rule of `rs` has a class selector. */
  predicate AllClassRules(rs: seq<Rule>)
  {
    forall i :: 0 <= i < |rs| ==> IsClassSelector(rs[i].selector)
  }

  lemma AllClassRulesAppend(a: seq<Rule>, b: seq<Rule>)
    requires AllClassRules(a) && AllClassRules(b)
    ensures AllClassRules(a + b)
  {
    forall i | 0 <= i < |a + b| ensures IsClassSelector((a + b)[i].selector) {
      if i >= |a| { assert (a + b)[i] == b[i - |a|]; }
    }
  }

  /** How a scale entry becomes the text substituted for `{value}`. */
  datatype ValueFormat =
    | RemValue(remMultiplier: int)   // "%.2frem" of n * multiplier (spacing)
    | DecimalValue(remMultiplier: int)   // "%.2f" of n * multiplier (gap, radius)
    | IntegerValue   // "%d" of n (grid columns and rows, border width)

  function FormatValue(format: ValueFormat, n: int): string
  {
    match format
    case RemValue(h) => Fixed2(n * h) + "rem"
    case DecimalValue(h) => Fixed2(n * h)
    case IntegerValue => IntToString(n)
  }

  const Placeholder := "{value}"

  /** `.prefix-n` with every `{value}` of the template replaced by the
      formatted entry. */
  function ScaledRule(prefix: string, template: string, n: int, format: ValueFormat): Rule
  {
    Rule("." + prefix + "-" + IntToString(n), ReplaceAll(template, Placeholder, FormatValue(format, n)))
  }

  /** The inner loop over a scale for one prefix and template. */
  function ScaleRow(prefix: string, template: string, scale: seq<int>, format: ValueFormat): (rs: seq<Rule>)
    ensures |rs| == |scale| && AllClassRules(rs)
  {
    if scale == [] then []
    else [ScaledRule(prefix, template, scale[0], format)] + ScaleRow(prefix, template, scale[1..], format)
  }

  /** Entry `j` of the scale gives entry `j` of the row. */
  lemma {:induction false} ScaleRowAt(prefix: string, template: string, scale: seq<int>, format: ValueFormat, j: nat)
    requires j < |scale|
    ensures ScaleRow(prefix, template, scale, format)[j] == ScaledRule(prefix, template, scale[j], format)
  {
    if j > 0 {
      ScaleRowAt(prefix, template, scale[1..], format, j - 1);
      assert scale[1..][j - 1] == scale[j];
    }
  }

  /** The nested loops: for each property, for each scale entry. */
  function ScaledRules(props: seq<PrefixedProperty>, scale: seq<int>, format: ValueFormat): (rs: seq<Rule>)
    ensures AllClassRules(rs)
  {
    if props == [] then []
    else
      var row := ScaleRow(props[0].prefix, props[0].cssProperty, scale, format);
      var rest := ScaledRules(props[1..], scale, format);
      AllClassRulesAppend(row, rest);
      row + rest
  }

  /** The row of any property is part of the nested loops' output. */
  lemma {:induction false} RowInScaledRules(props: seq<PrefixedProperty>, scale: seq<int>, format: ValueFormat, i: nat, r: Rule)
    requires i < |props|
    requires r in ScaleRow(props[i].prefix, props[i].cssProperty, scale, format)
    ensures r in ScaledRules(props, scale, format)
  {
    var row := ScaleRow(props[0].prefix, props[0].cssProperty, scale, format);
    assert ScaledRules(props, scale, format) == row + ScaledRules(props[1..], scale, format);
    if i > 0 {
      assert props[1..][i - 1] == props[i];
      RowInScaledRules(props[1..], scale, format, i - 1, r);
    }
  }

  /** Every (property, scale entry) pair contributes its rule. */
  lemma ScaledRulesContain(props: seq<PrefixedProperty>, scale: seq<int>, format: ValueFormat, i: nat, j: nat)
    requires i < |props| && j < |scale|
    ensures ScaledRule(props[i].prefix, props[i].cssProperty, scale[j], format) in ScaledRules(props, scale, format)
  {
    var row := ScaleRow(props[i].prefix, props[i].cssProperty, scale, format);
    ScaleRowAt(props[i].prefix, props[i].cssProperty, scale, format, j);
    RowInScaledRules(props, scale, format, i, row[j]);
  }

  /** The nested loops add nothing but those rules. */
  lemma {:induction false} ScaledRulesOnly(props: seq<PrefixedProperty>, scale: seq<int>, format: ValueFormat, r: Rule)
    requires r in ScaledRules(props, scale, format)
    ensures exists i, j ::
              0 <= i < |props| && 0 <= j < |scale| &&
              r == ScaledRule(props[i].prefix, props[i].cssProperty, scale[j], format)
  {
    var row := ScaleRow(props[0].prefix, props[0].cssProperty, scale, format);
    var rest := ScaledRules(props[1..], scale, format);
    assert r in row + rest by {
      assert ScaledRules(props, scale, format) == row + rest;
    }
    if r in row {
      var j :| 0 <= j < |row| && row[j] == r;
      ScaleRowAt(props[0].prefix, props[0].cssProperty, scale, format, j);
    } else {
      assert r in rest;
      ScaledRulesOnly(props[1..], scale, format, r);
      var i, j :| 0 <= i < |props[1..]| && 0 <= j < |scale| &&
        r == ScaledRule(props[1..][i].prefix, props[1..][i].cssProperty, scale[j], format);
      assert props[1..][i] == props[i + 1];
      assert r == ScaledRule(props[i + 1].prefix, props[i + 1].cssProperty, scale[j], format);
    }
  }

  /** `.name` -> the configured declaration, for each entry. */
  function SimpleRules(items: seq<NamedProperty>): (rs: seq<Rule>)
    ensures |rs| == |items| && AllClassRules(rs)
  {
    seq(|items|, i requires 0 <= i < |items| => Rule("." + items[i].name, items[i].cssProperty))
  }

  /** `.<selectorPrefix><name>` -> `<property>: <value>`, for each entry. */
  function ValueRules(selectorPrefix: string, property: string, items: seq<NamedValue>): (rs: seq<Rule>)
    ensures |rs| == |items| && AllClassRules(rs)
  {
    seq(|items|, i requires 0 <= i < |items| => Rule("." + selectorPrefix + items[i].name, property + ": " + items[i].value))
  }

  /** The spacing family. */
  function SpacingRules(spacing: SpacingConfig): (rs: seq<Rule>)
    ensures AllClassRules(rs)
  {
    ScaledRules(spacing.properties, spacing.scale, RemValue(spacing.remMultiplier))
  }

  function BgRule(color: string, shade: Shade): Rule
  {
    Rule(".bg-" + color + "-" + shade.name, "background-color: " + shade.hex)
  }

  function TextColorRule(color: string, shade: Shade): Rule
  {
    Rule(".text-" + color + "-" + shade.name, "color: " + shade.hex)
  }

  /** The background and text rules of each shade of one colour. */
  function ShadeRules(color: string, shades: seq<Shade>): (rs: seq<Rule>)
    ensures |rs| == 2 * |shades| && AllClassRules(rs)
  {
    if shades == [] then []
    else
      var pair := [BgRule(color, shades[0]), TextColorRule(color, shades[0])];
      var rest := ShadeRules(color, shades[1..]);
      AllClassRulesAppend(pair, rest);
      pair + rest
  }

  /** The colour family: every (colour, shade, hex) triple yields a
      background rule followed by a text rule. */
  function ColorRules(colors: seq<ColorFamily>): (rs: seq<Rule>)
    ensures AllClassRules(rs)
  {
    if colors == [] then []
    else
      var here := ShadeRules(colors[0].name, colors[0].shades);
      var rest := ColorRules(colors[1..]);
      AllClassRulesAppend(here, rest);
      here + rest
  }

  /** Rule `k` of the shade list is the background rule of shade `k / 2`
      when `k` is even and its text rule when `k` is odd. */
  lemma {:induction false} ShadeRulesAt(color: string, shades: seq<Shade>, k: nat)
    requires k < 2 * |shades|
    ensures ShadeRules(color, shades)[k] ==
      if k % 2 == 0 then BgRule(color, shades[k / 2]) else TextColorRule(color, shades[k / 2])
  {
    if k >= 2 {
      ShadeRulesAt(color, shades[1..], k - 2);
    }
  }

  /** Each configured (colour, shade, hex) triple contributes its two rules. */
  lemma {:induction false} ColorRulesContain(colors: seq<ColorFamily>, i: nat, j: nat)
    requires i < |colors| && j < |colors[i].shades|
    ensures BgRule(colors[i].name, colors[i].shades[j]) in ColorRules(colors)
    ensures TextColorRule(colors[i].name, colors[i].shades[j]) in ColorRules(colors)
  {
    if i == 0 {
      var here := ShadeRules(colors[0].name, colors[0].shades);
      ShadeRulesAt(colors[0].name, colors[0].shades, 2 * j);
      ShadeRulesAt(colors[0].name, colors[0].shades, 2 * j + 1);
      assert here[2 * j] in here && here[2 * j + 1] in here;
    } else {
      ColorRulesContain(colors[1..], i - 1, j);
    }
  }

  // ---------------------------------------------------------------------------
  // Colour iteration order
  // ---------------------------------------------------------------------------

  /** Shade names within one colour are distinct, as the keys of Go's shade
      map are. */
  predicate DistinctShades(shades: seq<Shade>)
  {
    forall j, k :: 0 <= j < k < |shades| ==> shades[j].name != shades[k].name
  }

  /** A colour table as Go holds it (distinct colour names, distinct shade
      names per colour) whose colour names carry no hyphen. */
  predicate HyphenFreeColors(colors: seq<ColorFamily>)
  {
    && (forall i :: 0 <= i < |colors| ==> '-' !in colors[i].name)
    && (forall i, j :: 0 <= i < j < |colors| ==> colors[i].name != colors[j].name)
    && (forall i :: 0 <= i < |colors| ==> DistinctShades(colors[i].shades))
  }

  /** `r` is one of the two rules of a (colour, shade) pair. */
  predicate RuleOfShade(color: string, shade: Shade, r: Rule)
  {
    r == BgRule(color, shade) || r == TextColorRule(color, shade)
  }

  /** The table `colors` lists `shade` under the colour `name`. */
  predicate HasShade(colors: seq<ColorFamily>, name: string, shade: Shade)
  {
    exists i, k :: 0 <= i < |colors| && 0 <= k < |colors[i].shades| &&
      colors[i].name == name && colors[i].shades[k] == shade
  }

  /** Two iteration orders of the same colour table: the same (colour, shade)
      pairs, in whatever order of colours and of shades. */
  predicate SameShadePairs(a: seq<ColorFamily>, b: seq<ColorFamily>)
  {
    && (forall i, k :: 0 <= i < |a| && 0 <= k < |a[i].shades| ==> HasShade(b, a[i].name, a[i].shades[k]))
    && (forall i, k :: 0 <= i < |b| && 0 <= k < |b[i].shades| ==> HasShade(a, b[i].name, b[i].shades[k]))
  }

  /** `x[n]` is the first hyphen of `x`. */
  predicate FirstHyphenAt(x: string, n: nat)
  {
    n < |x| && x[n] == '-' && forall k :: 0 <= k < n ==> x[k] != '-'
  }

  lemma FirstHyphenOf(c: string, s: string)
    requires '-' !in c
    ensures FirstHyphenAt(c + "-" + s, |c|)
  {
    var x := c + "-" + s;
    forall k | 0 <= k < |c| ensures x[k] != '-' {
      assert x[k] == c[k];
    }
  }

  lemma FirstHyphenUnique(x: string, n: nat, m: nat)
    requires FirstHyphenAt(x, n) && FirstHyphenAt(x, m)
    ensures n == m
  {
  }

  /** With hyphen-free colour names, `prefix + colour + "-" + shade` splits
      back into its colour and its shade. */
  lemma ShadeSelectorSplit(p: string, c1: string, n1: string, c2: string, n2: string)
    requires '-' !in c1 && '-' !in c2
    ensures p + c1 + "-" + n1 == p + c2 + "-" + n2 ==> c1 == c2 && n1 == n2
  {
    if p + c1 + "-" + n1 == p + c2 + "-" + n2 {
      var x := c1 + "-" + n1;
      StringAssoc(p, c1, "-");
      StringAssoc(p, c1 + "-", n1);
      StringAssoc(p, c2, "-");
      StringAssoc(p, c2 + "-", n2);
      assert (p + x)[|p|..] == x;
      assert x == c2 + "-" + n2;
      FirstHyphenOf(c1, n1);
      FirstHyphenOf(c2, n2);
      FirstHyphenUnique(x, |c1|, |c2|);
      assert c1 == x[..|c1|] == c2;
      assert n1 == x[|c1| + 1..] == n2;
    }
  }

  /** A background selector is never a text selector. */
  lemma ShadeSelectorKinds(c1: string, n1: string, c2: string, n2: string)
    ensures ".bg-" + c1 + "-" + n1 != ".text-" + c2 + "-" + n2
  {
    assert (".bg-" + c1 + "-" + n1)[1] == 'b';
    assert (".text-" + c2 + "-" + n2)[1] == 't';
  }

  /** Two rules of (colour, shade) pairs share a selector only when they are
      the same kind of rule for the same colour and shade name. */
  lemma ShadeRuleSelectors(c1: string, s1: Shade, r1: Rule, c2: string, s2: Shade, r2: Rule)
    requires '-' !in c1 && '-' !in c2
    requires RuleOfShade(c1, s1, r1) && RuleOfShade(c2, s2, r2)
    ensures r1.selector == r2.selector ==> c1 == c2 && s1.name == s2.name
  {
    ShadeSelectorSplit(".bg-", c1, s1.name, c2, s2.name);
    ShadeSelectorSplit(".text-", c1, s1.name, c2, s2.name);
    ShadeSelectorKinds(c1, s1.name, c2, s2.name);
    ShadeSelectorKinds(c2, s2.name, c1, s1.name);
  }

  /** Every rule of a shade list comes from one of its shades. */
  lemma {:induction false} ShadeRulesOnly(color: string, shades: seq<Shade>, r: Rule)
    requires r in ShadeRules(color, shades)
    ensures exists k :: 0 <= k < |shades| && RuleOfShade(color, shades[k], r)
  {
    var pair := [BgRule(color, shades[0]), TextColorRule(color, shades[0])];
    assert ShadeRules(color, shades) == pair + ShadeRules(color, shades[1..]);
    if r !in pair {
      ShadeRulesOnly(color, shades[1..], r);
      var k :| 0 <= k < |shades[1..]| && RuleOfShade(color, shades[1..][k], r);
      assert shades[1..][k] == shades[k + 1];
    }
  }

  /** Every rule of the colour family comes from one (colour, shade) pair of
      the table. */
  lemma {:induction false} ColorRulesOnly(colors: seq<ColorFamily>, r: Rule)
    requires r in ColorRules(colors)
    ensures exists i, k :: (0 <= i < |colors| && 0 <= k < |colors[i].shades| &&
                            RuleOfShade(colors[i].name, colors[i].shades[k], r))
  {
    var here := ShadeRules(colors[0].name, colors[0].shades);
    assert ColorRules(colors) == here + ColorRules(colors[1..]);
    if r in here {
      ShadeRulesOnly(colors[0].name, colors[0].shades, r);
      var k :| 0 <= k < |colors[0].shades| && RuleOfShade(colors[0].name, colors[0].shades[k], r);
    } else {
      ColorRulesOnly(colors[1..], r);
      var i, k :| 0 <= i < |colors[1..]| && 0 <= k < |colors[1..][i].shades| &&
        RuleOfShade(colors[1..][i].name, colors[1..][i].shades[k], r);
      assert colors[1..][i] == colors[i + 1];
    }
  }

  /** Two lists without repeated selectors, sharing none, concatenate to a
      list without repeated selectors. */
  lemma DistinctAppend(a: seq<Rule>, b: seq<Rule>)
    requires DistinctSelectors(a) && DistinctSelectors(b)
    requires forall p, q :: 0 <= p < |a| && 0 <= q < |b| ==> a[p].selector != b[q].selector
    ensures DistinctSelectors(a + b)
  {
    var ab := a + b;
    forall i, j | 0 <= i < j < |ab| ensures ab[i].selector != ab[j].selector {
      if j < |a| {
        assert ab[i] == a[i] && ab[j] == a[j];
      } else if i < |a| {
        assert ab[i] == a[i] && ab[j] == b[j - |a|];
      } else {
        assert ab[i] == b[i - |a|] && ab[j] == b[j - |a|];
      }
    }
  }

  /** The rules of one hyphen-free colour never repeat a selector. */
  lemma {:induction false} ShadeRulesDistinct(color: string, shades: seq<Shade>)
    requires '-' !in color && DistinctShades(shades)
    ensures DistinctSelectors(ShadeRules(color, shades))
  {
    if shades != [] {
      var pair := [BgRule(color, shades[0]), TextColorRule(color, shades[0])];
      var rest := ShadeRules(color, shades[1..]);
      assert DistinctShades(shades[1..]) by {
        forall j, k | 0 <= j < k < |shades[1..]| ensures shades[1..][j].name != shades[1..][k].name {
          assert shades[1..][j] == shades[j + 1] && shades[1..][k] == shades[k + 1];
        }
      }
      ShadeRulesDistinct(color, shades[1..]);
      ShadeSelectorKinds(color, shades[0].name, color, shades[0].name);
      forall p, q | 0 <= p < |pair| && 0 <= q < |rest| ensures pair[p].selector != rest[q].selector {
        assert rest[q] in rest;
        ShadeRulesOnly(color, shades[1..], rest[q]);
        var k :| 0 <= k < |shades[1..]| && RuleOfShade(color, shades[1..][k], rest[q]);
        assert shades[1..][k] == shades[k + 1];
        ShadeRuleSelectors(color, shades[0], pair[p], color, shades[k + 1], rest[q]);
      }
      DistinctAppend(pair, rest);
    }
  }

  /** A hyphen-free colour table never repeats a selector. */
  lemma {:induction false} ColorRulesDistinct(colors: seq<ColorFamily>)
    requires HyphenFreeColors(colors)
    ensures DistinctSelectors(ColorRules(colors))
  {
    if colors != [] {
      var c := colors[0];
      var here := ShadeRules(c.name, c.shades);
      var rest := ColorRules(colors[1..]);
      assert HyphenFreeColors(colors[1..]) by {
        forall i | 0 <= i < |colors[1..]| ensures colors[1..][i] == colors[i + 1] { }
      }
      ShadeRulesDistinct(c.name, c.shades);
      ColorRulesDistinct(colors[1..]);
      forall p, q | 0 <= p < |here| && 0 <= q < |rest| ensures here[p].selector != rest[q].selector {
        assert here[p] in here && rest[q] in rest;
        ShadeRulesOnly(c.name, c.shades, here[p]);
        var k :| 0 <= k < |c.shades| && RuleOfShade(c.name, c.shades[k], here[p]);
        ColorRulesOnly(colors[1..], rest[q]);
        var i, k' :| 0 <= i < |colors[1..]| && 0 <= k' < |colors[1..][i].shades| &&
          RuleOfShade(colors[1..][i].name, colors[1..][i].shades[k'], rest[q]);
        assert colors[1..][i] == colors[i + 1];
        ShadeRuleSelectors(c.name, c.shades[k], here[p], colors[i + 1].name, colors[i + 1].shades[k'], rest[q]);
      }
      DistinctAppend(here, rest);
    }
  }

  /** Every (colour, shade) pair of `a` listed in `b` makes every colour rule
      of `a` a colour rule of `b`. */
  lemma ColorRulesSubset(a: seq<ColorFamily>, b: seq<ColorFamily>)
    requires forall i, k :: 0 <= i < |a| && 0 <= k < |a[i].shades| ==> HasShade(b, a[i].name, a[i].shades[k])
    ensures forall r :: r in ColorRules(a) ==> r in ColorRules(b)
  {
    forall r | r in ColorRules(a) ensures r in ColorRules(b) {
      ColorRulesOnly(a, r);
      var i, k :| 0 <= i < |a| && 0 <= k < |a[i].shades| && RuleOfShade(a[i].name, a[i].shades[k], r);
      assert HasShade(b, a[i].name, a[i].shades[k]);
      var i', k' :| 0 <= i' < |b| && 0 <= k' < |b[i'].shades| &&
        b[i'].name == a[i].name && b[i'].shades[k'] == a[i].shades[k];
      ColorRulesContain(b, i', k');
    }
  }

  /** Go iterates the colour map, and each shade map, in an unspecified
      order. For a hyphen-free table that order cannot change what the colour
      rules write. */
  lemma ColorOrderIndependent(m: map<string, string>, a: seq<ColorFamily>, b: seq<ColorFamily>)
    requires HyphenFreeColors(a) && HyphenFreeColors(b) && SameShadePairs(a, b)
    ensures ApplyAll(m, ColorRules(a)) == ApplyAll(m, ColorRules(b))
  {
    ColorRulesDistinct(a);
    ColorRulesDistinct(b);
    ColorRulesSubset(a, b);
    ColorRulesSubset(b, a);
    ApplyAllOrderIndependent(m, ColorRules(a), ColorRules(b));
  }

  /** With a hyphen in a colour name the order does matter: colour `a-b` with
      shade `c` and colour `a` with shade `b-c` both write `.bg-a-b-c`, and
      the one added last wins. */
  lemma ColorOrderMatters()
    ensures var x := ColorFamily("a-b", [Shade("c", "#111")]);
            var y := ColorFamily("a", [Shade("b-c", "#222")]);
            && ".bg-a-b-c" in ApplyAll(map[], ColorRules([x, y]))
            && ApplyAll(map[], ColorRules([x, y]))[".bg-a-b-c"] == "background-color: #222"
            && ".bg-a-b-c" in ApplyAll(map[], ColorRules([y, x]))
            && ApplyAll(map[], ColorRules([y, x]))[".bg-a-b-c"] == "background-color: #111"
  {
    var x := ColorFamily("a-b", [Shade("c", "#111")]);
    var y := ColorFamily("a", [Shade("b-c", "#222")]);
    var ruleX := [BgRule("a-b", x.shades[0]), TextColorRule("a-b", x.shades[0])];
    var ruleY := [BgRule("a", y.shades[0]), TextColorRule("a", y.shades[0])];
    OneColorRules(x);
    OneColorRules(y);
    TwoColorRules(x, y);
    TwoColorRules(y, x);
    assert ruleX[0].selector == ".bg-a-b-c" == ruleY[0].selector;
    assert ruleX[1].selector != ruleY[0].selector && ruleY[1].selector != ruleX[0].selector;
    ApplyAllLastWrite(map[], ruleX + ruleY, 2);
    ApplyAllLastWrite(map[], ruleY + ruleX, 2);
  }

  /** The rules of a one-shade colour. */
  lemma OneColorRules(c: ColorFamily)
    requires |c.shades| == 1
    ensures ColorRules([c]) == [BgRule(c.name, c.shades[0]), TextColorRule(c.name, c.shades[0])]
  {
    assert c.shades[1..] == [];
    assert [c][1..] == [];
  }

  /** The rules of two colours: the first colour's, then the second's. */
  lemma TwoColorRules(c: ColorFamily, d: ColorFamily)
    ensures ColorRules([c, d]) == ColorRules([c]) + ColorRules([d])
  {
    assert [c, d][1..] == [d];
    assert [c][1..] == [];
  }

  /** The colour scenario: one colour with one shade yields exactly a
      background rule and a text rule. */
  lemma SlateScenario()
    ensures ColorRules([ColorFamily("slate", [Shade("500", "#64748b")])]) ==
      [Rule(".bg-slate-500", "background-color: #64748b"), Rule(".text-slate-500", "color: #64748b")]
  {
    var shade := Shade("500", "#64748b");
    var colors := [ColorFamily("slate", [shade])];
    assert colors[1..] == [] && [shade][1..] == [];
    assert ShadeRules("slate", [shade]) == [BgRule("slate", shade), TextColorRule("slate", shade)] + [];
    assert ColorRules(colors) == ShadeRules("slate", [shade]) + [];
    assert ".bg-" + "slate" + "-" + "500" == ".bg-slate-500";
    assert ".text-" + "slate" + "-" + "500" == ".text-slate-500";
    assert "background-color: " + "#64748b" == "background-color: #64748b";
    assert "color: " + "#64748b" == "color: #64748b";
  }

  /** The layout family: display, the flexbox groups and the grid scales. */
  function LayoutRules(layout: LayoutConfig): (rs: seq<Rule>)
    ensures AllClassRules(rs)
  {
    var a := SimpleRules(layout.display) + SimpleRules(layout.justify);
    AllClassRulesAppend(SimpleRules(layout.display), SimpleRules(layout.justify));
    var b := a + SimpleRules(layout.align);
    AllClassRulesAppend(a, SimpleRules(layout.align));
    var c := b + SimpleRules(layout.direction);
    AllClassRulesAppend(b, SimpleRules(layout.direction));
    var d := c + SimpleRules(layout.wrap);
    AllClassRulesAppend(c, SimpleRules(layout.wrap));
    var e := d + ScaleRow("grid-cols", layout.colsTemplate, layout.colsScale, IntegerValue);
    AllClassRulesAppend(d, ScaleRow("grid-cols", layout.colsTemplate, layout.colsScale, IntegerValue));
    var f := e + ScaleRow("grid-rows", layout.rowsTemplate, layout.rowsScale, IntegerValue);
    AllClassRulesAppend(e, ScaleRow("grid-rows", layout.rowsTemplate, layout.rowsScale, IntegerValue));
    var gap := ScaleRow("gap", layout.gapTemplate, layout.gapScale, DecimalValue(layout.gapRemMultiplier));
    AllClassRulesAppend(f, gap);
    f + gap
  }

  /** `.text-<name>` -> `font-size: <size>; line-height: <line height>`. */
  function TextSizeRules(sizes: seq<TextSize>): (rs: seq<Rule>)
    ensures |rs| == |sizes| && AllClassRules(rs)
  {
    seq(|sizes|, i requires 0 <= i < |sizes| =>
      Rule(".text-" + sizes[i].name, "font-size: " + sizes[i].size + "; line-height: " + sizes[i].lineHeight))
  }

  function TypographyRules(t: TypographyConfig): (rs: seq<Rule>)
    ensures AllClassRules(rs)
  {
    var a := TextSizeRules(t.sizes) + SimpleRules(t.families);
    AllClassRulesAppend(TextSizeRules(t.sizes), SimpleRules(t.families));
    var b := a + SimpleRules(t.align);
    AllClassRulesAppend(a, SimpleRules(t.align));
    var c := b + SimpleRules(t.weight);
    AllClassRulesAppend(b, SimpleRules(t.weight));
    AllClassRulesAppend(c, SimpleRules(t.decoration));
    c + SimpleRules(t.decoration)
  }

  function BorderRules(b: BordersConfig): (rs: seq<Rule>)
    ensures AllClassRules(rs)
  {
    var width := ScaledRules(b.widthProperties, b.widthScale, IntegerValue);
    var radius := ScaledRules(b.radiusProperties, b.radiusScale, DecimalValue(b.radiusRemMultiplier));
    AllClassRulesAppend(width, radius);
    var x := width + radius;
    AllClassRulesAppend(x, SimpleRules(b.radiusSpecial));
    var y := x + SimpleRules(b.radiusSpecial);
    AllClassRulesAppend(y, SimpleRules(b.style));
    y + SimpleRules(b.style)
  }

  function SizingRules(z: SizingConfig): (rs: seq<Rule>)
    ensures AllClassRules(rs)
  {
    var parts := [
      ValueRules("w-", "width", z.widthScale),
      ValueRules("w-", "width", z.widthSpecial),
      ValueRules("w-", "width", z.widthFractions),
      ValueRules("h-", "height", z.heightScale),
      ValueRules("h-", "height", z.heightSpecial),
      ValueRules("h-", "height", z.heightFractions),
      ValueRules("max-w-", "max-width", z.maxWidth),
      ValueRules("min-w-", "min-width", z.minWidth),
      ValueRules("max-h-", "max-height", z.maxHeightScale),
      ValueRules("max-h-", "max-height", z.maxHeightSpecial),
      ValueRules("min-h-", "min-height", z.minHeight)];
    Flatten(parts)
  }

  /** The loops of `parts`, one after the other. */
  function Flatten(parts: seq<seq<Rule>>): (rs: seq<Rule>)
    requires forall i :: 0 <= i < |parts| ==> AllClassRules(parts[i])
    ensures AllClassRules(rs)
  {
    if parts == [] then []
    else
      var rest := Flatten(parts[1..]);
      AllClassRulesAppend(parts[0], rest);
      parts[0] + rest
  }

  /** The four inset directions, in the order the generator visits them. */
  const Directions: seq<string> := ["top", "right", "bottom", "left"]

  /** For each direction: the regular and special values as `.dir-name`,
      then the negative ones as `.-dirname`. */
  function DirectionRules(dirs: seq<string>, p: PositionConfig): (rs: seq<Rule>)
    ensures AllClassRules(rs)
  {
    if dirs == [] then []
    else
      var d := dirs[0];
      var here := Flatten([
        ValueRules(d + "-", d, p.insetScale),
        ValueRules(d + "-", d, p.insetSpecial),
        ValueRules("-" + d, d, p.negativeScale),
        ValueRules("-" + d, d, p.negativeSpecial)]);
      var rest := DirectionRules(dirs[1..], p);
      AllClassRulesAppend(here, rest);
      here + rest
  }

  /** For each value: `.inset-x-name` -> `left: v; right: v` then
      `.inset-y-name` -> `top: v; bottom: v`. */
  function AxisRules(items: seq<NamedValue>): (rs: seq<Rule>)
    ensures |rs| == 2 * |items| && AllClassRules(rs)
  {
    if items == [] then []
    else
      var n := items[0].name;
      var v := items[0].value;
      var pair := [Rule(".inset-x-" + n, "left: " + v + "; right: " + v), Rule(".inset-y-" + n, "top: " + v + "; bottom: " + v)];
      var rest := AxisRules(items[1..]);
      AllClassRulesAppend(pair, rest);
      pair + rest
  }

  function PositionRules(p: PositionConfig): (rs: seq<Rule>)
    ensures AllClassRules(rs)
  {
    Flatten([
      SimpleRules(p.types),
      DirectionRules(Directions, p),
      ValueRules("inset-", "inset", p.insetScale),
      ValueRules("inset-", "inset", p.insetSpecial),
      AxisRules(p.insetScale),
      AxisRules(p.insetSpecial),
      ValueRules("z-", "z-index", p.zValues),
      ValueRules("-z", "z-index", p.zNegative),
      SimpleRules(p.overflow)])
  }

  /** `.shadow` for the unnamed value, `.shadow-name` otherwise. */
  function ShadowRules(values: seq<NamedValue>): (rs: seq<Rule>)
    ensures |rs| == |values| && AllClassRules(rs)
  {
    seq(|values|, i requires 0 <= i < |values| =>
      Rule(if values[i].name != "" then ".shadow-" + values[i].name else ".shadow", "box-shadow: " + values[i].value))
  }

  function EffectsRules(e: EffectsConfig): (rs: seq<Rule>)
    ensures AllClassRules(rs)
  {
    Flatten([
      ValueRules("opacity-", "opacity", e.opacity),
      ShadowRules(e.shadow),
      SimpleRules(e.cursor),
      SimpleRules(e.userSelect),
      SimpleRules(e.pointerEvents),
      SimpleRules(e.visibility),
      SimpleRules(e.screenReaders)])
  }

  /** The sans-serif font stack of the body rule. */
  const SansStack: string :=
    "ui-sans-serif, system-ui, -apple-system, " +
    "BlinkMacSystemFont, 'Segoe UI', Roboto, " +
    "'Helvetica Neue', Arial, 'Noto Sans', " +
    "sans-serif, 'Apple Color Emoji', " +
    "'Segoe UI Emoji', 'Segoe UI Symbol', " +
    "'Noto Color Emoji'"

  /** The monospace font stack of the code and pre rules. */
  const MonoStack: string :=
    "ui-monospace, SFMono-Regular, 'SF Mono', " +
    "Consolas, 'Liberation Mono', Menlo, monospace"

  /** The base and reset rules for bare elements, in the order they are
      added, before any utility. */
  const BaseRules: seq<Rule> := [
    Rule("*", "box-sizing: border-box"),
    Rule("body", "margin: 0; font-family: " + SansStack + "; font-size: 1rem; " +
      "line-height: 1.5; color: #111827"),
    Rule("h1, h2, h3, h4, h5, h6", "margin-top: 0; margin-bottom: 0.5rem; font-weight: 600"),
    Rule("h1", "font-size: 2.25rem; line-height: 2.5rem"),
    Rule("h2", "font-size: 1.875rem; line-height: 2.25rem"),
    Rule("h3", "font-size: 1.5rem; line-height: 2rem"),
    Rule("h4", "font-size: 1.25rem; line-height: 1.75rem"),
    Rule("h5", "font-size: 1.125rem; line-height: 1.75rem"),
    Rule("h6", "font-size: 1rem; line-height: 1.5rem"),
    Rule("p", "margin-top: 0; margin-bottom: 1rem"),
    Rule("ul, ol", "margin-top: 0; margin-bottom: 1rem; padding-left: 2rem"),
    Rule("li", "margin-bottom: 0.25rem"),
    Rule("a", "color: #2563eb; text-decoration: underline"),
    Rule("a:hover", "color: #1d4ed8"),
    Rule("strong, b", "font-weight: 600"),
    Rule("code", "font-family: " + MonoStack + "; font-size: 0.875em; " +
      "background-color: #f3f4f6; " +
      "padding: 0.125rem 0.25rem; border-radius: 0.25rem"),
    Rule("pre", "font-family: " + MonoStack + "; font-size: 0.875rem; line-height: 1.5rem; " +
      "background-color: #f3f4f6; padding: 1rem; " +
      "border-radius: 0.375rem; overflow-x: auto"),
    Rule("pre code", "background-color: transparent; padding: 0")]

  /** All AddRule calls of GenerateUtilitiesFromConfig, in order. */
  function ConfigRules(cfg: Config): seq<Rule>
  {
    BaseRules + UtilityRules(cfg)
  }

  /** The configuration-driven part of ConfigRules, one entry per family in
      the order the generator adds them. */
  function Sections(cfg: Config): (parts: seq<seq<Rule>>)
    ensures |parts| == 8 && forall i :: 0 <= i < |parts| ==> AllClassRules(parts[i])
  {
    [ SpacingRules(cfg.spacing),
      ColorRules(cfg.colors),
      LayoutRules(cfg.layout),
      TypographyRules(cfg.typography),
      BorderRules(cfg.borders),
      SizingRules(cfg.sizing),
      PositionRules(cfg.position),
      EffectsRules(cfg.effects) ]
  }

  function UtilityRules(cfg: Config): (rs: seq<Rule>)
    ensures AllClassRules(rs)
  {
    Flatten(Sections(cfg))
  }

  /** The full stylesheet for a loaded configuration. */
  function FullRules(cfg: Config): map<string, string>
  {
    ApplyAll(map[], ConfigRules(cfg))
  }

  /** The stylesheet of a configuration does not depend on the order Go
      iterates a hyphen-free colour table in: another order of the same
      (colour, shade) pairs gives the same full stylesheet. */
  lemma FullRulesColorOrder(cfg: Config, colors: seq<ColorFamily>)
    requires HyphenFreeColors(cfg.colors) && HyphenFreeColors(colors) && SameShadePairs(cfg.colors, colors)
    ensures FullRules(cfg) == FullRules(cfg.(colors := colors))
  {
    var other := cfg.(colors := colors);
    ApplyAllAppend(map[], BaseRules, UtilityRules(cfg));
    ApplyAllAppend(map[], BaseRules, UtilityRules(other));
    UtilityColorOrder(ApplyAll(map[], BaseRules), cfg, other);
  }

  /** The utility rules of two configurations that differ only in the order
      of a hyphen-free colour table write the same table. */
  lemma UtilityColorOrder(m: map<string, string>, cfg: Config, other: Config)
    requires other == cfg.(colors := other.colors)
    requires HyphenFreeColors(cfg.colors) && HyphenFreeColors(other.colors) && SameShadePairs(cfg.colors, other.colors)
    ensures ApplyAll(m, UtilityRules(cfg)) == ApplyAll(m, UtilityRules(other))
  {
    var parts, parts' := Sections(cfg), Sections(other);
    SectionsColorSplit(cfg, other);
    ColorOrderIndependent(ApplyAll(m, parts[0]), cfg.colors, other.colors);
    FlattenMiddle(m, parts, parts');
  }

  /** Only the colour section depends on the colour table. */
  lemma SectionsColorSplit(cfg: Config, other: Config)
    requires other == cfg.(colors := other.colors)
    ensures Sections(cfg)[0] == Sections(other)[0] && Sections(cfg)[2..] == Sections(other)[2..]
    ensures Sections(cfg)[1] == ColorRules(cfg.colors) && Sections(other)[1] == ColorRules(other.colors)
  {
  }

  /** Replacing the second section by one that writes the same table leaves
      the table of the whole list unchanged. */
  lemma FlattenMiddle(m: map<string, string>, parts: seq<seq<Rule>>, parts': seq<seq<Rule>>)
    requires |parts| >= 2 && |parts'| >= 2
    requires forall i :: 0 <= i < |parts| ==> AllClassRules(parts[i])
    requires forall i :: 0 <= i < |parts'| ==> AllClassRules(parts'[i])
    requires parts[0] == parts'[0] && parts[2..] == parts'[2..]
    requires ApplyAll(ApplyAll(m, parts[0]), parts[1]) == ApplyAll(ApplyAll(m, parts[0]), parts'[1])
    ensures ApplyAll(m, Flatten(parts)) == ApplyAll(m, Flatten(parts'))
  {
    var post := Flatten(parts[2..]);
    FlattenTwo(parts);
    FlattenTwo(parts');
    ApplyAllAppend(m, parts[0], parts[1] + post);
    ApplyAllAppend(ApplyAll(m, parts[0]), parts[1], post);
    ApplyAllAppend(m, parts[0], parts'[1] + post);
    ApplyAllAppend(ApplyAll(m, parts[0]), parts'[1], post);
  }

  /** Flattening splits off the first two sections. */
  lemma FlattenTwo(parts: seq<seq<Rule>>)
    requires |parts| >= 2 && forall i :: 0 <= i < |parts| ==> AllClassRules(parts[i])
    ensures Flatten(parts) == parts[0] + (parts[1] + Flatten(parts[2..]))
  {
    assert parts[1..][1..] == parts[2..];
  }

  /** The eighteen base rules: distinct element selectors, none a class. */
  lemma BaseRulesShape()
    ensures DistinctSelectors(BaseRules)
    ensures forall i :: 0 <= i < 18 ==> !IsClassSelector(BaseRules[i].selector)
  {
    BaseSelectorsDistinct();
  }

  lemma BaseSelectorsDistinct()
    ensures |BaseRules| == 18
    ensures forall i, j :: 0 <= i < j < 18 ==> BaseRules[i].selector != BaseRules[j].selector
  {
    var rs := BaseRules;
    forall i, j | 0 <= i < j < 18 ensures rs[i].selector != rs[j].selector {
    }
  }

  /** The table the base rules alone leave. */
  function BaseTable(): map<string, string>
  {
    ApplyAll(map[], BaseRules)
  }

  /** Whatever the configuration, the full stylesheet agrees with the base
      table on every selector that is not a class selector: later rules only
      ever write class selectors. */
  lemma BaseRulesSurvive(cfg: Config)
    ensures forall k :: !IsClassSelector(k) ==>
      (k in FullRules(cfg) <==> k in BaseTable()) &&
      (k in BaseTable() ==> FullRules(cfg)[k] == BaseTable()[k])
  {
    var rest := UtilityRules(cfg);
    ApplyAllAppend(map[], BaseRules, rest);
    ApplyAllKeys(BaseTable(), rest);
    forall k | !IsClassSelector(k) && k in BaseTable()
      ensures FullRules(cfg)[k] == BaseTable()[k]
    {
      ApplyAllUntouched(BaseTable(), rest, k);
    }
  }

  /** The eighteen base rules all reach the base table unchanged, and it
      holds nothing else. */
  lemma BaseTableShape()
    ensures |BaseTable()| == 18
    ensures forall i :: 0 <= i < 18 ==>
      BaseRules[i].selector in BaseTable() && BaseTable()[BaseRules[i].selector] == BaseRules[i].declaration
    ensures forall k :: k in BaseTable() ==> !IsClassSelector(k)
  {
    BaseTableSize();
    BaseTableEntries();
    BaseTableKeys();
  }

  lemma BaseTableSize()
    ensures |BaseTable()| == 18
  {
    BaseRulesShape();
    ApplyAllSize(map[], BaseRules);
  }

  lemma BaseTableEntries()
    ensures forall i :: 0 <= i < 18 ==>
      BaseRules[i].selector in BaseTable() && BaseTable()[BaseRules[i].selector] == BaseRules[i].declaration
  {
    var rs := BaseRules;
    BaseRulesShape();
    ApplyAllDistinct(map[], rs);
    forall i | 0 <= i < 18
      ensures BaseRules[i].selector in BaseTable() && BaseTable()[BaseRules[i].selector] == BaseRules[i].declaration
    {
    }
  }

  lemma BaseTableKeys()
    ensures forall k :: k in BaseTable() ==> !IsClassSelector(k)
  {
    var rs := BaseRules;
    BaseRulesShape();
    ApplyAllKeys(map[], rs);
    forall k | k in BaseTable() ensures !IsClassSelector(k) {
      var i :| 0 <= i < |rs| && rs[i].selector == k;
    }
  }

  /** A template with a single placeholder receives the formatted entry in
      its place; the text around it is kept as written. */
  lemma SinglePlaceholder(prefix: string, before: string, after: string, n: int, format: ValueFormat)
    requires '{' !in before && '{' !in after
    ensures ScaledRule(prefix, before + Placeholder + after, n, format)
      == Rule("." + prefix + "-" + IntToString(n), before + FormatValue(format, n) + after)
  {
    var v := FormatValue(format, n);
    assert before + Placeholder + after == before + (Placeholder + after);
    ReplaceAllPlainPrefix(before, Placeholder + after, Placeholder, v);
    ReplaceAllAtPattern(Placeholder, after, v);
    ReplaceAllPlainPrefix(after, [], Placeholder, v);
    assert after + [] == after;
    assert ReplaceAll([], Placeholder, v) == [];
  }

  /** Spacing selectors carry the integer scale entry while the declaration
      carries the rem value the formatter writes, unit included. */
  lemma SpacingScenario()
    ensures SpacingRules(SpacingConfig([4], 25, [PrefixedProperty("padding", "p", "padding: " + Placeholder)]))
      == [Rule(".p-4", "padding: 1.00rem")]
  {
    var template := "padding: " + Placeholder;
    SinglePlaceholder("p", "padding: ", "", 4, RemValue(25));
    assert "padding: " + Placeholder + "" == template;
    assert Fixed2(100) == "1.00" && IntToString(4) == "4";
    assert FormatValue(RemValue(25), 4) == "1.00rem";
    assert "padding: " + "1.00rem" + "" == "padding: 1.00rem";
    assert "." + "p" + "-" + "4" == ".p-4";
    var props := [PrefixedProperty("padding", "p", template)];
    assert props[1..] == [];
    var row := ScaleRow("p", template, [4], RemValue(25));
    assert row == [ScaledRule("p", template, 4, RemValue(25))];
    assert ScaledRules(props, [4], RemValue(25)) == row + [];
  }

  /** The gap and radius formatters write no unit: a template's own unit text
      follows the number, so `gap: {value}rem` gives `gap: 0.25rem`. */
  lemma GapScenario()
    ensures ScaledRule("gap", "gap: " + Placeholder + "rem", 1, DecimalValue(25)) == Rule(".gap-1", "gap: 0.25rem")
  {
    SinglePlaceholder("gap", "gap: ", "rem", 1, DecimalValue(25));
    assert Fixed2(25) == "0.25" && IntToString(1) == "1";
  }

  /** Negative insets are written `.-dirname`, and `.inset-x-name` sets both
      horizontal sides. */
  lemma {:induction false} InsetShapes(p: PositionConfig, d: nat, k: nat)
    requires d < |Directions| && k < |p.negativeScale|
    ensures Rule(".-" + Directions[d] + p.negativeScale[k].name, Directions[d] + ": " + p.negativeScale[k].value)
      in DirectionRules(Directions, p)
  {
    var dir := Directions[d];
    var neg := ValueRules("-" + dir, dir, p.negativeScale);
    assert neg[k] == Rule(".-" + dir + p.negativeScale[k].name, dir + ": " + p.negativeScale[k].value);
    DirectionRulesContain(Directions, p, d, neg[k]);
  }

  lemma {:induction false} DirectionRulesContain(dirs: seq<string>, p: PositionConfig, d: nat, r: Rule)
    requires d < |dirs|
    requires r in ValueRules("-" + dirs[d], dirs[d], p.negativeScale)
    ensures r in DirectionRules(dirs, p)
  {
    if d == 0 {
      var x := dirs[0];
      var parts := [ValueRules(x + "-", x, p.insetScale), ValueRules(x + "-", x, p.insetSpecial),
                    ValueRules("-" + x, x, p.negativeScale), ValueRules("-" + x, x, p.negativeSpecial)];
      FlattenContains(parts, 2, r);
    } else {
      DirectionRulesContain(dirs[1..], p, d - 1, r);
    }
  }

  lemma {:induction false} FlattenContains(parts: seq<seq<Rule>>, i: nat, r: Rule)
    requires forall k :: 0 <= k < |parts| ==> AllClassRules(parts[k])
    requires i < |parts| && r in parts[i]
    ensures r in Flatten(parts)
  {
    if i > 0 {
      FlattenContains(parts[1..], i - 1, r);
    }
  }

  lemma {:induction false} AxisRulesContain(items: seq<NamedValue>, k: nat)
    requires k < |items|
    ensures Rule(".inset-x-" + items[k].name, "left: " + items[k].value + "; right: " + items[k].value) in AxisRules(items)
    ensures Rule(".inset-y-" + items[k].name, "top: " + items[k].value + "; bottom: " + items[k].value) in AxisRules(items)
  {
    if k > 0 {
      AxisRulesContain(items[1..], k - 1);
    }
  }

  // ---------------------------------------------------------------------------
  // The fallback rule set
  // ---------------------------------------------------------------------------

  function PaddingRule(i: int): Rule
  {
    Rule(".p-" + IntToString(i), "padding: " + Fixed2(25 * i) + "rem")
  }

  function MarginRule(i: int): Rule
  {
    Rule(".m-" + IntToString(i), "margin: " + Fixed2(25 * i) + "rem")
  }

  /** The spacing pairs for 0 .. 16, padding before margin. */
  function FallbackSpacing(): seq<Rule>
  {
    seq(34, k requires 0 <= k < 34 => if k % 2 == 0 then PaddingRule(k / 2) else MarginRule(k / 2))
  }

  const FallbackLayout: seq<Rule> := [Rule(".flex", "display: flex"), Rule(".block", "display: block"), Rule(".hidden", "display: none")]

  function FallbackRules(): seq<Rule>
  {
    FallbackSpacing() + FallbackLayout
  }

  /** The stylesheet generateBasicUtilities builds. */
  function Fallback(): map<string, string>
  {
    ApplyAll(map[], FallbackRules())
  }

  method GenerateBasicUtilities() returns (s: Stylesheet)
    ensures s.rules == Fallback()
  {
    s := new Stylesheet();
    var i := 0;
    while i <= 16
      invariant 0 <= i <= 17
      invariant s.rules == ApplyAll(map[], FallbackSpacing()[..2 * i])
    {
      s.AddSpacingPair(i);
      FallbackSpacingStep(i);
      i := i + 1;
    }
    assert i == 17;
    assert s.rules == ApplyAll(map[], FallbackSpacing()[..34]);
    s.AddRules(FallbackLayout);
    FallbackLayoutStep();
  }

  lemma FallbackSpacingStep(i: nat)
    requires i <= 16
    ensures ApplyAll(map[], FallbackSpacing()[..2 * i + 2])
      == ApplyAll(map[], FallbackSpacing()[..2 * i])[PaddingRule(i).selector := PaddingRule(i).declaration][MarginRule(i).selector := MarginRule(i).declaration]
  {
    var spacing := FallbackSpacing();
    ApplyAllPrefixStep(map[], spacing, 2 * i + 1);
    ApplyAllPrefixStep(map[], spacing, 2 * i);
    FallbackSpacingAt(i);
  }

  lemma FallbackSpacingAt(i: nat)
    requires i <= 16
    ensures FallbackSpacing()[2 * i] == PaddingRule(i) && FallbackSpacing()[2 * i + 1] == MarginRule(i)
  {
    assert (2 * i) % 2 == 0 && (2 * i) / 2 == i;
    assert (2 * i + 1) % 2 == 1 && (2 * i + 1) / 2 == i;
  }

  /** After the 34 spacing calls come the three layout calls. */
  lemma FallbackLayoutStep()
    ensures Fallback() == ApplyAll(ApplyAll(map[], FallbackSpacing()[..34]), FallbackLayout)
  {
    var spacing := FallbackSpacing();
    assert spacing[..34] == spacing;
    ApplyAllAppend(map[], spacing, FallbackLayout);
  }

  /** Extending a prefix of the calls by one more call. */
  lemma ApplyAllPrefixStep(m: map<string, string>, rs: seq<Rule>, n: nat)
    requires n < |rs|
    ensures ApplyAll(m, rs[..n + 1]) == ApplyAll(m, rs[..n])[rs[n].selector := rs[n].declaration]
  {
    assert rs[..n + 1][..n] == rs[..n];
  }

  lemma FallbackDistinct()
    ensures DistinctSelectors(FallbackRules())
  {
    var rs := FallbackRules();
    forall i, j | 0 <= i < j < |rs| ensures rs[i].selector != rs[j].selector {
      if j < 34 {
        if i % 2 == j % 2 {
          if rs[i].selector == rs[j].selector {
            assert rs[i].selector[3..] == IntToString(i / 2) && rs[j].selector[3..] == IntToString(j / 2);
            IntToStringInjective(i / 2, j / 2);
          }
        } else {
          assert rs[i].selector[1] != rs[j].selector[1];
        }
      } else if i < 34 {
        assert rs[i].selector[1] != rs[j].selector[1];
      }
    }
  }

  /** The fallback has exactly 37 rules: padding and margin for 0..16 in
      quarter-rem steps, plus `.flex`, `.block` and `.hidden`. */
  lemma FallbackShape()
    ensures |Fallback()| == 37
    ensures forall i :: 0 <= i <= 16 ==>
      ".p-" + IntToString(i) in Fallback() && Fallback()[".p-" + IntToString(i)] == "padding: " + Fixed2(25 * i) + "rem" &&
      ".m-" + IntToString(i) in Fallback() && Fallback()[".m-" + IntToString(i)] == "margin: " + Fixed2(25 * i) + "rem"
    ensures ".flex" in Fallback() && Fallback()[".flex"] == "display: flex"
    ensures ".block" in Fallback() && Fallback()[".block"] == "display: block"
    ensures ".hidden" in Fallback() && Fallback()[".hidden"] == "display: none"
  {
    var rs := FallbackRules();
    FallbackDistinct();
    ApplyAllSize(map[], rs);
    ApplyAllDistinct(map[], rs);
    forall i | 0 <= i <= 16
      ensures ".p-" + IntToString(i) in Fallback() && Fallback()[".p-" + IntToString(i)] == "padding: " + Fixed2(25 * i) + "rem"
      ensures ".m-" + IntToString(i) in Fallback() && Fallback()[".m-" + IntToString(i)] == "margin: " + Fixed2(25 * i) + "rem"
    {
      FallbackSpacingAt(i);
      assert rs[2 * i] == PaddingRule(i);
      assert rs[2 * i + 1] == MarginRule(i);
    }
    assert rs[34] == FallbackLayout[0];
    assert rs[35] == FallbackLayout[1];
    assert rs[36] == FallbackLayout[2];
  }

  /** The scenario value: `.p-4` pads by one rem. */
  lemma FallbackPadding4()
    ensures ".p-4" in Fallback() && Fallback()[".p-4"] == "padding: 1.00rem"
  {
    FallbackShape();
    assert IntToString(4) == "4" && Fixed2(100) == "1.00";
    assert ".p-" + "4" == ".p-4" && "padding: " + "1.00" + "rem" == "padding: 1.00rem";
  }

  /** Every fallback rule has a class selector. */
  lemma FallbackAllClass()
    ensures AllClassRules(FallbackRules())
  {
  }

  // ---------------------------------------------------------------------------
  // Generation entry points
  // ---------------------------------------------------------------------------

  /** GenerateUtilitiesFromConfig: the error of a failed load is passed on,
      otherwise the base rules and every family are added in order. */
  method GenerateUtilitiesFromConfig(loaded: ConfigResult) returns (s: Stylesheet?, err: Option<string>)
    ensures loaded.LoadFailed? ==> s == null && err == Some(loaded.error)
    ensures loaded.Loaded? ==> err == None && s != null && s.rules == FullRules(loaded.config)
  {
    match loaded
    case LoadFailed(e) =>
      s, err := null, Some(e);
    case Loaded(cfg) =>
      var sheet := new Stylesheet();
      sheet.AddRules(BaseRules);
      var families := Sections(cfg);
      var k := 0;
      assert families[..0] == [];
      assert BaseRules + Flatten(families[..0]) == BaseRules;
      while k < |families|
        invariant 0 <= k <= |families|
        invariant sheet.rules == ApplyAll(map[], BaseRules + Flatten(families[..k]))
      {
        sheet.AddRules(families[k]);
        SectionStep(map[], BaseRules, families, k);
        k := k + 1;
      }
      assert families[..|families|] == families;
      s, err := sheet, None;
  }

  /** Adding one more family after the base rules and the families before it. */
  lemma SectionStep(m: map<string, string>, base: seq<Rule>, parts: seq<seq<Rule>>, k: nat)
    requires k < |parts|
    requires forall i :: 0 <= i < |parts| ==> AllClassRules(parts[i])
    ensures ApplyAll(ApplyAll(m, base + Flatten(parts[..k])), parts[k]) == ApplyAll(m, base + Flatten(parts[..k + 1]))
  {
    FlattenSnoc(parts, k);
    ApplyAllAppend(m, base + Flatten(parts[..k]), parts[k]);
    assert base + Flatten(parts[..k]) + parts[k] == base + Flatten(parts[..k + 1]);
  }

  lemma {:induction false} FlattenSnoc(parts: seq<seq<Rule>>, k: nat)
    requires k < |parts|
    requires forall i :: 0 <= i < |parts| ==> AllClassRules(parts[i])
    ensures Flatten(parts[..k + 1]) == Flatten(parts[..k]) + parts[k]
  {
    if k > 0 {
      assert parts[..k + 1][1..] == parts[1..][..k];
      assert parts[..k][1..] == parts[1..][..k - 1];
      FlattenSnoc(parts[1..], k - 1);
    } else {
      assert parts[..1][1..] == [];
    }
  }

  /** GenerateUtilities: the configured stylesheet, or the fallback when the
      configuration cannot be loaded. */
  method GenerateUtilities(loaded: ConfigResult) returns (s: Stylesheet)
    ensures s.rules == if loaded.LoadFailed? then Fallback() else FullRules(loaded.config)
  {
    var full, err := GenerateUtilitiesFromConfig(loaded);
    if err.Some? {
      s := GenerateBasicUtilities();
      return;
    }
    s := full;
  }

  // ---------------------------------------------------------------------------
  // Tree shaking
  // ---------------------------------------------------------------------------

  /** A rule is kept when its selector is not a class selector, or when the
      class name after the leading `.` is in use. */
  predicate Keep(selector: string, used: set<string>)
  {
    !IsClassSelector(selector) || selector[1..] in used
  }

  /** The rules of `full` that are kept. */
  function Filter(full: map<string, string>, used: set<string>): map<string, string>
  {
    map selector | selector in full && Keep(selector, used) :: full[selector]
  }

  /** What GenerateMinimalCSS returns for the set of names in its argument. */
  function MinimalRules(used: set<string>, loaded: ConfigResult): map<string, string>
  {
    if used == {} then map[]
    else if loaded.LoadFailed? then Fallback()
    else Filter(FullRules(loaded.config), used)
  }

  /** The names listed in `s`. */
  function AsSet(s: seq<string>): set<string>
  {
    set c | c in s
  }

  method GenerateMinimalCSS(usedClasses: seq<string>, loaded: ConfigResult) returns (minimal: Stylesheet)
    ensures minimal.rules == MinimalRules(AsSet(usedClasses), loaded)
  {
    if |usedClasses| == 0 {
      minimal := new Stylesheet();
      return;
    }
    assert usedClasses[0] in AsSet(usedClasses);
    var usedClassMap: set<string> := {};
    var i := 0;
    while i < |usedClasses|
      invariant 0 <= i <= |usedClasses|
      invariant usedClassMap == AsSet(usedClasses[..i])
    {
      usedClassMap := usedClassMap + {usedClasses[i]};
      AsSetStep(usedClasses, i);
      i := i + 1;
    }
    assert usedClasses[..|usedClasses|] == usedClasses;
    var full, err := GenerateUtilitiesFromConfig(loaded);
    if err.Some? {
      minimal := GenerateBasicUtilities();
      return;
    }
    minimal := KeepUsed(full, usedClassMap);
  }

  /** The filtering loop of GenerateMinimalCSS: a new stylesheet with the
      rules of `full` that are kept. */
  method KeepUsed(full: Stylesheet, usedClassMap: set<string>) returns (minimal: Stylesheet)
    ensures minimal.rules == Filter(full.rules, usedClassMap)
  {
    minimal := new Stylesheet();
    var pending := full.rules.Keys;
    while pending != {}
      invariant pending <= full.rules.Keys
      invariant minimal.rules == Filter(full.rules - pending, usedClassMap)
      decreases |pending|
    {
      var selector :| selector in pending;
      var properties := full.rules[selector];
      FilterStep(full.rules, pending, usedClassMap, selector);
      if !HasPrefix(selector, ".") {
        minimal.AddRule(selector, properties);
      } else {
        var className := selector[1..];
        if className in usedClassMap {
          minimal.AddRule(selector, properties);
        }
      }
      pending := pending - {selector};
    }
    assert full.rules - {} == full.rules;
  }

  lemma AsSetStep(s: seq<string>, i: nat)
    requires i < |s|
    ensures AsSet(s[..i + 1]) == AsSet(s[..i]) + {s[i]}
  {
    assert s[..i + 1] == s[..i] + [s[i]];
  }

  /** Visiting one more selector of the full table adds it to the filtered
      table exactly when it is kept. */
  lemma FilterStep(full: map<string, string>, pending: set<string>, used: set<string>, selector: string)
    requires selector in pending && pending <= full.Keys
    ensures Filter(full - (pending - {selector}), used) ==
      if HasPrefix(selector, ".") && selector[1..] !in used then Filter(full - pending, used)
      else Filter(full - pending, used)[selector := full[selector]]
  {
    assert HasPrefix(selector, ".") <==> IsClassSelector(selector);
  }

  /** Tree shaking keeps every non-class rule, keeps a class rule exactly when
      its name is in use, never changes a declaration and adds nothing. */
  lemma MinimalCorrect(used: set<string>, cfg: Config)
    requires used != {}
    ensures var full := FullRules(cfg); var min := MinimalRules(used, Loaded(cfg));
      && (forall s :: s in full && !IsClassSelector(s) ==> s in min && min[s] == full[s])
      && (forall s :: IsClassSelector(s) ==> (s in min <==> s in full && s[1..] in used))
      && (forall s :: s in min ==> s in full && min[s] == full[s])
  {
  }

  /** The extraction scenario: of `.p-4`, `.p-8`, `.bg-green-100` and `body`,
      usage of `p-4` and `bg-green-100` keeps all but `.p-8`. */
  lemma ExtractionScenario()
    ensures Filter(map[".p-4" := "padding: 1.00rem", ".p-8" := "padding: 2.00rem", ".bg-green-100" := "background-color: #dcfce7", "body" := "margin: 0"],
                   {"p-4", "bg-green-100"}).Keys == {"body", ".p-4", ".bg-green-100"}
  {
    var m := map[".p-4" := "padding: 1.00rem", ".p-8" := "padding: 2.00rem", ".bg-green-100" := "background-color: #dcfce7", "body" := "margin: 0"];
    assert ".p-8"[1..] == "p-8" && ".p-4"[1..] == "p-4" && ".bg-green-100"[1..] == "bg-green-100";
    assert !Keep(".p-8", {"p-4", "bg-green-100"});
  }

  /** The minimal stylesheet of a loaded configuration keeps all eighteen base
      rules, whatever classes are in use. */
  lemma MinimalKeepsBase(used: set<string>, cfg: Config)
    requires used != {}
    ensures forall i :: 0 <= i < 18 ==>
      BaseRules[i].selector in MinimalRules(used, Loaded(cfg)) &&
      MinimalRules(used, Loaded(cfg))[BaseRules[i].selector] == BaseRules[i].declaration
  {
    var full := FullRules(cfg);
    var min := MinimalRules(used, Loaded(cfg));
    assert min == Filter(full, used);
    BaseRulesSurvive(cfg);
    BaseTableEntries();
    BaseTableKeys();
    forall i | 0 <= i < 18
      ensures BaseRules[i].selector in min && min[BaseRules[i].selector] == BaseRules[i].declaration
    {
      KeptOffClass(full, BaseTable(), used, BaseRules[i].selector);
    }
  }

  lemma KeptOffClass(full: map<string, string>, base: map<string, string>, used: set<string>, k: string)
    requires k in base && !IsClassSelector(k)
    requires k in full && full[k] == base[k]
    ensures k in Filter(full, used) && Filter(full, used)[k] == base[k]
  {
  }
}
