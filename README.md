# zforge utility-CSS engine and HTML element tree, in Dafny

zforge lets Go programs build HTML pages from constructor functions
(`html.Div(...)`, `html.H1("...")`). Elements carry utility class names made
by Go functions (`css.P(4)` gives `p-4`, `css.BgRed(100)` gives `bg-red-100`).
Every class name handed out is recorded in a tracker. Rendering a document
injects, into its first `<head>`, a stylesheet made only of the rules for the
recorded names, plus the base element styles (or, when the configuration fails
to load, the whole basic fallback stylesheet).

This project models that core:

- **`CssGenerator`** (`css_generator.dfy`) models the rule table (`Stylesheet`)
  and its serialisation in sorted selector order.
  - The full stylesheet is expanded from the configuration: spacing, colours,
    layout, grid, typography, borders, sizing, position and effects.
  - `generateBasicUtilities` is the fallback used when the configuration does
    not load.
  - The minimal ("tree-shaken") stylesheet keeps every non-class selector and
    only the used class selectors.
- **`CssUtilities`** (`utilities.dfy`) models the class-usage tracker, the
  exported stylesheet wrapper, and representative class-name constructors.
- **`HtmlElement`** (`element.dfy`) models the element tree.
  - A `Node` datatype is the value of a tree; Go adds a shallow copy of each
    child to the parent.
  - An `Element` class has the fields the fluent setters update in place.
  - Also modelled: the head search, the style injection done by `Render`, and
    HTML serialisation.
- The constructor modules for the `html` package (one function per tag):
  - `HtmlDocument` (`document.dfy`), `HtmlText` (`text.dfy`) and
    `HtmlContainer` (`container.dfy`);
  - `HtmlMedia` (`media.dfy`), `HtmlForm` (`form.dfy`), `HtmlList`
    (`list.dfy`) and `HtmlTable` (`table.dfy`).
- **`GoGenerator`** (`go_generator.dfy`) models the code generator that turns
  the configuration into Go constructor functions. It also models `toCamelCase`.
- **`HtmlScenarios`** (`scenarios.dfy`) holds the end-to-end pages of the
  element tests, rendered through the model.
- Shared helpers:
  - `Strings` (`strings.dfy`): lexicographic order, decimal formatting,
    `%.2f` on hundredths, `ReplaceAll`, `Split`/`Join`, ASCII case mapping and
    `strings.Title`.
  - `Sorting` (`sorting.dfy`): sorting a set of strings.
  - `CssConfig` and `Wrappers` (`config.dfy`): the configuration records and
    `Option`.

The configuration loader is not modelled. Every operation that calls it
instead takes a `ConfigResult` parameter: either `Loaded(config)` or
`LoadFailed(error)`.

Two behaviours worth noting:

- `GenerateMinimalCSS` with an empty class list returns an **empty**
  stylesheet, without base styles (`css/internal/css_generator.go:333-335`).
- The spacing expansion appends `rem` to the formatted value itself
  (`css/internal/css_generator.go:90`). The gap and radius expansions do not
  (lines 139 and 174); their templates carry the unit.

## Model

| member | source | states |
|---|---|---|
| CssGenerator.Stylesheet.constructor | css/internal/css_generator.go:13-17 | a new stylesheet has no rules |
| CssGenerator.Stylesheet.AddRule | css/internal/css_generator.go:19-21 | the rule table maps the selector to the new declaration, replacing any earlier one; everything else is unchanged |
| CssGenerator.Stylesheet.AddRules | css/internal/css_generator.go:85-93 | adding a list of rules one by one leaves the table equal to `ApplyAll` of the list (last write per selector wins) |
| CssGenerator.Stylesheet.GenerateCSS | css/internal/css_generator.go:23-43 | the text is the serialisation of the table: one `selector { declaration }` line per selector, in ascending selector order |
| CssGenerator.SerializeEmpty | css/internal/css_generator.go:24-26 | the CSS text is empty exactly when the table has no rules |
| CssGenerator.Overwrite | css/internal/css_generator_test.go:49-64 | adding a selector twice keeps only the second declaration; other rules survive; the selector appears exactly once in the sorted order |
| CssGenerator.SerializeEmptyDeclaration | css/internal/css_generator_test.go:88-95 | a rule with an empty declaration serialises as `selector {  }` and a newline |
| CssGenerator.SerializeThreeRules | css/internal/css_generator_test.go:27-47 | rules added in the order c, a, b serialise in the order a, b, c |
| CssGenerator.ThreeClassesSorted | css/internal/css_generator_test.go:27-47 | `.class-a`, `.class-b`, `.class-c` are in strictly ascending byte order |
| CssGenerator.Selectors | css/internal/css_generator.go:19-21 | the selectors of a rule list are exactly the selectors its entries carry |
| CssGenerator.ApplyAllKeys | css/internal/css_generator.go:19-21 | after a sequence of AddRule calls, the table's selectors are the old ones plus every selector added |
| CssGenerator.ApplyAllLastWrite | css/internal/css_generator.go:19-21 | a selector's entry holds the declaration of its last AddRule |
| CssGenerator.ApplyAllUntouched | css/internal/css_generator.go:19-21 | a selector never added keeps its earlier declaration |
| CssGenerator.ApplyAllAppend | css/internal/css_generator.go:19-21 | adding two lists one after the other equals adding their concatenation |
| CssGenerator.ApplyAllDistinct | css/internal/css_generator.go:19-21 | with distinct selectors, every added rule is in the table as given |
| CssGenerator.ApplyAllOrderIndependent | css/internal/css_generator.go:96-104 | with distinct selectors, the table does not depend on the order the rules are added in |
| CssGenerator.SameSelectors | css/internal/css_generator.go:19-21 | the same rules in another order write the same set of selectors |
| CssGenerator.ApplyAllAgreeAt | css/internal/css_generator.go:96-104 | without repeated selectors, two orders of the same rules agree on every selector either writes or the table already held |
| CssGenerator.ApplyAllSize | css/internal/css_generator.go:19-21 | distinct new selectors grow the table by exactly their number |
| CssGenerator.LinesOfThree | css/internal/css_generator.go:37-40 | three selectors serialise as their three lines in order |
| CssGenerator.LinesStep | css/internal/css_generator.go:37-40 | the serialisation of one more selector is the previous text followed by that selector's line |
| CssGenerator.AllClassRulesAppend | css/internal/css_generator.go:85-326 | concatenating two lists of class rules gives a list of class rules |
| CssGenerator.ScaleRow | css/internal/css_generator.go:86-92 | one property over the scale yields as many rules as scale entries, all class rules |
| CssGenerator.ScaleRowAt | css/internal/css_generator.go:86-92 | the j-th rule of a row is the property instantiated with the j-th scale value |
| CssGenerator.ScaledRules | css/internal/css_generator.go:85-93 | a scaled expansion yields only class selectors |
| CssGenerator.RowInScaledRules | css/internal/css_generator.go:85-93 | every rule of one property's row is in the rules for all the properties |
| CssGenerator.ScaledRulesContain | css/internal/css_generator.go:85-93 | every (property, size) pair yields its rule `.prefix-size` with the filled-in template |
| CssGenerator.ScaledRulesOnly | css/internal/css_generator.go:85-93 | every rule of a scaled expansion comes from some (property, size) pair |
| CssGenerator.SimpleRules | css/internal/css_generator.go:107-109 | a named-property list yields one class rule per entry |
| CssGenerator.ValueRules | css/internal/css_generator.go:187-190 | a named-value list yields one class rule per entry |
| CssGenerator.SpacingRules | css/internal/css_generator.go:85-93 | the spacing expansion yields only class rules |
| CssGenerator.ShadeRules | css/internal/css_generator.go:97-103 | each shade yields two class rules, background then text colour |
| CssGenerator.ShadeRulesAt | css/internal/css_generator.go:97-103 | entry 2k is the background rule of shade k and entry 2k+1 its text-colour rule |
| CssGenerator.ColorRules | css/internal/css_generator.go:96-104 | the colour expansion yields only class rules |
| CssGenerator.ColorRulesContain | css/internal/css_generator.go:96-104 | every colour/shade pair yields `.bg-colour-shade` and `.text-colour-shade` rules with its hex value |
| CssGenerator.ShadeSelectorSplit | css/internal/css_generator.go:98-103 | when colour names contain no hyphen, a selector `prefix-colour-shade` determines both the colour and the shade |
| CssGenerator.ShadeSelectorKinds | css/internal/css_generator.go:98-103 | a background selector never equals a text-colour selector |
| CssGenerator.ShadeRuleSelectors | css/internal/css_generator.go:98-103 | for hyphen-free colour names, two shade rules with the same selector come from the same colour and shade name |
| CssGenerator.ShadeRulesOnly | css/internal/css_generator.go:97-103 | every rule of one colour is the background or text rule of one of its shades |
| CssGenerator.ColorRulesOnly | css/internal/css_generator.go:96-104 | every colour rule is the background or text rule of some (colour, shade) pair |
| CssGenerator.ShadeRulesDistinct | css/internal/css_generator.go:97-103 | a hyphen-free colour with distinct shade names yields rules with pairwise distinct selectors |
| CssGenerator.ColorRulesDistinct | css/internal/css_generator.go:96-104 | hyphen-free, distinct colour names with distinct shade names yield rules with pairwise distinct selectors |
| CssGenerator.ColorRulesSubset | css/internal/css_generator.go:96-104 | if every (colour, shade) pair of one table is in another, every rule of the first is a rule of the second |
| CssGenerator.ColorOrderIndependent | css/internal/css_generator.go:96-104 | for hyphen-free colour names, two iteration orders of the same (colour, shade) pairs write the same table |
| CssGenerator.ColorOrderMatters | css/internal/css_generator.go:96-104 | with colour `a-b` shade `c` and colour `a` shade `b-c`, both write `.bg-a-b-c` and the two iteration orders leave different values |
| CssGenerator.OneColorRules | css/internal/css_generator.go:96-104 | a colour with one shade yields exactly its background rule and its text rule |
| CssGenerator.TwoColorRules | css/internal/css_generator.go:96-104 | the rules of two colours are those of the first followed by those of the second |
| CssGenerator.FlattenTwo | css/internal/css_generator.go:85-104 | the utility rules are the first section, then the second, then the rest |
| CssGenerator.FlattenMiddle | css/internal/css_generator.go:85-326 | replacing the second section by one that writes the same table leaves the table of all sections unchanged |
| CssGenerator.UtilityColorOrder | css/internal/css_generator.go:85-326 | two configurations that differ only in the order of a hyphen-free colour table give utility rules that write the same table |
| CssGenerator.FullRulesColorOrder | css/internal/css_generator.go:56-326 | the full stylesheet does not depend on the iteration order of a hyphen-free colour table |
| CssGenerator.SlateScenario | css/internal/css_generator.go:96-104 | slate 500 yields `.bg-slate-500 { background-color: #64748b }` and `.text-slate-500 { color: #64748b }` |
| CssGenerator.LayoutRules | css/internal/css_generator.go:107-141 | layout and grid expansion yields only class rules |
| CssGenerator.TextSizeRules | css/internal/css_generator.go:144-148 | one class rule per text size |
| CssGenerator.TypographyRules | css/internal/css_generator.go:144-160 | the typography expansion yields only class rules |
| CssGenerator.BorderRules | css/internal/css_generator.go:163-183 | the border expansion yields only class rules |
| CssGenerator.SizingRules | css/internal/css_generator.go:187-228 | the sizing expansion yields only class rules |
| CssGenerator.Flatten | css/internal/css_generator.go:85-326 | joining lists of class rules gives class rules |
| CssGenerator.FlattenContains | css/internal/css_generator.go:85-326 | a rule of any section is in the joined list |
| CssGenerator.FlattenSnoc | css/internal/css_generator.go:85-326 | joining one more section appends it at the end |
| CssGenerator.DirectionRules | css/internal/css_generator.go:236-255 | the per-direction inset expansion yields only class rules |
| CssGenerator.DirectionRulesContain | css/internal/css_generator.go:236-255 | any rule of one direction's expansion is in the combined expansion |
| CssGenerator.InsetShapes | css/internal/css_generator.go:236-255 | each direction and negative value yields `.-dir` + name with `dir: value` |
| CssGenerator.AxisRules | css/internal/css_generator.go:262-273 | each inset value yields two class rules (x and y axis) |
| CssGenerator.AxisRulesContain | css/internal/css_generator.go:262-273 | `.inset-x-n` sets left and right, `.inset-y-n` sets top and bottom, to the value |
| CssGenerator.PositionRules | css/internal/css_generator.go:232-286 | the position expansion yields only class rules |
| CssGenerator.ShadowRules | css/internal/css_generator.go:295-301 | one class rule per shadow value |
| CssGenerator.EffectsRules | css/internal/css_generator.go:290-326 | the effects expansion yields only class rules |
| CssGenerator.BaseRulesShape | css/internal/css_generator.go:65-82 | the 18 base selectors are distinct and none is a class selector |
| CssGenerator.BaseSelectorsDistinct | css/internal/css_generator.go:65-82 | there are 18 base rules and no two share a selector |
| CssGenerator.BaseTableShape | css/internal/css_generator.go:65-82 | the base table has 18 entries, each base selector mapped to its declaration, and no class selector |
| CssGenerator.BaseTableSize | css/internal/css_generator.go:65-82 | the base table has 18 entries |
| CssGenerator.BaseTableEntries | css/internal/css_generator.go:65-82 | each base selector maps to its declaration |
| CssGenerator.BaseTableKeys | css/internal/css_generator.go:65-82 | the base table has no class selector |
| CssGenerator.BaseRulesSurvive | css/internal/css_generator.go:65-82 | in the full stylesheet the non-class selectors are exactly the base ones, with the base declarations: no utility overwrites a base style |
| CssGenerator.Sections | css/internal/css_generator.go:85-326 | the configuration expands into eight sections of class rules |
| CssGenerator.UtilityRules | css/internal/css_generator.go:85-326 | all utility rules are class rules |
| CssGenerator.SectionStep | css/internal/css_generator.go:85-326 | adding the sections one at a time equals adding their concatenation |
| CssGenerator.SinglePlaceholder | css/internal/css_generator.go:86-92 | a template with one `{value}` becomes the text around it with the formatted value in its place |
| CssGenerator.SpacingScenario | css/internal/css_generator.go:86-92 | padding at size 4 with multiplier 0.25 yields `.p-4 { padding: 1.00rem }` |
| CssGenerator.GapScenario | css/internal/css_generator.go:135-140 | gap 1 with multiplier 0.25 yields `.gap-1 { gap: 0.25rem }` (the unit comes from the template) |
| CssGenerator.GenerateUtilitiesFromConfig | css/internal/css_generator.go:56-329 | a load failure returns no stylesheet and the error; otherwise the stylesheet holds exactly the base rules then every expansion, added in source order |
| CssGenerator.GenerateUtilities | css/internal/css_generator.go:46-53 | the full stylesheet when the configuration loads, the fallback otherwise |
| CssGenerator.GenerateBasicUtilities | css/internal/css_generator.go:370-386 | the stylesheet is the fallback table |
| CssGenerator.Stylesheet.AddSpacingPair | css/internal/css_generator.go:373-377 | one loop pass adds `.p-i` and then `.m-i`, each at i quarter-rems, to the table |
| CssGenerator.FallbackSpacingAt | css/internal/css_generator.go:373-377 | entries 2i and 2i+1 of the fallback spacing are `.p-i` and `.m-i` |
| CssGenerator.FallbackSpacingStep | css/internal/css_generator.go:373-377 | iteration i of the loop adds `.p-i` then `.m-i` |
| CssGenerator.FallbackLayoutStep | css/internal/css_generator.go:380-383 | after the spacing loop, `.flex`, `.block` and `.hidden` are added in that order |
| CssGenerator.ApplyAllPrefixStep | css/internal/css_generator.go:19-21 | adding one more rule of a list is one AddRule |
| CssGenerator.FallbackDistinct | css/internal/css_generator.go:370-386 | the 37 fallback selectors are distinct |
| CssGenerator.FallbackShape | css/internal/css_generator.go:370-386 | the fallback has 37 rules: `.p-i` is `padding: (i/4).2frem` and `.m-i` is `margin: (i/4).2frem` for i in 0..16, and `.flex`, `.block`, `.hidden` |
| CssGenerator.FallbackPadding4 | css/internal/css_generator.go:373-377 | the fallback maps `.p-4` to `padding: 1.00rem` |
| CssGenerator.FallbackAllClass | css/internal/css_generator.go:370-386 | every fallback rule is a class rule |
| CssGenerator.GenerateMinimalCSS | css/internal/css_generator.go:332-367 | the result is the minimal table for the used names: empty if none, the whole fallback if the configuration fails, the filtered full stylesheet otherwise |
| CssGenerator.KeepUsed | css/internal/css_generator.go:350-366 | the loop keeps every non-class rule and exactly the class rules whose name is used |
| CssGenerator.AsSetStep | css/internal/css_generator.go:338-341 | the used-name set grows by one name per loop iteration |
| CssGenerator.FilterStep | css/internal/css_generator.go:350-366 | one iteration of the filter loop adds the selector exactly when it is kept |
| CssGenerator.MinimalCorrect | css/internal/css_generator.go:332-367 | for a loaded configuration: every base style survives; a class rule is present iff it is in the full stylesheet and its name is used; every kept rule has its full declaration |
| CssGenerator.MinimalKeepsBase | css/internal/css_generator.go:352-355 | the 18 base styles are always in a non-empty minimal stylesheet |
| CssGenerator.KeptOffClass | css/internal/css_generator.go:352-355 | a non-class rule survives filtering with its declaration |
| CssGenerator.ExtractionScenario | css/internal/css_generator.go:350-366 | with `p-4` and `bg-green-100` used, `.p-8` is dropped and `body`, `.p-4` and `.bg-green-100` are kept |
| CssUtilities.DistinctSize | css/utilities.go:30-39 | a list without repeats has as many entries as distinct names |
| CssUtilities.Tracker.constructor | css/utilities.go:16-20 | the tracker starts empty |
| CssUtilities.Tracker.TrackClass | css/utilities.go:23-27 | the name is added to the recorded set; recording it again changes nothing |
| CssUtilities.Tracker.GetUsedClasses | css/utilities.go:30-39 | every recorded name exactly once, nothing else |
| CssUtilities.Tracker.ResetTracking | css/utilities.go:42-46 | nothing is recorded afterwards |
| CssUtilities.Stylesheet.constructor | css/utilities.go:49-51 | wraps the given rule table |
| CssUtilities.Stylesheet.Generate | css/utilities.go:54-62 | empty text without a table, otherwise the table's serialisation |
| CssUtilities.GenerateUtilities | css/utilities.go:65-67 | wraps the full (or fallback) stylesheet |
| CssUtilities.GenerateMinimalCSS | css/utilities.go:70-72 | wraps the minimal stylesheet for exactly the recorded names |
| CssUtilities.PrefixedName | css/utilities.go:76-80 | the name is the prefix, a hyphen, then the value, each recoverable by position |
| CssUtilities.PrefixedNameInjective | css/utilities.go:76-80 | one prefix with two different values never gives the same name |
| CssUtilities.PaddingNameInjective | css/utilities.go:76-80 | `P(a)` and `P(b)` are equal only when a equals b |
| CssUtilities.Prefixed | css/utilities.go:76-80 | returns `prefix-value` and records it |
| CssUtilities.Keyword | css/utilities.go:588-591 | returns the fixed name and records it |
| CssUtilities.P | css/utilities.go:76-80 | returns `p-` and the decimal size, and records it |
| CssUtilities.M | css/utilities.go:132-136 | returns `m-` and the decimal size, and records it |
| CssUtilities.BgRed | css/utilities.go:332-336 | returns `bg-red-` and the decimal shade, and records it |
| CssUtilities.TextRed | css/utilities.go:340-344 | returns `text-red-` and the decimal shade, and records it |
| CssUtilities.Rounded | css/utilities.go:992-996 | returns `rounded-` and the decimal radius, and records it |
| CssUtilities.Block | css/utilities.go:588-591 | returns and records `block` |
| CssUtilities.Flex | css/utilities.go:595-598 | returns and records `flex` |
| CssUtilities.W | css/utilities.go:1078-1082 | returns `w-` and the size name, and records it |
| CssUtilities.ShadowName | css/utilities.go:1317-1326 | `shadow` without a size or with an empty first size, otherwise `shadow-` and the first size |
| CssUtilities.ShadowIgnoresLaterSizes | css/utilities.go:1317-1326 | sizes after the first never change the name |
| CssUtilities.Shadow | css/utilities.go:1317-1326 | returns and records the shadow name |
| CssUtilities.TrackingScenario | css/utilities_test.go:246-274 | after `P(4)`, `BgRed(500)`, `Flex()`, `Rounded(8)` the tracker lists exactly those four names |
| CssUtilities.ResetScenario | css/utilities_test.go:276-289 | after a reset the tracker lists nothing |
| CssUtilities.TrackedRuleKept | css/internal/css_generator.go:358-363 | a recorded class keeps its configured rule in the minimal stylesheet |
| CssUtilities.UntrackedRuleDropped | css/internal/css_generator.go:358-363 | a class never recorded has no rule in a non-empty minimal stylesheet |
| HtmlElement.StyleNode | html/document.go:42-44 | the injected style element: tag `style`, the CSS as content, no attributes or children |
| HtmlElement.NodeValues | html/element.go:57-64 | the child values are taken from the given elements, skipping nil, never more than given |
| HtmlElement.Appended | html/element.go:57-64 | adding children never adds more values than elements given |
| HtmlElement.AppendedNotSelf | html/element.go:57-64 | when the element is not among its new children, the children become the old ones followed by the copies of the non-nil new ones |
| HtmlElement.NodeValuesSkipsNil | html/element.go:59-61 | a nil child adds nothing |
| HtmlElement.NodeValuesAllPresent | html/element.go:57-64 | with no nil child, the i-th copy is the i-th element's value |
| HtmlElement.Element.constructor | html/element.go:19-21 | a new element has the tag and nothing else |
| HtmlElement.Element.Leaf | html/text.go:4-6 | an element with a tag and text content |
| HtmlElement.Element.Class | html/element.go:24-36 | sets `class` to the names joined by single spaces; the rest of the element is unchanged; returns the element |
| HtmlElement.Element.ID | html/element.go:39-45 | sets `id`; the rest is unchanged; returns the element |
| HtmlElement.Element.Attr | html/element.go:48-54 | sets one attribute, replacing an earlier value; the rest is unchanged; returns the element |
| HtmlElement.Element.SetContent | html/element.go:67-70 | replaces the content; the rest is unchanged; returns the element |
| HtmlElement.Element.AddChildren | html/element.go:57-64 | tag, content and attributes unchanged; children extended by copies of the non-nil arguments |
| HtmlElement.Element.Render | html/element.go:73-86 | without a head or with nothing recorded, the tree is unchanged; otherwise a style element holding the minimal stylesheet for the recorded names is appended to the first head; the result is the HTML of the resulting tree |
| HtmlElement.Element.InjectStyle | html/element.go:76-83 | without a head or with nothing tracked the tree is unchanged; otherwise the minimal stylesheet is appended as a `style` child of the first head |
| HtmlElement.NewWithChildren | html/container.go:4-7 | a new element with the tag and copies of the non-nil children |
| HtmlElement.FindHead | html/element.go:90-104 | finds a head iff the tree has one; the path leads to a `head`; the element itself if it is a head, else the first child subtree holding one, earlier subtrees holding none |
| HtmlElement.FindHeadFrom | html/element.go:96-101 | the search over the children from i finds the first child subtree holding a head |
| HtmlElement.FindHeadIn | html/element.go:90-104 | the loop computes the head path of the recursive search |
| HtmlElement.FindHeadFromSkips | html/element.go:96-101 | children without a head are skipped |
| HtmlElement.AppendAt | html/element.go:80-82 | appending below a path adds the node at the end of that element's children and changes nothing on the way down |
| HtmlElement.AppendAtElsewhere | html/element.go:80-82 | elements off the path are untouched |
| HtmlElement.FindHeadAfterAppend | html/element.go:73-86 | injecting into the head leaves it the first head, so rendering again injects into the same place |
| HtmlElement.NotSelfClosing | html/element.go:143-150 | a tag whose lower-cased shape is none of the 14 void tags is not self-closing |
| HtmlElement.SelfClosingTagShape | html/element.go:143-150 | a self-closing tag, in any letter case, has the shape of one of the 14 void tags |
| HtmlElement.DocumentTagsNotSelfClosing | html/element.go:143-150 | `head`, `style`, `html`, `body`, `title` and `script` are not self-closing |
| HtmlElement.SelfClosingIgnoresCase | html/element.go:143-150 | `IMG`, `Br` and `img` are self-closing, `div` and `DIV` are not: the test lower-cases the tag |
| HtmlElement.LowerTag | html/element.go:149 | lower-casing a tag without upper-case letters changes nothing |
| HtmlElement.AttrsHtml | html/element.go:119-121 | the loop renders ` key="value"` for every attribute |
| HtmlElement.KeyedAttrs | html/element.go:119-121 | writing the attributes for a key list gives each key's ` k="v"` in list order |
| HtmlElement.AttrsTextStep | html/element.go:119-121 | one more key appends exactly its ` k="v"` text |
| HtmlElement.ChildrenToHtml | html/element.go:132-134 | the loop renders the children one after another |
| HtmlElement.ToHtml | html/element.go:107-140 | the method renders the tree as the recursive definition does |
| HtmlElement.TextRendersContent | html/element.go:113-115 | an element without a tag renders as its content alone, whatever its attributes and children |
| HtmlElement.SelfClosingForm | html/element.go:123-126 | a self-closing tag renders as its open tag and ` />`; content and children are dropped |
| HtmlElement.ClosingTag | html/element.go:128-139 | any other tag renders its open tag, `>`, content, children and ends with `</tag>` |
| HtmlElement.ChildrenHtmlSame | html/element.go:132-134 | the children's HTML depends only on the children |
| HtmlElement.ChildrenInOrder | html/element.go:132-134 | children render in order, one after another |
| HtmlElement.PlainTagHtml | html/element.go:107-140 | an element without attributes renders as `<tag>content…children…</tag>` |
| HtmlElement.LeafHtml | html/element.go:107-140 | a leaf renders as `<tag>content</tag>` |
| HtmlElement.OneAttribute | html/element.go:117-121 | one attribute opens as `<tag key="value"` |
| HtmlElement.NoAttributes | html/element.go:117-121 | an element without attributes opens as `<tag` |
| HtmlElement.AppendChildHtml | html/element.go:128-139 | an appended child's HTML goes just before the closing tag |
| HtmlElement.InjectedStyleHtml | html/element.go:80-82 | the injected style renders as `<style>css</style>` just before `</head>` |
| HtmlElement.StyleNodeHtml | html/document.go:42-44 | a style element renders as `<style>css</style>` |
| HtmlText.H1 | html/text.go:4-6 | a new `h1` with the content |
| HtmlText.H2 | html/text.go:9-11 | a new `h2` with the content |
| HtmlText.H3 | html/text.go:14-16 | a new `h3` with the content |
| HtmlText.H4 | html/text.go:19-21 | a new `h4` with the content |
| HtmlText.H5 | html/text.go:24-26 | a new `h5` with the content |
| HtmlText.H6 | html/text.go:29-31 | a new `h6` with the content |
| HtmlText.P | html/text.go:34-36 | a new `p` with the content |
| HtmlText.Span | html/text.go:39-41 | a new `span` with the content |
| HtmlText.Text | html/text.go:44-46 | a new tag-less text element |
| HtmlText.A | html/text.go:49-51 | a new, empty `a` |
| HtmlText.TextHtml | html/text.go:4-51 | every text tag renders with an opening and a closing tag |
| HtmlText.TextHtmlIsContent | html/text.go:44-46 | a text element renders as its content alone |
| HtmlContainer.Div | html/container.go:4-7 | a new `div` holding copies of the non-nil children |
| HtmlContainer.Section | html/container.go:10-13 | a new `section` holding copies of the children |
| HtmlContainer.Article | html/container.go:16-19 | a new `article` holding copies of the children |
| HtmlContainer.Header | html/container.go:22-25 | a new `header` holding copies of the children |
| HtmlContainer.Footer | html/container.go:28-31 | a new `footer` holding copies of the children |
| HtmlContainer.Nav | html/container.go:34-37 | a new `nav` holding copies of the children |
| HtmlContainer.MainElement | html/container.go:40-43 | a new `main` holding copies of the children |
| HtmlContainer.ContainerHtml | html/container.go:4-43 | every container tag renders with an opening and a closing tag |
| HtmlDocument.Html | html/document.go:4-7 | a new `html` holding copies of the children |
| HtmlDocument.Head | html/document.go:10-13 | a new `head` (the tag the head search matches) holding copies of the children |
| HtmlDocument.Body | html/document.go:16-19 | a new `body` holding copies of the children |
| HtmlDocument.Title | html/document.go:22-24 | a new `title` with the content |
| HtmlDocument.Meta | html/document.go:27-29 | a new, empty `meta` |
| HtmlDocument.Link | html/document.go:32-34 | a new, empty `link` |
| HtmlDocument.Script | html/document.go:37-39 | a new `script` with the content |
| HtmlDocument.Style | html/document.go:42-44 | a new `style` with the content: the element Render injects |
| HtmlDocument.MetaLinkHtml | html/document.go:27-34 | `meta` and `link` are self-closing and render as `<tag />` |
| HtmlDocument.DocumentHtml | html/document.go:4-44 | the other document tags render with an opening and a closing tag |
| HtmlDocument.DocumentHeadFound | html/element.go:90-104 | in a document whose first child is a head, that head is found |
| HtmlMedia.Img | html/media.go:4-7 | a new `img` with the `src` attribute |
| HtmlMedia.Video | html/media.go:10-13 | a new `video` holding copies of the children |
| HtmlMedia.Audio | html/media.go:16-19 | a new `audio` holding copies of the children |
| HtmlMedia.Source | html/media.go:22-25 | a new `source` with the `src` attribute |
| HtmlMedia.MediaHtml | html/media.go:4-25 | `img` and `source` are self-closing and render as `<tag src="…" />` |
| HtmlMedia.PlayerHtml | html/media.go:10-19 | `video` and `audio` render their children between opening and closing tags |
| HtmlForm.Form | html/form.go:4-7 | a new `form` holding copies of the children |
| HtmlForm.Input | html/form.go:10-13 | a new `input` with the `type` attribute |
| HtmlForm.Button | html/form.go:16-18 | a new `button` with the content |
| HtmlForm.Textarea | html/form.go:21-23 | a new `textarea` with the content |
| HtmlForm.Select | html/form.go:26-29 | a new `select` holding copies of the children |
| HtmlForm.Option | html/form.go:32-34 | a new `option` with the content |
| HtmlForm.Label | html/form.go:37-39 | a new `label` with the content |
| HtmlForm.InputHtml | html/form.go:10-13 | `input` is self-closing and renders as `<input type="…" />` |
| HtmlForm.FormHtml | html/form.go:4-39 | the other form tags render with an opening and a closing tag |
| HtmlList.Ul | html/list.go:4-7 | a new `ul` holding copies of the children |
| HtmlList.Ol | html/list.go:10-13 | a new `ol` holding copies of the children |
| HtmlList.Li | html/list.go:16-18 | a new `li` with the content |
| HtmlList.Dl | html/list.go:21-24 | a new `dl` holding copies of the children |
| HtmlList.Dt | html/list.go:27-29 | a new `dt` with the content |
| HtmlList.Dd | html/list.go:32-34 | a new `dd` with the content |
| HtmlList.ListHtml | html/list.go:4-34 | every list tag renders with an opening and a closing tag |
| HtmlTable.Table | html/table.go:4-7 | a new `table` holding copies of the children |
| HtmlTable.Thead | html/table.go:10-13 | a new `thead` holding copies of the children |
| HtmlTable.Tbody | html/table.go:16-19 | a new `tbody` holding copies of the children |
| HtmlTable.Tfoot | html/table.go:22-25 | a new `tfoot` holding copies of the children |
| HtmlTable.Tr | html/table.go:28-31 | a new `tr` holding copies of the children |
| HtmlTable.Th | html/table.go:34-36 | a new `th` with the content |
| HtmlTable.Td | html/table.go:39-41 | a new `td` with the content |
| HtmlTable.Caption | html/table.go:44-46 | a new `caption` with the content |
| HtmlTable.TableHtml | html/table.go:4-46 | every table tag renders with an opening and a closing tag |
| GoGenerator.CamelOfNoHyphen | css/internal/go_generator.go:299-310 | joining title-cased hyphen-free parts gives a hyphen-free name |
| GoGenerator.CamelOfAppend | css/internal/go_generator.go:301-306 | camel-casing the parts of a split distributes over concatenation of the part lists |
| GoGenerator.CamelOfAppendFrom | css/internal/go_generator.go:301-306 | camel-casing the first |a|+k parts of a+b is camel-casing a followed by the first k parts of b |
| GoGenerator.CamelOfPrefixSame | css/internal/go_generator.go:301-306 | the camel-cased prefix of n parts depends only on those n parts |
| GoGenerator.CamelOfPrefixNoHyphen | css/internal/go_generator.go:301-306 | parts without hyphens camel-case to text without hyphens |
| GoGenerator.SplitAt | css/internal/go_generator.go:300 | splitting at any separator occurrence gives the parts before it followed by the parts after it |
| GoGenerator.ToCamelCase | css/internal/go_generator.go:299-310 | the loop computes the camel-case of the parts and the result holds no hyphen, so the final `ReplaceAll` changes nothing |
| GoGenerator.NoHyphenNoOccurrence | css/internal/go_generator.go:308 | a hyphen-free string holds no `-` to replace |
| GoGenerator.SplitNoSeparator | css/internal/go_generator.go:300 | a string without the separator splits into itself |
| GoGenerator.CamelCaseSkipsEmptyParts | css/internal/go_generator.go:302-306 | a doubled hyphen anywhere in the name gives the same name as a single one: empty parts are skipped |
| GoGenerator.CamelCaseOfPair | css/internal/go_generator.go:299-310 | `x-y` becomes `Title(x)` followed by `Title(y)` |
| GoGenerator.InlineBlockName | css/internal/go_generator.go:75 | `inline-block` becomes `InlineBlock` |
| GoGenerator.CamelOfTwo | css/internal/go_generator.go:302-306 | two non-empty parts become their title-cased concatenation |
| GoGenerator.SpacingFuncName | css/internal/go_generator.go:29-32 | a spacing function name has exactly as many characters as its prefix |
| GoGenerator.SpacingFuncNameLower | css/internal/go_generator.go:28-32 | for a lower-case prefix the function name is the prefix with its first letter upper-cased (`px` gives `Px`) |
| GoGenerator.TextSizeNames | css/internal/go_generator.go:120-124 | `2xl` and `3xl` are upper-cased (`Text2XL`, `Text3XL`); others are title-cased (`Text4xl`, `TextLg`) |
| GoGenerator.KeywordFunctions | css/internal/go_generator.go:75-82 | one function per keyword item |
| GoGenerator.SpacingFunctions | css/internal/go_generator.go:26-44 | one function per spacing property |
| GoGenerator.ColorFunctions | css/internal/go_generator.go:47-70 | two functions per colour |
| GoGenerator.ColorFunctionsAt | css/internal/go_generator.go:47-70 | function 2i is the background constructor of colour i, function 2i+1 its text constructor |
| GoGenerator.LayoutFunctions | css/internal/go_generator.go:73-115 | one function per display, justify, align and direction item |
| GoGenerator.TextSizeFunctions | css/internal/go_generator.go:120-131 | one function per text size |
| GoGenerator.TypographyFunctions | css/internal/go_generator.go:118-165 | one function per size, alignment, weight and family |
| GoGenerator.BorderFunctions | css/internal/go_generator.go:170-190 | one function per border property |
| GoGenerator.BordersFunctions | css/internal/go_generator.go:168-203 | one function per width property, radius property and special radius |
| GoGenerator.SizingFunctions | css/internal/go_generator.go:313-367 | six fixed functions |
| GoGenerator.DirectionFunctions | css/internal/go_generator.go:382-392 | four functions, one per direction in the fixed order |
| GoGenerator.DirectionOrder | css/internal/go_generator.go:382-392 | the order is Top, Right, Bottom, Left, each with its lower-case class prefix |
| GoGenerator.PositionFunctions | css/internal/go_generator.go:370-438 | one per position type, four directions, three inset helpers, `Z`, one per overflow item |
| GoGenerator.EffectsFunctions | css/internal/go_generator.go:441-519 | `Opacity`, `Shadow`, then one per cursor, user-select, pointer-events, visibility and screen-reader item |
| GoGenerator.AllFunctions | css/internal/go_generator.go:522-540 | the total number of generated functions, section by section |
| GoGenerator.CodeGenerator.constructor | css/internal/go_generator.go:14-18 | a new generator has no functions |
| GoGenerator.CodeGenerator.AddFunction | css/internal/go_generator.go:21-23 | appends one function text at the end |
| GoGenerator.CodeGenerator.AddKeywordFunctions | css/internal/go_generator.go:75-82 | appends the keyword functions in order |
| GoGenerator.CodeGenerator.GenerateSpacingFunctions | css/internal/go_generator.go:26-44 | appends the spacing functions in order |
| GoGenerator.CodeGenerator.GenerateColorFunctions | css/internal/go_generator.go:47-70 | appends the colour functions in order |
| GoGenerator.CodeGenerator.GenerateLayoutFunctions | css/internal/go_generator.go:73-115 | appends the layout functions in order |
| GoGenerator.CodeGenerator.GenerateTypographyFunctions | css/internal/go_generator.go:118-165 | appends the typography functions in order |
| GoGenerator.CodeGenerator.AddBorderFunctions | css/internal/go_generator.go:170-190 | appends one border function per property |
| GoGenerator.CodeGenerator.GenerateBorderFunctions | css/internal/go_generator.go:168-203 | appends the border functions in order |
| GoGenerator.CodeGenerator.GenerateSizingFunctions | css/internal/go_generator.go:313-367 | appends the six sizing functions, whatever the sizing configuration |
| GoGenerator.CodeGenerator.AddDirectionFunctions | css/internal/go_generator.go:382-392 | appends the four direction functions |
| GoGenerator.CodeGenerator.GeneratePositionFunctions | css/internal/go_generator.go:370-438 | appends the position functions in order |
| GoGenerator.CodeGenerator.GenerateEffectsFunctions | css/internal/go_generator.go:441-519 | appends the effects functions in order |
| GoGenerator.GenerateUtilitiesCode | css/internal/go_generator.go:522-540 | a load failure gives no functions and the error; otherwise every section's functions, in the order of the calls |
| HtmlScenarios.NestedElements | html/element_test.go:55-71 | a div holding an h1 and a p renders as `<div><h1>Welcome</h1><p>This is a test paragraph</p></div>` |
| HtmlScenarios.CompleteDocument | html/element_test.go:73-95 | the complete document renders as the expected page, with no style injected |
| HtmlScenarios.RenderWithCSSInjection | html/element_test.go:148-174 | with `p-4` and `bg-red-100` recorded, the head gets a style element holding the minimal stylesheet for exactly those names, and the div carries `class="p-4 bg-red-100"` |
| HtmlScenarios.StyledPage | html/element.go:73-86 | for any title, content, size and shade: the rendered page has the minimal stylesheet for the recorded names injected after the title |
| HtmlScenarios.StyledTree | html/element_test.go:153-160 | the page built has a titled head and a body with one div classed `p-n bg-red-m`; both names are recorded |
| HtmlScenarios.InjectedPageHtml | html/element.go:73-86 | on that page the head is the first child, and the injected style renders right after the title |
| HtmlScenarios.StyledTreeHtml | html/element.go:107-140 | the HTML text of the page with title, style and classed div, for any stylesheet text |
| HtmlScenarios.ClassedDiv | html/element_test.go:158 | a div with content and the classes `p-n bg-red-m`, both recorded |
| HtmlScenarios.PageAround | html/element_test.go:153-160 | the page built is html(head(title), body(box)) with the box's value |
| HtmlScenarios.InjectedTree | html/element.go:80-82 | appending to the head of a titled page puts the new node after the title |
| HtmlScenarios.NestedHtml | html/element.go:107-140 | a container holding two text elements renders as the two wrapped in the container |
| HtmlScenarios.PageHtml | html/element.go:107-140 | a page renders as the head's and body's HTML inside `<html>` |
| HtmlScenarios.ClassBoxHtml | html/element.go:117-121 | a container with one class renders as `<tag class="…">content</tag>` |
| HtmlScenarios.JoinTwo | html/element.go:34 | two class names are joined by one space |
| Sorting.SortStrings | css/internal/css_generator.go:35 | the result is a permutation of the input in ascending order, strictly ascending when the input has no repeats |
| Sorting.SortedSeq | css/internal/css_generator.go:29-35 | the selectors of a table, each exactly once, in strictly ascending order |
| Sorting.SortedKeys | css/internal/css_generator.go:29-35 | collecting the keys of a table and sorting them gives SortedSeq of its key set |
| Sorting.StrictlySortedUnique | css/internal/css_generator.go:35 | two strictly ascending sequences with the same members are equal, so the sorted selector order is unique |
| Strings.LexLessIrreflexive | css/internal/css_generator.go:35 | no string sorts before itself |
| Strings.LexLessAsymmetric | css/internal/css_generator.go:35 | two strings never sort before each other |
| Strings.LexLessTransitive | css/internal/css_generator.go:35 | the sort order is transitive |
| Strings.LexLessTotal | css/internal/css_generator.go:35 | of two different strings one sorts before the other |
| Strings.LexLessAtFirstDifference | css/internal/css_generator.go:35 | the string with the smaller character at the first difference sorts first |
| Strings.IntToString | css/internal/css_generator.go:128 | `%d` text is never empty; it starts with a digit for n >= 0 and with `-` for n < 0 |
| Strings.IntToStringInjective | css/utilities.go:76-80 | different integers print differently |
| Strings.Fixed2 | css/internal/css_generator.go:90 | `%.2f` text ends in a point and two digits |
| Strings.ReplaceAllNoOccurrence | css/internal/go_generator.go:308 | text without the pattern is left unchanged |
| Strings.ReplaceAllAtPattern | css/internal/css_generator.go:90 | text that starts with the pattern gets the replacement in its place |
| Strings.ReplaceAllPlainPrefix | css/internal/css_generator.go:90 | text that cannot start an occurrence is copied unchanged |
| Strings.Split | css/internal/go_generator.go:300 | splitting gives at least one part and no part holds the separator |
| Strings.JoinSplit | css/internal/go_generator.go:300 | joining the parts with the separator gives back the input |
| Strings.ToLowerAt | html/element.go:149 | lower-casing maps each character on its own |
| Strings.TitleFromKeepsHyphens | css/internal/go_generator.go:304-308 | title-casing neither adds nor removes hyphens |
| Strings.TitleOfLowerWord | css/internal/go_generator.go:29 | a lower-case word gets only its first letter upper-cased |

## Left out

- Configuration loading (YAML files, `LoadConfig`) is not modelled. Each operation that loads the configuration takes a `ConfigResult` parameter instead.
- `css/internal/tool/main.go`, the command-line generator, is not modelled.
- The global tracker and its read-write mutex are not modelled; the tracker is one `Tracker` object passed explicitly. Concurrency is not modelled.
- Floating point is not modelled. Rem multipliers are exact hundredths, and `%.2f` is computed on hundredths. The configured multipliers, such as 0.25, are exact in this form.
- Strings.Fixed2: prints `0.00` for zero. Go's `%.2f` prints `-0.00` for a negative-zero float, which arises from size 0 with a negative multiplier or from a negative size with multiplier 0.
- GoGenerator.GenerateUtilitiesCode: stops at the ordered list of generated function texts; the `text/template` rendering of `GenerateGoCode` into a Go file is not modelled.
- Go map iteration order is modelled as follows:
  - colours, shades and text sizes are given as sequences in iteration order;
  - when no colour name contains a hyphen, FullRulesColorOrder shows that the colour order cannot change the stylesheet;
  - a colour name with a hyphen can make two (colour, shade) pairs write the same selector; ColorOrderMatters gives such a table. Go's output then depends on map order, and the model fixes one of its possible outputs: the one for the given sequence order;
  - text-size selectors are `.text-` followed by a distinct map key, so they are distinct and ApplyAllOrderIndependent applies to them;
  - used classes are listed in an arbitrary order, chosen by `:|`.
- HtmlElement.AttrsHtml: renders attributes in ascending key order. Go's map order is unspecified, so output with two or more attributes is fixed to one of the orders Go may produce.
- `strings.Title`, `strings.ToUpper` and `strings.ToLower` are modelled for ASCII letters only.
- Strings are sequences of characters, not UTF-8 bytes. Comparing characters orders strings the same way Go's byte comparison of their UTF-8 encodings does.
- Of the roughly 170 class-name constructors in `css/utilities.go`, only representatives are modelled: P, M, BgRed, TextRed, Rounded, Block, Flex, W and Shadow. The rest share the generic `Prefixed` and `Keyword` shapes.
- Elements do not distinguish a nil attribute map from an empty one. Sharing one attribute map between element copies is not modelled: in the model each copy owns its attributes.
- HtmlElement.Element.AddChildren: the model treats each added child as an independent value. In Go, `*child` (html/element.go:61) is a shallow copy, so the copy's `Children` slice shares its storage with the original's.
- HtmlElement.Element.Render: the model's in-place append to the head is seen only by the tree it was rendered on. In Go it goes through a pointer into the shared children storage (html/element.go:81, 92-98), so every copy sharing that storage sees it. For example, after `outer := Div(page)`, `page.Render()` then `outer.Render()` leaves two `<style>` elements in `outer`'s head, where the model leaves one.
- The nil-receiver branch of `toHTML` is not modelled. Go stores children as `Element` values, not pointers, so that branch is never reached from `Render`.
- Go's type assertion on the exported stylesheet's `internal` field is modelled as a typed, possibly null reference.
- The constructor `html.Main` is named `HtmlContainer.MainElement`.
- GoGenerator.CodeGenerator.GenerateSizingFunctions: ignores its argument, as the source does.
- The generator emits no functions for layout wrap, typography decoration or border style, as the source does; their CSS rules are still generated.
- HtmlScenarios.RenderWithCSSInjection: states the exact page with the injected stylesheet as a function of the configuration. It does not evaluate which rules a particular configuration file holds.
