/** The public face of the engine (css/utilities.go): the class-usage
    tracker, the stylesheet wrapper, and the class-name constructors that
    record every name they hand out.

    The tracker is a global map behind a read-write mutex in the source; here
    it is one `Tracker` object passed explicitly to whatever uses it, and the
    locking is not modelled. */
module CssUtilities {
  import opened Strings
  import opened Sorting
  import opened CssConfig
  import CssGenerator

  /** The class names listed in `s`. */
  function Names(s: seq<string>): set<string>
  {
    set c | c in s
  }

  /** A list without repeats has as many entries as names. */
  lemma {:induction false} DistinctSize(s: seq<string>)
    requires Distinct(s)
    ensures |Names(s)| == |s|
  {
    if s != [] {
      var n := |s| - 1;
      assert Distinct(s[..n]);
      DistinctSize(s[..n]);
      assert Names(s) == Names(s[..n]) + {s[n]} by {
        assert s == s[..n] + [s[n]];
      }
      assert s[n] !in Names(s[..n]);
    }
  }

  class Tracker {
    /** The names recorded since the last reset. */
    var used: set<string>

    constructor ()
      ensures used == {}
    {
      used := {};
    }

    /** trackClass: record one name; recording it again changes nothing. */
    method TrackClass(className: string)
      modifies this
      ensures used == old(used) + {className}
    {
      used := used + {className};
    }

    /** GetUsedClasses: every recorded name exactly once, in no particular
        order. */
    method GetUsedClasses() returns (classes: seq<string>)
      ensures Names(classes) == used
      ensures Distinct(classes)
      ensures |classes| == |used|
    {
      classes := [];
      var rest := used;
      while rest != {}
        invariant rest <= used
        invariant Names(classes) == used - rest
        invariant Distinct(classes)
        decreases |rest|
      {
        var c :| c in rest;
        assert Names(classes + [c]) == Names(classes) + {c};
        classes := classes + [c];
        rest := rest - {c};
      }
      DistinctSize(classes);
    }

    /** ResetTracking: forget every recorded name. */
    method ResetTracking()
      modifies this
      ensures used == {}
    {
      used := {};
    }
  }

  /** The exported stylesheet: a wrapper around a possibly absent rule table. */
  class Stylesheet {
    var internal: CssGenerator.Stylesheet?

    constructor (internal: CssGenerator.Stylesheet?)
      ensures this.internal == internal
    {
      this.internal := internal;
    }

    /** Generate: the serialised table, or the empty text when there is none. */
    method Generate() returns (css: string)
      ensures internal == null ==> css == ""
      ensures internal != null ==> css == CssGenerator.Serialize(internal.rules)
    {
      if internal == null {
        return "";
      }
      css := internal.GenerateCSS();
    }
  }

  /** GenerateUtilities: wrap the full (or fallback) stylesheet. */
  method GenerateUtilities(loaded: ConfigResult) returns (s: Stylesheet)
    ensures s.internal != null
    ensures s.internal.rules == if loaded.LoadFailed? then CssGenerator.Fallback() else CssGenerator.FullRules(loaded.config)
  {
    var inner := CssGenerator.GenerateUtilities(loaded);
    s := new Stylesheet(inner);
  }

  /** GenerateMinimalCSS: tree-shake with the tracker's current contents. */
  method GenerateMinimalCSS(t: Tracker, loaded: ConfigResult) returns (s: Stylesheet)
    ensures s.internal != null
    ensures s.internal.rules == CssGenerator.MinimalRules(t.used, loaded)
  {
    var classes := t.GetUsedClasses();
    assert CssGenerator.AsSet(classes) == Names(classes);
    var inner := CssGenerator.GenerateMinimalCSS(classes, loaded);
    s := new Stylesheet(inner);
  }

  // ---------------------------------------------------------------------------
  // Class-name constructors
  // ---------------------------------------------------------------------------

  /** The name a prefixed constructor builds: `prefix-value`. */
  function PrefixedName(prefix: string, value: string): (name: string)
    ensures |name| == |prefix| + 1 + |value|
    ensures name[..|prefix|] == prefix && name[|prefix|] == '-' && name[|prefix| + 1..] == value
  {
    prefix + "-" + value
  }

  /** Two names built with one prefix are equal only for equal values. */
  lemma PrefixedNameInjective(prefix: string, a: string, b: string)
    requires PrefixedName(prefix, a) == PrefixedName(prefix, b)
    ensures a == b
  {
    assert a == PrefixedName(prefix, a)[|prefix| + 1..];
  }

  /** Distinct sizes give distinct padding classes. */
  lemma PaddingNameInjective(a: int, b: int)
    requires PrefixedName("p", IntToString(a)) == PrefixedName("p", IntToString(b))
    ensures a == b
  {
    PrefixedNameInjective("p", IntToString(a), IntToString(b));
    IntToStringInjective(a, b);
  }

  /** The generic constructor: build `prefix-value`, record it, return it. */
  method Prefixed(t: Tracker, prefix: string, value: string) returns (c: string)
    modifies t
    ensures c == PrefixedName(prefix, value)
    ensures t.used == old(t.used) + {c}
  {
    c := prefix + "-" + value;
    t.TrackClass(c);
  }

  /** A constructor for a fixed name such as `block` or `flex`. */
  method Keyword(t: Tracker, name: string) returns (c: string)
    modifies t
    ensures c == name
    ensures t.used == old(t.used) + {name}
  {
    t.TrackClass(name);
    c := name;
  }

  /** P(size): `p-` and the decimal of `size`. */
  method P(t: Tracker, size: int) returns (c: string)
    modifies t
    ensures c == "p-" + IntToString(size)
    ensures t.used == old(t.used) + {c}
  {
    c := Prefixed(t, "p", IntToString(size));
  }

  /** M(size): `m-` and the decimal of `size`. */
  method M(t: Tracker, size: int) returns (c: string)
    modifies t
    ensures c == "m-" + IntToString(size)
    ensures t.used == old(t.used) + {c}
  {
    c := Prefixed(t, "m", IntToString(size));
  }

  /** BgRed(shade): `bg-red-` and the decimal of `shade`. */
  method BgRed(t: Tracker, shade: int) returns (c: string)
    modifies t
    ensures c == "bg-red-" + IntToString(shade)
    ensures t.used == old(t.used) + {c}
  {
    c := Prefixed(t, "bg-red", IntToString(shade));
  }

  /** TextRed(shade): `text-red-` and the decimal of `shade`. */
  method TextRed(t: Tracker, shade: int) returns (c: string)
    modifies t
    ensures c == "text-red-" + IntToString(shade)
    ensures t.used == old(t.used) + {c}
  {
    c := Prefixed(t, "text-red", IntToString(shade));
  }

  /** Rounded(radius): `rounded-` and the decimal of `radius`. */
  method Rounded(t: Tracker, radius: int) returns (c: string)
    modifies t
    ensures c == "rounded-" + IntToString(radius)
    ensures t.used == old(t.used) + {c}
  {
    c := Prefixed(t, "rounded", IntToString(radius));
  }

  method Block(t: Tracker) returns (c: string)
    modifies t
    ensures c == "block" && t.used == old(t.used) + {"block"}
  {
    c := Keyword(t, "block");
  }

  method Flex(t: Tracker) returns (c: string)
    modifies t
    ensures c == "flex" && t.used == old(t.used) + {"flex"}
  {
    c := Keyword(t, "flex");
  }

  /** W(size): `w-` and the size name as given. */
  method W(t: Tracker, size: string) returns (c: string)
    modifies t
    ensures c == "w-" + size
    ensures t.used == old(t.used) + {c}
  {
    c := Prefixed(t, "w", size);
  }

  /** The name Shadow builds: `shadow` when no size, or an empty first size,
      is given, otherwise `shadow-` and the first size; later sizes are
      ignored. */
  function ShadowName(size: seq<string>): (name: string)
    ensures |size| == 0 || size[0] == "" ==> name == "shadow"
    ensures |size| > 0 && size[0] != "" ==> name == PrefixedName("shadow", size[0]) && name != "shadow"
  {
    if |size| > 0 && size[0] != "" then "shadow-" + size[0] else "shadow"
  }

  /** Sizes after the first never matter. */
  lemma ShadowIgnoresLaterSizes(first: string, more: seq<string>)
    ensures ShadowName([first] + more) == ShadowName([first])
  {
  }

  method Shadow(t: Tracker, size: seq<string>) returns (c: string)
    modifies t
    ensures c == ShadowName(size)
    ensures t.used == old(t.used) + {c}
  {
    if |size| > 0 && size[0] != "" {
      c := "shadow-" + size[0];
    } else {
      c := "shadow";
    }
    t.TrackClass(c);
  }

  // ---------------------------------------------------------------------------
  // Scenarios
  // ---------------------------------------------------------------------------

  /** Four different constructors record four names, listed once each. */
  method TrackingScenario() returns (classes: seq<string>)
    ensures |classes| == 4
    ensures Names(classes) == {"p-4", "bg-red-500", "flex", "rounded-8"}
  {
    var t := new Tracker();
    var a := P(t, 4);
    var b := BgRed(t, 500);
    var c := Flex(t);
    var d := Rounded(t, 8);
    ScenarioNames();
    assert t.used == {"p-4", "bg-red-500", "flex", "rounded-8"};
    classes := t.GetUsedClasses();
  }

  /** The four names TrackingScenario records, spelled out; they are distinct. */
  lemma ScenarioNames()
    ensures "p-" + IntToString(4) == "p-4" && "bg-red-" + IntToString(500) == "bg-red-500"
    ensures "rounded-" + IntToString(8) == "rounded-8"
    ensures |{"p-4", "bg-red-500", "flex", "rounded-8"}| == 4
  {
    assert IntToString(4) == "4" && IntToString(500) == "500" && IntToString(8) == "8";
  }

  /** After a reset nothing is listed, whatever was recorded before. */
  method ResetScenario(t: Tracker) returns (classes: seq<string>)
    modifies t
    ensures classes == []
  {
    var a := P(t, 2);
    t.ResetTracking();
    classes := t.GetUsedClasses();
  }

  /** A tracked class keeps its configured rule in the minimal stylesheet, and
      a configured class that was never tracked is dropped from it. */
  lemma TrackedRuleKept(used: set<string>, cfg: Config, name: string)
    requires name in used
    requires "." + name in CssGenerator.FullRules(cfg)
    ensures "." + name in CssGenerator.MinimalRules(used, Loaded(cfg))
    ensures CssGenerator.MinimalRules(used, Loaded(cfg))["." + name] == CssGenerator.FullRules(cfg)["." + name]
  {
    assert ("." + name)[1..] == name;
  }

  lemma UntrackedRuleDropped(used: set<string>, cfg: Config, name: string)
    requires used != {} && name !in used
    ensures "." + name !in CssGenerator.MinimalRules(used, Loaded(cfg))
  {
    assert ("." + name)[1..] == name;
  }
}
