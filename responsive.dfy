/** Responsive helpers: breakpoint selection and the class lists of the grid, text and spacing
  * wrappers. */
module Responsive {
  import opened Wrappers
  import opened Text
  import opened Seqs

  /** Per-breakpoint values; `None` is an undefined member. */
  datatype Breakpoints<T> = Breakpoints(sm: Option<T>, md: Option<T>, lg: Option<T>, xl: Option<T>)

  /** `getResponsiveValue` with the window width as a parameter (`None` when there is no window). */
  function ResponsiveValue<T>(v: Breakpoints<T>, base: T, width: Option<int>): (r: T)
    ensures width.None? ==> r == base
    ensures r == base || v.sm == Some(r) || v.md == Some(r) || v.lg == Some(r) || v.xl == Some(r)
  {
    if width.None? then base
    else
      var w := width.value;
      if w >= 1280 && v.xl.Some? then v.xl.value
      else if w >= 1024 && v.lg.Some? then v.lg.value
      else if w >= 768 && v.md.Some? then v.md.value
      else if w >= 640 && v.sm.Some? then v.sm.value
      else base
  }

  /** The breakpoints from the widest down, with their minimum widths. */
  function Thresholds<T>(v: Breakpoints<T>): seq<(int, Option<T>)>
  {
    [(1280, v.xl), (1024, v.lg), (768, v.md), (640, v.sm)]
  }

  /** Reference rule: the first defined candidate whose threshold the width reaches, else `base`. */
  function FirstFit<T>(candidates: seq<(int, Option<T>)>, base: T, width: int): T
  {
    if candidates == [] then base
    else if width >= candidates[0].0 && candidates[0].1.Some? then candidates[0].1.value
    else FirstFit(candidates[1..], base, width)
  }

  lemma ResponsiveValueIsFirstFit<T>(v: Breakpoints<T>, base: T, width: int)
    ensures ResponsiveValue(v, base, Some(width)) == FirstFit(Thresholds(v), base, width)
  {
    var t := Thresholds(v);
    var t1, t2, t3 := t[1..], t[1..][1..], t[1..][1..][1..];
    assert t3 == [(640, v.sm)] && t3[1..] == [];
    assert FirstFit(t3, base, width) == if width >= 640 && v.sm.Some? then v.sm.value else base;
    assert t2 == [(768, v.md), (640, v.sm)];
    assert FirstFit(t2, base, width) == if width >= 768 && v.md.Some? then v.md.value else FirstFit(t3, base, width);
    assert t1 == [(1024, v.lg), (768, v.md), (640, v.sm)];
    assert FirstFit(t1, base, width) == if width >= 1024 && v.lg.Some? then v.lg.value else FirstFit(t2, base, width);
  }

  /** The non-empty classes, `list.filter(Boolean)`. */
  function NonEmpty(classes: seq<string>): seq<string>
  {
    Filter(classes, c => c != "")
  }

  /** A filtered class list ending in a fixed class still ends with it once joined. */
  lemma JoinedEndsWith(classes: seq<string>, last: string)
    requires last != ""
    ensures EndsWith(Join(NonEmpty(classes + [last]), " "), last)
  {
    FilterConcat(classes, [last], c => c != "");
    assert Filter([last], c => c != "") == [last];
    var kept := NonEmpty(classes) + [last];
    JoinEndsWithLast(kept, " ");
  }

  function ColClass(prefix: string, n: Option<int>): string
  {
    if n.Some? && n.value != 0 then prefix + IntToString(n.value) else ""
  }

  function GapClass(prefix: string, g: Option<string>): string
  {
    if g.Some? && g.value != "" then prefix + g.value else ""
  }

  /** `ResponsiveGrid`'s column classes; a zero count is skipped like a missing one. */
  function GridCols(cols: Breakpoints<int>): string
  {
    Join(NonEmpty([ColClass("xl:grid-cols-", cols.xl), ColClass("lg:grid-cols-", cols.lg),
                   ColClass("md:grid-cols-", cols.md), ColClass("sm:grid-cols-", cols.sm)] + ["grid-cols-1"]), " ")
  }

  /** `ResponsiveGrid`'s gap classes, closed by the unprefixed gap of `sm` (default '4'). */
  function GridGap(gap: Breakpoints<string>): string
  {
    Join(NonEmpty([GapClass("xl:gap-", gap.xl), GapClass("lg:gap-", gap.lg),
                   GapClass("md:gap-", gap.md), GapClass("sm:gap-", gap.sm)] + [UnprefixedGap(gap)]), " ")
  }

  function UnprefixedGap(gap: Breakpoints<string>): (r: string)
    ensures gap.sm.Some? && gap.sm.value != "" ==> r == "gap-" + gap.sm.value
    ensures !(gap.sm.Some? && gap.sm.value != "") ==> r == "gap-4"
  {
    "gap-" + (if gap.sm.Some? && gap.sm.value != "" then gap.sm.value else "4")
  }

  /** The column classes always end with the mobile default 'grid-cols-1', and the gap classes with
    * the unprefixed gap. */
  lemma GridClassesEnd(cols: Breakpoints<int>, gap: Breakpoints<string>)
    ensures EndsWith(GridCols(cols), "grid-cols-1")
    ensures EndsWith(GridGap(gap), UnprefixedGap(gap))
  {
    JoinedEndsWith([ColClass("xl:grid-cols-", cols.xl), ColClass("lg:grid-cols-", cols.lg),
                    ColClass("md:grid-cols-", cols.md), ColClass("sm:grid-cols-", cols.sm)], "grid-cols-1");
    JoinedEndsWith([GapClass("xl:gap-", gap.xl), GapClass("lg:gap-", gap.lg),
                    GapClass("md:gap-", gap.md), GapClass("sm:gap-", gap.sm)], UnprefixedGap(gap));
  }

  /** `ResponsiveText`'s size classes, closed by the unprefixed `sm` size (default 'text-sm'). */
  function TextSizes(size: Breakpoints<string>): string
  {
    Join(NonEmpty([GapClass("xl:", size.xl), GapClass("lg:", size.lg), GapClass("md:", size.md),
                   GapClass("sm:", size.sm)] + [UnprefixedSize(size)]), " ")
  }

  function UnprefixedSize(size: Breakpoints<string>): (r: string)
    ensures size.sm.Some? && size.sm.value != "" ==> r == size.sm.value
    ensures !(size.sm.Some? && size.sm.value != "") ==> r == "text-sm"
  {
    if size.sm.Some? && size.sm.value != "" then size.sm.value else "text-sm"
  }

  lemma TextSizesEnd(size: Breakpoints<string>)
    ensures EndsWith(TextSizes(size), UnprefixedSize(size))
  {
    JoinedEndsWith([GapClass("xl:", size.xl), GapClass("lg:", size.lg), GapClass("md:", size.md),
                    GapClass("sm:", size.sm)], UnprefixedSize(size));
  }

  /** The margin codes of the four sides: top, bottom, left, right. */
  const MarginCodes: seq<string> := ["mt", "mb", "ml", "mr"]

  /** The five classes pushed for one side: four prefixed ones and the unprefixed `sm` one. */
  function SideClasses(code: string, b: Breakpoints<string>): seq<string>
  {
    [GapClass("xl:" + code + "-", b.xl), GapClass("lg:" + code + "-", b.lg),
     GapClass("md:" + code + "-", b.md), GapClass("sm:" + code + "-", b.sm),
     GapClass(code + "-", b.sm)]
  }

  /** The classes pushed for the sides given, in order. */
  function Pushed(sides: seq<(string, Option<Breakpoints<string>>)>): seq<string>
  {
    if sides == [] then [] else Block(sides[0]) + Pushed(sides[1..])
  }

  /** The classes pushed for one side: none when the side is not given. */
  function Block(side: (string, Option<Breakpoints<string>>)): seq<string>
  {
    if side.1.Some? then SideClasses(side.0, side.1.value) else []
  }

  datatype Spacing = Spacing(
    top: Option<Breakpoints<string>>, bottom: Option<Breakpoints<string>>,
    left: Option<Breakpoints<string>>, right: Option<Breakpoints<string>>)

  function Sides(sp: Spacing): seq<(string, Option<Breakpoints<string>>)>
  {
    [("mt", sp.top), ("mb", sp.bottom), ("ml", sp.left), ("mr", sp.right)]
  }

  /** `ResponsiveSpacing`'s class string, built by pushing each given side's classes in turn. */
  method SpacingClasses(sp: Spacing) returns (cls: string)
    ensures cls == Join(NonEmpty(Pushed(Sides(sp))), " ")
  {
    var classes: seq<string> := [];
    if sp.top.Some? {
      classes := classes + SideClasses("mt", sp.top.value);
    }
    assert classes == Block(("mt", sp.top));
    ghost var upToTop := classes;
    if sp.bottom.Some? {
      classes := classes + SideClasses("mb", sp.bottom.value);
    }
    assert classes == upToTop + Block(("mb", sp.bottom));
    ghost var upToBottom := classes;
    if sp.left.Some? {
      classes := classes + SideClasses("ml", sp.left.value);
    }
    assert classes == upToBottom + Block(("ml", sp.left));
    ghost var upToLeft := classes;
    if sp.right.Some? {
      classes := classes + SideClasses("mr", sp.right.value);
    }
    assert classes == upToLeft + Block(("mr", sp.right));
    PushedSides(sp);
    cls := Join(NonEmpty(classes), " ");
  }

  /** The four sides' blocks in order. */
  lemma PushedSides(sp: Spacing)
    ensures Pushed(Sides(sp)) ==
      ((Block(("mt", sp.top)) + Block(("mb", sp.bottom))) + Block(("ml", sp.left))) + Block(("mr", sp.right))
  {
    var s := Sides(sp);
    var s1, s2, s3 := s[1..], s[1..][1..], s[1..][1..][1..];
    assert s3 == [("mr", sp.right)] && s3[1..] == [];
    assert Pushed(s3) == Block(("mr", sp.right)) + [];
    assert s2 == [("ml", sp.left), ("mr", sp.right)];
    assert Pushed(s2) == Block(("ml", sp.left)) + Pushed(s3);
    assert s1 == [("mb", sp.bottom), ("ml", sp.left), ("mr", sp.right)];
    assert Pushed(s1) == Block(("mb", sp.bottom)) + Pushed(s2);
    assert Pushed(s) == Block(("mt", sp.top)) + Pushed(s1);
  }

  /** Some class is the unprefixed margin class of `code`. */
  predicate HasUnprefixed(classes: seq<string>, code: string)
  {
    exists k :: 0 <= k < |classes| && StartsWith(classes[k], code + "-")
  }

  /** Among one side's classes, only the last can start with a margin code and a dash, and only
    * with that side's own code. */
  lemma SideUnprefixed(code: string, b: Breakpoints<string>, c: string)
    requires code in MarginCodes && c in MarginCodes
    ensures HasUnprefixed(SideClasses(code, b), c) <==> code == c && b.sm.Some? && b.sm.value != ""
  {
    var cls := SideClasses(code, b);
    var a := c + "-";
    assert |a| == 3 && a[0] == 'm' && a[2] == '-';
    forall k | 0 <= k < 4 ensures !StartsWith(cls[k], a) {
      if cls[k] != "" {
        assert cls[k][0] == "xlms"[k];
        assert k == 2 ==> cls[k][1] == 'd';
      }
    }
    if code == c && b.sm.Some? && b.sm.value != "" {
      assert StartsWith(cls[4], a);
    }
    if code != c && cls[4] != "" {
      assert cls[4][1] == code[1];
    }
  }

  lemma HasUnprefixedConcat(a: seq<string>, b: seq<string>, c: string)
    ensures HasUnprefixed(a + b, c) <==> HasUnprefixed(a, c) || HasUnprefixed(b, c)
  {
    if HasUnprefixed(a + b, c) {
      var k :| 0 <= k < |a + b| && StartsWith((a + b)[k], c + "-");
      if k >= |a| {
        assert b[k - |a|] == (a + b)[k];
      }
    }
    if HasUnprefixed(a, c) {
      var k :| 0 <= k < |a| && StartsWith(a[k], c + "-");
      assert (a + b)[k] == a[k];
    }
    if HasUnprefixed(b, c) {
      var k :| 0 <= k < |b| && StartsWith(b[k], c + "-");
      assert (a + b)[|a| + k] == b[k];
    }
  }

  /** A side's unprefixed class is pushed exactly when a side with that code is given with a
    * non-empty `sm`. */
  lemma {:induction false} PushedUnprefixed(sides: seq<(string, Option<Breakpoints<string>>)>, c: string)
    requires forall i :: 0 <= i < |sides| ==> sides[i].0 in MarginCodes
    requires c in MarginCodes
    ensures HasUnprefixed(Pushed(sides), c) <==>
      exists i :: 0 <= i < |sides| && sides[i].0 == c && sides[i].1.Some? &&
        sides[i].1.value.sm.Some? && sides[i].1.value.sm.value != ""
  {
    if sides != [] {
      var head := Block(sides[0]);
      HasUnprefixedConcat(head, Pushed(sides[1..]), c);
      PushedUnprefixed(sides[1..], c);
      if sides[0].1.Some? {
        SideUnprefixed(sides[0].0, sides[0].1.value, c);
      }
      assert forall i :: 1 <= i < |sides| ==> sides[i] == sides[1..][i - 1];
    }
  }

  /** Dropping empty classes keeps the unprefixed ones. */
  lemma NonEmptyKeepsUnprefixed(classes: seq<string>, c: string)
    ensures HasUnprefixed(NonEmpty(classes), c) <==> HasUnprefixed(classes, c)
  {
    var kept := NonEmpty(classes);
    if HasUnprefixed(classes, c) {
      var k :| 0 <= k < |classes| && StartsWith(classes[k], c + "-");
      assert classes[k] in kept;
      var j :| 0 <= j < |kept| && kept[j] == classes[k];
    }
    if HasUnprefixed(kept, c) {
      var k :| 0 <= k < |kept| && StartsWith(kept[k], c + "-");
      assert kept[k] in classes;
      var j :| 0 <= j < |classes| && classes[j] == kept[k];
    }
  }

  /** The unprefixed margin class of a side (top 'mt', bottom 'mb', left 'ml', right 'mr') is
    * emitted exactly when that side is given with a non-empty `sm`. */
  lemma UnprefixedMarginIffSm(sp: Spacing, i: nat)
    requires i < 4
    ensures HasUnprefixed(NonEmpty(Pushed(Sides(sp))), MarginCodes[i]) <==>
      Sides(sp)[i].1.Some? && Sides(sp)[i].1.value.sm.Some? && Sides(sp)[i].1.value.sm.value != ""
  {
    var s := Sides(sp);
    var c := MarginCodes[i];
    assert forall j :: 0 <= j < 4 ==> s[j].0 == MarginCodes[j];
    assert forall j :: 0 <= j < 4 && s[j].0 == c ==> j == i;
    NonEmptyKeepsUnprefixed(Pushed(s), c);
    PushedUnprefixed(s, c);
  }
}
