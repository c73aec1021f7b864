/**
 * The Button's class list: its class-variance table (base classes, five axes with defaults,
 * thirteen compound rules), the mapping from Button props to table props, the size-to-text
 * class switch, and the final assembly, which appends the text-size class after the merged
 * variant classes.
 */
module Button {
  import opened Wrappers
  import opened Variants

  // ---------------------------------------------------------------------
  // The table
  // ---------------------------------------------------------------------

  const Base: Classes := [
    "inline-flex", "items-center", "justify-center", "whitespace-nowrap", "rounded-xl", "font-secondary",
    "font-bold", "transition-all", "duration-200", "text-center", "relative", "box-border", "h-fit",
    "disabled:opacity-60", "disabled:cursor-not-allowed", "cursor-pointer"
  ]

  // The class lists of the axes, value by value.
  const OutlinedLook: Classes := ["bg-transparent", "outline", "outline-[1.67px]", "outline-offset-[-1.67px]", "outline-current"]
  const TextLook: Classes := ["bg-transparent", "*:decoration-current"]
  const SmPadding: Classes := ["px-3.5", "py-2"]
  const MdPadding: Classes := ["px-3.5", "py-3"]
  const LgPadding: Classes := ["px-6", "py-3.5"]
  const XlPadding: Classes := ["px-7", "py-4.5"]
  const ConversionText: Classes := ["text-conversion-500"]
  const PrimaryText: Classes := ["text-primary-500"]
  const LeftIcon: Classes := ["flex-row"]
  const RightIcon: Classes := ["flex-row-reverse"]

  const VariantAxis: Axis := Axis("variant", map["solid" := [], "outlined" := OutlinedLook, "text" := TextLook])
  const SizeAxis: Axis := Axis("size", map["sm" := SmPadding, "md" := MdPadding, "lg" := LgPadding, "xl" := XlPadding])
  const ColorAxis: Axis := Axis("color", map["conversion" := ConversionText, "primary" := PrimaryText, "secondary" := PrimaryText])
  const IconPositionAxis: Axis := Axis("iconPosition", map["left" := LeftIcon, "right" := RightIcon])
  const WithIconAxis: Axis := Axis("withIcon", map["true" := [], "false" := []])

  const Defaults: map<string, string> := map[
    "variant" := "solid", "size" := "md", "color" := "conversion", "iconPosition" := "left", "withIcon" := "false"
  ]

  // The class lists of the compound rules, in declaration order.
  const SolidConversion: Classes := ["bg-conversion-500", "*:text-neutral-00", "hover:bg-conversion-900"]
  const SolidPrimary: Classes := [
    "relative", "bg-gradient-to-r", "to-primary-500", "from-highlight-300", "z-10", "*:text-neutral-00",
    "before:content-['']", "before:absolute", "before:inset-0", "before:bg-primary-700", "before:opacity-0",
    "before:transition-opacity", "before:duration-200", "before:z-[-1]", "before:rounded-lg",
    "hover:before:opacity-100"]
  const SolidSecondary: Classes := ["bg-secondary-300", "*:text-primary-500", "hover:bg-primary-700", "hover:*:text-neutral-00"]
  const OutlinedConversion: Classes := ["hover:bg-conversion-900", "hover:outline-conversion-900", "hover:*:text-neutral-00"]
  const OutlinedPrimary: Classes := ["hover:bg-primary-700", "hover:outline-primary-700", "hover:*:text-neutral-00"]
  const OutlinedSecondary: Classes := ["bg-secondary-300", "hover:bg-primary-700", "hover:outline-primary-700", "hover:*:text-neutral-00"]
  const TextConversion: Classes := ["hover:text-conversion-900"]
  const TextPrimary: Classes := ["hover:text-primary-700"]
  const SmallGap: Classes := ["gap-1.5"]
  const LargeGap: Classes := ["gap-2.5"]
  const TextUnderline: Classes := ["*:no-underline", "hover:underline"]
  const NoPadding: Classes := ["!p-0"]

  function VariantColorRule(variant: string, color: string, classes: Classes): Compound
  {
    Compound([Condition("variant", [variant]), Condition("color", [color])], classes)
  }

  const Rules: seq<Compound> := [
    VariantColorRule("solid", "conversion", SolidConversion),
    VariantColorRule("solid", "primary", SolidPrimary),
    VariantColorRule("solid", "secondary", SolidSecondary),
    VariantColorRule("outlined", "conversion", OutlinedConversion),
    VariantColorRule("outlined", "primary", OutlinedPrimary),
    VariantColorRule("outlined", "secondary", OutlinedSecondary),
    VariantColorRule("text", "conversion", TextConversion),
    VariantColorRule("text", "primary", TextPrimary),
    VariantColorRule("text", "secondary", TextPrimary),
    Compound([Condition("withIcon", ["true"]), Condition("size", ["sm", "md"])], SmallGap),
    Compound([Condition("withIcon", ["true"]), Condition("size", ["lg", "xl"])], LargeGap),
    Compound([Condition("variant", ["text"])], TextUnderline),
    Compound([Condition("variant", ["text"])], NoPadding)
  ]

  const ButtonVariants: Config :=
    Config(Base, [VariantAxis, SizeAxis, ColorAxis, IconPositionAxis, WithIconAxis], Defaults, Rules)

  const VariantNames: seq<string> := ["solid", "outlined", "text"]
  const ColorNames: seq<string> := ["conversion", "primary", "secondary"]

  // ---------------------------------------------------------------------
  // Props and assembly
  // ---------------------------------------------------------------------

  /** The Button props that shape its classes; `className` is given as its class tokens. */
  datatype ButtonProps = ButtonProps(
    variant: Option<string>, size: Option<string>, color: Option<string>, iconPosition: Option<string>,
    hasIcon: bool, className: Classes)

  /** `size` after its destructuring default. */
  function SizeProp(p: ButtonProps): string
  {
    match p.size
    case Some(s) => s
    case None => "md"
  }

  /** The props the Button hands to the table: undefined axes stay absent, `size` is always set, `withIcon` is whether an icon was given. */
  function TableProps(p: ButtonProps): (r: Props)
    ensures "size" in r && r["size"] == SizeProp(p)
    ensures "withIcon" in r && (r["withIcon"] == "true" <==> p.hasIcon) && (r["withIcon"] == "false" <==> !p.hasIcon)
    ensures ("variant" in r <==> p.variant.Some?) && (p.variant.Some? ==> r["variant"] == p.variant.value)
    ensures ("color" in r <==> p.color.Some?) && (p.color.Some? ==> r["color"] == p.color.value)
    ensures ("iconPosition" in r <==> p.iconPosition.Some?) && (p.iconPosition.Some? ==> r["iconPosition"] == p.iconPosition.value)
  {
    var m := map["size" := SizeProp(p), "withIcon" := if p.hasIcon then "true" else "false"];
    var m := if p.variant.Some? then m["variant" := p.variant.value] else m;
    var m := if p.color.Some? then m["color" := p.color.value] else m;
    if p.iconPosition.Some? then m["iconPosition" := p.iconPosition.value] else m
  }

  /** The Button's variant classes, before merging. */
  function VariantTokens(p: ButtonProps): Classes
  {
    Resolve(ButtonVariants, TableProps(p))
  }

  /** `getTextSizeClass`. */
  function TextSizeClass(size: string): string
  {
    if size == "xl" then "text-button-xl"
    else if size == "lg" then "text-button-lg"
    else if size == "sm" then "text-button-sm"
    else "text-button-md"
  }

  /**
   * The final class list: the variant classes and the caller's classes merged by `merge`
   * (class merging is not part of this model), then the text-size class for `size || "md"`.
   */
  function ClassName(p: ButtonProps, merge: Classes -> Classes): Classes
  {
    var size := SizeProp(p);
    merge(VariantTokens(p) + p.className) + [TextSizeClass(if size == "" then "md" else size)]
  }

  // ---------------------------------------------------------------------
  // The values the table sees
  // ---------------------------------------------------------------------

  function EffectiveVariant(p: ButtonProps): string
  {
    match p.variant
    case Some(v) => v
    case None => "solid"
  }

  function EffectiveColor(p: ButtonProps): string
  {
    match p.color
    case Some(c) => c
    case None => "conversion"
  }

  /** The values compound rules test are the given props, falling back to the table defaults. */
  lemma MergedValues(p: ButtonProps)
    ensures Merged(ButtonVariants, TableProps(p), "variant") == Some(EffectiveVariant(p))
    ensures Merged(ButtonVariants, TableProps(p), "color") == Some(EffectiveColor(p))
    ensures Merged(ButtonVariants, TableProps(p), "size") == Some(SizeProp(p))
    ensures Merged(ButtonVariants, TableProps(p), "withIcon") == Some(if p.hasIcon then "true" else "false")
  {
  }

  /** Every token any axis can select. */
  const AxisVocabulary: Classes := [
    "bg-transparent", "outline", "outline-[1.67px]", "outline-offset-[-1.67px]", "outline-current",
    "*:decoration-current", "px-3.5", "py-2", "py-3", "px-6", "py-3.5", "px-7", "py-4.5",
    "text-conversion-500", "text-primary-500", "flex-row", "flex-row-reverse"
  ]

  lemma AxisClassesFromVocabulary(props: Props, i: nat, t: string)
    requires i < |ButtonVariants.axes|
    requires t in AxisClasses(ButtonVariants, props, ButtonVariants.axes[i])
    ensures t in AxisVocabulary
  {
    var a := ButtonVariants.axes[i];
    var k := VariantKey(ButtonVariants, props, a.name).value;
    assert k in a.table && t in a.table[k];
  }

  /** The token occurs in compound rule `i` and in no other. */
  predicate OwnedBy(t: string, i: nat)
  {
    i < |Rules| && t in Rules[i].classes && forall j :: 0 <= j < |Rules| && t in Rules[j].classes ==> j == i
  }

  /** Tokens that only compound rules carry. */
  const RuleOnlyTokens: Classes := ["gap-1.5", "gap-2.5", "*:no-underline", "hover:underline", "!p-0", "*:underline"]

  lemma RuleOnlyTokensNotFixed(t: string)
    requires t in RuleOnlyTokens
    ensures t !in Base && t !in AxisVocabulary
  {
  }

  /** A token that no base or axis class carries and only rule `i` has is resolved exactly when rule `i` applies. */
  lemma OwnedToken(p: ButtonProps, t: string, i: nat)
    requires t in RuleOnlyTokens && OwnedBy(t, i)
    ensures t in VariantTokens(p) <==> Applies(ButtonVariants, TableProps(p), Rules[i])
  {
    RuleOnlyTokensNotFixed(t);
    var props := TableProps(p);
    ResolveMembers(ButtonVariants, props, t);
    forall j | 0 <= j < |ButtonVariants.axes| ensures t !in AxisClasses(ButtonVariants, props, ButtonVariants.axes[j]) {
      if t in AxisClasses(ButtonVariants, props, ButtonVariants.axes[j]) {
        AxisClassesFromVocabulary(props, j, t);
      }
    }
  }

  /** Rule 9 alone carries `gap-1.5` */
  lemma SmallGapOwnership()
    ensures OwnedBy("gap-1.5", 9)
  {
  }

  /** Rule 10 alone carries `gap-2.5` */
  lemma LargeGapOwnership()
    ensures OwnedBy("gap-2.5", 10)
  {
  }

  /** Rule 11 alone carries `*:no-underline` */
  lemma NoUnderlineOwnership()
    ensures OwnedBy("*:no-underline", 11)
  {
  }

  /** Rule 11 alone carries `hover:underline` */
  lemma HoverUnderlineOwnership()
    ensures OwnedBy("hover:underline", 11)
  {
  }

  /** Rule 12 alone carries `!p-0` */
  lemma PaddingOwnership()
    ensures OwnedBy("!p-0", 12)
  {
  }

  /** No rule carries `*:underline`. */
  lemma PlainUnderlineNowhere()
    ensures forall j :: 0 <= j < |Rules| ==> "*:underline" !in Rules[j].classes
  {
  }

  /** A rule on `withIcon` and `size` applies exactly when an icon is given and the size is allowed. */
  lemma GapRuleApplies(p: ButtonProps, i: nat)
    requires i == 9 || i == 10
    ensures Applies(ButtonVariants, TableProps(p), Rules[i]) <==> p.hasIcon && SizeProp(p) in Rules[i].conditions[1].allowed
  {
    MergedValues(p);
    var props := TableProps(p);
    assert Rules[i].conditions == [Condition("withIcon", ["true"]), Condition("size", Rules[i].conditions[1].allowed)];
    assert Satisfies(ButtonVariants, props, Rules[i].conditions[0]) <==> p.hasIcon;
  }

  lemma SmallGapRule(p: ButtonProps)
    ensures "gap-1.5" in VariantTokens(p) <==> p.hasIcon && (SizeProp(p) == "sm" || SizeProp(p) == "md")
  {
    SmallGapOwnership();
    OwnedToken(p, "gap-1.5", 9);
    GapRuleApplies(p, 9);
  }

  lemma LargeGapRule(p: ButtonProps)
    ensures "gap-2.5" in VariantTokens(p) <==> p.hasIcon && (SizeProp(p) == "lg" || SizeProp(p) == "xl")
  {
    LargeGapOwnership();
    OwnedToken(p, "gap-2.5", 10);
    GapRuleApplies(p, 10);
  }

  /** The icon gap is `gap-1.5` for sm and md and `gap-2.5` for lg and xl, and neither appears without an icon. */
  lemma IconGap(p: ButtonProps)
    ensures "gap-1.5" in VariantTokens(p) <==> p.hasIcon && (SizeProp(p) == "sm" || SizeProp(p) == "md")
    ensures "gap-2.5" in VariantTokens(p) <==> p.hasIcon && (SizeProp(p) == "lg" || SizeProp(p) == "xl")
  {
    SmallGapRule(p);
    LargeGapRule(p);
  }

  /** A rule on `variant` alone applies exactly when the effective variant is allowed. */
  lemma TextRuleApplies(p: ButtonProps, i: nat)
    requires i == 11 || i == 12
    ensures Applies(ButtonVariants, TableProps(p), Rules[i]) <==> EffectiveVariant(p) == "text"
  {
    MergedValues(p);
    var props := TableProps(p);
    assert Rules[i].conditions == [Condition("variant", ["text"])];
    assert Satisfies(ButtonVariants, props, Rules[i].conditions[0]) <==> EffectiveVariant(p) in ["text"];
  }

  /** The text variant, whatever the color or size, gets `*:no-underline hover:underline` and `!p-0`; no other variant gets them. */
  lemma TextVariantRules(p: ButtonProps)
    ensures "*:no-underline" in VariantTokens(p) <==> EffectiveVariant(p) == "text"
    ensures "hover:underline" in VariantTokens(p) <==> EffectiveVariant(p) == "text"
    ensures "!p-0" in VariantTokens(p) <==> EffectiveVariant(p) == "text"
  {
    NoUnderlineOwnership();
    HoverUnderlineOwnership();
    PaddingOwnership();
    OwnedToken(p, "*:no-underline", 11);
    OwnedToken(p, "hover:underline", 11);
    OwnedToken(p, "!p-0", 12);
    TextRuleApplies(p, 11);
    TextRuleApplies(p, 12);
  }

  /** No props produce `*:underline`: the text variant's underline classes are `*:no-underline` and `hover:underline`. */
  lemma NoPlainUnderline(p: ButtonProps)
    ensures "*:underline" !in VariantTokens(p)
  {
    var props := TableProps(p);
    PlainUnderlineNowhere();
    RuleOnlyTokensNotFixed("*:underline");
    ResolveMembers(ButtonVariants, props, "*:underline");
    forall j | 0 <= j < |ButtonVariants.axes| ensures "*:underline" !in AxisClasses(ButtonVariants, props, ButtonVariants.axes[j]) {
      if "*:underline" in AxisClasses(ButtonVariants, props, ButtonVariants.axes[j]) {
        AxisClassesFromVocabulary(props, j, "*:underline");
      }
    }
  }

  // ---------------------------------------------------------------------
  // The text-size class
  // ---------------------------------------------------------------------

  /**
   * Whatever the merge does, the final class list ends with the text-size class: `text-button-`
   * and the size for xl, lg, sm and md, `text-button-md` for any other size, and for no size.
   */
  lemma TextSizeLast(p: ButtonProps, merge: Classes -> Classes)
    ensures var r := ClassName(p, merge);
      && |r| > 0
      && r[|r| - 1] == (if SizeProp(p) in ["xl", "lg", "sm", "md"] then "text-button-" + SizeProp(p) else "text-button-md")
    ensures p.size.None? ==> ClassName(p, merge)[|ClassName(p, merge)| - 1] == "text-button-md"
  {
    var size := SizeProp(p);
    if size == "xl" {
      assert "text-button-" + size == "text-button-xl";
    } else if size == "lg" {
      assert "text-button-" + size == "text-button-lg";
    } else if size == "sm" {
      assert "text-button-" + size == "text-button-sm";
    } else if size == "md" {
      assert "text-button-" + size == "text-button-md";
    }
  }

  // ---------------------------------------------------------------------
  // Axis classes
  // ---------------------------------------------------------------------

  /** The value an axis looks up: the prop when given and non-empty, else the default. */
  function Selected(prop: Option<string>, default: string): string
  {
    if prop.Some? && prop.value != "" then prop.value else default
  }

  /** The padding of each size; a Button without a size is medium. */
  lemma SizePadding(p: ButtonProps)
    ensures p.size == Some("sm") ==> "px-3.5" in VariantTokens(p) && "py-2" in VariantTokens(p)
    ensures p.size.None? || p.size == Some("md") ==> "px-3.5" in VariantTokens(p) && "py-3" in VariantTokens(p)
    ensures p.size == Some("lg") ==> "px-6" in VariantTokens(p) && "py-3.5" in VariantTokens(p)
    ensures p.size == Some("xl") ==> "px-7" in VariantTokens(p) && "py-4.5" in VariantTokens(p)
  {
    SizeAxisClasses(p);
    var props := TableProps(p);
    if p.size == Some("sm") {
      AxisTokenResolved(ButtonVariants, props, 1, "px-3.5");
      AxisTokenResolved(ButtonVariants, props, 1, "py-2");
    } else if p.size.None? || p.size == Some("md") {
      AxisTokenResolved(ButtonVariants, props, 1, "px-3.5");
      AxisTokenResolved(ButtonVariants, props, 1, "py-3");
    } else if p.size == Some("lg") {
      AxisTokenResolved(ButtonVariants, props, 1, "px-6");
      AxisTokenResolved(ButtonVariants, props, 1, "py-3.5");
    } else if p.size == Some("xl") {
      AxisTokenResolved(ButtonVariants, props, 1, "px-7");
      AxisTokenResolved(ButtonVariants, props, 1, "py-4.5");
    }
  }

  /** The classes the variant axis selects for the given props. */
  lemma VariantAxisClasses(p: ButtonProps)
    ensures var v := Selected(p.variant, "solid");
      AxisClasses(ButtonVariants, TableProps(p), ButtonVariants.axes[0]) == if v in VariantAxis.table then VariantAxis.table[v] else []
  {
    assert VariantKey(ButtonVariants, TableProps(p), "variant") == Some(Selected(p.variant, "solid"));
  }

  /** The classes the size axis selects for the given props. */
  lemma SizeAxisClasses(p: ButtonProps)
    ensures var z := Selected(p.size, "md");
      AxisClasses(ButtonVariants, TableProps(p), ButtonVariants.axes[1]) == if z in SizeAxis.table then SizeAxis.table[z] else []
  {
    assert VariantKey(ButtonVariants, TableProps(p), "size") == Some(Selected(p.size, "md"));
  }

  /** The classes the color axis selects for the given props. */
  lemma ColorAxisClasses(p: ButtonProps)
    ensures var c := Selected(p.color, "conversion");
      AxisClasses(ButtonVariants, TableProps(p), ButtonVariants.axes[2]) == if c in ColorAxis.table then ColorAxis.table[c] else []
  {
    assert VariantKey(ButtonVariants, TableProps(p), "color") == Some(Selected(p.color, "conversion"));
  }

  /** The classes the icon-position axis selects for the given props. */
  lemma IconPositionAxisClasses(p: ButtonProps)
    ensures var o := Selected(p.iconPosition, "left");
      AxisClasses(ButtonVariants, TableProps(p), ButtonVariants.axes[3])
      == if o in IconPositionAxis.table then IconPositionAxis.table[o] else []
  {
    assert VariantKey(ButtonVariants, TableProps(p), "iconPosition") == Some(Selected(p.iconPosition, "left"));
  }

  /** The outlined variant carries its outline. */
  lemma OutlinedClasses(p: ButtonProps)
    ensures p.variant == Some("outlined") ==> "outline-current" in VariantTokens(p)
  {
    if p.variant == Some("outlined") {
      VariantAxisClasses(p);
      assert "outline-current" in OutlinedLook;
      AxisTokenResolved(ButtonVariants, TableProps(p), 0, "outline-current");
    }
  }

  /** Conversion, the default, colors the text with the conversion color; primary and secondary with the primary color. */
  lemma TextColor(p: ButtonProps)
    ensures p.color.None? || p.color == Some("conversion") ==> "text-conversion-500" in VariantTokens(p)
    ensures p.color == Some("primary") || p.color == Some("secondary") ==> "text-primary-500" in VariantTokens(p)
  {
    ColorAxisClasses(p);
    if p.color.None? || p.color == Some("conversion") {
      AxisTokenResolved(ButtonVariants, TableProps(p), 2, "text-conversion-500");
    } else if p.color == Some("primary") || p.color == Some("secondary") {
      AxisTokenResolved(ButtonVariants, TableProps(p), 2, "text-primary-500");
    }
  }

  /** `iconPosition=right` reverses the row; left or no position keeps it. */
  lemma IconSide(p: ButtonProps)
    ensures p.iconPosition == Some("right") ==> "flex-row-reverse" in VariantTokens(p)
    ensures p.iconPosition.None? || p.iconPosition == Some("left") ==> "flex-row" in VariantTokens(p)
  {
    IconPositionAxisClasses(p);
    if p.iconPosition == Some("right") {
      AxisTokenResolved(ButtonVariants, TableProps(p), 3, "flex-row-reverse");
    } else if p.iconPosition.None? || p.iconPosition == Some("left") {
      AxisTokenResolved(ButtonVariants, TableProps(p), 3, "flex-row");
    }
  }

  // ---------------------------------------------------------------------
  // Variant-by-color rules
  // ---------------------------------------------------------------------

  /** The first nine rules are the variant-by-color grid, variant-major. */
  lemma GridRule(j: nat)
    requires j < 9
    ensures Rules[j].conditions == [Condition("variant", [VariantNames[j / 3]]), Condition("color", [ColorNames[j % 3]])]
  {
    if j == 0 {} else if j == 1 {} else if j == 2 {} else if j == 3 {} else if j == 4 {}
    else if j == 5 {} else if j == 6 {} else if j == 7 {} else {}
  }

  /** Grid rule j applies exactly when the variant and color the rules see are row j / 3 and column j % 3. */
  lemma GridRuleApplies(p: ButtonProps, j: nat)
    requires j < 9
    ensures Applies(ButtonVariants, TableProps(p), Rules[j])
        <==> EffectiveVariant(p) == VariantNames[j / 3] && EffectiveColor(p) == ColorNames[j % 3]
  {
    GridRule(j);
    MergedValues(p);
    var props := TableProps(p);
    var conds := Rules[j].conditions;
    assert Satisfies(ButtonVariants, props, conds[0]) <==> EffectiveVariant(p) in [VariantNames[j / 3]];
    assert Satisfies(ButtonVariants, props, conds[1]) <==> EffectiveColor(p) in [ColorNames[j % 3]];
  }

  /** For every typed variant and color exactly one of the nine variant-by-color rules applies. */
  lemma OneGridRule(p: ButtonProps)
    requires EffectiveVariant(p) in VariantNames && EffectiveColor(p) in ColorNames
    ensures exists i :: 0 <= i < 9 && Applies(ButtonVariants, TableProps(p), Rules[i])
    ensures forall i, j ::
              (0 <= i < 9 && 0 <= j < 9 && Applies(ButtonVariants, TableProps(p), Rules[i])
               && Applies(ButtonVariants, TableProps(p), Rules[j])) ==> i == j
  {
    var vi :| 0 <= vi < 3 && VariantNames[vi] == EffectiveVariant(p);
    var ci :| 0 <= ci < 3 && ColorNames[ci] == EffectiveColor(p);
    var i := 3 * vi + ci;
    assert i / 3 == vi && i % 3 == ci;
    GridRuleApplies(p, i);
    forall a, b | 0 <= a < 9 && 0 <= b < 9 && Applies(ButtonVariants, TableProps(p), Rules[a])
                   && Applies(ButtonVariants, TableProps(p), Rules[b])
      ensures a == b
    {
      GridRuleApplies(p, a);
      GridRuleApplies(p, b);
      assert a / 3 == b / 3 && a % 3 == b % 3;
    }
  }

  /** An untyped variant or color matches none of the grid rules. */
  lemma NoGridRule(p: ButtonProps)
    requires EffectiveVariant(p) !in VariantNames || EffectiveColor(p) !in ColorNames
    ensures forall i :: 0 <= i < 9 ==> !Applies(ButtonVariants, TableProps(p), Rules[i])
  {
    forall i | 0 <= i < 9 ensures !Applies(ButtonVariants, TableProps(p), Rules[i]) {
      GridRuleApplies(p, i);
    }
  }

  /** The classes of an applying rule are in the Button's class list. */
  lemma RuleClassesPresent(p: ButtonProps, i: nat)
    requires i < |Rules| && Applies(ButtonVariants, TableProps(p), Rules[i])
    ensures forall t :: t in Rules[i].classes ==> t in VariantTokens(p)
  {
    forall t | t in Rules[i].classes ensures t in VariantTokens(p) {
      ResolveMembers(ButtonVariants, TableProps(p), t);
    }
  }

  /** A bare or solid-conversion Button has the conversion background; secondary solid or outlined has the secondary background. */
  lemma Backgrounds(p: ButtonProps)
    ensures EffectiveVariant(p) == "solid" && EffectiveColor(p) == "conversion" ==> "bg-conversion-500" in VariantTokens(p)
    ensures (EffectiveVariant(p) == "solid" || EffectiveVariant(p) == "outlined") && EffectiveColor(p) == "secondary"
            ==> "bg-secondary-300" in VariantTokens(p)
  {
    if EffectiveVariant(p) == "solid" && EffectiveColor(p) == "conversion" {
      GridRuleApplies(p, 0);
      RuleClassesPresent(p, 0);
      assert "bg-conversion-500" in Rules[0].classes;
    }
    if EffectiveVariant(p) == "solid" && EffectiveColor(p) == "secondary" {
      GridRuleApplies(p, 2);
      RuleClassesPresent(p, 2);
      assert "bg-secondary-300" in Rules[2].classes;
    }
    if EffectiveVariant(p) == "outlined" && EffectiveColor(p) == "secondary" {
      GridRuleApplies(p, 5);
      RuleClassesPresent(p, 5);
      assert "bg-secondary-300" in Rules[5].classes;
    }
  }

  /** A Button with no props: conversion background, medium padding and text size, icon on the left, no gap. */
  lemma BareButton(merge: Classes -> Classes)
    ensures var p := ButtonProps(None, None, None, None, false, []);
      && "bg-conversion-500" in VariantTokens(p)
      && "py-3" in VariantTokens(p) && "flex-row" in VariantTokens(p)
      && "gap-1.5" !in VariantTokens(p) && "gap-2.5" !in VariantTokens(p)
      && ClassName(p, merge)[|ClassName(p, merge)| - 1] == "text-button-md"
  {
    var p := ButtonProps(None, None, None, None, false, []);
    Backgrounds(p);
    SizePadding(p);
    IconSide(p);
    IconGap(p);
    TextSizeLast(p, merge);
  }

  /** For the text variant `!p-0` follows the size's padding classes, so it is the later word on padding. */
  lemma TextPaddingFollowsSize(p: ButtonProps, pad: string)
    requires EffectiveVariant(p) == "text"
    requires Selected(p.size, "md") in SizeAxis.table && pad in SizeAxis.table[Selected(p.size, "md")]
    ensures exists a, b :: 0 <= a < b < |VariantTokens(p)| && VariantTokens(p)[a] == pad && VariantTokens(p)[b] == "!p-0"
  {
    var props := TableProps(p);
    var z := Selected(p.size, "md");
    assert VariantKey(ButtonVariants, props, "size") == Some(z);
    assert pad in AxisClasses(ButtonVariants, props, ButtonVariants.axes[1]);
    AxisTokenPresent(ButtonVariants, props, 1, pad);
    TextRuleApplies(p, 12);
    PaddingOwnership();
    CompoundTokenPresent(ButtonVariants, props, 12, "!p-0");
    AxisBeforeCompound(ButtonVariants, props, pad, "!p-0");
    var r := Resolve(ButtonVariants, props);
    var a, b :| 0 <= a < b < |r| && r[a] == pad && r[b] == "!p-0";
    assert VariantTokens(p) == r;
  }
}
