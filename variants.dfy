/**
 * A class-variance table as the Button resolves it: a base class list, named axes whose value
 * selects a class list, defaults for the axes, and compound rules whose class lists are added
 * when all their conditions hold. Class strings are modelled by the space-separated class
 * tokens they contain, so joining class strings with spaces is concatenation of token lists and
 * an empty class string is the empty list.
 */
module Variants {
  import opened Wrappers

  type Classes = seq<string>

  /** One axis: its name and the classes each of its values selects. */
  datatype Axis = Axis(name: string, table: map<string, Classes>)

  /** A compound condition: the merged value of the axis must be one of `allowed`. */
  datatype Condition = Condition(axis: string, allowed: seq<string>)

  datatype Compound = Compound(conditions: seq<Condition>, classes: Classes)

  datatype Config = Config(base: Classes, axes: seq<Axis>, defaults: map<string, string>, compounds: seq<Compound>)

  /** The props passed to the resolver; an axis missing from the map is an undefined prop. */
  type Props = map<string, string>

  /** The value that selects an axis' classes: a non-empty prop, else the axis default. */
  function VariantKey(c: Config, p: Props, axis: string): Option<string>
  {
    if axis in p && p[axis] != "" then Some(p[axis])
    else if axis in c.defaults then Some(c.defaults[axis])
    else None
  }

  /** The classes one axis contributes; a value the table does not list contributes none. */
  function AxisClasses(c: Config, p: Props, a: Axis): Classes
  {
    match VariantKey(c, p, a.name)
    case Some(k) => if k in a.table then a.table[k] else []
    case None => []
  }

  /** The classes of the axes, in axis order. */
  function AxisTokens(c: Config, p: Props, axes: seq<Axis>): Classes
    decreases |axes|
  {
    if axes == [] then []
    else AxisTokens(c, p, axes[..|axes| - 1]) + AxisClasses(c, p, axes[|axes| - 1])
  }

  /** A token is among the axis classes exactly when some axis selects it. */
  lemma {:induction false} AxisTokensMembers(c: Config, p: Props, axes: seq<Axis>)
    ensures forall t :: t in AxisTokens(c, p, axes) <==> exists i :: 0 <= i < |axes| && t in AxisClasses(c, p, axes[i])
    decreases |axes|
  {
    if axes != [] {
      var init := axes[..|axes| - 1];
      AxisTokensMembers(c, p, init);
      assert forall i :: 0 <= i < |init| ==> init[i] == axes[i];
    }
  }

  /** The value compound rules test: the prop when defined, else the default. */
  function Merged(c: Config, p: Props, axis: string): Option<string>
  {
    if axis in p then Some(p[axis])
    else if axis in c.defaults then Some(c.defaults[axis])
    else None
  }

  /**
   * The axis key and the compound-rule value agree except on an empty prop: an empty prop
   * selects the default's axis classes, while compound rules still see the empty value.
   */
  lemma KeyVersusMerged(c: Config, p: Props, axis: string)
    ensures !(axis in p && p[axis] == "") ==> VariantKey(c, p, axis) == Merged(c, p, axis)
    ensures axis in p && p[axis] == "" ==>
      Merged(c, p, axis) == Some("") &&
      VariantKey(c, p, axis) == (if axis in c.defaults then Some(c.defaults[axis]) else None)
  {
  }

  predicate Satisfies(c: Config, p: Props, cond: Condition)
  {
    match Merged(c, p, cond.axis)
    case Some(v) => v in cond.allowed
    case None => false
  }

  /** A compound rule applies when every one of its conditions holds. */
  predicate Applies(c: Config, p: Props, rule: Compound)
  {
    forall k :: 0 <= k < |rule.conditions| ==> Satisfies(c, p, rule.conditions[k])
  }

  /** The classes of the applying compound rules, in declaration order. */
  function CompoundTokens(c: Config, p: Props, rules: seq<Compound>): (r: Classes)
    ensures forall t :: t in r <==> exists i :: 0 <= i < |rules| && Applies(c, p, rules[i]) && t in rules[i].classes
    decreases |rules|
  {
    if rules == [] then []
    else
      var init := rules[..|rules| - 1];
      var last := rules[|rules| - 1];
      var r := CompoundTokens(c, p, init) + (if Applies(c, p, last) then last.classes else []);
      assert forall i :: 0 <= i < |init| ==> init[i] == rules[i];
      r
  }

  /** The resolver's class list: base, then axis classes, then compound classes. */
  function Resolve(c: Config, p: Props): Classes
  {
    c.base + AxisTokens(c, p, c.axes) + CompoundTokens(c, p, c.compounds)
  }

  /** A token is resolved exactly when it is a base token, a token of an axis' selected classes, or a token of an applying rule. */
  lemma ResolveMembers(c: Config, p: Props, t: string)
    ensures t in Resolve(c, p) <==>
      || t in c.base
      || (exists i :: 0 <= i < |c.axes| && t in AxisClasses(c, p, c.axes[i]))
      || (exists i :: 0 <= i < |c.compounds| && Applies(c, p, c.compounds[i]) && t in c.compounds[i].classes)
  {
    var b, a, k := c.base, AxisTokens(c, p, c.axes), CompoundTokens(c, p, c.compounds);
    AxisTokensMembers(c, p, c.axes);
    assert Resolve(c, p) == b + a + k;
    assert t in b + a + k <==> t in b || t in a || t in k;
  }

  /** The compound classes of a split rule list are those of its two parts, in order. */
  lemma {:induction false} CompoundTokensAppend(c: Config, p: Props, xs: seq<Compound>, ys: seq<Compound>)
    ensures CompoundTokens(c, p, xs + ys) == CompoundTokens(c, p, xs) + CompoundTokens(c, p, ys)
    decreases |ys|
  {
    if ys == [] {
      assert xs + ys == xs;
    } else {
      var n := |ys| - 1;
      assert (xs + ys)[..|xs + ys| - 1] == xs + ys[..n];
      assert (xs + ys)[|xs + ys| - 1] == ys[n];
      CompoundTokensAppend(c, p, xs, ys[..n]);
    }
  }

  /** A position of an element of a sequence. */
  lemma PositionOf(s: Classes, x: string) returns (k: nat)
    requires x in s
    ensures k < |s| && s[k] == x
  {
    k :| k < |s| && s[k] == x;
  }

  /** An element of the first part of a concatenation has a position before any element of the second. */
  lemma OrderedIn(f: Classes, g: Classes, x: string, y: string)
    requires x in f && y in g
    ensures exists a, b :: 0 <= a < b < |f + g| && (f + g)[a] == x && (f + g)[b] == y
  {
    var a := PositionOf(f, x);
    var b := PositionOf(g, y);
    assert (f + g)[a] == x && (f + g)[|f| + b] == y;
  }

  lemma RuleTokenPresent(c: Config, p: Props, rules: seq<Compound>, i: nat, t: string)
    requires i < |rules| && Applies(c, p, rules[i]) && t in rules[i].classes
    ensures t in CompoundTokens(c, p, rules)
  {
  }

  /**
   * Rules contribute in declaration order: when rules i < j both apply, every token of rule i
   * has a position before every token of rule j, so a later rule's classes follow an earlier one's.
   */
  lemma CompoundOrder(c: Config, p: Props, rules: seq<Compound>, i: nat, j: nat, x: string, y: string)
    requires i < j < |rules|
    requires Applies(c, p, rules[i]) && Applies(c, p, rules[j])
    requires x in rules[i].classes && y in rules[j].classes
    ensures exists a, b ::
              0 <= a < b < |CompoundTokens(c, p, rules)| && CompoundTokens(c, p, rules)[a] == x && CompoundTokens(c, p, rules)[b] == y
  {
    var front, back := rules[..j], rules[j..];
    assert rules == front + back;
    CompoundTokensAppend(c, p, front, back);
    assert front[i] == rules[i] && back[0] == rules[j];
    RuleTokenPresent(c, p, front, i, x);
    RuleTokenPresent(c, p, back, 0, y);
    OrderedIn(CompoundTokens(c, p, front), CompoundTokens(c, p, back), x, y);
  }

  lemma AxisTokenPresent(c: Config, p: Props, i: nat, t: string)
    requires i < |c.axes| && t in AxisClasses(c, p, c.axes[i])
    ensures t in AxisTokens(c, p, c.axes)
  {
    AxisTokensMembers(c, p, c.axes);
  }

  /** A token of the classes an axis selects is resolved. */
  lemma AxisTokenResolved(c: Config, p: Props, i: nat, t: string)
    requires i < |c.axes| && t in AxisClasses(c, p, c.axes[i])
    ensures t in Resolve(c, p)
  {
    ResolveMembers(c, p, t);
  }

  /** A token of an applying rule is resolved. */
  lemma RuleTokenResolved(c: Config, p: Props, i: nat, t: string)
    requires i < |c.compounds| && Applies(c, p, c.compounds[i]) && t in c.compounds[i].classes
    ensures t in Resolve(c, p)
  {
    ResolveMembers(c, p, t);
  }

  lemma CompoundTokenPresent(c: Config, p: Props, i: nat, t: string)
    requires i < |c.compounds| && Applies(c, p, c.compounds[i]) && t in c.compounds[i].classes
    ensures t in CompoundTokens(c, p, c.compounds)
  {
  }

  lemma AxisTokensSnoc(c: Config, p: Props, axes: seq<Axis>)
    requires axes != []
    ensures AxisTokens(c, p, axes) == AxisTokens(c, p, axes[..|axes| - 1]) + AxisClasses(c, p, axes[|axes| - 1])
  {
  }

  /** The axis classes of a split axis list are those of its two parts, in order. */
  lemma {:induction false} AxisTokensAppend(c: Config, p: Props, xs: seq<Axis>, ys: seq<Axis>)
    ensures AxisTokens(c, p, xs + ys) == AxisTokens(c, p, xs) + AxisTokens(c, p, ys)
    decreases |ys|
  {
    if ys == [] {
      assert xs + ys == xs;
    } else {
      var n, zs := |ys| - 1, xs + ys;
      assert zs[..|zs| - 1] == xs + ys[..n];
      assert zs[|zs| - 1] == ys[n];
      AxisTokensSnoc(c, p, zs);
      AxisTokensSnoc(c, p, ys);
      AxisTokensAppend(c, p, xs, ys[..n]);
    }
  }

  lemma AxisClassesIn(c: Config, p: Props, axes: seq<Axis>, i: nat, t: string)
    requires i < |axes| && t in AxisClasses(c, p, axes[i])
    ensures t in AxisTokens(c, p, axes)
  {
    AxisTokensMembers(c, p, axes);
  }

  /**
   * Axes contribute in axis order: every token axis i selects has a position before every
   * token a later axis j selects.
   */
  lemma AxisOrder(c: Config, p: Props, axes: seq<Axis>, i: nat, j: nat, x: string, y: string)
    requires i < j < |axes|
    requires x in AxisClasses(c, p, axes[i]) && y in AxisClasses(c, p, axes[j])
    ensures exists a, b ::
              0 <= a < b < |AxisTokens(c, p, axes)| && AxisTokens(c, p, axes)[a] == x && AxisTokens(c, p, axes)[b] == y
  {
    var front, back := axes[..j], axes[j..];
    assert axes == front + back;
    AxisTokensAppend(c, p, front, back);
    assert front[i] == axes[i] && back[0] == axes[j];
    AxisClassesIn(c, p, front, i, x);
    AxisClassesIn(c, p, back, 0, y);
    OrderedIn(AxisTokens(c, p, front), AxisTokens(c, p, back), x, y);
  }

  /** Every base token is placed before every axis or compound token. */
  lemma BaseFirst(c: Config, p: Props, x: string, y: string)
    requires x in c.base && y in AxisTokens(c, p, c.axes) + CompoundTokens(c, p, c.compounds)
    ensures exists a, b :: 0 <= a < b < |Resolve(c, p)| && Resolve(c, p)[a] == x && Resolve(c, p)[b] == y
  {
    var rest := AxisTokens(c, p, c.axes) + CompoundTokens(c, p, c.compounds);
    var r := Resolve(c, p);
    assert r == c.base + rest;
    var a := PositionOf(c.base, x);
    var b := PositionOf(rest, y);
    assert r[a] == x && r[|c.base| + b] == y;
  }

  /** Every axis token is placed before every compound token, so a rule can restyle what an axis set. */
  lemma AxisBeforeCompound(c: Config, p: Props, x: string, y: string)
    requires x in AxisTokens(c, p, c.axes) && y in CompoundTokens(c, p, c.compounds)
    ensures exists a, b :: 0 <= a < b < |Resolve(c, p)| && Resolve(c, p)[a] == x && Resolve(c, p)[b] == y
  {
    var ax, cp := AxisTokens(c, p, c.axes), CompoundTokens(c, p, c.compounds);
    assert x in c.base + ax;
    OrderedIn(c.base + ax, cp, x, y);
    assert Resolve(c, p) == c.base + ax + cp;
  }
}
