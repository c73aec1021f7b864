/**
 * The pagination control: the page-window calculator `getPageNumbers`
 * and the click/disabled rules of the previous, next and page-marker buttons.
 */
module Pagination {
  import opened Wrappers

  /** A button in the page strip: a page number, or the "..." placeholder. */
  datatype Marker = Page(n: int) | Ellipsis

  /** Number of pages shown before and after the current page. */
  const Delta: int := 1

  // ---------------------------------------------------------------------
  // Specification functions
  // ---------------------------------------------------------------------

  /** The candidates lo..hi that lie strictly between 1 and totalPages, in ascending order. */
  function NeighboursUpTo(lo: int, hi: int, totalPages: int): seq<int>
    decreases hi - lo
  {
    if hi < lo then []
    else NeighboursUpTo(lo, hi - 1, totalPages) + (if 1 < hi < totalPages then [hi] else [])
  }

  /** The kept page numbers (`range`): page 1, the neighbours of the current page, the last page. */
  function Kept(currentPage: int, totalPages: int): seq<int>
  {
    [1] + NeighboursUpTo(currentPage - Delta, currentPage + Delta, totalPages)
        + (if totalPages > 1 then [totalPages] else [])
  }

  /** What is inserted between two consecutive kept numbers prev < next. */
  function Gap(prev: int, next: int): seq<Marker>
  {
    if next - prev == 2 then [Page(prev + 1)]
    else if next - prev != 1 then [Ellipsis]
    else []
  }

  /**
   * The markers emitted while walking `r`, `prev` being the previously
   * walked number; 0 stands for JavaScript's `undefined` (both are falsy),
   * so nothing is inserted before the first number.
   */
  function Dots(prev: int, r: seq<int>): seq<Marker>
    decreases |r|
  {
    if r == [] then []
    else (if prev != 0 then Gap(prev, r[0]) else []) + [Page(r[0])] + Dots(r[0], r[1..])
  }

  /** The page strip for the given props (`rangeWithDots`). */
  function Window(currentPage: int, totalPages: int): seq<Marker>
  {
    Dots(0, Kept(currentPage, totalPages))
  }

  /** One step of the walk: emitting `prev`'s gap and `r[k]` moves `r[k]` from the rest to the output. */
  lemma DotsStep(before: seq<Marker>, after: seq<Marker>, prev: int, r: seq<int>, k: nat)
    requires k < |r|
    requires after == before + (if prev != 0 then Gap(prev, r[k]) else []) + [Page(r[k])]
    ensures before + Dots(prev, r[k..]) == after + Dots(r[k], r[k + 1..])
  {
    assert r[k..][1..] == r[k + 1..];
  }

  // ---------------------------------------------------------------------
  // The calculator, as the source writes it
  // ---------------------------------------------------------------------

  /** `getPageNumbers`: two loops, the second carrying the previous number in `l`. */
  method GetPageNumbers(currentPage: int, totalPages: int) returns (rangeWithDots: seq<Marker>)
    ensures rangeWithDots == Window(currentPage, totalPages)
  {
    var range: seq<int> := [1];
    for i := currentPage - Delta to currentPage + Delta + 1
      invariant range == [1] + NeighboursUpTo(currentPage - Delta, i - 1, totalPages)
    {
      if i > 1 && i < totalPages {
        range := range + [i];
      }
    }
    if totalPages > 1 {
      range := range + [totalPages];
    }
    assert range == Kept(currentPage, totalPages);

    rangeWithDots := [];
    var l := 0;  // `let l;` — undefined, falsy like 0
    assert range[0..] == range;
    for k := 0 to |range|
      invariant rangeWithDots + Dots(l, range[k..]) == Dots(0, range)
    {
      var i := range[k];
      ghost var before, prev := rangeWithDots, l;
      if l != 0 {
        if i - l == 2 {
          rangeWithDots := rangeWithDots + [Page(l + 1)];
        } else if i - l != 1 {
          rangeWithDots := rangeWithDots + [Ellipsis];
        }
      }
      rangeWithDots := rangeWithDots + [Page(i)];
      l := i;
      DotsStep(before, rangeWithDots, prev, range, k);
    }
    assert range[|range|..] == [];
  }

  // ---------------------------------------------------------------------
  // The kept numbers
  // ---------------------------------------------------------------------

  function Max(a: int, b: int): int { if a < b then b else a }
  function Min(a: int, b: int): int { if a < b then a else b }

  /** The consecutive integers a..b, empty when b < a. */
  function Interval(a: int, b: int): seq<int>
    decreases b - a
  {
    if b < a then [] else Interval(a, b - 1) + [b]
  }

  /** A sequence of numbers in strictly increasing order (so without duplicates). */
  predicate Increasing(r: seq<int>)
  {
    forall i, j :: 0 <= i < j < |r| ==> r[i] < r[j]
  }

  lemma {:induction false} IntervalAt(a: int, b: int)
    ensures |Interval(a, b)| == if b < a then 0 else b - a + 1
    ensures forall k :: 0 <= k < |Interval(a, b)| ==> Interval(a, b)[k] == a + k
    decreases b - a
  {
    if b >= a {
      IntervalAt(a, b - 1);
    }
  }

  /** The neighbour loop keeps exactly the consecutive numbers max(lo, 2)..min(hi, totalPages - 1). */
  lemma {:induction false} NeighboursAreInterval(lo: int, hi: int, totalPages: int)
    ensures NeighboursUpTo(lo, hi, totalPages) == Interval(Max(lo, 2), Min(hi, totalPages - 1))
    decreases hi - lo
  {
    if hi >= lo {
      NeighboursAreInterval(lo, hi - 1, totalPages);
    }
  }

  /** `range` is page 1, then a run of consecutive neighbours inside (1, totalPages), then the last page. */
  lemma KeptShape(currentPage: int, totalPages: int)
    ensures Kept(currentPage, totalPages)
         == [1] + Interval(Max(currentPage - Delta, 2), Min(currentPage + Delta, totalPages - 1))
                + (if totalPages > 1 then [totalPages] else [])
  {
    NeighboursAreInterval(currentPage - Delta, currentPage + Delta, totalPages);
  }

  /** `range` starts at 1 and is strictly increasing, for any integer props. */
  lemma KeptIncreasing(currentPage: int, totalPages: int)
    ensures Kept(currentPage, totalPages)[0] == 1
    ensures Increasing(Kept(currentPage, totalPages))
  {
    var a, b := Max(currentPage - Delta, 2), Min(currentPage + Delta, totalPages - 1);
    var mid := Interval(a, b);
    var last: seq<int> := if totalPages > 1 then [totalPages] else [];
    KeptShape(currentPage, totalPages);
    IntervalAt(a, b);
    var r := [1] + mid + last;
    assert forall k :: 0 <= k < |r| ==> r[k] == (if k == 0 then 1 else if k <= |mid| then a + k - 1 else totalPages);
    assert forall k :: 1 <= k <= |mid| ==> 1 < r[k] < totalPages;
  }

  /** The kept numbers are exactly 1, the neighbours strictly inside (1, totalPages), and totalPages when above 1. */
  lemma KeptMembers(currentPage: int, totalPages: int, x: int)
    ensures x in Kept(currentPage, totalPages) <==>
      (|| x == 1
       || (currentPage - Delta <= x <= currentPage + Delta && 1 < x < totalPages)
       || (totalPages > 1 && x == totalPages))
  {
    var a, b := Max(currentPage - Delta, 2), Min(currentPage + Delta, totalPages - 1);
    var mid := Interval(a, b);
    KeptShape(currentPage, totalPages);
    IntervalAt(a, b);
    if a <= x <= b {
      assert mid[x - a] == x;
    }
    assert x in mid <==> a <= x <= b;
  }

  // ---------------------------------------------------------------------
  // The walk that inserts markers
  // ---------------------------------------------------------------------

  /** Numbered markers appear in strictly increasing order. */
  predicate PagesIncrease(m: seq<Marker>)
  {
    forall i, j :: 0 <= i < j < |m| && m[i].Page? && m[j].Page? ==> m[i].n < m[j].n
  }

  /** Every "..." stands between two numbered markers that are more than two pages apart. */
  predicate EllipsesFramed(m: seq<Marker>)
  {
    forall i :: 0 <= i < |m| && m[i].Ellipsis? ==>
      0 < i < |m| - 1 && m[i - 1].Page? && m[i + 1].Page? && m[i + 1].n - m[i - 1].n > 2
  }

  /** Two numbered markers side by side are consecutive page numbers. */
  predicate AdjacentPagesConsecutive(m: seq<Marker>)
  {
    forall i :: 0 <= i < |m| - 1 && m[i].Page? && m[i + 1].Page? ==> m[i + 1].n == m[i].n + 1
  }

  predicate WellLaidOut(m: seq<Marker>)
  {
    PagesIncrease(m) && EllipsesFramed(m) && AdjacentPagesConsecutive(m)
  }

  /** Putting page p in front of a strip that starts with page p + 1 keeps the layout. */
  lemma PrependPage(p: int, m: seq<Marker>)
    requires m != [] && m[0] == Page(p + 1) && WellLaidOut(m)
    ensures WellLaidOut([Page(p)] + m)
  {
    var w := [Page(p)] + m;
    assert forall j :: 1 <= j < |w| ==> w[j] == m[j - 1];
    assert PagesIncrease(w) by {
      forall i, j | 0 <= i < j < |w| && w[i].Page? && w[j].Page? ensures w[i].n < w[j].n {
        if i == 0 && j > 1 {
          assert m[0].n < m[j - 1].n;
        }
      }
    }
    assert EllipsesFramed(w) by {
      forall i | 0 <= i < |w| && w[i].Ellipsis?
        ensures 0 < i < |w| - 1 && w[i - 1].Page? && w[i + 1].Page? && w[i + 1].n - w[i - 1].n > 2
      {
        assert m[i - 1].Ellipsis?;
      }
    }
  }

  /** Putting page p and a "..." in front of a strip that starts more than two pages after p keeps the layout. */
  lemma PrependEllipsis(p: int, m: seq<Marker>)
    requires m != [] && m[0].Page? && m[0].n - p > 2 && WellLaidOut(m)
    ensures WellLaidOut([Page(p), Ellipsis] + m)
  {
    var w := [Page(p), Ellipsis] + m;
    assert forall j :: 2 <= j < |w| ==> w[j] == m[j - 2];
    assert PagesIncrease(w) by {
      forall i, j | 0 <= i < j < |w| && w[i].Page? && w[j].Page? ensures w[i].n < w[j].n {
        if i == 0 && j > 2 {
          assert m[0].n < m[j - 2].n;
        }
      }
    }
    assert EllipsesFramed(w) by {
      forall i | 0 <= i < |w| && w[i].Ellipsis?
        ensures 0 < i < |w| - 1 && w[i - 1].Page? && w[i + 1].Page? && w[i + 1].n - w[i - 1].n > 2
      {
        if i > 2 {
          assert m[i - 2].Ellipsis?;
        }
      }
    }
  }

  /** Putting page p and the gap up to q in front of a strip that starts with page q keeps the layout. */
  lemma PrependGap(p: int, m: seq<Marker>)
    requires m != [] && m[0].Page? && p < m[0].n && WellLaidOut(m)
    ensures WellLaidOut([Page(p)] + Gap(p, m[0].n) + m)
  {
    var q := m[0].n;
    if q - p == 2 {
      PrependPage(p + 1, m);
      PrependPage(p, [Page(p + 1)] + m);
      assert [Page(p)] + Gap(p, q) + m == [Page(p)] + ([Page(p + 1)] + m);
    } else if q - p != 1 {
      PrependEllipsis(p, m);
      assert [Page(p)] + Gap(p, q) + m == [Page(p), Ellipsis] + m;
    } else {
      PrependPage(p, m);
      assert [Page(p)] + Gap(p, q) + m == [Page(p)] + m;
    }
  }

  /**
   * Walking increasing numbers after `prev`: the strip that starts with `prev` ends with the
   * last number and is well laid out.
   */
  lemma {:induction false} DotsLayout(prev: int, r: seq<int>)
    requires prev > 0 && Increasing([prev] + r)
    ensures var m := [Page(prev)] + Dots(prev, r);
      && m[|m| - 1] == Page(([prev] + r)[|r|])
      && WellLaidOut(m)
    decreases |r|
  {
    if r != [] {
      var r0 := r[0];
      assert ([prev] + r)[1] == r0;
      assert ([prev] + r)[0] < ([prev] + r)[1];
      assert [r0] + r[1..] == r;
      assert Increasing(r) by {
        forall i, j | 0 <= i < j < |r| ensures r[i] < r[j] {
          assert r[i] == ([prev] + r)[i + 1] && r[j] == ([prev] + r)[j + 1];
        }
      }
      DotsLayout(r0, r[1..]);
      var tail := [Page(r0)] + Dots(r0, r[1..]);
      PrependGap(prev, tail);
      assert [Page(prev)] + Dots(prev, r) == [Page(prev)] + Gap(prev, r0) + tail;
      assert ([r0] + r[1..])[|r[1..]|] == ([prev] + r)[|r|];
    }
  }

  /** Walking: every walked number is shown, and every shown number is walked or fills a gap of two. */
  lemma {:induction false} DotsMembers(prev: int, r: seq<int>)
    ensures forall x :: x in r ==> Page(x) in Dots(prev, r)
    ensures forall x :: Page(x) in Dots(prev, r) ==>
      x in r || (x - 1 in [prev] + r && x + 1 in r)
    decreases |r|
  {
    if r != [] {
      var r0 := r[0];
      var g := if prev != 0 then Gap(prev, r0) else [];
      DotsMembers(r0, r[1..]);
      assert Dots(prev, r) == g + [Page(r0)] + Dots(r0, r[1..]);
      assert r == [r0] + r[1..];
      forall x | Page(x) in Dots(prev, r) ensures x in r || (x - 1 in [prev] + r && x + 1 in r) {
        if Page(x) in g {
          assert x == prev + 1 && r0 == prev + 2;
        } else if x != r0 {
          assert Page(x) in Dots(r0, r[1..]);
          assert x in r[1..] || (x - 1 in [r0] + r[1..] && x + 1 in r[1..]);
          assert forall y :: y in r[1..] ==> y in r;
        }
      }
    }
  }

  /** Walking a run of consecutive numbers right after `prev` shows exactly those numbers, in order, with no "...". */
  lemma {:induction false} DotsRun(prev: int, r: seq<int>)
    requires prev > 0
    requires forall k :: 0 <= k < |r| ==> r[k] == prev + 1 + k
    ensures Dots(prev, r) == seq(|r|, k requires 0 <= k < |r| => Page(r[k]))
    ensures |Dots(prev, r)| == |r| && multiset(Dots(prev, r))[Ellipsis] == 0
    decreases |r|
  {
    if r != [] {
      DotsRun(r[0], r[1..]);
      assert Dots(prev, r) == [Page(r[0])] + Dots(r[0], r[1..]);
    }
  }

  /** Walking a + b is walking a, then walking b after a's last number. */
  lemma {:induction false} DotsAppend(prev: int, a: seq<int>, b: seq<int>)
    requires a != []
    ensures Dots(prev, a + b) == Dots(prev, a) + Dots(a[|a| - 1], b)
    decreases |a|
  {
    var a0 := a[0];
    var g := if prev != 0 then Gap(prev, a0) else [];
    assert (a + b)[0] == a0;
    assert (a + b)[1..] == a[1..] + b;
    assert Dots(prev, a + b) == g + [Page(a0)] + Dots(a0, a[1..] + b);
    assert Dots(prev, a) == g + [Page(a0)] + Dots(a0, a[1..]);
    if |a| == 1 {
      assert a[1..] == [];
    } else {
      DotsAppend(a0, a[1..], b);
      assert a[1..][|a[1..]| - 1] == a[|a| - 1];
    }
  }

  // ---------------------------------------------------------------------
  // Properties of the page strip
  // ---------------------------------------------------------------------

  lemma WindowStartsAtKept(currentPage: int, totalPages: int)
    ensures var k := Kept(currentPage, totalPages);
      k != [] && k[0] == 1 && Window(currentPage, totalPages) == [Page(1)] + Dots(1, k[1..])
  {
    var k := Kept(currentPage, totalPages);
    assert k[0] == 1;
  }

  /**
   * The strip starts with page 1; it ends with totalPages when totalPages > 1 and is exactly
   * [1] otherwise; its numbers increase, each "..." bridges a gap of more than two pages, and
   * side-by-side numbers are consecutive.
   */
  lemma WindowLayout(currentPage: int, totalPages: int)
    ensures var w := Window(currentPage, totalPages);
      && w[0] == Page(1)
      && (totalPages > 1 ==> w[|w| - 1] == Page(totalPages))
      && (totalPages <= 1 ==> w == [Page(1)])
      && WellLaidOut(w)
  {
    var k := Kept(currentPage, totalPages);
    WindowStartsAtKept(currentPage, totalPages);
    KeptIncreasing(currentPage, totalPages);
    assert [1] + k[1..] == k;
    DotsLayout(1, k[1..]);
    KeptShape(currentPage, totalPages);
    if totalPages <= 1 {
      assert Interval(Max(currentPage - Delta, 2), Min(currentPage + Delta, totalPages - 1)) == [];
    }
  }

  /** Every kept number is shown, and the only other numbers shown are single pages filling a gap of two. */
  lemma WindowMembers(currentPage: int, totalPages: int, x: int)
    ensures x in Kept(currentPage, totalPages) ==> Page(x) in Window(currentPage, totalPages)
    ensures Page(x) in Window(currentPage, totalPages) ==>
      x in Kept(currentPage, totalPages)
      || (x - 1 in Kept(currentPage, totalPages) && x + 1 in Kept(currentPage, totalPages))
  {
    var k := Kept(currentPage, totalPages);
    DotsMembers(0, k);
    KeptIncreasing(currentPage, totalPages);
    assert 1 in k by { assert k[0] == 1; }
    assert Window(currentPage, totalPages) == Dots(0, k);
    if Page(x) in Dots(0, k) && x !in k {
      assert x - 1 in [0] + k && x + 1 in k;
      assert x - 1 != 0;
      assert x - 1 in k;
    }
  }

  /** For a current page within 1..totalPages, exactly one marker is that page (the one marked aria-current). */
  lemma CurrentPageOnce(currentPage: int, totalPages: int)
    requires 1 <= currentPage <= totalPages
    ensures var w := Window(currentPage, totalPages);
      exists i :: 0 <= i < |w| && IsCurrent(w[i], currentPage)
        && forall j :: 0 <= j < |w| && j != i ==> !IsCurrent(w[j], currentPage)
  {
    var w := Window(currentPage, totalPages);
    KeptMembers(currentPage, totalPages, currentPage);
    WindowMembers(currentPage, totalPages, currentPage);
    WindowLayout(currentPage, totalPages);
    var i :| 0 <= i < |w| && w[i] == Page(currentPage);
    forall j | 0 <= j < |w| && j != i ensures !IsCurrent(w[j], currentPage) {
      if j < i {
        assert w[j].Page? ==> w[j].n < w[i].n;
      } else {
        assert w[j].Page? ==> w[i].n < w[j].n;
      }
    }
  }

  /** Walking at most one number after any `prev` gives at most a gap marker and that number. */
  lemma TailBound(prev: int, last: seq<int>)
    requires |last| <= 1
    ensures |Dots(prev, last)| <= 2 && multiset(Dots(prev, last))[Ellipsis] <= 1
  {
    if last != [] {
      assert last[1..] == [];
    }
  }

  /** Walking a run a..b of at most three neighbours after page 1: at most one gap marker then the run. */
  lemma RunBound(a: int, b: int)
    requires 2 <= a <= b <= a + 2
    ensures |Dots(1, Interval(a, b))| <= 4 && multiset(Dots(1, Interval(a, b)))[Ellipsis] <= 1
  {
    var mid := Interval(a, b);
    IntervalAt(a, b);
    assert mid == [a] + mid[1..];
    DotsAppend(1, [a], mid[1..]);
    DotsRun(a, mid[1..]);
    assert Dots(1, [a]) == Gap(1, a) + [Page(a)];
  }

  /** The strip is page 1, the walk over the neighbour run, then the walk to the last page. */
  lemma WindowSplit(currentPage: int, totalPages: int)
    ensures var a, b := Max(currentPage - Delta, 2), Min(currentPage + Delta, totalPages - 1);
      var last: seq<int> := if totalPages > 1 then [totalPages] else [];
      Window(currentPage, totalPages)
        == if b < a then [Page(1)] + Dots(1, last)
           else [Page(1)] + Dots(1, Interval(a, b)) + Dots(b, last)
  {
    var a, b := Max(currentPage - Delta, 2), Min(currentPage + Delta, totalPages - 1);
    var mid := Interval(a, b);
    var last: seq<int> := if totalPages > 1 then [totalPages] else [];
    KeptShape(currentPage, totalPages);
    WindowStartsAtKept(currentPage, totalPages);
    IntervalAt(a, b);
    var k := Kept(currentPage, totalPages);
    assert k[1..] == mid + last;
    if b < a {
      assert mid + last == last;
    } else {
      DotsAppend(1, mid, last);
      assert mid[|mid| - 1] == b;
    }
  }

  /** With a radius of 1 the strip has at most seven markers and at most two "...". */
  lemma WindowBounds(currentPage: int, totalPages: int)
    ensures |Window(currentPage, totalPages)| <= 7
    ensures multiset(Window(currentPage, totalPages))[Ellipsis] <= 2
  {
    var a, b := Max(currentPage - Delta, 2), Min(currentPage + Delta, totalPages - 1);
    var last: seq<int> := if totalPages > 1 then [totalPages] else [];
    WindowSplit(currentPage, totalPages);
    if b < a {
      TailBound(1, last);
    } else {
      RunBound(a, b);
      TailBound(b, last);
    }
  }

  /** Page 1 of 1: the strip is just [1]. */
  lemma WindowSinglePage()
    ensures Window(1, 1) == [Page(1)]
  {
    assert NeighboursUpTo(0, 2, 1) == [];
  }

  /** Page 5 of 20 (the library's own example): 1 … 4 5 6 … 20, with exactly two "...". */
  lemma WindowFiveOfTwenty()
    ensures Window(5, 20) == [Page(1), Ellipsis, Page(4), Page(5), Page(6), Ellipsis, Page(20)]
    ensures multiset(Window(5, 20))[Ellipsis] == 2
  {
    KeptFiveOfTwenty();
    WalkFiveOfTwenty();
  }

  lemma KeptFiveOfTwenty()
    ensures Kept(5, 20) == [1, 4, 5, 6, 20]
  {
    KeptShape(5, 20);
    assert Interval(4, 6) == [4, 5, 6];
  }

  lemma WalkFiveOfTwenty()
    ensures Dots(0, [1, 4, 5, 6, 20]) == [Page(1), Ellipsis, Page(4), Page(5), Page(6), Ellipsis, Page(20)]
  {
    assert [1, 4, 5, 6, 20][1..] == [4, 5, 6, 20] && [4, 5, 6, 20][1..] == [5, 6, 20];
    assert [5, 6, 20][1..] == [6, 20] && [6, 20][1..] == [20] && [20][1..] == [];
    assert Dots(6, [20]) == [Ellipsis, Page(20)];
    assert Dots(5, [6, 20]) == [Page(6), Ellipsis, Page(20)];
    assert Dots(4, [5, 6, 20]) == [Page(5), Page(6), Ellipsis, Page(20)];
    assert Dots(1, [4, 5, 6, 20]) == [Ellipsis, Page(4), Page(5), Page(6), Ellipsis, Page(20)];
  }

  /** Page 1 of 10: 1 2 … 10, so page 2 is a clickable marker. */
  lemma WindowFirstOfTen()
    ensures Window(1, 10) == [Page(1), Page(2), Ellipsis, Page(10)]
  {
    KeptShape(1, 10);
    assert Interval(2, 2) == [2];
    assert Kept(1, 10) == [1, 2, 10];
  }

  // ---------------------------------------------------------------------
  // The buttons of the bar
  // ---------------------------------------------------------------------

  /** The buttons of the pagination bar. */
  datatype Control = Previous | Next | MarkerButton(marker: Marker)

  /** `disabled`: previous on the first page, next on the last, and every "..." marker. */
  predicate Disabled(c: Control, currentPage: int, totalPages: int)
  {
    match c
    case Previous => currentPage <= 1
    case Next => currentPage >= totalPages
    case MarkerButton(m) => m == Ellipsis
  }

  /** The page `onClick` passes to `onPageChange`, or None when it does not call it ("..."). */
  function OnClick(c: Control, currentPage: int): Option<int>
  {
    match c
    case Previous => Some(currentPage - 1)
    case Next => Some(currentPage + 1)
    case MarkerButton(m) => if m.Page? then Some(m.n) else None
  }

  /** A click by the user: a disabled button dispatches nothing, an enabled one runs `onClick`. */
  function Click(c: Control, currentPage: int, totalPages: int): Option<int>
  {
    if Disabled(c, currentPage, totalPages) then None else OnClick(c, currentPage)
  }

  /** `aria-current="page"` goes on the marker equal to the current page. */
  predicate IsCurrent(m: Marker, currentPage: int)
  {
    m == Page(currentPage)
  }

  /**
   * From a page within 1..totalPages, previous requests currentPage - 1 unless on page 1, next
   * requests currentPage + 1 unless on the last page, a numbered marker of the strip requests
   * its own number, "..." requests nothing, and every request is a page within 1..totalPages.
   */
  lemma ClickTargets(currentPage: int, totalPages: int, c: Control)
    requires 1 <= currentPage <= totalPages
    requires c.MarkerButton? ==> c.marker in Window(currentPage, totalPages)
    ensures Click(c, currentPage, totalPages) == match c
      case Previous => if currentPage > 1 then Some(currentPage - 1) else None
      case Next => if currentPage < totalPages then Some(currentPage + 1) else None
      case MarkerButton(m) => if m.Page? then Some(m.n) else None
    ensures Click(c, currentPage, totalPages).Some? ==>
      1 <= Click(c, currentPage, totalPages).value <= totalPages
  {
    if c.MarkerButton? && c.marker.Page? {
      var w := Window(currentPage, totalPages);
      WindowLayout(currentPage, totalPages);
      var i :| 0 <= i < |w| && w[i] == c.marker;
      if i > 0 { assert w[0].n < w[i].n; }
      if totalPages > 1 && i < |w| - 1 { assert w[i].n < w[|w| - 1].n; }
    }
  }
}
