/** Page arithmetic for a result set of `total` items shown `perPage` at a
    time, and the window of page links shown around the current page. */
module Utils {

  import opened Values

  /** The page-link window: how many pages to show at the left edge, before
      and after the current page, and at the right edge. */
  datatype Window = Window(leftEdge: int, leftCurrent: int, rightCurrent: int, rightEdge: int)

  /** The defaults of `iter_pages`. */
  const DefaultWindow := Window(2, 2, 5, 2)

  /** `Pagination(page, per_page, total)`: a value, never changed after it is
      built; `Prev` and `Next` build new ones. */
  datatype Pagination = Pagination(page: int, perPage: int, total: int)
  {
    /** `nb_pages`: the number of pages, the ceiling of `total / perPage`. */
    function NbPages(): (n: int)
      requires perPage > 0
      ensures (n - 1) * perPage < total <= n * perPage
    {
      CeilDiv(total, perPage)
    }

    /** `offset`: the number of items before the first item of this page. */
    function Offset(): (r: int)
    {
      (page - 1) * perPage
    }

    /** `prev_page`: the page before this one, if this is not the first. */
    function PrevPage(): (r: Option<int>)
    {
      if page > 1 then Some(page - 1) else None
    }

    /** `next_page`: the page after this one, if this is not the last. */
    function NextPage(): (r: Option<int>)
      requires perPage > 0
    {
      if page < NbPages() then Some(page + 1) else None
    }

    /** `prev`: the same pagination one page back, if there is one. */
    function Prev(): (r: Option<Pagination>)
      ensures r.Some? <==> page > 1
      ensures r.Some? ==> r.value == this.(page := page - 1)
    {
      if PrevPage().None? then None
      else Some(Pagination(PrevPage().value, perPage, total))
    }

    /** `next`: the same pagination one page on, if there is one. */
    function Next(): (r: Option<Pagination>)
      requires perPage > 0
      ensures r.Some? <==> page < NbPages()
      ensures r.Some? ==> r.value == this.(page := page + 1)
    {
      if NextPage().None? then None
      else Some(Pagination(NextPage().value, perPage, total))
    }

    /** Whether `iter_pages` shows page `num`: near the left edge, in the
        window around the current page, or near the right edge. */
    predicate Shown(w: Window, num: int)
      requires perPage > 0
    {
      || num <= w.leftEdge
      || (num > page - w.leftCurrent - 1 && num < page + w.rightCurrent)
      || num > NbPages() - w.rightEdge
    }

    /** What `iter_pages` yields from page `num` on, `last` being the last
        page yielded so far (0 before any): each shown page, preceded by a
        gap (None) when it does not follow `last` directly. */
    function LinksFrom(w: Window, num: int, last: int): (r: seq<Option<int>>)
      requires perPage > 0
      decreases NbPages() + 1 - num
    {
      if num > NbPages() then []
      else if Shown(w, num) then
        (if last + 1 != num then [None] else []) + [Some(num)] + LinksFrom(w, num + 1, num)
      else LinksFrom(w, num + 1, last)
    }

    /** The whole output of `iter_pages(w...)`. */
    function Links(w: Window): (r: seq<Option<int>>)
      requires perPage > 0
    {
      LinksFrom(w, 1, 0)
    }

    /** `iter_pages(left_edge, left_current, right_current, right_edge)`:
        the loop over pages 1 to `nb_pages`, emitting into a sequence. */
    method IterPages(leftEdge: int := 2, leftCurrent: int := 2, rightCurrent: int := 5, rightEdge: int := 2)
      returns (out: seq<Option<int>>)
      requires perPage > 0
      ensures out == Links(Window(leftEdge, leftCurrent, rightCurrent, rightEdge))
    {
      var w := Window(leftEdge, leftCurrent, rightCurrent, rightEdge);
      var nb := NbPages();
      var last := 0;
      var num := 1;
      out := [];
      while num <= nb
        invariant out + LinksFrom(w, num, last) == Links(w)
        decreases nb + 1 - num
      {
        LinksFromUnfold(this, w, num, last);
        if num <= leftEdge || (num > page - leftCurrent - 1 && num < page + rightCurrent) || num > nb - rightEdge {
          if last + 1 != num {
            out := out + [None];
          }
          out := out + [Some(num)];
          last := num;
        }
        num := num + 1;
      }
    }
  }

  /** Ceiling division for a positive divisor. */
  function CeilDiv(a: int, b: int): (n: int)
    requires b > 0
    ensures (n - 1) * b < a <= n * b
  {
    var n := (a + b - 1) / b;
    assert n * b <= a + b - 1 < n * b + b;
    n
  }

  /** 95 items at 10 a page make 10 pages; 0 items make none. */
  lemma NbPagesExamples()
    ensures Pagination(1, 10, 95).NbPages() == 10
    ensures Pagination(1, 10, 0).NbPages() == 0
    ensures Pagination(10, 10, 95).Offset() == 90
  {
  }

  /** A page within bounds starts inside the result set, and its successor
      starts exactly one page further on. */
  lemma OffsetWithinTotal(p: Pagination)
    requires p.perPage > 0 && 1 <= p.page <= p.NbPages()
    ensures 0 <= p.Offset() < p.total
    ensures p.Next().Some? ==> p.Next().value.Offset() == p.Offset() + p.perPage
  {
    var n := p.NbPages();
    assert (p.page - 1) * p.perPage <= (n - 1) * p.perPage by {
      MulMonotone(p.page - 1, n - 1, p.perPage);
    }
    assert 0 <= (p.page - 1) * p.perPage by {
      MulMonotone(0, p.page - 1, p.perPage);
    }
  }

  lemma MulMonotone(a: int, b: int, c: int)
    requires a <= b && c >= 0
    ensures a * c <= b * c
  {
  }

  /** `prev` and `next` undo each other on pages within bounds. */
  lemma PrevNextInverse(p: Pagination)
    requires p.perPage > 0
    ensures p.page >= 1 && p.Next().Some? ==> p.Next().value.Prev() == Some(p)
    ensures p.page <= p.NbPages() && p.Prev().Some? ==> p.Prev().value.Next() == Some(p)
  {
  }

  // ---------------------------------------------------------------------
  // The shape of the page links

  /** Read from left to right after page `last`: a page that directly follows
      the previous one is emitted alone; any other page is emitted after one
      gap. Pages only increase, and nothing follows the last page. */
  ghost predicate Linked(s: seq<Option<int>>, last: int)
    decreases |s|
  {
    || s == []
    || (s[0].None? && |s| >= 2 && s[1].Some? && s[1].value > last + 1 && Linked(s[2..], s[1].value))
    || (s[0].Some? && s[0].value == last + 1 && Linked(s[1..], s[0].value))
  }

  /** The link sequence is built as `Linked` describes. */
  lemma {:induction false} LinksFromLinked(p: Pagination, w: Window, num: int, last: int)
    requires p.perPage > 0 && last < num
    ensures Linked(p.LinksFrom(w, num, last), last)
    decreases p.NbPages() + 1 - num
  {
    if num <= p.NbPages() {
      if p.Shown(w, num) {
        LinksFromLinked(p, w, num + 1, num);
        var rest := p.LinksFrom(w, num + 1, num);
        if last + 1 != num {
          assert p.LinksFrom(w, num, last) == [None, Some(num)] + rest;
          assert ([None, Some(num)] + rest)[2..] == rest;
        } else {
          assert p.LinksFrom(w, num, last) == [Some(num)] + rest;
          assert ([Some(num)] + rest)[1..] == rest;
        }
      } else {
        LinksFromLinked(p, w, num + 1, last);
      }
    }
  }

  /** Exactly the shown pages from `num` up to `nb_pages` appear. */
  lemma {:induction false} LinksFromMembers(p: Pagination, w: Window, num: int, last: int, n: int)
    requires p.perPage > 0
    ensures Some(n) in p.LinksFrom(w, num, last) <==> num <= n <= p.NbPages() && p.Shown(w, n)
    decreases p.NbPages() + 1 - num
  {
    if num <= p.NbPages() {
      if p.Shown(w, num) {
        LinksFromMembers(p, w, num + 1, num, n);
      } else {
        LinksFromMembers(p, w, num + 1, last, n);
      }
    }
  }

  /** Every gap is followed by a page: no two gaps in a row, none at the end. */
  ghost predicate GapsBeforePages(s: seq<Option<int>>)
  {
    forall i :: 0 <= i < |s| && s[i].None? ==> i + 1 < |s| && s[i + 1].Some?
  }

  /** A gap inside the sequence stands between two pages that are not
      consecutive numbers. */
  ghost predicate GapsBetweenJumps(s: seq<Option<int>>)
  {
    forall i :: 0 < i < |s| - 1 && s[i].None? ==>
      s[i - 1].Some? && s[i + 1].Some? && s[i + 1].value > s[i - 1].value + 1
  }

  /** Two pages with no gap between them are consecutive numbers. */
  ghost predicate AdjacentConsecutive(s: seq<Option<int>>)
  {
    forall i :: 0 < i < |s| && s[i - 1].Some? && s[i].Some? ==> s[i].value == s[i - 1].value + 1
  }

  /** The first element is page `last + 1`, or a gap before a later page. */
  ghost predicate StartsAfter(s: seq<Option<int>>, last: int)
  {
    && (|s| > 0 && s[0].Some? ==> s[0].value == last + 1)
    && (|s| > 1 && s[0].None? ==> s[1].Some? && s[1].value > last + 1)
  }

  /** Pages come after `last` and increase strictly. */
  ghost predicate IncreasingAfter(s: seq<Option<int>>, last: int)
  {
    forall i, j :: 0 <= i < j < |s| && s[i].Some? && s[j].Some? ==> last < s[i].value < s[j].value
  }

  /** All of the above: a gap exactly where consecutive numbering breaks. */
  ghost predicate GapsExact(s: seq<Option<int>>, last: int)
  {
    GapsBeforePages(s) && GapsBetweenJumps(s) && AdjacentConsecutive(s)
    && StartsAfter(s, last) && IncreasingAfter(s, last)
  }

  lemma {:induction false} LinkedGapsBeforePages(s: seq<Option<int>>, last: int)
    requires Linked(s, last)
    ensures GapsBeforePages(s)
    decreases |s|
  {
    if s == [] {
    } else if s[0].None? && |s| >= 2 && s[1].Some? && s[1].value > last + 1 && Linked(s[2..], s[1].value) {
      LinkedGapsBeforePages(s[2..], s[1].value);
      assert forall i :: 2 <= i < |s| ==> s[i] == s[2..][i - 2];
    } else {
      LinkedGapsBeforePages(s[1..], s[0].value);
      assert forall i :: 1 <= i < |s| ==> s[i] == s[1..][i - 1];
    }
  }

  lemma {:induction false} LinkedIncreasing(s: seq<Option<int>>, last: int)
    requires Linked(s, last)
    ensures IncreasingAfter(s, last)
    decreases |s|
  {
    if s == [] {
    } else if s[0].None? && |s| >= 2 && s[1].Some? && s[1].value > last + 1 && Linked(s[2..], s[1].value) {
      var t := s[2..];
      LinkedIncreasing(t, s[1].value);
      forall i, j | 0 <= i < j < |s| && s[i].Some? && s[j].Some?
        ensures last < s[i].value < s[j].value
      {
        if i >= 2 {
          assert s[i] == t[i - 2] && s[j] == t[j - 2];
        } else {
          assert i == 1 && s[j] == t[j - 2];
        }
      }
    } else {
      var t := s[1..];
      LinkedIncreasing(t, s[0].value);
      forall i, j | 0 <= i < j < |s| && s[i].Some? && s[j].Some?
        ensures last < s[i].value < s[j].value
      {
        assert s[j] == t[j - 1];
        if i >= 1 {
          assert s[i] == t[i - 1];
        }
      }
    }
  }

  /** A linked sequence begins right after `last`. */
  lemma LinkedStart(s: seq<Option<int>>, last: int)
    requires Linked(s, last)
    ensures StartsAfter(s, last)
  {
  }

  /** In a linked sequence every gap stands between two pages whose
      numbers jump. */
  lemma {:induction false} LinkedJumps(s: seq<Option<int>>, last: int)
    requires Linked(s, last)
    ensures GapsBetweenJumps(s)
    decreases |s|
  {
    if s == [] {
    } else if s[0].None? && |s| >= 2 && s[1].Some? && s[1].value > last + 1 && Linked(s[2..], s[1].value) {
      var t := s[2..];
      LinkedJumps(t, s[1].value);
      LinkedStart(t, s[1].value);
      forall i | 0 < i < |s| - 1 && s[i].None?
        ensures s[i - 1].Some? && s[i + 1].Some? && s[i + 1].value > s[i - 1].value + 1
      {
        assert s[i] == t[i - 2] && s[i + 1] == t[i - 1];
        if i > 2 {
          assert s[i - 1] == t[i - 3];
        }
      }
    } else {
      var t := s[1..];
      LinkedJumps(t, s[0].value);
      LinkedStart(t, s[0].value);
      forall i | 0 < i < |s| - 1 && s[i].None?
        ensures s[i - 1].Some? && s[i + 1].Some? && s[i + 1].value > s[i - 1].value + 1
      {
        assert s[i] == t[i - 1] && s[i + 1] == t[i];
        if i > 1 {
          assert s[i - 1] == t[i - 2];
        }
      }
    }
  }

  /** In a linked sequence two pages with no gap between them are
      consecutive. */
  lemma {:induction false} LinkedAdjacent(s: seq<Option<int>>, last: int)
    requires Linked(s, last)
    ensures AdjacentConsecutive(s)
    decreases |s|
  {
    if s == [] {
    } else if s[0].None? && |s| >= 2 && s[1].Some? && s[1].value > last + 1 && Linked(s[2..], s[1].value) {
      var t := s[2..];
      LinkedAdjacent(t, s[1].value);
      LinkedStart(t, s[1].value);
      forall i | 0 < i < |s| && s[i - 1].Some? && s[i].Some?
        ensures s[i].value == s[i - 1].value + 1
      {
        assert s[i] == t[i - 2];
        if i > 2 {
          assert s[i - 1] == t[i - 3];
        }
      }
    } else {
      var t := s[1..];
      LinkedAdjacent(t, s[0].value);
      LinkedStart(t, s[0].value);
      forall i | 0 < i < |s| && s[i - 1].Some? && s[i].Some?
        ensures s[i].value == s[i - 1].value + 1
      {
        assert s[i] == t[i - 1];
        if i > 1 {
          assert s[i - 1] == t[i - 2];
        }
      }
    }
  }

  /** The properties of `iter_pages`' output: it holds exactly the shown pages
      between 1 and `nb_pages`, in increasing order, with a gap exactly before
      each page that does not follow the previous one (or page 0 at the
      start); so it never holds two gaps in a row, never ends with a gap, and
      starts with one only when page 1 is not shown. */
  lemma LinksShape(p: Pagination, w: Window)
    requires p.perPage > 0
    ensures forall n :: Some(n) in p.Links(w) <==> 1 <= n <= p.NbPages() && p.Shown(w, n)
    ensures GapsExact(p.Links(w), 0)
    ensures |p.Links(w)| > 0 ==> (p.Links(w)[0].None? <==> !p.Shown(w, 1))
  {
    forall n ensures Some(n) in p.Links(w) <==> 1 <= n <= p.NbPages() && p.Shown(w, n) {
      LinksFromMembers(p, w, 1, 0, n);
    }
    LinksFromLinked(p, w, 1, 0);
    LinkedGapsBeforePages(p.Links(w), 0);
    LinkedIncreasing(p.Links(w), 0);
    LinkedStart(p.Links(w), 0);
    LinkedJumps(p.Links(w), 0);
    LinkedAdjacent(p.Links(w), 0);
  }

  /** With 20 pages, page 10 and the default window, `iter_pages` yields
      `1, 2, None, 8 ... 14, None, 19, 20`. */
  lemma IterPagesExample()
    ensures Pagination(10, 10, 200).Links(DefaultWindow)
         == [Some(1), Some(2), None, Some(8), Some(9), Some(10), Some(11), Some(12), Some(13), Some(14),
             None, Some(19), Some(20)]
  {
    ExampleLinks(Pagination(10, 10, 200), DefaultWindow);
  }

  // The steps of the example: one call per page, each unfolding `LinksFrom`
  // once.

  lemma ExampleLinks(p: Pagination, w: Window)
    requires p == Pagination(10, 10, 200) && w == DefaultWindow
    ensures p.Links(w)
         == [Some(1), Some(2), None, Some(8), Some(9), Some(10), Some(11), Some(12), Some(13), Some(14),
             None, Some(19), Some(20)]
  {
    ExampleLeftEdge(p, w);
    ExampleWindow(p, w);
    ExampleRightEdge(p, w);
    assert [Some(1), Some(2)] + ([None, Some(8), Some(9), Some(10), Some(11), Some(12), Some(13), Some(14)]
             + [None, Some(19), Some(20)])
        == [Some(1), Some(2), None, Some(8), Some(9), Some(10), Some(11), Some(12), Some(13), Some(14),
            None, Some(19), Some(20)];
  }

  /** One step of `LinksFrom` for an in-range page. */
  lemma LinksFromUnfold(p: Pagination, w: Window, num: int, last: int)
    requires p.perPage > 0 && num <= p.NbPages()
    ensures p.Shown(w, num) && last + 1 != num ==>
              p.LinksFrom(w, num, last) == [None] + [Some(num)] + p.LinksFrom(w, num + 1, num)
    ensures p.Shown(w, num) && last + 1 == num ==>
              p.LinksFrom(w, num, last) == [Some(num)] + p.LinksFrom(w, num + 1, num)
    ensures !p.Shown(w, num) ==> p.LinksFrom(w, num, last) == p.LinksFrom(w, num + 1, last)
  {
  }

  lemma StepNext(p: Pagination, w: Window, num: int)
    requires p.perPage > 0 && num <= p.NbPages() && p.Shown(w, num)
    ensures p.LinksFrom(w, num, num - 1) == [Some(num)] + p.LinksFrom(w, num + 1, num)
  {
  }

  lemma StepGap(p: Pagination, w: Window, num: int, last: int)
    requires p.perPage > 0 && num <= p.NbPages() && p.Shown(w, num) && last + 1 != num
    ensures p.LinksFrom(w, num, last) == [None, Some(num)] + p.LinksFrom(w, num + 1, num)
  {
  }

  lemma StepHidden(p: Pagination, w: Window, num: int, last: int)
    requires p.perPage > 0 && num <= p.NbPages() && !p.Shown(w, num)
    ensures p.LinksFrom(w, num, last) == p.LinksFrom(w, num + 1, last)
  {
  }

  /** The example's first two pages, then nothing up to page 7. */
  lemma ExampleLeftEdge(p: Pagination, w: Window)
    requires p == Pagination(10, 10, 200) && w == DefaultWindow
    ensures p.LinksFrom(w, 1, 0) == [Some(1), Some(2)] + p.LinksFrom(w, 8, 2)
  {
    assert p.NbPages() == 20;
    StepNext(p, w, 1);
    StepNext(p, w, 2);
    ExampleHiddenLeft(p, w);
    var r := p.LinksFrom(w, 8, 2);
    assert [Some(1)] + ([Some(2)] + r) == [Some(1), Some(2)] + r;
  }

  /** Pages 3 to 7 are not shown. */
  lemma ExampleHiddenLeft(p: Pagination, w: Window)
    requires p == Pagination(10, 10, 200) && w == DefaultWindow
    ensures p.LinksFrom(w, 3, 2) == p.LinksFrom(w, 8, 2)
  {
    assert p.NbPages() == 20;
    StepHidden(p, w, 3, 2);
    StepHidden(p, w, 4, 2);
    StepHidden(p, w, 5, 2);
    StepHidden(p, w, 6, 2);
    StepHidden(p, w, 7, 2);
  }

  /** The window around page 10: a gap, then pages 8 to 14. */
  lemma ExampleWindow(p: Pagination, w: Window)
    requires p == Pagination(10, 10, 200) && w == DefaultWindow
    ensures p.LinksFrom(w, 8, 2)
         == [None, Some(8), Some(9), Some(10), Some(11), Some(12), Some(13), Some(14)] + p.LinksFrom(w, 15, 14)
  {
    ExampleWindowLow(p, w);
    ExampleWindowHigh(p, w);
    var r := p.LinksFrom(w, 15, 14);
    assert [None, Some(8), Some(9), Some(10), Some(11)] + ([Some(12), Some(13), Some(14)] + r)
        == [None, Some(8), Some(9), Some(10), Some(11), Some(12), Some(13), Some(14)] + r;
  }

  /** A gap after page 2, then pages 8 to 11. */
  lemma ExampleWindowLow(p: Pagination, w: Window)
    requires p == Pagination(10, 10, 200) && w == DefaultWindow
    ensures p.LinksFrom(w, 8, 2) == [None, Some(8), Some(9), Some(10), Some(11)] + p.LinksFrom(w, 12, 11)
  {
    assert p.NbPages() == 20;
    var r := p.LinksFrom(w, 12, 11);
    StepNext(p, w, 11);
    StepNext(p, w, 10);
    assert p.LinksFrom(w, 10, 9) == [Some(10), Some(11)] + r;
    StepNext(p, w, 9);
    assert p.LinksFrom(w, 9, 8) == [Some(9), Some(10), Some(11)] + r;
    StepGap(p, w, 8, 2);
  }

  /** Pages 12 to 14 follow page 11 directly. */
  lemma ExampleWindowHigh(p: Pagination, w: Window)
    requires p == Pagination(10, 10, 200) && w == DefaultWindow
    ensures p.LinksFrom(w, 12, 11) == [Some(12), Some(13), Some(14)] + p.LinksFrom(w, 15, 14)
  {
    assert p.NbPages() == 20;
    var r := p.LinksFrom(w, 15, 14);
    StepNext(p, w, 14);
    StepNext(p, w, 13);
    assert p.LinksFrom(w, 13, 12) == [Some(13), Some(14)] + r;
    StepNext(p, w, 12);
  }

  /** After page 14 nothing up to page 18, then a gap and pages 19 and 20. */
  lemma ExampleRightEdge(p: Pagination, w: Window)
    requires p == Pagination(10, 10, 200) && w == DefaultWindow
    ensures p.LinksFrom(w, 15, 14) == [None, Some(19), Some(20)]
  {
    assert p.NbPages() == 20;
    StepHidden(p, w, 15, 14);
    StepHidden(p, w, 16, 14);
    StepHidden(p, w, 17, 14);
    StepHidden(p, w, 18, 14);
    StepGap(p, w, 19, 14);
    StepNext(p, w, 20);
    assert p.LinksFrom(w, 21, 20) == [];
  }
}
