/** The page window of the two pagination components: which page buttons
    are shown, where the "..." markers go, and which of the first /
    previous / next / last buttons are disabled. Both components compute
    the same window; `Gap` stands for the `-1` marker. */
module PageWindow {
  import opened Outcomes

  const Gap: int := -1
  const MaxButtons: nat := 7

  /** `paginationConfig.enabled`. */
  const PaginationEnabled: bool := true

  /** `Array.from({ length: total }, (_, i) => i + 1)`; a length below zero
      gives the empty array. */
  function PageNumbers(total: int): (pages: seq<int>)
    ensures |pages| == if total < 0 then 0 else total
    ensures forall i :: 0 <= i < |pages| ==> pages[i] == i + 1
  {
    seq(if total < 0 then 0 else total, (i: int) => i + 1)
  }

  /** `getVisiblePages(current, total)`. */
  function VisiblePages(current: int, total: int): (w: seq<int>)
    ensures |w| <= MaxButtons
  {
    var pages := PageNumbers(total);
    if total <= 7 then pages
    else if current <= 4 then pages[..5] + [Gap, total]
    else if current >= total - 3 then [1, Gap] + pages[total - 5..]
    else [1, Gap, current - 1, current, current + 1, Gap, total]
  }

  /** `w` is a compressed listing of the pages `1..total`: it starts at 1
      and ends at `total`, every entry is a page in range or a gap marker,
      neighbouring pages are consecutive, and a gap marker sits between two
      pages with at least one page hidden between them. */
  ghost predicate CompressedListing(w: seq<int>, total: int) {
    (w != [] ==> w[0] == 1 && w[|w| - 1] == total)
    && (forall i :: 0 <= i < |w| ==> w[i] == Gap || 1 <= w[i] <= total)
    && (forall i :: 0 <= i < |w| - 1 && w[i] != Gap && w[i + 1] != Gap ==> w[i + 1] == w[i] + 1)
    && (forall i :: 0 <= i < |w| && w[i] == Gap ==>
          0 < i < |w| - 1 && w[i - 1] != Gap && w[i + 1] != Gap && w[i + 1] > w[i - 1] + 1)
  }

  /** In a compressed listing the pages shown are strictly increasing. */
  lemma {:induction false} CompressedListingIncreasing(w: seq<int>, total: int, i: nat, j: nat)
    requires CompressedListing(w, total)
    requires i < j < |w| && w[i] != Gap && w[j] != Gap
    ensures w[i] < w[j]
    decreases j - i
  {
    if j == i + 1 {
    } else if w[i + 1] != Gap {
      CompressedListingIncreasing(w, total, i + 1, j);
    } else {
      assert w[i + 2] != Gap && w[i + 2] > w[i];
      if j > i + 2 {
        CompressedListingIncreasing(w, total, i + 2, j);
      }
    }
  }

  /** The four cases of the window, as the component lists them. */
  lemma VisiblePagesCases(current: int, total: int)
    ensures 0 <= total <= 7 ==> VisiblePages(current, total) == seq(total, (i: int) => i + 1)
    ensures total < 0 ==> VisiblePages(current, total) == []
    ensures total > 7 && current <= 4 ==> VisiblePages(current, total) == [1, 2, 3, 4, 5, Gap, total]
    ensures total > 7 && 4 < current && current >= total - 3 ==>
      VisiblePages(current, total) == [1, Gap, total - 4, total - 3, total - 2, total - 1, total]
    ensures total > 7 && 4 < current < total - 3 ==>
      VisiblePages(current, total) == [1, Gap, current - 1, current, current + 1, Gap, total]
  {
    var pages := PageNumbers(total);
    if total > 7 {
      assert pages[..5] == [1, 2, 3, 4, 5];
      assert pages[total - 5..] == [total - 4, total - 3, total - 2, total - 1, total];
    }
  }

  /** Every window is a compressed listing of `1..total`. */
  lemma VisiblePagesCompressed(current: int, total: int)
    ensures CompressedListing(VisiblePages(current, total), total)
  {
    VisiblePagesCases(current, total);
    if total <= 7 {
      AllPagesCompressed(total);
    } else if current <= 4 {
      GapBeforeLastCompressed(total);
    } else if current >= total - 3 {
      GapAfterFirstCompressed(total);
    } else {
      TwoGapsCompressed(current, total);
    }
  }

  /** A window with every page is a compressed listing. */
  lemma AllPagesCompressed(total: int)
    requires total <= 7
    ensures CompressedListing(if total < 0 then [] else seq(total, (i: int) => i + 1), total)
  {
  }

  /** The window near the start: pages 1 to 5, a gap, the last page. */
  lemma GapBeforeLastCompressed(total: int)
    requires total > 7
    ensures CompressedListing([1, 2, 3, 4, 5, Gap, total], total)
  {
  }

  /** The window near the end: page 1, a gap, the last five pages. */
  lemma GapAfterFirstCompressed(total: int)
    requires total > 7
    ensures CompressedListing([1, Gap, total - 4, total - 3, total - 2, total - 1, total], total)
  {
  }

  /** The window in the middle: page 1, a gap, the current page and its
      neighbours, a gap, the last page. */
  lemma TwoGapsCompressed(current: int, total: int)
    requires total > 7 && 4 < current < total - 3
    ensures CompressedListing([1, Gap, current - 1, current, current + 1, Gap, total], total)
  {
  }

  /** For a current page in range, the window shows it, the first page and
      the last page. */
  lemma VisiblePagesShowAnchors(current: int, total: int)
    requires 1 <= current <= total
    ensures current in VisiblePages(current, total)
    ensures 1 in VisiblePages(current, total)
    ensures total in VisiblePages(current, total)
  {
    var w := VisiblePages(current, total);
    VisiblePagesCases(current, total);
    if total <= 7 {
      assert w[current - 1] == current && w[0] == 1 && w[total - 1] == total;
    } else if current <= 4 {
      assert w[current - 1] == current;
    } else if current >= total - 3 {
      assert w[current - total + 6] == current;
    }
  }

  /** What the navigation buttons look like: the window, and which of the
      first / previous / next / last buttons are disabled. */
  datatype Navigation = Navigation(pages: seq<int>, firstDisabled: bool, previousDisabled: bool,
                                   nextDisabled: bool, lastDisabled: bool)

  /** The page a button leads to. */
  datatype Button = First | Previous | Next | Last

  function Target(b: Button, current: int, total: int): int {
    match b
    case First => 1
    case Previous => current - 1
    case Next => current + 1
    case Last => total
  }

  function IsDisabled(nav: Navigation, b: Button): bool {
    match b
    case First => nav.firstDisabled
    case Previous => nav.previousDisabled
    case Next => nav.nextDisabled
    case Last => nav.lastDisabled
  }

  /** The navigation of `Pagination`, always rendered. */
  function Paged(current: int, total: int): (nav: Navigation)
    ensures nav.pages == VisiblePages(current, total)
    ensures nav.firstDisabled == nav.previousDisabled == (current == 1)
    ensures nav.nextDisabled == nav.lastDisabled == (current == total)
  {
    Navigation(VisiblePages(current, total), current == 1, current == 1, current == total, current == total)
  }

  /** The navigation of `PaginationControls`: nothing is rendered when
      pagination is switched off or there is at most one page. */
  function Controls(enabled: bool, current: int, total: int): (nav: Option<Navigation>)
    ensures nav.None? <==> !enabled || total <= 1
    ensures nav.Some? ==> nav.value == Paged(current, total)
  {
    if !enabled || total <= 1 then None else Some(Paged(current, total))
  }

  /** With pagination switched on, as configured, the controls appear
      exactly when there is more than one page. */
  lemma ConfiguredControls(current: int, total: int)
    ensures Controls(PaginationEnabled, current, total).Some? <==> total > 1
  {
  }

  /** With the current page in range, every enabled button leads to a page
      in range other than the current one, and only the buttons that would
      leave the current page where it is are disabled. */
  lemma EnabledButtonsStayInRange(current: int, total: int, b: Button)
    requires 1 <= current <= total
    ensures !IsDisabled(Paged(current, total), b) ==>
      1 <= Target(b, current, total) <= total && Target(b, current, total) != current
    ensures IsDisabled(Paged(current, total), b) <==>
      Target(b, current, total) == current || !(1 <= Target(b, current, total) <= total)
  {
  }
}
