/** The development log panel: it shows the 50 most recent log entries,
    filtered by level and by category ("ALL" selects everything), and
    offers the categories that occur among them. */
module LogViewer {
  import opened Outcomes
  import opened JsList
  import opened LogService

  /** The panel calls `getRecentLogs()` without a count, so it takes the
      default. */
  const ViewedCount: int := DefaultRecentCount
  const AllCategories: string := "ALL"

  /** The level selector: "ALL" or one level. */
  datatype LevelChoice = AllLevels | OnlyLevel(level: LogLevel)

  /** `Array.from(new Set(xs))`: each value once, in the order of its first
      occurrence. */
  function DistinctInOrder(xs: seq<string>): (r: seq<string>)
    ensures forall x :: x in r <==> x in xs
    ensures forall i, j :: 0 <= i < j < |r| ==> r[i] != r[j]
  {
    if xs == [] then []
    else
      var init := xs[..|xs| - 1];
      var last := xs[|xs| - 1];
      assert xs == init + [last];
      var rest := DistinctInOrder(init);
      if last in rest then rest else rest + [last]
  }

  /** The position of the first occurrence of `x`. */
  function FirstIndex(xs: seq<string>, x: string): (k: nat)
    requires x in xs
    ensures k < |xs| && xs[k] == x
    ensures forall q :: 0 <= q < k ==> xs[q] != x
  {
    var init := xs[..|xs| - 1];
    if x in init then FirstIndex(init, x) else |xs| - 1
  }

  /** The distinct values are listed in the order in which they first
      occur. */
  lemma {:induction false} DistinctFirstOccurrenceOrder(xs: seq<string>)
    ensures forall i, j :: 0 <= i < j < |DistinctInOrder(xs)| ==>
      FirstIndex(xs, DistinctInOrder(xs)[i]) < FirstIndex(xs, DistinctInOrder(xs)[j])
  {
    if xs != [] {
      var init := xs[..|xs| - 1];
      var last := xs[|xs| - 1];
      var rest := DistinctInOrder(init);
      var r := DistinctInOrder(xs);
      DistinctFirstOccurrenceOrder(init);
      assert forall a, b :: 0 <= a < b < |rest| ==> FirstIndex(init, rest[a]) < FirstIndex(init, rest[b]);
      forall i, j | 0 <= i < j < |r|
        ensures FirstIndex(xs, r[i]) < FirstIndex(xs, r[j])
      {
        assert r[i] == rest[i] && rest[i] in init;
        assert FirstIndex(xs, r[i]) == FirstIndex(init, rest[i]);
        if j < |rest| {
          assert r[j] == rest[j] && rest[j] in init;
          assert FirstIndex(xs, r[j]) == FirstIndex(init, rest[j]);
          assert FirstIndex(init, rest[i]) < FirstIndex(init, rest[j]);
        } else {
          assert r[j] == last && last !in init;
          assert FirstIndex(xs, last) == |xs| - 1;
          assert FirstIndex(init, rest[i]) < |init|;
        }
      }
    }
  }

  /** `logs.map(log => log.category)`. */
  function CategoriesOf(logs: seq<LogEntry>): (cs: seq<string>)
    ensures |cs| == |logs| && forall i :: 0 <= i < |logs| ==> cs[i] == logs[i].category
  {
    seq(|logs|, (i: int) requires 0 <= i < |logs| => logs[i].category)
  }

  /** The filter of one entry. */
  predicate Matches(level: LevelChoice, category: string, e: LogEntry) {
    (level.AllLevels? || e.level == level.level) && (category == AllCategories || e.category == category)
  }

  function Matcher(level: LevelChoice, category: string): LogEntry -> bool {
    (e: LogEntry) => Matches(level, category, e)
  }

  /** `filteredLogs`. */
  function Shown(logs: seq<LogEntry>, level: LevelChoice, category: string): seq<LogEntry> {
    Filter(logs, Matcher(level, category))
  }

  /** The entries shown are exactly those matching both filters, in their
      original order; with both filters on "ALL" nothing is removed. */
  lemma ShownSpec(logs: seq<LogEntry>, level: LevelChoice, category: string)
    ensures forall e :: e in Shown(logs, level, category) <==> e in logs && Matches(level, category, e)
    ensures IsSubsequence(Shown(logs, level, category), logs)
    ensures level.AllLevels? && category == AllCategories ==> Shown(logs, level, category) == logs
  {
    FilterSpec(logs, Matcher(level, category));
    if level.AllLevels? && category == AllCategories {
      FilterKeepsAll(logs, Matcher(level, category));
    }
  }

  /** A category that is itself named "ALL" cannot be singled out:
      choosing it shows the entries of every category. */
  lemma CategoryNamedAllIsWildcard(logs: seq<LogEntry>, level: LevelChoice)
    ensures Shown(logs, level, "ALL") == Shown(logs, level, AllCategories)
    ensures forall e :: e in logs && (level.AllLevels? || e.level == level.level) ==> e in Shown(logs, level, "ALL")
  {
    FilterSpec(logs, Matcher(level, AllCategories));
  }

  /** What the viewer renders: the "Logs" button alone while the panel is
      closed, and with the panel open also the category choices and the
      entries shown. */
  datatype ViewerView =
    | ButtonOnly
    | OpenPanel(categories: seq<string>, entries: seq<LogEntry>)

  /** The panel's state. */
  class Viewer {
    var isOpen: bool
    var selectedLevel: LevelChoice
    var selectedCategory: string

    constructor ()
      ensures !isOpen && selectedLevel == AllLevels && selectedCategory == AllCategories
    {
      isOpen, selectedLevel, selectedCategory := false, AllLevels, AllCategories;
    }

    /** What is rendered: nothing outside development builds; otherwise
        the button, and while the panel is open the 50 newest entries of
        the log, filtered, and their distinct categories. */
    function Rendered(isDev: bool, logger: LogService): (v: Option<ViewerView>)
      reads this, logger
      ensures v.None? <==> !isDev
      ensures v.Some? ==> (v.value.OpenPanel? <==> isOpen)
      ensures v.Some? && v.value.OpenPanel? ==>
        |v.value.entries| <= ViewedCount && |v.value.categories| <= ViewedCount
      ensures v.Some? && v.value.OpenPanel? ==>
        v.value.entries == Shown(logger.RecentLogs(ViewedCount), selectedLevel, selectedCategory) &&
        v.value.categories == DistinctInOrder(CategoriesOf(logger.RecentLogs(ViewedCount)))
    {
      if !isDev then None
      else if !isOpen then Some(ButtonOnly)
      else
        var recent := logger.RecentLogs(ViewedCount);
        var categories := DistinctInOrder(CategoriesOf(recent));
        CountDistinct(CategoriesOf(recent));
        FilterSpec(recent, Matcher(selectedLevel, selectedCategory));
        Some(OpenPanel(categories, Shown(recent, selectedLevel, selectedCategory)))
    }

    method Toggle()
      modifies this
      ensures isOpen == !old(isOpen)
      ensures selectedLevel == old(selectedLevel) && selectedCategory == old(selectedCategory)
    {
      isOpen := !isOpen;
    }

    method SelectLevel(level: LevelChoice)
      modifies this
      ensures selectedLevel == level && isOpen == old(isOpen) && selectedCategory == old(selectedCategory)
    {
      selectedLevel := level;
    }

    method SelectCategory(category: string)
      modifies this
      ensures selectedCategory == category && isOpen == old(isOpen) && selectedLevel == old(selectedLevel)
    {
      selectedCategory := category;
    }
  }

  /** There are never more distinct values than values. */
  lemma {:induction false} CountDistinct(xs: seq<string>)
    ensures |DistinctInOrder(xs)| <= |xs|
  {
    if xs != [] {
      CountDistinct(xs[..|xs| - 1]);
    }
  }
}
