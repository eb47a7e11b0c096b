/** The screen's logic: which page each user event requests, when load-more
    is requested, and how the grid width is split into two columns. */
module Screen {
  import opened Model
  import MockServer
  import opened ViewModel

  datatype Event = InitialLoad | LoadMore | Refresh

  datatype Request = Request(offset: int, limit: int)

  /** The `(offset, limit)` an event passes to the view model: the first
      load and a refresh ask for the start of the dataset, load-more
      continues at the current list size. */
  function RequestFor(e: Event, listSize: nat): (r: Request)
    ensures 0 <= r.offset && 0 < r.limit
    ensures e != LoadMore ==> r.offset == 0
  {
    match e
    case InitialLoad => Request(0, 10)
    case LoadMore => Request(listSize, 15)
    case Refresh => Request(0, 20)
  }

  /** The controller after an event's load, issued and completed with no other load in between. */
  function Handle(s: ControllerState, e: Event, fails: bool): ControllerState
  {
    var q := RequestFor(e, |s.list|);
    Load(s, q.offset, q.limit, fails)
  }

  /** The screen's first composition starts the initial load. */
  method OnInitialLoad(vm: TestViewModel, fails: bool)
    modifies vm, vm.state
    ensures vm.Observed() == Handle(old(vm.Observed()), InitialLoad, fails)
  {
    vm.FetchData(0, 10, fails);
  }

  /** Rendering the last item asks for the next page. */
  method OnLoadMore(vm: TestViewModel, fails: bool)
    modifies vm, vm.state
    ensures vm.Observed() == Handle(old(vm.Observed()), LoadMore, fails)
  {
    vm.FetchData(|vm.list|, 15, fails);
  }

  /** The pull-to-refresh gesture reloads from the start. */
  method OnRefresh(vm: TestViewModel, fails: bool)
    modifies vm, vm.state
    ensures vm.Observed() == Handle(old(vm.Observed()), Refresh, fails)
  {
    vm.FetchData(0, 20, fails);
  }

  /** Whether rendering the item at `index` of a list of `size` items launches load-more. */
  predicate RequestsLoadMore(index: int, size: int)
  {
    index == size - 1
  }

  /** The positions of a rendered list whose item launches load-more. */
  function LoadMorePositions(size: nat): set<nat>
  {
    set i: nat | i < size && RequestsLoadMore(i, size)
  }

  /** Load-more is launched by the last item alone, and never by an empty list. */
  lemma LoadMoreOnlyAtLastItem(size: nat)
    ensures LoadMorePositions(size) == if size == 0 then {} else {size - 1}
  {
  }

  /** Integer division as the source's language does it: toward zero. */
  function TruncDiv(a: int, b: int): (q: int)
    requires b > 0
    ensures 0 <= a ==> 0 <= q * b <= a < q * b + b
    ensures a < 0 ==> q * b - b < a <= q * b <= 0
  {
    var m := if a >= 0 then a else -a;
    assert m == (m / b) * b + m % b && 0 <= m % b < b;
    if a >= 0 then m / b else -(m / b)
  }

  /** Splits the width left after spacing into a wide first column (two
      thirds, rounded toward zero) and the rest. */
  function CrossAxisCellSizes(availableSize: int, spacing: int): (r: seq<int>)
    ensures |r| == 2
    ensures r[0] + r[1] == availableSize - spacing
  {
    var total := availableSize - spacing;
    var first := TruncDiv(total * 2, 3);
    [first, total - first]
  }

  /** With room to spare, both columns are non-negative, the first is two
      thirds of the total rounded down and twice the second up to rounding;
      it is the wider one except at a total of exactly 1. */
  lemma ColumnSplitNonNegative(availableSize: int, spacing: int)
    requires availableSize - spacing >= 0
    ensures var r := CrossAxisCellSizes(availableSize, spacing);
      0 <= r[1] && 0 <= r[0] && r[0] == (availableSize - spacing) * 2 / 3 &&
      2 * r[1] - 2 <= r[0] <= 2 * r[1] &&
      (availableSize - spacing != 1 ==> r[1] <= r[0])
  {
  }

  /** With a negative total, rounding toward zero makes the first column the
      more negative one, except at a total of exactly -1. */
  lemma ColumnSplitNegative(availableSize: int, spacing: int)
    requires availableSize - spacing < 0
    ensures var r := CrossAxisCellSizes(availableSize, spacing);
      r[0] <= 0 && r[1] <= 0 && 2 * r[1] <= r[0] <= 2 * r[1] + 2 &&
      (availableSize - spacing != -1 ==> r[0] <= r[1])
  {
  }

  /** A total of one unit goes entirely to the second column. */
  lemma ColumnSplitOfOne(availableSize: int)
    ensures CrossAxisCellSizes(availableSize, availableSize - 1) == [0, 1]
  {
  }

  /** The list holds records 0, 1, ..., |list| - 1 of the dataset, in order,
      with no gap and no repeat. */
  ghost predicate Contiguous(list: seq<TestDataModel>)
  {
    list == MockServer.Page(0, |list|)
  }

  /** A contiguous list is within the dataset and each record sits at its own index. */
  lemma ContiguousShape(list: seq<TestDataModel>)
    requires Contiguous(list)
    ensures |list| <= MockServer.Ceiling
    ensures forall i :: 0 <= i < |list| ==> list[i] == MockServer.Item(i)
  {
    MockServer.PageShape(0, |list|);
  }

  /** Asking for more than the dataset holds from 0 gives the whole dataset. */
  lemma PageFromZeroCapped(n: int)
    requires n >= MockServer.Ceiling
    ensures MockServer.Page(0, n) == MockServer.Page(0, MockServer.Ceiling)
  {
    MockServer.PageSplit(0, MockServer.Ceiling, n - MockServer.Ceiling);
  }

  /** A page from 0 is a contiguous list. */
  lemma PageFromZeroContiguous(n: int)
    requires n >= 0
    ensures Contiguous(MockServer.Page(0, n))
  {
    MockServer.PageShape(0, n);
    if n > MockServer.Ceiling {
      PageFromZeroCapped(n);
    }
  }

  /** Loads that do not overlap keep the list contiguous, whichever event
      issued them and whether or not they fail; a successful load-more grows
      it by 15 records, up to the end of the dataset. */
  lemma EventKeepsContiguous(s: ControllerState, e: Event, fails: bool)
    requires Contiguous(s.list)
    ensures Contiguous(Handle(s, e, fails).list)
    ensures e == LoadMore && !fails ==>
      |Handle(s, e, fails).list| == if |s.list| + 15 <= MockServer.Ceiling then |s.list| + 15 else MockServer.Ceiling
  {
    var n := |s.list|;
    ContiguousShape(s.list);
    var q := RequestFor(e, n);
    if !fails {
      if q.offset == 0 {
        PageFromZeroContiguous(q.limit);
        if e == LoadMore {
          MockServer.PageShape(0, 15);
        }
      } else {
        MockServer.PageSplit(0, n, 15);
        PageFromZeroContiguous(n + 15);
        MockServer.PageShape(0, n + 15);
      }
    }
  }

  /** The controller after a sequence of events whose loads do not overlap. */
  function Run(s: ControllerState, events: seq<(Event, bool)>): ControllerState
    decreases |events|
  {
    if events == [] then s else Run(Handle(s, events[0].0, events[0].1), events[1..])
  }

  /** From any state whose list is contiguous (a fresh controller's empty
      list is one), any sequence of non-overlapping loads keeps the list
      contiguous and, if there was a load, leaves the flag down. */
  lemma {:induction false} RunKeepsContiguous(s: ControllerState, events: seq<(Event, bool)>)
    requires Contiguous(s.list)
    ensures Contiguous(Run(s, events).list)
    ensures events != [] ==> !Run(s, events).loading
    decreases |events|
  {
    if events != [] {
      var t := Handle(s, events[0].0, events[0].1);
      EventKeepsContiguous(s, events[0].0, events[0].1);
      RunKeepsContiguous(t, events[1..]);
    }
  }

  /** The initial load gives records 0 .. 9 and lowers the flag, whatever was there before. */
  lemma InitialLoadGivesFirstTen(s: ControllerState)
    ensures var r := Handle(s, InitialLoad, false);
      !r.loading && |r.list| == 10 && forall i :: 0 <= i < 10 ==> r.list[i].index == i
  {
  }

  /** The initial load followed by load-more gives records 0 .. 24. */
  lemma InitialThenLoadMore(s: ControllerState)
    ensures var r := Handle(Handle(s, InitialLoad, false), LoadMore, false);
      !r.loading && |r.list| == 25 && forall i :: 0 <= i < 25 ==> r.list[i].index == i
  {
    MockServer.PageSplit(0, 10, 15);
    MockServer.PageShape(0, 10);
    MockServer.PageShape(0, 25);
  }

  /** A refresh replaces, never appends: afterwards the list is records 0 .. 19. */
  lemma RefreshReplaces(s: ControllerState)
    ensures var r := Handle(s, Refresh, false);
      !r.loading && |r.list| == 20 && forall i :: 0 <= i < 20 ==> r.list[i].index == i
  {
    MockServer.PageShape(0, 20);
  }

  /** Two overlapping loads, issued on the list 0 .. 9 (a refresh, then a
      load-more at offset 10), each apply their own rule when they complete,
      so the outcome depends on the completion order: refresh first leaves 35
      records with indices 10 .. 19 twice; load-more first leaves 0 .. 19. */
  lemma OverlapOrderMatters()
    ensures var s := Started(Started(ControllerState(false, MockServer.Page(0, 10))));
      var refreshFirst := Succeeded(Succeeded(s, 0, MockServer.Page(0, 20)), 10, MockServer.Page(10, 15));
      var loadMoreFirst := Succeeded(Succeeded(s, 10, MockServer.Page(10, 15)), 0, MockServer.Page(0, 20));
      |refreshFirst.list| == 35 && refreshFirst.list[10].index == refreshFirst.list[20].index == 10 &&
      |loadMoreFirst.list| == 20 && forall i :: 0 <= i < 20 ==> loadMoreFirst.list[i].index == i
  {
    MockServer.PageShape(0, 20);
    MockServer.PageShape(10, 15);
  }

  /** With two loads outstanding, the first completion lowers the flag
      although the other fetch is still in flight. */
  lemma OverlapLowersFlagEarly(s: ControllerState, offset: int, page: seq<TestDataModel>)
    ensures !Succeeded(Started(Started(s)), offset, page).loading
    ensures !Failed(Started(Started(s))).loading
  {
  }

  /** Load-more can be issued twice at the same list size (the effect that
      requests it restarts when the last item re-enters composition). Two
      such loads on the list 0 .. 9 both append at offset 10: 40 records,
      with indices 10 .. 24 twice. */
  lemma OverlapDoubleLoadMore()
    ensures var s := Started(Started(ControllerState(false, MockServer.Page(0, 10))));
      var r := Succeeded(Succeeded(s, 10, MockServer.Page(10, 15)), 10, MockServer.Page(10, 15));
      !r.loading && |r.list| == 40 &&
      (forall j :: 0 <= j < 25 ==> r.list[j].index == j) &&
      (forall j :: 25 <= j < 40 ==> r.list[j].index == j - 15)
  {
    MockServer.PageShape(0, 10);
    MockServer.PageShape(10, 15);
  }
}
