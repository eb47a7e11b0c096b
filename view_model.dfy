/** The pagination controller: a loading flag and the accumulated list of
    records. A load is split into a start step and one completion step
    (success or failure), so overlapping loads are interleavings of steps. */
module ViewModel {
  import opened Model
  import MockServer

  /** What the screen observes of the controller. */
  datatype ControllerState = ControllerState(loading: bool, list: seq<TestDataModel>)

  /** The state of a freshly created controller. */
  const Idle: ControllerState := ControllerState(false, [])

  /** A load has been issued: the flag goes up, the list is untouched. */
  function Started(s: ControllerState): (r: ControllerState)
    ensures r.loading && r.list == s.list
  {
    s.(loading := true)
  }

  /** A fetch answered `page`: the flag goes down; an offset of 0 discards the
      old list, any other offset keeps it as an unchanged prefix; the page
      follows, in order. */
  function Succeeded(s: ControllerState, offset: int, page: seq<TestDataModel>): (r: ControllerState)
    ensures !r.loading
    ensures |r.list| == (if offset == 0 then 0 else |s.list|) + |page|
    ensures offset != 0 ==> r.list[..|s.list|] == s.list
    ensures r.list[|r.list| - |page|..] == page
  {
    ControllerState(false, if offset == 0 then page else s.list + page)
  }

  /** A fetch threw: the flag goes down and nothing else changes. */
  function Failed(s: ControllerState): (r: ControllerState)
    ensures !r.loading && r.list == s.list
  {
    s.(loading := false)
  }

  /** One whole load that no other load overlaps: start, then the fetch
      either answers the server's page or throws. */
  function Load(s: ControllerState, offset: int, limit: int, fails: bool): (r: ControllerState)
    ensures !r.loading
    ensures fails ==> r.list == s.list
    ensures !fails && offset == 0 ==> r.list == MockServer.Page(offset, limit)
    ensures !fails && offset != 0 ==> r.list == s.list + MockServer.Page(offset, limit)
  {
    var t := Started(s);
    if fails then Failed(t) else Succeeded(t, offset, MockServer.Page(offset, limit))
  }

  class TestViewModelState {
    var loading: bool

    constructor ()
      ensures !loading
    {
      loading := false;
    }

    /** Sets the flag to exactly `isLoading`; the object has no other state. */
    method ToggleLoading(isLoading: bool)
      modifies this
      ensures loading == isLoading
    {
      loading := isLoading;
    }
  }

  class TestViewModel {
    const state: TestViewModelState
    var list: seq<TestDataModel>

    constructor ()
      ensures fresh(state) && Observed() == Idle
    {
      state := new TestViewModelState();
      list := [];
    }

    function Observed(): ControllerState
      reads this, state
    {
      ControllerState(state.loading, list)
    }

    /** The start of a load, before any fetch work. */
    method Start()
      modifies state
      ensures Observed() == Started(old(Observed()))
    {
      state.ToggleLoading(true);
    }

    /** The completion of a load issued with `offset` whose fetch answered `page`. */
    method CompleteOk(offset: int, page: seq<TestDataModel>)
      modifies this, state
      ensures Observed() == Succeeded(old(Observed()), offset, page)
    {
      state.ToggleLoading(false);
      if offset == 0 {
        list := [];
      }
      list := list + page;
    }

    /** The completion of a load whose fetch threw. */
    method CompleteFail()
      modifies state
      ensures Observed() == Failed(old(Observed()))
    {
      state.ToggleLoading(false);
    }

    /** A load run to completion with no other load in between; `fails` says
        whether awaiting the fetch throws. */
    method FetchData(offset: int, limit: int, fails: bool)
      modifies this, state
      ensures Observed() == Load(old(Observed()), offset, limit, fails)
    {
      Start();
      if fails {
        CompleteFail();
      } else {
        var page := MockServer.FetchData(offset, limit);
        CompleteOk(offset, page);
      }
    }
  }
}
