# Compose grid demo: pagination model

This project models the logic of a small Android demo app. The app shows a
two-column grid of placeholder records and pages them in from a mock
server. There are three parts:

- **Mock server** (`MockServer`, `mock_server.dfy`). `FetchData(offset, limit)`
  builds a page in a loop over the indices `offset .. offset + limit - 1`.
  It returns early the moment the index equals 42. `Page` and `Emitted` give
  the loop's meaning as a recursive function. `PageShape` proves the page's
  closed form: records `offset, offset + 1, ...`, with length `PageLength`.
  The stop is an equality test. So a range that crosses 42 is cut at 41, a
  range that starts at 42 is empty, and a range that starts above 42 is full.
- **View model** (`ViewModel`, `view_model.dfy`). There are two classes, as
  in the source:
  - `TestViewModelState` holds the `loading` flag.
  - `TestViewModel` holds `state` and the record `list`.

  A load is split into `Start`, `CompleteOk(offset, page)` and
  `CompleteFail`. Overlapping loads are therefore interleavings of these
  steps. Each step is specified by a function on the observed
  `ControllerState`: `Started`, `Succeeded` and `Failed`. `FetchData` runs
  one load to completion.
- **Screen** (`Screen`, `screen.dfy`). This part covers:
  - the `(offset, limit)` each event issues: initial load `(0, 10)`,
    load-more `(list size, 15)`, refresh `(0, 20)`;
  - the rule that only the last rendered item launches load-more;
  - the integer split of the grid width into two columns.

  The end-to-end lemmas combine all three parts. For example, an initial
  load followed by load-more gives indices 0..24. Also, any sequence of
  loads that do not overlap keeps the list a contiguous prefix
  `0 .. n - 1` of the dataset.

The source's `/` is Kotlin's `Int` division, which truncates toward zero.
`TruncDiv` writes this out, because Dafny's `/` is Euclidean. For a total
width of exactly 1, the split gives `[0, 1]`: that is the one non-negative
total where the first column is narrower than the second (`ColumnSplitOfOne`).

Two points where the code and its usual description differ. In both cases
the model follows the code:
- An offset past 42 does not give an empty page. The test is `i == 42`, so
  the page is full (`PastCeilingFullPage`).
- The claim "loading is true while a fetch is outstanding" holds only when
  loads do not overlap. With two loads in flight, the first completion
  already lowers the flag (`OverlapLowersFlagEarly`).

## Model

| member | source | states |
|---|---|---|
| `MockServer.FetchData` | app/src/main/java/com/example/myapplication/mockserver/MockServer.kt:8-26 | the loop with its early return at index 42 builds exactly the page `Page(offset, limit)` |
| `MockServer.PageShape` | app/src/main/java/com/example/myapplication/mockserver/MockServer.kt:11-23 | the record at position j is the index `offset + j` with the launcher image and content "grid item"; the length is `limit` (0 if `limit <= 0`), except that a range crossing 42 has length `42 - offset` |
| `MockServer.FullPageBelowCeiling` | app/src/main/java/com/example/myapplication/mockserver/MockServer.kt:11-23 | for `offset >= 0`, `limit > 0`, `offset + limit <= 42`: exactly `limit` records with indices `offset .. offset + limit - 1`, in order |
| `MockServer.CeilingNeverEmitted` | app/src/main/java/com/example/myapplication/mockserver/MockServer.kt:13-15 | no page holds a record with index 42 |
| `MockServer.CrossingPageTruncated` | app/src/main/java/com/example/myapplication/mockserver/MockServer.kt:11-15 | if `offset <= 42 < offset + limit`, the page is indices `offset .. 41`, with length `42 - offset` |
| `MockServer.PageAtCeilingEmpty` | app/src/main/java/com/example/myapplication/mockserver/MockServer.kt:11-14 | a request at offset 42 returns nothing, for any limit |
| `MockServer.PastCeilingFullPage` | app/src/main/java/com/example/myapplication/mockserver/MockServer.kt:11-15 | above 42 the early return never fires: `limit` records with indices `offset .. offset + limit - 1` |
| `MockServer.NonPositiveLimitEmpty` | app/src/main/java/com/example/myapplication/mockserver/MockServer.kt:11 | a limit of 0 or less gives an empty page |
| `MockServer.PageBounded` | app/src/main/java/com/example/myapplication/mockserver/MockServer.kt:11-23 | a page never holds more than `max(limit, 0)` records; every record has content "grid item" and the launcher image |
| `MockServer.PageSplit` | app/src/main/java/com/example/myapplication/mockserver/MockServer.kt:11-25 | below 42, the page at `offset` of `a` records followed by the page at `offset + a` of `b` records is the page at `offset` of `a + b` records |
| `ViewModel.Started` | app/src/main/java/com/example/myapplication/viewmodel/TestViewModel.kt:26 | starting a load raises the flag and leaves the list unchanged |
| `ViewModel.Succeeded` | app/src/main/java/com/example/myapplication/viewmodel/TestViewModel.kt:37-43 | a successful completion lowers the flag; for offset 0 the list becomes the page, otherwise the old list stays an unchanged prefix; the page is the suffix, in order; the new length is the page length, or the old length plus the page length |
| `ViewModel.Failed` | app/src/main/java/com/example/myapplication/viewmodel/TestViewModel.kt:47-50 | a failed completion lowers the flag and leaves the list unchanged |
| `ViewModel.Load` | app/src/main/java/com/example/myapplication/viewmodel/TestViewModel.kt:24-52 | a load that no other load overlaps ends with the flag down; if it fails the list is unchanged; otherwise the list is replaced by the server page (offset 0) or has the page appended |
| `ViewModel.TestViewModelState.constructor` | app/src/main/java/com/example/myapplication/viewmodel/TestViewModel.kt:13 | the flag starts false |
| `ViewModel.TestViewModelState.ToggleLoading` | app/src/main/java/com/example/myapplication/viewmodel/TestViewModel.kt:14-16 | the flag becomes exactly the argument, and nothing else changes |
| `ViewModel.TestViewModel.constructor` | app/src/main/java/com/example/myapplication/viewmodel/TestViewModel.kt:21-22 | a new view model is idle, with an empty list and a fresh state object |
| `ViewModel.TestViewModel.Start` | app/src/main/java/com/example/myapplication/viewmodel/TestViewModel.kt:26 | the observed state becomes `Started` of the old one; the list is not touched |
| `ViewModel.TestViewModel.CompleteOk` | app/src/main/java/com/example/myapplication/viewmodel/TestViewModel.kt:36-43 | the observed state becomes `Succeeded` of the old one, through clear-then-append on the list |
| `ViewModel.TestViewModel.CompleteFail` | app/src/main/java/com/example/myapplication/viewmodel/TestViewModel.kt:47-50 | the observed state becomes `Failed` of the old one |
| `ViewModel.TestViewModel.FetchData` | app/src/main/java/com/example/myapplication/viewmodel/TestViewModel.kt:24-52 | start, fetch from the mock server, then complete: the observed state becomes `Load` of the old one |
| `Screen.RequestFor` | app/src/main/java/com/example/myapplication/MainActivity.kt:93-139 | every request has a non-negative offset and a positive limit; only load-more asks for an offset other than 0 |
| `Screen.OnInitialLoad` | app/src/main/java/com/example/myapplication/MainActivity.kt:137-139 | the first composition runs the load `(0, 10)` |
| `Screen.OnLoadMore` | app/src/main/java/com/example/myapplication/MainActivity.kt:102-104 | load-more runs the load `(list size, 15)` |
| `Screen.OnRefresh` | app/src/main/java/com/example/myapplication/MainActivity.kt:93-94 | refresh runs the load `(0, 20)` |
| `Screen.LoadMoreOnlyAtLastItem` | app/src/main/java/com/example/myapplication/MainActivity.kt:185-189 | of the rendered positions, only the last (`index == size - 1`) launches load-more; an empty list never does |
| `Screen.TruncDiv` | app/src/main/java/com/example/myapplication/MainActivity.kt:155 | integer division toward zero: the quotient times the divisor lies between 0 and the dividend, and less than one divisor away from it |
| `Screen.CrossAxisCellSizes` | app/src/main/java/com/example/myapplication/MainActivity.kt:151-159 | exactly two sizes, which sum to `availableSize - spacing` |
| `Screen.ColumnSplitNonNegative` | app/src/main/java/com/example/myapplication/MainActivity.kt:155-156 | for a non-negative total: both sizes are non-negative; the first is `total * 2 / 3` rounded down and lies between twice the second minus 2 and twice the second; the first is at least the second unless the total is 1 |
| `Screen.ColumnSplitNegative` | app/src/main/java/com/example/myapplication/MainActivity.kt:155-156 | for a negative total: both sizes are non-positive; the first is at most the second unless the total is -1 |
| `Screen.ColumnSplitOfOne` | app/src/main/java/com/example/myapplication/MainActivity.kt:155-158 | a total of 1 splits as `[0, 1]` |
| `Screen.EventKeepsContiguous` | app/src/main/java/com/example/myapplication/MainActivity.kt:93-104 | a load that no other load overlaps, from any event, keeps a contiguous list `0 .. n - 1` contiguous; a successful load-more grows it to `min(n + 15, 42)` |
| `Screen.RunKeepsContiguous` | app/src/main/java/com/example/myapplication/viewmodel/TestViewModel.kt:24-52 | any sequence of non-overlapping loads, succeeding or failing, keeps the list contiguous and ends with the flag down |
| `Screen.InitialLoadGivesFirstTen` | app/src/main/java/com/example/myapplication/MainActivity.kt:137-139 | after the initial load the list is indices 0..9 and the flag is down, whatever was there before |
| `Screen.InitialThenLoadMore` | app/src/main/java/com/example/myapplication/MainActivity.kt:102-104 | initial load then load-more gives indices 0..24 |
| `Screen.RefreshReplaces` | app/src/main/java/com/example/myapplication/MainActivity.kt:93-94 | refresh replaces whatever was loaded with indices 0..19 |
| `Screen.OverlapOrderMatters` | app/src/main/java/com/example/myapplication/viewmodel/TestViewModel.kt:39-43 | two overlapping loads (refresh and load-more at 10) each apply their own rule when they complete; refresh first gives 35 records with index 10 twice, load-more first gives 0..19 |
| `Screen.OverlapLowersFlagEarly` | app/src/main/java/com/example/myapplication/viewmodel/TestViewModel.kt:26-37 | with two loads outstanding, the first completion (success or failure) lowers the flag |
| `Screen.OverlapDoubleLoadMore` | app/src/main/java/com/example/myapplication/MainActivity.kt:102-104 | two load-mores issued at the same list size 0..9 both append their page: 40 records, with indices 10..24 twice |

## Left out

- All Compose UI is left out, because it is presentation over libraries outside the model. This covers layout, cards, images, theming, ripple, the loading overlay, the toast on click, the swipe-refresh indicator, `Greeting`/`DefaultPreview` and the activity lifecycle.
- Coroutines (`launch`, `async` on the IO dispatcher, `delay(500)`, `await`) are left out. A load is a `Start` step followed later by one completion step. Real concurrency is not modelled; overlapping loads are interleavings of these steps.
- Why `await` might throw is code outside the model. Failure is the `fails` parameter of `FetchData` and of the screen events. `e.printStackTrace()` logging is dropped.
- Observable state (`mutableStateOf`, `mutableStateListOf`) and recomposition are not modelled. The flag is a plain field and the list a plain sequence.
- Compose's effect restart rules (the `LaunchedEffect` key `list.size`, re-entry of the last item into composition) are not modelled; load-more may be issued more than once at the same list size, for example after scrolling the last item out and back, or after a refresh brings the list back to a size it had before. `LoadMoreOnlyAtLastItem` models only which item requests it; `OverlapDoubleLoadMore` shows what two load-mores at the same size do.
- Grid keys from `item.hashCode()` are not modelled. The resource id `R.mipmap.ic_launcher` is the constant `IcLauncher`, whose value is a placeholder that no lemma depends on.
- The source file of `TestDataModel` is not available. `Model.TestDataModel` takes its three fields from the constructor call at MockServer.kt:17-21. Its equality is structural, which assumes the Kotlin class is a data class.
- MockServer.FetchData: uses mathematical integers, so 32-bit overflow of `offset + limit` is not modelled.
- Screen.CrossAxisCellSizes: uses mathematical integers, so 32-bit overflow of `(availableSize - spacing) * 2` is not modelled.
- Screen.ColumnSplitNonNegative: "the first column is at least the second" is stated for every total except 1, where the source's arithmetic gives `[0, 1]` (`ColumnSplitOfOne`).
