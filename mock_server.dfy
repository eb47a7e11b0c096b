/** The in-process mock backend: pages of records by offset and limit, over a
    dataset that ends just before index 42. */
module MockServer {
  import opened Model

  /** The index at which generation stops; it is never emitted. */
  const Ceiling: int := 42

  /** Stands for the launcher icon's resource id; the value is a placeholder no lemma depends on. */
  const IcLauncher: int := 0

  const GridItemContent: string := "grid item"

  /** The record the server builds for index `i`. */
  function Item(i: int): TestDataModel
  {
    TestDataModel(i, IcLauncher, GridItemContent)
  }

  /** What the generation loop emits when it runs from index `i` up to, but
      not including, `end`: one record per index, cut short the moment the
      index equals the ceiling. The stop is an equality, so a run that starts
      above the ceiling never stops early. */
  function Emitted(i: int, end: int): seq<TestDataModel>
    decreases end - i
  {
    if i >= end || i == Ceiling then [] else [Item(i)] + Emitted(i + 1, end)
  }

  /** The page the server answers for `(offset, limit)`. */
  function Page(offset: int, limit: int): seq<TestDataModel>
  {
    Emitted(offset, offset + limit)
  }

  /** The number of records in a page, in closed form. */
  function PageLength(offset: int, limit: int): nat
  {
    if limit <= 0 then 0
    else if offset <= Ceiling < offset + limit then Ceiling - offset
    else limit
  }

  /** Builds the page record by record; returns early when the index reaches the ceiling. */
  method FetchData(offset: int, limit: int) returns (list: seq<TestDataModel>)
    ensures list == Page(offset, limit)
  {
    list := [];
    var i := offset;
    while i < offset + limit
      invariant list + Emitted(i, offset + limit) == Page(offset, limit)
      decreases offset + limit - i
    {
      if i == Ceiling {
        return;
      }
      list := list + [Item(i)];
      i := i + 1;
    }
  }

  /** Every page is the records `offset, offset + 1, ...` in order, and has
      exactly `PageLength(offset, limit)` of them. */
  lemma {:induction false} PageShape(offset: int, limit: int)
    ensures |Page(offset, limit)| == PageLength(offset, limit)
    ensures forall j :: 0 <= j < |Page(offset, limit)| ==> Page(offset, limit)[j] == Item(offset + j)
    decreases if limit < 0 then 0 else limit
  {
    if limit > 0 && offset != Ceiling {
      PageShape(offset + 1, limit - 1);
      assert Page(offset, limit) == [Item(offset)] + Page(offset + 1, limit - 1);
    }
  }

  /** A page that stays below the ceiling is full: `limit` records, indices `offset .. offset + limit - 1`. */
  lemma FullPageBelowCeiling(offset: int, limit: int)
    requires 0 <= offset && 0 < limit && offset + limit <= Ceiling
    ensures |Page(offset, limit)| == limit
    ensures forall j :: 0 <= j < limit ==> Page(offset, limit)[j].index == offset + j
  {
    PageShape(offset, limit);
  }

  /** No page ever holds the record with index 42. */
  lemma CeilingNeverEmitted(offset: int, limit: int)
    ensures forall r :: r in Page(offset, limit) ==> r.index != Ceiling
  {
    PageShape(offset, limit);
    forall r | r in Page(offset, limit) ensures r.index != Ceiling {
      var j :| 0 <= j < |Page(offset, limit)| && Page(offset, limit)[j] == r;
    }
  }

  /** A range that crosses the ceiling is cut to indices `offset .. 41`. */
  lemma CrossingPageTruncated(offset: int, limit: int)
    requires offset <= Ceiling < offset + limit
    ensures |Page(offset, limit)| == Ceiling - offset
    ensures forall j :: 0 <= j < Ceiling - offset ==> Page(offset, limit)[j].index == offset + j
  {
    PageShape(offset, limit);
  }

  /** A request that starts at the ceiling gets nothing, whatever the limit. */
  lemma PageAtCeilingEmpty(limit: int)
    ensures Page(Ceiling, limit) == []
  {
  }

  /** Above the ceiling the early return never fires: the page is full. */
  lemma PastCeilingFullPage(offset: int, limit: int)
    requires offset > Ceiling && limit > 0
    ensures |Page(offset, limit)| == limit
    ensures forall j :: 0 <= j < limit ==> Page(offset, limit)[j].index == offset + j
  {
    PageShape(offset, limit);
  }

  /** An empty or negative range yields no records. */
  lemma NonPositiveLimitEmpty(offset: int, limit: int)
    requires limit <= 0
    ensures Page(offset, limit) == []
  {
  }

  /** A page never holds more than `limit` records, and every record carries
      the fixed content and image. */
  lemma PageBounded(offset: int, limit: int)
    ensures |Page(offset, limit)| <= if limit < 0 then 0 else limit
    ensures forall r :: r in Page(offset, limit) ==>
      r.content == GridItemContent && r.imageResource == IcLauncher
  {
    PageShape(offset, limit);
  }

  /** Below the ceiling, two consecutive pages together are the page that spans both. */
  lemma {:induction false} PageSplit(offset: int, a: int, b: int)
    requires 0 <= a && 0 <= b && offset + a <= Ceiling
    ensures Page(offset, a) + Page(offset + a, b) == Page(offset, a + b)
    decreases a
  {
    if a > 0 {
      PageSplit(offset + 1, a - 1, b);
      assert Page(offset, a) == [Item(offset)] + Page(offset + 1, a - 1);
      assert Page(offset, a + b) == [Item(offset)] + Page(offset + 1, a - 1 + b);
    }
  }
}
