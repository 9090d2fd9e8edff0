/** The generic data-access object of mongoBase.dao.ts: its `total` field,
    the page arithmetic of `paginate` and the paginated listing `getAll`.
    The single-call CRUD operations are not modelled (see README). */
module MongoBase {
  import opened Types
  import opened Driver
  import Strings

  /** Defaults of `getAll`'s `page` and `pageSize` parameters. */
  const DefaultPage: int := 1
  const DefaultPageSize: int := 10

  /** `Math.ceil(n / d)` on integers: the least number of pages of size `d`
      that hold `n` items. */
  function CeilDiv(n: nat, d: int): (q: nat)
    requires d >= 1
    ensures n == 0 ==> q == 0
    ensures n > 0 ==> (q - 1) * d < n <= q * d
  {
    (n + d - 1) / d
  }

  lemma MulMono(a: int, b: int, d: int)
    requires a <= b && d >= 0
    ensures a * d <= b * d
  {
  }

  /** The bounds of `CeilDiv` pin it down: no other page count fits them. */
  lemma TotalPagesUnique(n: nat, d: int, k: int)
    requires d >= 1
    requires (k - 1) * d < n <= k * d
    ensures k == CeilDiv(n, d)
  {
    var q := CeilDiv(n, d);
    if k < q {
      MulMono(k, q - 1, d);
    } else if k > q {
      MulMono(q, k - 1, d);
    }
  }

  /** The page with number `page` (counted from 1) out of `s`, as the
      listing windows it. */
  function Page<T>(s: seq<T>, page: int, pageSize: PositiveInt): (p: seq<T>)
    requires page >= 1
    ensures |p| <= pageSize
    ensures p != [] ==> (page - 1) * pageSize + |p| <= |s|
    ensures (page - 1) * pageSize < |s| ==> |p| == Min(pageSize, |s| - (page - 1) * pageSize)
    ensures forall i :: 0 <= i < |p| ==> p[i] == s[(page - 1) * pageSize + i]
  {
    Window(s, (page - 1) * pageSize, Some(pageSize))
  }

  /** A page holds records exactly when its number is at most the page count
      that `paginate` reports; a page past the end is empty. */
  lemma PageNonEmpty<T>(s: seq<T>, page: int, pageSize: PositiveInt)
    requires page >= 1
    ensures |Page(s, page, pageSize)| > 0 <==> page <= CeilDiv(|s|, pageSize)
  {
    var q := CeilDiv(|s|, pageSize);
    if page <= q {
      MulMono(page - 1, q - 1, pageSize);
    } else {
      MulMono(q, page - 1, pageSize);
    }
  }

  /** Pages 1 to `n`, one after the other. */
  function Pages<T>(s: seq<T>, pageSize: PositiveInt, n: nat): seq<T>
  {
    if n == 0 then [] else Pages(s, pageSize, n - 1) + Page(s, n, pageSize)
  }

  lemma {:induction false} PagesPrefix<T>(s: seq<T>, pageSize: PositiveInt, n: nat)
    ensures Pages(s, pageSize, n) == s[..Min(n * pageSize, |s|)]
  {
    if n > 0 {
      PagesPrefix(s, pageSize, n - 1);
      MulMono(n - 1, n, pageSize);
      var lo, hi := Min((n - 1) * pageSize, |s|), Min(n * pageSize, |s|);
      assert (n - 1) * pageSize + pageSize == n * pageSize;
      assert Page(s, n, pageSize) == s[lo..hi];
      assert s[..hi] == s[..lo] + s[lo..hi];
    }
  }

  /** Pages 1 to `totalPages` hold every record exactly once, in order. */
  lemma PagesCover<T>(s: seq<T>, pageSize: PositiveInt)
    ensures Pages(s, pageSize, CeilDiv(|s|, pageSize)) == s
  {
    PagesPrefix(s, pageSize, CeilDiv(|s|, pageSize));
  }

  /** The projection built from a `select` string: every comma-separated
      field name, as written, mapped to 1 (include). */
  method SelectObject(select: string) returns (selectObject: map<string, int>)
    ensures selectObject.Keys == set p | p in Strings.Split(select, ',')
    ensures forall k :: k in selectObject ==> selectObject[k] == 1
  {
    var selectArray := Strings.Split(select, ',');
    selectObject := map[];
    for i := 0 to |selectArray|
      invariant selectObject.Keys == set p | p in selectArray[..i]
      invariant forall k :: k in selectObject ==> selectObject[k] == 1
    {
      assert selectArray[..i + 1] == selectArray[..i] + [selectArray[i]];
      selectObject := selectObject[selectArray[i] := 1];
    }
    assert selectArray[..|selectArray|] == selectArray;
  }

  /** The data-access object for one collection of documents of type `T`. */
  class MongoBaseDao<T> {
    /** The number of matching documents that the last paginated listing
        counted. */
    var total: nat

    constructor ()
      ensures total == 0
    {
      total := 0;
    }

    /** Page metadata for `page` of size `pageSize` over the last count.
        `page` is passed through unchecked, even past the last page. */
    function Paginate(page: int, pageSize: int): (p: Pagination)
      reads this
      requires pageSize >= 1
      ensures p.Pagination?
      ensures p.page == page && p.pageSize == pageSize && p.total == total
      ensures total == 0 ==> p.totalPages == 0
      ensures total > 0 ==> (p.totalPages - 1) * pageSize < total <= p.totalPages * pageSize
    {
      Pagination(page, pageSize, total, CeilDiv(total, pageSize))
    }

    /** The listing of the documents of `docs` that satisfy `search`.
        With `page > 0` it recounts them into `total`, reports `paginate`'s
        metadata and returns only that page; otherwise it returns them all
        with empty metadata. `query` is the query it executed, which carries
        the projection built from `select`. */
    method GetAll(docs: seq<T>, page: int := DefaultPage, pageSize: int := DefaultPageSize,
                  search: T -> bool := (x: T) => true, select: Option<string> := None)
      returns (records: seq<T>, pagination: Pagination, query: Query)
      requires page > 0 ==> pageSize >= 1
      modifies this
      ensures var matches := Matching(docs, search);
        page > 0 ==>
          && total == |matches|
          && pagination == Paginate(page, pageSize)
          && pagination == Pagination(page, pageSize, |matches|, CeilDiv(|matches|, pageSize))
          && records == Page(matches, page, pageSize)
      ensures page <= 0 ==>
        && records == Matching(docs, search)
        && pagination == Empty
        && total == old(total)
      ensures query.skip == (if page > 0 then (page - 1) * pageSize else 0)
      ensures query.limit == (if page > 0 then Some(pageSize) else None)
      ensures select.None? ==> query.projection.None?
      ensures select.Some? ==>
        && query.projection.Some?
        && query.projection.value.Keys == set p | p in Strings.Split(select.value, ',')
        && forall k :: k in query.projection.value ==> query.projection.value[k] == 1
    {
      var skip := (page - 1) * pageSize;
      query := Find;
      if select.Some? {
        var selectObject := SelectObject(select.value);
        query := query.(projection := Some(selectObject));
      }
      pagination := Empty;
      if page > 0 {
        var counted := Exec(docs, search, Find);
        total := |counted|;
        pagination := Paginate(page, pageSize);
        query := query.(skip := skip, limit := Some(pageSize));
      }
      records := Exec(docs, search, query);
    }
  }

  /** The listings of a collection of 25 matching documents with the default
      page size. */
  method ListTwentyFive(docs: seq<int>)
    requires |docs| == 25
  {
    var all := (x: int) => true;
    MatchingAll(docs, all);
    var dao := new MongoBaseDao<int>();
    var records, pagination, query := dao.GetAll(docs);
    assert records == Page(Matching(docs, (x: int) => true), 1, 10);
    assert |records| == 10;
    assert pagination == Pagination(1, 10, 25, 3);
    records, pagination, query := dao.GetAll(docs, 3, DefaultPageSize, all, None);
    assert |records| == 5 && records == docs[20..];
    records, pagination, query := dao.GetAll(docs, 0, DefaultPageSize, all, Some("name,age"));
    assert records == docs && pagination == Empty && dao.total == 25;
  }
}
