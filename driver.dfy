/** What the data-access layer assumes of the document store it wraps.
    None of this is the layer's own logic: it is the behaviour the model
    takes the store's query builder to have, stated once so that the
    listing can be proved against it.
    - `find(search)` yields the stored documents that satisfy `search`, in
      stored order, and every query sees that same order (`Matching`);
    - a query's `skip(n)` drops the first `n` of those and `limit(m)`, for
      `m >= 1`, keeps at most `m` of the rest (`Window`);
    - a projection restricts the fields of each document; documents are
      opaque here, so the projection is carried on the query and not
      applied to them. */
module Driver {
  import opened Types

  type PositiveInt = n: int | n >= 1 witness 1

  function Min(a: int, b: int): int
  {
    if a <= b then a else b
  }

  /** The documents of `docs` that satisfy `search`, in their stored order. */
  function Matching<T>(docs: seq<T>, search: T -> bool): (r: seq<T>)
    ensures |r| <= |docs|
    ensures forall i :: 0 <= i < |r| ==> r[i] in docs && search(r[i])
    ensures forall i :: 0 <= i < |docs| && search(docs[i]) ==> docs[i] in r
  {
    if docs == [] then []
    else (if search(docs[0]) then [docs[0]] else []) + Matching(docs[1..], search)
  }

  /** The empty filter `{}`, which every document satisfies, selects the
      whole collection. */
  lemma {:induction false} MatchingAll<T>(docs: seq<T>, search: T -> bool)
    requires forall x :: search(x)
    ensures Matching(docs, search) == docs
  {
    if docs != [] {
      MatchingAll(docs[1..], search);
      assert docs == [docs[0]] + docs[1..];
    }
  }

  /** `skip(skip)` followed by an optional `limit(limit)`. */
  function Window<T>(s: seq<T>, skip: nat, limit: Option<PositiveInt>): (w: seq<T>)
    ensures skip >= |s| ==> w == []
    ensures skip < |s| ==> |w| == (if limit.Some? then Min(limit.value, |s| - skip) else |s| - skip)
    ensures forall i :: 0 <= i < |w| ==> w[i] == s[skip + i]
  {
    if skip >= |s| then []
    else if limit.Some? then s[skip..Min(skip + limit.value, |s|)]
    else s[skip..]
  }

  /** A query under construction: what `find(search)` was refined with. */
  datatype Query = Query(projection: Option<map<string, int>>, skip: nat, limit: Option<PositiveInt>)

  /** A fresh `find(search)`: no projection, no window. */
  const Find: Query := Query(None, 0, None)

  /** Executing `query` on the documents `docs` with the filter `search`. */
  function Exec<T>(docs: seq<T>, search: T -> bool, query: Query): (r: seq<T>)
    ensures |r| <= |Matching(docs, search)|
    ensures r != [] ==> query.skip + |r| <= |Matching(docs, search)|
    ensures forall i :: 0 <= i < |r| ==> r[i] == Matching(docs, search)[query.skip + i]
    ensures query.skip == 0 && query.limit.None? ==> r == Matching(docs, search)
  {
    Window(Matching(docs, search), query.skip, query.limit)
  }
}
