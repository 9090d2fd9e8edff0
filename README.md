# MongoBaseDao pagination model

This project models the one piece of `MongoBaseDao<T>` that has logic of its
own: the paginated listing `getAll` and the page arithmetic `paginate`. It
also models the instance field `total`, which `getAll` writes and `paginate`
reads. The generic DAO is a class over an opaque document type `T`. The
document store behind it is abstracted as follows:

- the collection's contents at the time of the call are a `seq<T>` argument
  of `GetAll`;
- the search filter is a predicate `T -> bool`;
- `find(search)` is the matching documents in stored order (`Driver.Matching`);
- `skip(n).limit(m)` is a slice of that sequence (`Driver.Window`).

These are assumptions about the driver. They are not derived from the
driver's own code, which is not part of this model. The same store contents
serve both the count query and the listing query.

Modules:

- `Types` mirrors types.ts. `Pagination` is the four-field record. `Empty` is
  the `{}` that `getAll` returns for a non-positive page.
- `Strings` has `Split`, JavaScript's `split` for a one-character separator.
  It is proved inverse to `Join` in both directions.
- `Driver` holds the store assumptions and the `Query` value. The query
  carries the projection, the skip and the limit.
- `MongoBase` holds `CeilDiv` (`Math.ceil(total / pageSize)` on integers) and
  `SelectObject`, the `reduce` that turns the split `select` string into a
  projection map. It also holds the class `MongoBaseDao`, with the field
  `total`, the function `Paginate` (it reads `total` and changes nothing) and
  the method `GetAll` (it writes `total`). Its lemmas relate pages to the
  page count: a page is non-empty exactly when its number is at most
  `totalPages`, and pages `1..totalPages` together are all the matching
  records, in order.

Two things the code does not do, and the model follows it:

- `getAll`'s `sort` argument is never applied to the query, so the model has
  no ordering.
- `paginate` does not check that `page` is positive or at most `totalPages`.

## Model

| member | source | states |
|---|---|---|
| `MongoBase.CeilDiv` | mongoBase.dao.ts:124 | for `pageSize >= 1`: 0 pages for 0 records, otherwise `(q-1)*pageSize < total <= q*pageSize` |
| `MongoBase.TotalPagesUnique` | mongoBase.dao.ts:124 | any `k` with `(k-1)*d < n <= k*d` equals `CeilDiv(n, d)`, so the bounds define the ceiling |
| `MongoBase.MongoBaseDao.Paginate` | mongoBase.dao.ts:122-135 | returns `page` and `pageSize` unchanged, `total` equal to the field, `totalPages` the ceiling of `total/pageSize`; `page` is not checked; reads `total` and modifies nothing |
| `MongoBase.MongoBaseDao.constructor` | mongoBase.dao.ts:7-12 | a new DAO starts with `total == 0` |
| `MongoBase.MongoBaseDao.GetAll` | mongoBase.dao.ts:70-113 | `page > 0`: `total` becomes the number of matches, pagination is `Paginate(page, pageSize)` on that count, records are the matches from index `(page-1)*pageSize`, at most `pageSize` of them; `page <= 0`: all matches, `Empty` pagination, `total` unchanged; projection present exactly when `select` is given; `page`, `pageSize`, `search` and `select` default to 1, 10, the match-all filter and absent, as in the source signature |
| `MongoBase.SelectObject` | mongoBase.dao.ts:85-91 | the projection's keys are exactly the comma-separated pieces of `select` (untrimmed, duplicates collapsed), each mapped to 1 |
| `MongoBase.PageNonEmpty` | mongoBase.dao.ts:96-102 | for `page >= 1`, the page holds records if and only if `page <= totalPages`; a page past the end is empty |
| `MongoBase.PagesPrefix` | mongoBase.dao.ts:79-102 | pages `1..n` concatenated are the first `min(n*pageSize, total)` records |
| `MongoBase.PagesCover` | mongoBase.dao.ts:79-124 | pages `1..totalPages` concatenated are exactly the matching records |
| `Strings.Split` | mongoBase.dao.ts:86 | at least one piece; no piece contains the separator; a string without the separator (including `""`) is its own single piece |
| `Strings.JoinSplit` | mongoBase.dao.ts:86 | joining the pieces with `,` gives back the `select` string |
| `Strings.SplitJoin` | mongoBase.dao.ts:86 | any non-empty list of comma-free pieces is what its join splits into |
| `Driver.Matching` | mongoBase.dao.ts:82 | `find(search)` (assumed store behaviour): at most as many as stored; every result satisfies `search` and is stored; every stored match is in the result |
| `Driver.MatchingAll` | mongoBase.dao.ts:73 | the default empty filter `{}` matches the whole collection |
| `Driver.Exec` | mongoBase.dao.ts:99-106 | `query.exec()` (assumed store behaviour): at most as many records as match; record `i` is match `skip+i`; a query with no skip and no limit returns every match, which is what the count at line 99 measures |
| `MongoBase.Page` | mongoBase.dao.ts:79-102 | the window `skip((page-1)*pageSize).limit(pageSize)`: at most `pageSize` records, exactly `min(pageSize, total-skip)` when `skip < total`, record `i` being match `skip+i` |
| `Driver.Window` | mongoBase.dao.ts:102 | `skip(n).limit(m)` (assumed store behaviour): empty past the end, otherwise `min(m, len-n)` records, record `i` being stored match `n+i` |

## Left out

- `create`, `update`, `delete`, `get`, `findOne` and `find` (mongoBase.dao.ts:15-67) are each one store call that rethrows any error. They have no logic of the DAO's own to model.
- Store errors, which every operation rethrows unchanged, are not modelled. The async/Promise plumbing and mongoose `Query` objects are replaced by values.
- The `sort` parameter of `getAll` (mongoBase.dao.ts:74) is not modelled, because the code never applies it to the query.
- `MongoBase.MongoBaseDao.Paginate`: requires `pageSize >= 1`, because JavaScript's float division gives `Infinity` or `NaN` otherwise. The model uses exact integers, so float rounding for counts above 2^53 is not modelled either.
- `MongoBase.MongoBaseDao.GetAll`: `page` and `pageSize` are integers, so fractional arguments are outside the model. It requires `pageSize >= 1` when `page > 0`, for the same reason as `Paginate`. This also avoids the driver reading `limit(0)` as "no limit".
- `MongoBase.SelectObject` does not model that JavaScript silently ignores assigning a number to the key `__proto__` of a plain object. For a `select` that lists `__proto__`, the model's projection has that key and the real one does not.
- Projections are carried on the returned `Query` and are not applied to documents, because documents are opaque.
- `MongoBase.PagesCover` and `MongoBase.PagesPrefix` assume that every query returns the matches in one and the same order. That includes the queries of separate `getAll` calls. The source applies no sort, and the store does not guarantee any order for unsorted results. So in the running program, separate `getAll` calls may return overlapping pages or miss records, and these two lemmas do not describe that.
- Concurrent `getAll` calls racing on the shared `total` field are not modelled; the model is sequential. The store contents are also taken to be unchanged between the count query and the listing query.
- The `model` handle passed to the constructor is not modelled. The collection's contents are an argument of `GetAll` instead.
