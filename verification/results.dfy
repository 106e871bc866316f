/** The history listing and lookup routes: records ordered newest first by
    receipt time (records without one last, as SQLite orders NULLs in a
    descending sort), an optional status filter, SQLite's LIMIT/OFFSET
    paging, and the single-record views. */
module Results {
  import opened Text
  import opened Wrappers
  import opened DateTimes
  import opened Json
  import opened Chunking
  import opened Models
  import opened Responses

  /** `a` is listed strictly before `b` in `ORDER BY received_at DESC`. */
  predicate Ahead(a: History, b: History) {
    match a.receivedAt
    case None => false
    case Some(x) =>
      match b.receivedAt
      case None => true
      case Some(y) => Earlier(y, x)
  }

  /** `Ahead` orders records by their key: it is irreflexive, asymmetric
      and transitive, and so is "not behind". */
  lemma AheadOrder(a: History, b: History, c: History)
    ensures !Ahead(a, a)
    ensures Ahead(a, b) ==> !Ahead(b, a)
    ensures Ahead(a, b) && Ahead(b, c) ==> Ahead(a, c)
    ensures !Ahead(a, b) && !Ahead(b, c) ==> !Ahead(a, c)
  {
    if a.receivedAt.Some? && b.receivedAt.Some? && c.receivedAt.Some? {
      var x, y, z := a.receivedAt.value, b.receivedAt.value, c.receivedAt.value;
      EarlierOrder(x, y, z);
      EarlierOrder(z, y, x);
      EarlierOrder(y, x, z);
      EarlierOrder(x, z, y);
      EarlierOrder(z, x, y);
      EarlierOrder(y, z, x);
    } else if a.receivedAt.Some? && b.receivedAt.Some? {
      EarlierOrder(a.receivedAt.value, b.receivedAt.value, a.receivedAt.value);
      EarlierOrder(b.receivedAt.value, a.receivedAt.value, b.receivedAt.value);
    }
  }

  /** No record is listed after one it is ahead of. */
  predicate NewestFirstOrder(s: seq<History>) {
    forall i, j :: 0 <= i < j < |s| ==> !Ahead(s[j], s[i])
  }

  /** Inserting `h` before the first record not ahead of it. */
  function Insert(h: History, s: seq<History>): (r: seq<History>)
    ensures multiset(r) == multiset(s) + multiset{h}
    ensures NewestFirstOrder(s) ==> NewestFirstOrder(r)
  {
    if |s| == 0 || !Ahead(s[0], h) then
      assert NewestFirstOrder(s) ==> NewestFirstOrder([h] + s) by {
        if NewestFirstOrder(s) {
          NoneAheadOfFirst(h, s);
          PrependOrdered(h, s);
        }
      }
      [h] + s
    else
      var rest := Insert(h, s[1..]);
      assert s == [s[0]] + s[1..];
      assert NewestFirstOrder(s) ==> NewestFirstOrder([s[0]] + rest) by {
        if NewestFirstOrder(s) {
          AheadOrder(s[0], h, s[0]);
          NoneAheadOfHead(s, h, rest);
          PrependOrdered(s[0], rest);
        }
      }
      [s[0]] + rest
  }

  /** A record that nothing in an ordered list is ahead of may go in front. */
  lemma PrependOrdered(x: History, s: seq<History>)
    requires NewestFirstOrder(s)
    requires forall k :: 0 <= k < |s| ==> !Ahead(s[k], x)
    ensures NewestFirstOrder([x] + s)
  {
    forall i, j | 0 <= i < j < |[x] + s|
      ensures !Ahead(([x] + s)[j], ([x] + s)[i])
    {
      if i > 0 {
        assert ([x] + s)[i] == s[i - 1];
      }
    }
  }

  /** When the head of an ordered list is not ahead of `h`, nothing in it is. */
  lemma NoneAheadOfFirst(h: History, s: seq<History>)
    requires NewestFirstOrder(s)
    requires |s| == 0 || !Ahead(s[0], h)
    ensures forall k :: 0 <= k < |s| ==> !Ahead(s[k], h)
  {
    forall k | 0 <= k < |s|
      ensures !Ahead(s[k], h)
    {
      if k > 0 {
        AheadOrder(s[k], s[0], h);
      }
    }
  }

  /** Nothing in `rest`, the tail with `h` inserted, is ahead of the head. */
  lemma NoneAheadOfHead(s: seq<History>, h: History, rest: seq<History>)
    requires |s| > 0 && NewestFirstOrder(s) && !Ahead(h, s[0])
    requires multiset(rest) == multiset(s[1..]) + multiset{h}
    ensures forall k :: 0 <= k < |rest| ==> !Ahead(rest[k], s[0])
  {
    forall k | 0 <= k < |rest|
      ensures !Ahead(rest[k], s[0])
    {
      var x := rest[k];
      assert x in multiset(rest);
      if x != h {
        assert x in multiset(s[1..]);
        var i :| 0 <= i < |s[1..]| && s[1..][i] == x;
        assert s[i + 1] == x;
      }
    }
  }

  /** The rows as `order_by(received_at.desc())` lists them: the same
      records, newest first, equal receipt times in insertion order. */
  function NewestFirst(rows: seq<History>): (r: seq<History>)
    ensures multiset(r) == multiset(rows)
    ensures NewestFirstOrder(r)
  {
    if |rows| == 0 then []
    else
      assert rows == [rows[0]] + rows[1..];
      Insert(rows[0], NewestFirst(rows[1..]))
  }

  /** `filter(status == name)`, keeping the order. */
  function WithStatus(rows: seq<History>, name: string): (r: seq<History>)
    ensures forall h :: h in r <==> h in rows && h.status.Name() == name
    ensures forall h: History :: h.status.Name() == name ==> multiset(r)[h] == multiset(rows)[h]
    ensures forall h: History :: h.status.Name() != name ==> multiset(r)[h] == 0
  {
    if |rows| == 0 then []
    else
      assert rows == [rows[0]] + rows[1..];
      (if rows[0].status.Name() == name then [rows[0]] else []) + WithStatus(rows[1..], name)
  }

  /** Python's `a // b`: the quotient rounded toward negative infinity. */
  function FloorDiv(a: int, b: int): (q: int)
    requires b != 0
  {
    if b > 0 then a / b else (-a) / (-b)
  }

  /** `FloorDiv` is the floor of the exact quotient, for either sign of
      the divisor. */
  lemma FloorDivFloor(a: int, b: int)
    requires b != 0
    ensures b > 0 ==> FloorDiv(a, b) * b <= a < FloorDiv(a, b) * b + b
    ensures b < 0 ==> FloorDiv(a, b) * b >= a > FloorDiv(a, b) * b + b
  {
    if b < 0 {
      var q := (-a) / (-b);
      assert -a == q * (-b) + (-a) % (-b);
      assert q * b == -(q * (-b));
    }
  }

  /** SQLite's `LIMIT limit OFFSET offset`: a negative limit means no
      limit, and a negative offset counts as zero. */
  function Window(xs: seq<History>, limit: int, offset: int): (r: seq<History>)
    ensures limit >= 0 ==> |r| <= limit
    ensures offset <= 0 && limit >= 0 ==> r == xs[..Min(limit, |xs|)]
    ensures offset >= |xs| ==> r == []
    ensures 0 <= offset <= |xs| && limit >= 0 ==> r == xs[offset..Min(offset + limit, |xs|)]
    ensures limit < 0 ==> r == xs[Min(if offset < 0 then 0 else offset, |xs|)..]
  {
    var start := if offset <= 0 then 0 else Min(offset, |xs|);
    if limit < 0 then xs[start..] else xs[start..Min(start + limit, |xs|)]
  }

  /** The offset of page `page`, `(page - 1) * per_page`, counted out one
      page at a time from page 1. Written as a recursion rather than a
      product so that the paging proofs step through it by induction
      without non-linear arithmetic; `OffsetProduct` shows it is the
      product. */
  function Offset(page: int, perPage: int): int
    decreases if page >= 1 then page - 1 else 1 - page
  {
    if page == 1 then 0
    else if page > 1 then Offset(page - 1, perPage) + perPage
    else Offset(page + 1, perPage) - perPage
  }

  /** The offset is the product the route computes. */
  lemma {:induction false} OffsetProduct(page: int, perPage: int)
    ensures Offset(page, perPage) == (page - 1) * perPage
    decreases if page >= 1 then page - 1 else 1 - page
  {
    if page > 1 {
      OffsetProduct(page - 1, perPage);
      assert (page - 1) * perPage == (page - 2) * perPage + perPage;
    } else if page < 1 {
      OffsetProduct(page + 1, perPage);
      assert (page - 1) * perPage == page * perPage - perPage;
    }
  }

  const ZeroDivisionMessage: string := "integer division or modulo by zero"

  /** One page of the listing: the counts and the records on the page. */
  datatype HistoriesPage = HistoriesPage(total: nat, page: int, perPage: int, totalPages: int, data: seq<History>)

  /** The records a listing covers: all of them, or those with the
      requested status when a non-empty one is given, newest first. */
  function Listed(rows: seq<History>, status: Option<string>): (r: seq<History>)
    ensures multiset(r) == multiset(if status.Some? && status.value != "" then WithStatus(rows, status.value) else rows)
  {
    NewestFirst(if status.Some? && status.value != "" then WithStatus(rows, status.value) else rows)
  }

  /** `get_histories`. An absent `page` or `per_page`, or one that is not
      an integer, takes its default (1 and 10); `per_page` 0 raises in the
      page-count division after the query ran. */
  function GetHistories(rows: seq<History>, page: Option<int>, perPage: Option<int>, status: Option<string>): (r: Result<HistoriesPage>)
    ensures r.Err? <==> perPage == Some(0)
    ensures r.Err? ==> r.error == ZeroDivisionMessage
    ensures r.Ok? ==> r.value.total == |Listed(rows, status)| && r.value.page == page.GetOr(1)
  {
    var p := page.GetOr(1);
    var n := perPage.GetOr(10);
    var listed := Listed(rows, status);
    if n == 0 then Err(ZeroDivisionMessage) else Ok(Paginate(listed, p, n))
  }

  /** The page `page` of `listed` with `perPage` records per page. */
  function Paginate(listed: seq<History>, page: int, perPage: int): (hp: HistoriesPage)
    requires perPage != 0
    ensures hp.total == |listed| && hp.page == page && hp.perPage == perPage
    ensures perPage > 0 ==> |hp.data| <= perPage
    ensures perPage < 0 ==> |hp.data| <= |listed| && hp.data == listed[|listed| - |hp.data|..]
  {
    var total := |listed|;
    HistoriesPage(total, page, perPage, FloorDiv(total + perPage - 1, perPage), Window(listed, perPage, Offset(page, perPage)))
  }

  /** The JSON the listing returns: the counts, then each record's
      `to_dict` in listing order. */
  function PageJson(hp: HistoriesPage): (j: Json)
    ensures j.JObject? && |j.members| == 5 && j.members[4].value.JArray?
    ensures j.members[0] == Member("total", JInt(hp.total)) && j.members[1] == Member("page", JInt(hp.page))
    ensures j.members[2] == Member("per_page", JInt(hp.perPage))
    ensures j.members[3] == Member("total_pages", JInt(hp.totalPages)) && j.members[4].key == "data"
    ensures |j.members[4].value.items| == |hp.data|
    ensures forall i :: 0 <= i < |hp.data| ==> j.members[4].value.items[i] == HistoryToDict(hp.data[i])
  {
    JObject([
      Member("total", JInt(hp.total)),
      Member("page", JInt(hp.page)),
      Member("per_page", JInt(hp.perPage)),
      Member("total_pages", JInt(hp.totalPages)),
      Member("data", JArray(seq(|hp.data|, i requires 0 <= i < |hp.data| => HistoryToDict(hp.data[i]))))])
  }

  lemma MulMono(a: nat, b: nat, size: nat)
    requires a <= b
    ensures a * size <= b * size
  {
  }

  /** With a positive page size the page count is the ceiling of
      `total / per_page`. */
  lemma PaginateCount(listed: seq<History>, page: int, perPage: int)
    requires perPage > 0
    ensures var hp := Paginate(listed, page, perPage);
      && hp.totalPages == NumSlices(|listed|, perPage)
      && hp.totalPages * perPage >= |listed|
      && (hp.totalPages == 0 || (hp.totalPages - 1) * perPage < |listed|)
  {
    var hp := Paginate(listed, page, perPage);
    assert hp.totalPages == (|listed| + perPage - 1) / perPage;
    NumSlicesCeil(|listed|, perPage);
  }

  /** Page `p` is the `p`-th slice of the listing cut into pages of
      `per_page`, and empty past the last page. */
  lemma PaginateSlices(listed: seq<History>, page: int, perPage: int)
    requires perPage > 0 && page >= 1
    ensures Paginate(listed, page, perPage).data
      == if page - 1 < NumSlices(|listed|, perPage) then Slices(listed, perPage)[page - 1] else []
  {
    var offset := Offset(page, perPage);
    assert Paginate(listed, page, perPage).data == Window(listed, perPage, offset);
    OffsetProduct(page, perPage);
    WindowSlice(listed, perPage, page - 1, offset);
  }

  /** The window at offset `k * per_page` is slice `k`, or empty past the end. */
  lemma WindowSlice(listed: seq<History>, perPage: int, k: nat, offset: int)
    requires perPage > 0 && offset == k * perPage
    ensures Window(listed, perPage, offset)
      == if k < NumSlices(|listed|, perPage) then Slices(listed, perPage)[k] else []
  {
    var n := |listed|;
    if k < NumSlices(n, perPage) {
      SliceAt(listed, perPage, k);
    } else {
      NumSlicesCeil(n, perPage);
      MulMono(NumSlices(n, perPage), k, perPage);
    }
  }

  /** A page number below 1 gives the first page. */
  lemma PaginateLowPage(listed: seq<History>, page: int, perPage: int)
    requires perPage > 0 && page <= 1
    ensures Paginate(listed, page, perPage).data == listed[..Min(perPage, |listed|)]
  {
    OffsetProduct(page, perPage);
    MulMono(0, 1 - page, perPage);
    assert (page - 1) * perPage == -((1 - page) * perPage);
  }

  /** Where SQLite starts reading for page `page`: the offset
      `(page - 1) * per_page`, taken as zero when negative, and at most the
      number of records. */
  function PageStart(page: int, perPage: int, count: nat): (start: nat)
    ensures start <= count
  {
    var offset := (page - 1) * perPage;
    Min(if offset < 0 then 0 else offset, count)
  }

  /** A negative page size sets no limit: the page runs from its start to
      the end. */
  lemma PaginateNoLimit(listed: seq<History>, page: int, perPage: int)
    requires perPage < 0
    ensures Paginate(listed, page, perPage).data == listed[PageStart(page, perPage, |listed|)..]
  {
    OffsetProduct(page, perPage);
  }

  /** The listing for every combination of query arguments: the defaults
      1 and 10; an error exactly for `per_page` 0; with a positive page size
      the ceiling page count and page `page` of the filtered, ordered
      records cut into pages (empty past the last page, the first page for
      a page number below 1). */
  lemma HistoriesRoute(rows: seq<History>, page: Option<int>, perPage: Option<int>, status: Option<string>)
    ensures var r := GetHistories(rows, page, perPage, status);
      var listed, p, n := Listed(rows, status), page.GetOr(1), perPage.GetOr(10);
      && (r.Ok? <==> n != 0)
      && (r.Ok? ==> r.value.total == |listed| && r.value.page == p && r.value.perPage == n)
      && (n > 0 ==> r.value.totalPages == NumSlices(|listed|, n))
      && (n > 0 && p >= 1 ==>
            r.value.data == if p - 1 < NumSlices(|listed|, n) then Slices(listed, n)[p - 1] else [])
      && (n > 0 && p < 1 ==> r.value.data == listed[..Min(n, |listed|)])
  {
    var r := GetHistories(rows, page, perPage, status);
    var listed, p, n := Listed(rows, status), page.GetOr(1), perPage.GetOr(10);
    if n != 0 {
      var hp := Paginate(listed, p, n);
      assert r == Ok(hp);
      if n > 0 {
        PaginateCount(listed, p, n);
        if p >= 1 {
          PaginateSlices(listed, p, n);
        } else {
          PaginateLowPage(listed, p, n);
        }
      }
    }
  }

  /** With a non-zero page size the listing is `Paginate`'s page. */
  lemma HistoriesPaginate(rows: seq<History>, page: Option<int>, perPage: Option<int>, status: Option<string>)
    requires perPage.GetOr(10) != 0
    ensures GetHistories(rows, page, perPage, status)
      == Ok(Paginate(Listed(rows, status), page.GetOr(1), perPage.GetOr(10)))
  {
  }

  /** A negative `per_page` (SQLite's "no limit") lists every record from
      the offset `(page - 1) * per_page` on, the offset taken as zero when
      negative. */
  lemma HistoriesNoLimit(rows: seq<History>, page: Option<int>, perPage: Option<int>, status: Option<string>)
    requires perPage.Some? && perPage.value < 0
    ensures var r := GetHistories(rows, page, perPage, status);
      var listed, p, n := Listed(rows, status), page.GetOr(1), perPage.value;
      r.Ok? && r.value.data == listed[PageStart(p, n, |listed|)..]
  {
    var listed, p, n := Listed(rows, status), page.GetOr(1), perPage.value;
    HistoriesPaginate(rows, page, perPage, status);
    PaginateNoLimit(listed, p, n);
  }

  /** The listing covers exactly the records with the requested status
      (each as often as it is stored), or every record when no status is
      given, and `total` counts them. */
  lemma ListingFilter(rows: seq<History>, status: Option<string>)
    ensures var listed := Listed(rows, status);
      && (status.None? || status == Some("") ==> multiset(listed) == multiset(rows))
      && (status.Some? && status.value != "" ==>
            && (forall h :: h in listed ==> h.status.Name() == status.value)
            && (forall h: History :: h.status.Name() == status.value ==> multiset(listed)[h] == multiset(rows)[h]))
  {
    var listed := Listed(rows, status);
    if status.Some? && status.value != "" {
      forall h | h in listed
        ensures h.status.Name() == status.value
      {
        assert h in multiset(listed);
      }
    }
  }

  /** The home page lists every record, newest first. */
  function Index(rows: seq<History>): (r: seq<History>)
    ensures multiset(r) == multiset(rows) && NewestFirstOrder(r)
  {
    NewestFirst(rows)
  }

  /** `MinutesHistory.query.get(id)`. */
  function FindHistory(rows: seq<History>, id: nat): (r: Option<History>)
    ensures r.None? <==> forall i :: 0 <= i < |rows| ==> rows[i].id != id
    ensures r.Some? ==> r.value in rows && r.value.id == id
  {
    if |rows| == 0 then None
    else if rows[0].id == id then Some(rows[0])
    else
      var rest := FindHistory(rows[1..], id);
      assert forall i :: 1 <= i < |rows| ==> rows[i] == rows[1..][i - 1];
      rest
  }

  /** The fields `get_status` reports, in this order. */
  function StatusBody(h: History): (j: Json)
    ensures j.JObject? && |j.members| == 7
    ensures j.members[0] == Member("id", JInt(h.id))
    ensures j.members[1] == Member("status", JString(h.status.Name()))
    ensures j.members[2] == Member("notta_title", JString(h.nottaTitle))
    ensures j.members[3] == Member("generated_title", OptString(h.generatedTitle))
    ensures j.members[4] == Member("processed_at", OptIso(h.processedAt))
    ensures j.members[5] == Member("notion_page_url", OptString(h.notionPageUrl))
    ensures j.members[6] == Member("error_message", OptString(h.errorMessage))
  {
    var processed := OptIso(h.processedAt);
    JObject([
      Member("id", JInt(h.id)),
      Member("status", JString(h.status.Name())),
      Member("notta_title", JString(h.nottaTitle)),
      Member("generated_title", OptString(h.generatedTitle)),
      Member("processed_at", processed),
      Member("notion_page_url", OptString(h.notionPageUrl)),
      Member("error_message", OptString(h.errorMessage))])
  }

  /** `get_status`: 404 with `History with ID <id> not found`, or the
      record's status fields. */
  function GetStatus(rows: seq<History>, id: nat): (r: Response)
    ensures r.code == 404 <==> forall i :: 0 <= i < |rows| ==> rows[i].id != id
    ensures r.code == 404 ==> r.body == ErrorBody("History with ID " + IntToString(id) + " not found")
    ensures r.code == 200 <==> exists i :: 0 <= i < |rows| && rows[i].id == id
    ensures r.code == 200 ==> r.body == StatusBody(FindHistory(rows, id).value)
    ensures r.code == 200 ==> exists i :: 0 <= i < |rows| && rows[i].id == id && r.body == StatusBody(rows[i])
  {
    match FindHistory(rows, id)
    case None => Response(404, ErrorBody("History with ID " + IntToString(id) + " not found"))
    case Some(h) => Response(200, StatusBody(h))
  }

  /** Every field `get_status` reports is reported alike, under the same
      key, by the full `to_dict` rendering. */
  lemma StatusAgreesWithDict(h: History)
    ensures forall m :: m in StatusBody(h).members ==> m in HistoryToDict(h).members
  {
    var d := HistoryToDict(h).members;
    assert d[0] == Member("id", JInt(h.id));
    assert d[9] == Member("status", JString(h.status.Name()));
    assert d[1] == Member("notta_title", JString(h.nottaTitle));
    assert d[7] == Member("generated_title", OptString(h.generatedTitle));
    assert d[4] == Member("processed_at", OptIso(h.processedAt));
    assert d[8] == Member("notion_page_url", OptString(h.notionPageUrl));
    assert d[10] == Member("error_message", OptString(h.errorMessage));
  }

  /** `get_history`: the record's `to_dict`, or `None` for the 404 page. */
  function GetHistory(rows: seq<History>, id: nat): (r: Option<Json>)
    ensures r.None? <==> forall i :: 0 <= i < |rows| ==> rows[i].id != id
    ensures r.Some? ==> exists i :: 0 <= i < |rows| && rows[i].id == id && r.value == HistoryToDict(rows[i])
  {
    match FindHistory(rows, id)
    case None => None
    case Some(h) => Some(HistoryToDict(h))
  }
}
