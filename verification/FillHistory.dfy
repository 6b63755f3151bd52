/**
 The authenticated fill history as the exchange serves it: an append-only list of bill
 ids, paginated newest first.  `history` is kept oldest first, so a row keeps its index
 when newer rows arrive.
 */
module FillHistory {
  import opened Options

  const PAGE_SIZE: nat := 100

  predicate Ascending(h: seq<int>) {
    forall i, j :: 0 <= i < j < |h| ==> h[i] < h[j]
  }

  /** Append-only growth: rows that are not strictly newer than everything present never appear. */
  function Arrive(h: seq<int>, rows: seq<int>): (r: seq<int>)
    ensures h <= r
    ensures Ascending(h) ==> Ascending(r)
  {
    if Ascending(h + rows) then h + rows else h
  }

  /** The number of rows strictly older than `id`. */
  function OlderThan(h: seq<int>, id: int): (c: nat)
    ensures c <= |h|
    ensures Ascending(h) ==> forall i :: 0 <= i < |h| ==> (h[i] < id <==> i < c)
  {
    if |h| == 0 || h[|h| - 1] < id then |h| else OlderThan(h[..|h| - 1], id)
  }

  /** How many rows a request with this `after` parameter can still return. */
  function Frontier(h: seq<int>, after: Option<int>): (c: nat)
    ensures c <= |h|
  {
    match after
    case None => |h|
    case Some(id) => OlderThan(h, id)
  }

  /** Rows `lo <= i < hi` of the history, newest first. */
  function NewestFirst(h: seq<int>, lo: nat, hi: nat): (r: seq<int>)
    requires lo <= hi <= |h|
    ensures |r| == hi - lo
    ensures forall k :: 0 <= k < |r| ==> r[k] == h[hi - 1 - k]
  {
    seq(hi - lo, k requires 0 <= k < hi - lo => h[hi - 1 - k])
  }

  function PageFloor(c: nat): (lo: nat)
    ensures lo <= c && c - lo <= PAGE_SIZE && (c - lo < PAGE_SIZE ==> lo == 0)
  {
    if c < PAGE_SIZE then 0 else c - PAGE_SIZE
  }

  /** One page: up to PAGE_SIZE rows strictly older than `after`, newest first. */
  function Page(h: seq<int>, after: Option<int>): (page: seq<int>)
    ensures |page| <= PAGE_SIZE && |page| <= Frontier(h, after)
  {
    var c := Frontier(h, after);
    NewestFirst(h, PageFloor(c), c)
  }

  predicate Reaches(page: seq<int>, mark: Option<int>) {
    mark.Some? && mark.value in page
  }

  /** The page after which a catch-up cycle stops. */
  predicate LastPage(page: seq<int>, mark: Option<int>) {
    |page| < PAGE_SIZE || Reaches(page, mark)
  }

  /** One uninterrupted scan of a frozen history down to the page that holds `mark`. */
  function Scan(h: seq<int>, after: Option<int>, mark: Option<int>): (rows: seq<int>)
    requires Ascending(h)
    decreases Frontier(h, after)
  {
    var page := Page(h, after);
    if LastPage(page, mark) then page
    else
      FrontierAfterPage(h, after);
      page + Scan(h, Some(page[|page| - 1]), mark)
  }

  /** The row at index i has exactly i older rows. */
  lemma OlderThanAt(h: seq<int>, i: nat)
    requires Ascending(h) && i < |h|
    ensures OlderThan(h, h[i]) == i
  {
  }

  lemma OlderThanPrefix(h: seq<int>, g: seq<int>, id: int)
    requires h <= g && Ascending(g) && id in h
    ensures OlderThan(g, id) == OlderThan(h, id)
  {
  }

  /** Moving `after` to a full page's last row leaves exactly PAGE_SIZE fewer rows to serve. */
  lemma FrontierAfterPage(h: seq<int>, after: Option<int>)
    requires Ascending(h) && |Page(h, after)| == PAGE_SIZE
    ensures var page := Page(h, after);
            && page[|page| - 1] in h
            && Frontier(h, Some(page[|page| - 1])) == Frontier(h, after) - PAGE_SIZE
            && page[|page| - 1] == h[Frontier(h, after) - PAGE_SIZE]
  {
    var c := Frontier(h, after);
    var page := Page(h, after);
    assert page[|page| - 1] == h[c - PAGE_SIZE];
    OlderThanAt(h, c - PAGE_SIZE);
  }

  /** Newer arrivals do not change what an in-progress cursor is served. */
  lemma PageStable(h: seq<int>, g: seq<int>, id: int)
    requires h <= g && Ascending(g) && id in h
    ensures Ascending(h) && Page(g, Some(id)) == Page(h, Some(id))
  {
    OlderThanPrefix(h, g, id);
  }

  lemma {:induction false} ScanStable(h: seq<int>, g: seq<int>, id: int, mark: Option<int>)
    requires h <= g && Ascending(g) && Ascending(h) && id in h
    ensures Scan(g, Some(id), mark) == Scan(h, Some(id), mark)
    decreases Frontier(h, Some(id))
  {
    PageStable(h, g, id);
    var page := Page(h, Some(id));
    if !LastPage(page, mark) {
      FrontierAfterPage(h, Some(id));
      ScanStable(h, g, page[|page| - 1], mark);
    }
  }

  lemma NewestFirstSplit(h: seq<int>, lo: nat, mid: nat, hi: nat)
    requires lo <= mid <= hi <= |h|
    ensures NewestFirst(h, mid, hi) + NewestFirst(h, lo, mid) == NewestFirst(h, lo, hi)
  {
  }

  /** The last page of a scan: it covers everything newer than the mark. */
  lemma LastPageShape(h: seq<int>, after: Option<int>, mark: Option<int>)
    requires Ascending(h) && LastPage(Page(h, after), mark)
    ensures Scan(h, after, mark) == NewestFirst(h, PageFloor(Frontier(h, after)), Frontier(h, after))
    ensures var lo := PageFloor(Frontier(h, after));
            lo > 0 ==> && Frontier(h, after) == lo + PAGE_SIZE
                       && mark.Some? && (forall i :: 0 <= i < lo ==> h[i] < mark.value)
                       && mark.value in NewestFirst(h, lo, lo + PAGE_SIZE)
  {
  }

  lemma ScanUnfolds(h: seq<int>, after: Option<int>, mark: Option<int>) returns (last: Option<int>)
    requires Ascending(h) && !LastPage(Page(h, after), mark)
    ensures Frontier(h, last) == Frontier(h, after) - PAGE_SIZE < Frontier(h, after)
    ensures Scan(h, after, mark) ==
            NewestFirst(h, Frontier(h, last), Frontier(h, after)) + Scan(h, last, mark)
  {
    var page := Page(h, after);
    FrontierAfterPage(h, after);
    last := Some(page[|page| - 1]);
  }

  /** An uninterrupted scan reads the newest rows in order, misses nothing newer than the mark,
      and stops only at the first page that holds the mark, or at the end of the history. */
  lemma {:induction false} ScanShape(h: seq<int>, after: Option<int>, mark: Option<int>)
    returns (lo: nat, pages: nat)
    requires Ascending(h)
    ensures lo <= Frontier(h, after)
    ensures Scan(h, after, mark) == NewestFirst(h, lo, Frontier(h, after))
    ensures lo > 0 ==> mark.Some? && forall i :: 0 <= i < lo ==> h[i] < mark.value
    ensures lo > 0 ==> pages > 0 && Frontier(h, after) == lo + PAGE_SIZE * pages
    ensures lo > 0 ==> mark.value in NewestFirst(h, lo, lo + PAGE_SIZE)
    decreases Frontier(h, after)
  {
    hide *;
    if LastPage(Page(h, after), mark) {
      LastPageShape(h, after, mark);
      lo, pages := PageFloor(Frontier(h, after)), 1;
    } else {
      var last := ScanUnfolds(h, after, mark);
      lo, pages := ScanShape(h, last, mark);
      pages := pages + 1;
      NewestFirstSplit(h, lo, Frontier(h, last), Frontier(h, after));
    }
  }
}
