/** `paginate`: all pages of a listing put back together. */
module Paging {
  import opened Outcomes
  import opened JsonValues

  /** A number in an envelope: missing, zero or otherwise falsy; read as a number; or unreadable. */
  datatype Figure = Falsy | Number(n: int) | NotANumber

  datatype Reply = Failed(code: string) | Malformed | Envelope(items: seq<Json>, pages: Figure, total: Figure)

  datatype PageError = RequestFailed(code: string) | BadEnvelope(page: int) | BadMetadata

  datatype Listing = OnePage(envelope: Reply) | AllPages(items: seq<Json>, total: int, pagesFetched: int)

  /** What a server answers to (page, limit). */
  type Server = (int, int) -> Reply

  function Items(r: Reply, page: int): Result<seq<Json>, PageError> {
    match r
    case Failed(code) => Failure(RequestFailed(code))
    case Malformed => Failure(BadEnvelope(page))
    case Envelope(items, _, _) => Success(items)
  }

  /** The items of `n` pages from page 2 on, if all of them are well formed. */
  function Collected(server: Server, limit: int, n: nat): Result<seq<Json>, PageError> {
    if n == 0 then Success([])
    else
      var front :- Collected(server, limit, n - 1);
      var last :- Items(server(n + 1, limit), n + 1);
      Success(front + last)
  }

  /** How many pages remain after the first. */
  function Further(pages: int): nat {
    if pages >= 2 then pages - 1 else 0
  }

  function Figured(f: Figure, default: int): Option<int> {
    match f case Falsy => Some(default) case Number(n) => Some(n) case NotANumber => None
  }

  function Paginated(server: Server, page: int, limit: int, maxLimit: int, allPages: bool): Result<Listing, PageError> {
    if !allPages then
      match server(page, limit)
      case Failed(code) => Failure(RequestFailed(code))
      case Malformed => Failure(BadEnvelope(page))
      case Envelope(_, _, _) => Success(OnePage(server(page, limit)))
    else
      var first :- Items(server(1, maxLimit), 1);
      var envelope := server(1, maxLimit);
      match (Figured(envelope.pages, 0), Figured(envelope.total, |first|))
      case (Some(pages), Some(total)) =>
        var rest :- Collected(server, maxLimit, Further(pages));
        Success(AllPages(first + rest, total, pages))
      case _ => Failure(BadMetadata)
  }

  lemma {:induction false} CollectedFailsLater(server: Server, limit: int, k: nat, n: nat)
    requires k <= n && Collected(server, limit, k).Failure?
    ensures Collected(server, limit, n) == Collected(server, limit, k)
    decreases n
  {
    if k < n {
      CollectedFailsLater(server, limit, k, n - 1);
    }
  }

  method Paginate(server: Server, page: int, limit: int, maxLimit: int, allPages: bool)
    returns (r: Result<Listing, PageError>)
    ensures r == Paginated(server, page, limit, maxLimit, allPages)
  {
    var first := server(if allPages then 1 else page, if allPages then maxLimit else limit);
    if first.Failed? {
      return Failure(RequestFailed(first.code));
    }
    if first.Malformed? {
      return Failure(BadEnvelope(if allPages then 1 else page));
    }
    if !allPages {
      return Success(OnePage(first));
    }
    var items := first.items;
    var pages, total := Figured(first.pages, 0), Figured(first.total, |items|);
    if pages.None? || total.None? {
      return Failure(BadMetadata);
    }
    for nextPage := 2 to Further(pages.value) + 2
      invariant Collected(server, maxLimit, nextPage - 2).Success?
      invariant items == first.items + Collected(server, maxLimit, nextPage - 2).value
    {
      var payload := server(nextPage, maxLimit);
      if !payload.Envelope? {
        CollectedFailsLater(server, maxLimit, nextPage - 1, Further(pages.value));
        return Failure(Items(payload, nextPage).error);
      }
      items := items + payload.items;
    }
    return Success(AllPages(items, total.value, pages.value));
  }

  // ---- any server -----------------------------------------------------------------------------

  /** The items of pages 1 to `n`, one page after the other. */
  function Joined(server: Server, limit: int, n: nat): seq<Json>
    requires forall p | 1 <= p <= n :: server(p, limit).Envelope?
  {
    if n == 0 then [] else Joined(server, limit, n - 1) + server(n, limit).items
  }

  /** The error that a page without a proper envelope leads to. */
  ghost predicate Blames<T>(r: Result<T, PageError>, server: Server, page: int, limit: int) {
    match server(page, limit)
    case Failed(code) => r == Failure(RequestFailed(code))
    case Malformed => r == Failure(BadEnvelope(page))
    case Envelope(_, _, _) => false
  }

  /** Pages 2 to `n + 1` are collected if all of them are proper, else the first that is not is blamed. */
  lemma {:induction false} CollectedMeans(server: Server, limit: int, n: nat)
    requires server(1, limit).Envelope?
    ensures Collected(server, limit, n).Success? <==> forall p | 1 <= p <= n + 1 :: server(p, limit).Envelope?
    ensures Collected(server, limit, n).Success? ==>
      server(1, limit).items + Collected(server, limit, n).value == Joined(server, limit, n + 1)
    ensures Collected(server, limit, n).Failure? ==> exists p | 2 <= p <= n + 1 ::
      Blames(Collected(server, limit, n), server, p, limit) && forall q | 1 <= q < p :: server(q, limit).Envelope?
  {
    if n == 0 {
      assert Joined(server, limit, 1) == Joined(server, limit, 0) + server(1, limit).items;
    } else {
      CollectedMeans(server, limit, n - 1);
      if Collected(server, limit, n - 1).Success? && !server(n + 1, limit).Envelope? {
        assert Blames(Collected(server, limit, n), server, n + 1, limit);
      }
    }
  }

  /** The last page asked for when the first envelope speaks of so many pages. */
  function LastPage(pages: int): nat {
    if pages >= 1 then pages else 1
  }

  /** A single page is the envelope of the page and limit asked for. All pages are those from 1 to the number the first
      envelope gives, each asked for with the largest limit and joined in order, unless a figure of the first envelope
      is unreadable; the first page without a proper envelope is blamed. */
  lemma PaginatedExactly(server: Server, page: int, limit: int, maxLimit: int)
    ensures var r := Paginated(server, page, limit, maxLimit, false);
      if server(page, limit).Envelope? then r == Success(OnePage(server(page, limit)))
      else Blames(r, server, page, limit)
    ensures var r := Paginated(server, page, limit, maxLimit, true);
      match server(1, maxLimit)
      case Envelope(items, pages, total) =>
        if pages.NotANumber? || total.NotANumber? then r == Failure(BadMetadata)
        else
          var n := if pages.Falsy? then 0 else pages.n;
          if forall p | 1 <= p <= LastPage(n) :: server(p, maxLimit).Envelope? then
            r == Success(AllPages(Joined(server, maxLimit, LastPage(n)), if total.Falsy? then |items| else total.n, n))
          else exists p | 2 <= p <= n ::
            Blames(r, server, p, maxLimit) && forall q | 1 <= q < p :: server(q, maxLimit).Envelope?
      case _ => Blames(r, server, 1, maxLimit)
  {
    if server(1, maxLimit).Envelope? {
      var pages := server(1, maxLimit).pages;
      var n := if pages.Number? then pages.n else 0;
      var rest := Collected(server, maxLimit, Further(n));
      CollectedMeans(server, maxLimit, Further(n));
      if rest.Failure? {
        var p :| 2 <= p <= Further(n) + 1 && Blames(rest, server, p, maxLimit) &&
          forall q | 1 <= q < p :: server(q, maxLimit).Envelope?;
        if !server(1, maxLimit).pages.NotANumber? && !server(1, maxLimit).total.NotANumber? {
          assert Blames(Paginated(server, page, limit, maxLimit, true), server, p, maxLimit);
        }
      }
    }
  }

  // ---- an unchanging list ---------------------------------------------------------------------

  function Min(a: int, b: int): int {
    if a <= b then a else b
  }

  /** Page `page` (from 1) of a list cut into pages of `size`. */
  function Slice(xs: seq<Json>, size: int, page: int): seq<Json>
    requires size > 0 && page > 0
  {
    var lo := Min((page - 1) * size, |xs|);
    assert lo >= 0 && lo <= Min(page * size, |xs|) by {
      assert (page - 1) * size >= 0 && page * size == (page - 1) * size + size;
    }
    xs[lo..Min(page * size, |xs|)]
  }

  /** The ceiling of the quotient, as the service computes it. */
  function PageCount(total: nat, size: int): int
    requires size > 0
  {
    if total > 0 then (total + size - 1) / size else 0
  }

  function FigureOf(n: int): Figure {
    if n == 0 then Falsy else Number(n)
  }

  /** The server pages one list throughout, with its own page size whatever limit was asked for. */
  ghost predicate Serves(server: Server, xs: seq<Json>, size: int)
    requires size > 0
  {
    forall page, limit | page > 0 ::
      server(page, limit) == Envelope(Slice(xs, size, page), FigureOf(PageCount(|xs|, size)), FigureOf(|xs|))
  }

  lemma PageCountCovers(total: nat, size: int)
    requires size > 0
    ensures PageCount(total, size) * size >= total
    ensures PageCount(total, size) > 0 ==> (PageCount(total, size) - 1) * size < total
    ensures PageCount(total, size) == 0 <==> total == 0
  {
    if total > 0 {
      var q := (total + size - 1) / size;
      assert total + size - 1 == q * size + (total + size - 1) % size;
      assert (q - 1) * size == q * size - size;
      if q <= 0 {
        NotPositive(q, size);
      }
    }
  }

  lemma NotPositive(q: int, size: int)
    requires q <= 0 && size > 0
    ensures q * size <= 0
  {
  }

  lemma FirstPage(xs: seq<Json>, size: int)
    requires size > 0
    ensures Slice(xs, size, 1) == xs[..Min(size, |xs|)]
  {
  }

  lemma NextSlice(xs: seq<Json>, size: int, n: int)
    requires size > 0 && n >= 1
    ensures 0 <= Min(n * size, |xs|) <= Min((n + 1) * size, |xs|)
    ensures xs[..Min(n * size, |xs|)] + Slice(xs, size, n + 1) == xs[..Min((n + 1) * size, |xs|)]
  {
    Monotone(1, n, size);
    Monotone(n, n + 1, size);
  }

  lemma Monotone(a: int, b: int, size: int)
    requires a <= b && size > 0
    ensures a * size <= b * size
  {
    assert (b - a) * size >= 0;
  }

  /** One page more is one slice more. */
  lemma CollectedStep(server: Server, xs: seq<Json>, size: int, limit: int, n: nat)
    requires size > 0 && Serves(server, xs, size) && n > 0 && Collected(server, limit, n - 1).Success?
    ensures Collected(server, limit, n) == Success(Collected(server, limit, n - 1).value + Slice(xs, size, n + 1))
  {
    hide Slice, PageCount, FigureOf;
    assert server(n + 1, limit) == Envelope(Slice(xs, size, n + 1), FigureOf(PageCount(|xs|, size)), FigureOf(|xs|));
  }

  lemma Associative<T>(a: seq<T>, b: seq<T>, c: seq<T>)
    ensures a + (b + c) == (a + b) + c
  {
  }

  /** The first n + 1 pages are the first (n + 1) * size items. */
  lemma {:induction false} PagesJoin(server: Server, xs: seq<Json>, size: int, limit: int, n: nat)
    requires size > 0 && Serves(server, xs, size)
    ensures Collected(server, limit, n).Success?
    ensures (n + 1) * size >= 0
    ensures Slice(xs, size, 1) + Collected(server, limit, n).value == xs[..Min((n + 1) * size, |xs|)]
  {
    Monotone(0, n + 1, size);
    if n == 0 {
      NoPageLeft(server, xs, size, limit);
    } else {
      hide Slice, Min, Collected, Serves;
      PagesJoin(server, xs, size, limit, n - 1);
      NextSlice(xs, size, n);
      CollectedStep(server, xs, size, limit, n);
      Associative(Slice(xs, size, 1), Collected(server, limit, n - 1).value, Slice(xs, size, n + 1));
    }
  }

  lemma NoPageLeft(server: Server, xs: seq<Json>, size: int, limit: int)
    requires size > 0
    ensures Collected(server, limit, 0).Success?
    ensures Slice(xs, size, 1) + Collected(server, limit, 0).value == xs[..Min(size, |xs|)]
  {
    FirstPage(xs, size);
  }

  /** Reading all pages of an unchanging list returns exactly that list: nothing lost, repeated or reordered. */
  lemma AllPagesAreTheList(server: Server, xs: seq<Json>, size: int, page: int, limit: int, maxLimit: int)
    requires size > 0 && Serves(server, xs, size)
    ensures Paginated(server, page, limit, maxLimit, true) == Success(AllPages(xs, |xs|, PageCount(|xs|, size)))
  {
    hide Slice, PageCount;
    var pages := PageCount(|xs|, size);
    PageCountCovers(|xs|, size);
    PagesJoin(server, xs, size, maxLimit, Further(pages));
    Monotone(pages, Further(pages) + 1, size);
    assert xs[..Min((Further(pages) + 1) * size, |xs|)] == xs;
    assert server(1, maxLimit) == Envelope(Slice(xs, size, 1), FigureOf(pages), FigureOf(|xs|));
    FirstPageSize(xs, size);
  }

  lemma FirstPageSize(xs: seq<Json>, size: int)
    requires size > 0
    ensures |xs| == 0 ==> |Slice(xs, size, 1)| == 0
  {
  }
}
