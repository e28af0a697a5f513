/**
 * The paginated fetch of the two job-search providers, SuperJob and
 * HeadHunter.  Both keep a page cursor (the `page` query parameter, which
 * starts at 0) and an append-only list of pages, and both run the same loop:
 * while the cursor is below the page budget, fetch one page; on a transport
 * error stop, otherwise append the whole page as one element and advance
 * the cursor.  The HTTP request is replaced by an oracle `fetch` that gives,
 * for each value of the page parameter, the outcome of requesting that page
 * (every other request parameter is fixed for the lifetime of a provider).
 */
module Providers {

  /** What one request for a page yields: the listings array of the
      response, or a transport error (`requests.exceptions.RequestException`). */
  datatype Outcome<Item> = Page(items: seq<Item>) | Failure

  /** The run of pages that the loop accumulates when it starts with cursor
      `start`, under budget `pages`: pages `start`, `start + 1`, ... for as
      long as the cursor is below the budget and the request succeeds. */
  function Fetched<Item>(start: int, pages: int, fetch: int -> Outcome<Item>): (r: seq<seq<Item>>)
    ensures start + |r| <= pages || r == []
    ensures forall i :: 0 <= i < |r| ==> fetch(start + i) == Page(r[i])
    ensures start + |r| < pages ==> fetch(start + |r|) == Failure
    decreases pages - start
  {
    if start >= pages then []
    else match fetch(start)
      case Failure => []
      case Page(items) => [items] + Fetched(start + 1, pages, fetch)
  }

  /** `r` is a run the loop may accumulate: within budget, each element the
      page fetched at its cursor, and stopped early only by a failure. */
  ghost predicate IsFetchRun<Item>(start: int, pages: int, fetch: int -> Outcome<Item>, r: seq<seq<Item>>) {
    (start + |r| <= pages || r == []) &&
    (forall i :: 0 <= i < |r| ==> fetch(start + i) == Page(r[i])) &&
    (start + |r| < pages ==> fetch(start + |r|) == Failure)
  }

  /** The three facts above determine the run completely. */
  lemma {:induction false} FetchedIsTheOnlyRun<Item>(start: int, pages: int, fetch: int -> Outcome<Item>, r: seq<seq<Item>>)
    ensures IsFetchRun(start, pages, fetch, r) <==> r == Fetched(start, pages, fetch)
    decreases |r|
  {
    if IsFetchRun(start, pages, fetch, r) && r != [] {
      assert fetch(start + 0) == Page(r[0]);
      forall i | 0 <= i < |r[1..]| ensures fetch(start + 1 + i) == Page(r[1..][i]) {
        assert fetch(start + (i + 1)) == Page(r[i + 1]);
      }
      FetchedIsTheOnlyRun(start + 1, pages, fetch, r[1..]);
      assert r == [r[0]] + r[1..];
    }
  }

  /** With no transport error anywhere in the budget, every page of the budget
      is fetched, whatever its size (an empty or short page does not stop
      the loop), and nothing is fetched when the budget is already spent. */
  lemma AllPagesFetched<Item>(start: int, pages: int, fetch: int -> Outcome<Item>)
    requires forall k :: start <= k < pages ==> fetch(k).Page?
    ensures |Fetched(start, pages, fetch)| == if start < pages then pages - start else 0
  {
  }

  /** A transport error at cursor `k` within the budget stops the loop there:
      exactly the pages before `k` are accumulated, in fetch order. */
  lemma {:induction false} StopsAtFirstFailure<Item>(start: int, pages: int, k: int, fetch: int -> Outcome<Item>)
    requires start <= k < pages
    requires fetch(k) == Failure
    requires forall j :: start <= j < k ==> fetch(j).Page?
    ensures |Fetched(start, pages, fetch)| == k - start
    ensures forall i :: 0 <= i < k - start ==> Page(Fetched(start, pages, fetch)[i]) == fetch(start + i)
    decreases k - start
  {
    if start < k {
      StopsAtFirstFailure(start + 1, pages, k, fetch);
    }
  }

  /** Running the loop under a smaller budget `mid` and then again under
      `pages` (with the same oracle) accumulates the same pages as one run
      under `pages`: a later call picks up at the cursor the first one left. */
  lemma {:induction false} ResumeAfterSmallerBudget<Item>(start: int, mid: int, pages: int, fetch: int -> Outcome<Item>)
    requires mid <= pages
    ensures var first := Fetched(start, mid, fetch);
            first + Fetched(start + |first|, pages, fetch) == Fetched(start, pages, fetch)
    decreases pages - start
  {
    if start < mid && fetch(start).Page? {
      ResumeAfterSmallerBudget(start + 1, mid, pages, fetch);
    }
  }

  /** A budget of 3 pages against a provider whose second page fails yields
      the first page only. */
  lemma SecondOfThreePagesFails<Item>(first: seq<Item>, fetch: int -> Outcome<Item>)
    requires fetch(0) == Page(first) && fetch(1) == Failure
    ensures Fetched(0, 3, fetch) == [first]
  {
  }

  const SuperJobUrl := "https://api.superjob.ru/2.0/vacancies/"
  const HeadHunterUrl := "https://api.hh.ru/vacancies"
  /** The page size both providers ask for (`count` and `per_page`). */
  const PageSize := 100

  /** A provider client: its fixed request parameters, the page cursor and
      the pages accumulated so far. */
  class Provider<Item> {
    const url: string
    const keyword: string
    const pageSize: nat
    var page: int
    var vacancies: seq<seq<Item>>

    /** The cursor starts at 0 and moves only together with an append, so
        it always counts the pages accumulated. */
    ghost predicate Valid()
      reads this
    {
      |vacancies| == page
    }

    constructor SuperJob(keyword: string)
      ensures Valid()
      ensures url == SuperJobUrl && this.keyword == keyword && pageSize == PageSize
      ensures page == 0 && vacancies == []
    {
      url := SuperJobUrl;
      this.keyword := keyword;
      pageSize := PageSize;
      page := 0;
      vacancies := [];
    }

    constructor HeadHunter(keyword: string)
      ensures Valid()
      ensures url == HeadHunterUrl && this.keyword == keyword && pageSize == PageSize
      ensures page == 0 && vacancies == []
    {
      url := HeadHunterUrl;
      this.keyword := keyword;
      pageSize := PageSize;
      page := 0;
      vacancies := [];
    }

    /** `get_vacancies(pages)`: no exception leaves it; a transport error
        only ends the loop. */
    method GetVacancies(pages: int, fetch: int -> Outcome<Item>)
      requires Valid()
      modifies this`page, this`vacancies
      ensures Valid()
      ensures vacancies == old(vacancies) + Fetched(old(page), pages, fetch)
      ensures page == old(page) + |Fetched(old(page), pages, fetch)|
      ensures old(page) < pages ==> old(page) <= page <= pages
      ensures old(page) >= pages ==> page == old(page) && vacancies == old(vacancies)
    {
      ghost var start := page;
      while page < pages
        invariant Valid()
        invariant start <= page
        invariant old(vacancies) + Fetched(start, pages, fetch) == vacancies + Fetched(page, pages, fetch)
        invariant start < pages ==> page <= pages
        decreases pages - page
      {
        match fetch(page)
        case Failure =>
          break;
        case Page(items) =>
          vacancies := vacancies + [items];
          page := page + 1;
      }
    }
  }
}
