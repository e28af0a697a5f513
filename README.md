# Kursovaja4 job-vacancy fetcher — a Dafny model

The repository fetches job vacancies from two job-search APIs, SuperJob and
HeadHunter, and shows them as text. This project models the logic in
`classes.py` that is more than I/O:

- **The paginated fetch** (`SuperJob.get_vacancies`, `HeadHunter.get_vacancies`).
  Each provider keeps a page cursor (the `page` query parameter, starting at 0)
  and an append-only list of fetched pages. While the cursor is below the
  page budget, the loop requests one page. A `RequestException` ends the loop.
  Otherwise the whole page is appended as one element and the cursor advances.
  Both providers run the same loop, so one class `Providers.Provider` models
  them, with one named constructor per provider. The HTTP request is an oracle
  `fetch: int -> Outcome<Item>`. It gives the outcome of requesting each value
  of the page parameter: `Page(items)` or `Failure`. The other query
  parameters are fixed for the lifetime of a provider.
  `Providers.Fetched` is the specification of one call. It gives the run of
  pages accumulated from a cursor under a budget. `GetVacancies` is proved
  against it, and the lemmas beside it state what that run is.
- **The `Vacancies` record and its rendering** (`Vacancies.__init__`,
  `Vacancies.__str__`), as the class `Vacancies.Vacancy`. `__str__` writes an
  "от N" phrase and a "до N" phrase, each omitted when its bound is `None`.
  When both bounds are `None`, it also sets `salary_from` to 0. The text it
  returns still uses the phrases computed before that assignment, so a second
  call renders "от 0". `Vacancies.Render` is the text as a function of the
  fields. The salary part of that text has a parser (`ParseSalaryLine`) that
  reads both bounds back, so an absent bound is never rendered like a present
  one. From this follows the exact condition under which two renderings of
  one record differ.

Modules: `Wrappers` (the `Option` type for Python's `None`), `Decimal`
(`str()` of an integer and its inverse), `Providers`, `Vacancies`.

## Model

| member | source | states |
|---|---|---|
| `Providers.Fetched` | classes.py:57-66 | The pages one `get_vacancies` call accumulates from cursor `start` under budget `pages`. The run stays within the budget and is empty when the budget is spent. Its i-th element is exactly the page fetched at cursor `start + i`. When it stops short of the budget, the fetch at the cursor where it stopped failed. |
| `Providers.FetchedIsTheOnlyRun` | classes.py:57-66 | The three facts above hold of a sequence of pages if and only if it is the run `Fetched` gives, so they specify the loop completely. |
| `Providers.AllPagesFetched` | classes.py:60-66 | When no request within the budget fails, `max(0, pages - start)` pages are accumulated, whatever their sizes: an empty page or one shorter than the page size does not stop the loop. |
| `Providers.StopsAtFirstFailure` | classes.py:59-63 | A transport error at cursor `k`, with all earlier requests succeeding, stops the loop there. Exactly the `k - start` earlier pages are kept, in fetch order. |
| `Providers.ResumeAfterSmallerBudget` | classes.py:56-66 | With the same oracle for both calls, a call under budget `mid` followed by a call under budget `pages >= mid` accumulates the same pages as one call under `pages`: the cursor persists between calls, and a page that failed in the first call fails again in the second. |
| `Providers.SecondOfThreePagesFails` | classes.py:56-66 | With a budget of 3 and a failure on the second page, only the first page is accumulated. |
| `Providers.Provider.SuperJob` | classes.py:40-45 | A new SuperJob client has the SuperJob URL, the keyword, page size 100, cursor 0 and no pages. |
| `Providers.Provider.HeadHunter` | classes.py:71-75 | A new HeadHunter client has the HeadHunter URL, the keyword, page size 100, cursor 0 and no pages. |
| `Providers.Provider.GetVacancies` | classes.py:56-66 | The loop appends exactly the run `Fetched(old cursor, pages)` to the old pages and advances the cursor by its length. Nothing is removed or reordered. The cursor never passes a budget it started below, and nothing changes when the budget is already spent. No exception leaves the call. The invariant "pages accumulated == cursor" is kept. The HeadHunter loop at classes.py:86-96 is the same. |
| `Decimal.IntToString` | classes.py:111-112 | The decimal text of a salary, as an f-string writes it. It is nonempty and holds only digits and a minus sign, so never a space. |
| `Decimal.IntToStringRoundTrip` | classes.py:111-112 | `ParseInt` reads back every integer's decimal text. |
| `Vacancies.Phrase` | classes.py:111-112 | A salary phrase ("от N" for `salary_from`, "до N" for `salary_to`) is empty exactly when its bound is `None`. |
| `Vacancies.SalaryLineRoundTrip` | classes.py:111-115 | Both bounds can be read back from the salary part of the text. An absent bound is never written as a number, 0 included. |
| `Vacancies.Render` | classes.py:115-116 | The layout of the text: `Вакансия "<title>" ` and `Компания: "<employer>" ` lines, then `Зарплата: ` followed by the from-phrase, a space and the to-phrase, then a blank line, then `URL: <url>` indented by eight spaces. The salary part lies between a prefix fixed by title and employer and a suffix fixed by the URL. |
| `Vacancies.RenderDeterminesSalary` | classes.py:110-116 | Two renderings with the same title, employer and URL are equal if and only if their salary bounds are equal. |
| `Vacancies.Vacancy.constructor` | classes.py:101-108 | Each of the seven arguments is stored unchanged in the field of the same name. |
| `Vacancies.Vacancy.ToString` | classes.py:110-116 | Returns the rendering of the fields as they were on entry. If both bounds were `None`, `salary_from` is `Some(0)` afterwards. No other field changes. |
| `Vacancies.RenderTwice` | classes.py:110-116 | Rendering a new record twice gives two different texts if and only if both salary bounds were absent. In that case the second text shows "от 0". So `__str__` is not idempotent. |

## Left out

- `get_requests` (classes.py:47-54) is the HTTP GET, the status printing and `response.json()`. It is the oracle `fetch`. A non-200 status still returns the parsed body, which is just another `Page` outcome.
- Providers.Outcome: an exception other than `RequestException` raised by `get_requests` (such as a `KeyError` when the body lacks `objects` or `items`) propagates out of `get_vacancies` in the source. The oracle has no such outcome. The model also assumes the listings value is a list: if `objects` or `items` holds a non-list such as JSON `null`, `len(values)` at classes.py:64 (outside the `try`) raises a `TypeError` that leaves `get_vacancies`, which `Page(items: seq<Item>)` cannot express.
- The oracle `fetch` is a fixed function of the page number within one call; a different call may take a different oracle, so a page that failed may succeed when a later call requests it again.
- Providers.ResumeAfterSmallerBudget: both calls use the same oracle, so a page that failed in the first call is assumed to fail again when the second call requests it. The source retries that page (the cursor does not advance on failure, classes.py:61-63), and a transient `RequestException` need not recur, in which case two calls collect more pages than one.
- The SuperJob API key header read with `os.getenv` (classes.py:43) and the HeadHunter `User-Agent` header (classes.py:73) are environment access and request details. They do not affect the loop.
- The `PAGES_NUMBER` default of the `pages` argument (classes.py:8) is not modelled: the budget is always passed explicitly.
- All `print` progress and diagnostic output is console I/O.
- `JsonSaver` (classes.py:119-134) and the abstract classes `Simple` and `File` (classes.py:11-36) are left out. They are file I/O, `json.dump`/`json.load`, and declarations without logic. `vacancies_list` opens the file for writing before reading it, so it has no save/load round trip to state.
- main.py is an interactive `input` menu. The methods it calls (`get_formatted_vacancies`, the two salary sorts, `delete_vacancies`) are not defined in classes.py, so the salary normaliser and the salary ordering have no source to model.
- Vacancies.Vacancy: `vacancy_id`, the title, URL, employer and API tag are modelled as strings, and salaries as integers. In Python they are whatever JSON supplied. A float salary would render as, for example, `80000.0`.
