# Salary statistics from two job-listing APIs

This project models, in Dafny, the core of a small script that estimates
programmer salaries from two job-listing services: HeadHunter, which numbers
its result pages, and SuperJob, whose responses say whether more pages
follow. For each specialization keyword the script does four things:

- It fetches every result page.
- It turns each listing's salary range into one estimate.
- It drops the listings with no estimate.
- It records the number found, the number processed and the truncated mean
  in a dictionary keyed by keyword.

Modules, one concept each:

- `Wrappers`: `Option` (Python's `None`) and `Result` (a value, or the
  error the script would raise).
- `Estimation`: `predict_salary`. Bounds are `Option<int>`, the estimate is
  `Option<real>`, and the factors 1.2 and 0.9 are exact reals. A bound of
  `0` counts as absent, as it does in the source.
- `Query`: the shared query-parameter dictionary, a `Payload` class whose
  `keyword` and `page` fields the loops overwrite in place.
  - The HTTP endpoint is an `Api<P>` class, where `P` is the decoded page
    type.
  - Its `responses(k)[i]` is the page a request for keyword `k` and page
    `i` returns.
  - A ghost `log` records every request in order.
- `HeadHunter`: the per-listing mapper and the `page < pages_number` fetch
  loop, which re-reads `pages` from every response. It also holds the
  aggregator as imperative methods, proved against specification functions.
- `SuperJob`: the same for `payment_from`/`payment_to` listings, and for the
  `while more` fetch loop.
- `Aggregation`: what both aggregators share.
  - Filtering out unknown estimates (`Known`).
  - `numpy.mean` over exact reals (`Mean`).
  - `int()` as truncation toward zero (`Trunc`).
  - An insertion-ordered dictionary (`Dict`, with `Put` as `dict.update`).
  - A reference definition of the whole aggregation over the fetched runs:
    `Fold`, `Aggregate`, `Attempted`, `RequestLog` and `FinalRequest`.

The fetch loops are specified by functions:

- `LastPage(rs)` is the index of the first response after which the loop
  stops.
- `FetchRun(name, rs)` is what one fetch returns:
  - the count from the last page requested;
  - the estimates of pages `0..LastPage(rs)` in page order;
  - the last page index.
- Each loop method is proved to return exactly `FetchRun`, to leave the
  payload on the last page, and to issue exactly the requests
  `PageRequests(keyword, LastPage(rs) + 1)`.

Each aggregator method is proved to return `Aggregate(Runs(...))`, to issue
exactly `RequestLog` and to leave the payload on `FinalRequest`.

A specialization with no known estimate makes the source take the mean of an
empty list. The result is NaN, and `int(NaN)` raises, which ends the whole
run. So the model returns `Err(EmptyMean(name))` at that point: it states
which name fails and how many fetches happened before it. No member
requires a known estimate: the failure is part of the result.

## Model

| member | source | states |
|---|---|---|
| Estimation.PredictSalaryCases | main.py:9-19 | no estimate exactly when neither bound is given (nonzero); lower bound only gives from×1.2, upper bound only gives to×0.9, both give their mean |
| Estimation.PredictSalaryBetween | main.py:17-18 | with both bounds nonzero the estimate exists and lies between min(from, to) and max(from, to) |
| Estimation.PredictSalaryPositive | main.py:13-18 | with non-negative bounds every estimate that exists is positive |
| Estimation.PredictSalaryExamples | main.py:9-19 | concrete cases: (None, None), (0, 0) and (0, None) give none; (100, None) gives 120; (None, 200) and (0, 200) give 180; (100, 200) gives 150 |
| HeadHunter.EstimateKnown | main.py:25-30 | a listing has an estimate iff its salary object exists, its currency is "RUR" and one of its bounds is nonzero |
| HeadHunter.EstimatesAt | main.py:22-31 | the mapped list has the listings' length, and entry i is the estimate of listing i |
| HeadHunter.CalculatingHhSalaries | main.py:22-31 | the loop appends one estimate per listing: the result is the specification `Estimates(vacancies)` |
| HeadHunter.LastPageFrom | main.py:38-46 | the first page at or after i whose reported page count is at most its index + 1; no earlier one has that property |
| HeadHunter.LastPage | main.py:36-46 | the fetch loop's last page: the first response whose page count does not exceed the pages fetched so far |
| HeadHunter.GettingHhSalaries | main.py:34-47 | requests pages 0..LastPage in order; it returns `found` of the last page requested and the concatenated estimates of all requested pages; the payload keeps its keyword and ends on the last page |
| HeadHunter.LastPageConstant | main.py:36-46 | if every response reports the same page count p, the loop makes exactly p requests, or one when p ≤ 1 |
| HeadHunter.FetchExample | main.py:34-47 | one page with a 100000–150000 RUR listing and a listing without salary: one request, found 2, estimates 125000 and none |
| HeadHunter.SummarizeExample | main.py:55-61 | that fetch is recorded as found 2, processed 1, average 125000 |
| HeadHunter.AggregateExample | main.py:50-65 | aggregating the single name "Python" over that search gives the dictionary holding only "Python" with found 2, processed 1, average 125000 |
| HeadHunter.RunsAt | main.py:52-54 | the i-th run of the aggregation is the fetch of the i-th name |
| HeadHunter.RunsNames | main.py:52-53 | the runs carry the input list's names, in list order |
| HeadHunter.AggregateKeys | main.py:51-64 | a successful aggregation has distinct keys, exactly the names of the input list, in the order of each name's first occurrence |
| HeadHunter.AggregateValues | main.py:56-64 | in a successful aggregation, the entry of a name not repeated later in the list is the summary of that name's fetch, which has a known estimate |
| HeadHunter.Visit | main.py:53-64 | one loop pass: fetches the i-th name, fails iff it has no known estimate (and the aggregation then fails there), else extends the dictionary by that run's statistics; issues that name's page requests |
| HeadHunter.PredictRubSalaryHh | main.py:50-65 | the result is `Aggregate` of the runs; the requests issued are those of every run attempted; the payload ends on the last request sent |
| SuperJob.EstimateKnown | main.py:71-73 | a listing has an estimate iff one of its payment bounds is nonzero |
| SuperJob.EstimatesAt | main.py:68-74 | the mapped list has the listings' length, and entry i is the estimate of listing i |
| SuperJob.CalculatingSjSalaries | main.py:68-74 | the loop appends one estimate per listing: the result is `Estimates(vacancies)` |
| SuperJob.LastPageFrom | main.py:81-89 | the first page at or after i whose response has `more` false; every earlier one has `more` true |
| SuperJob.LastPage | main.py:78-89 | the fetch loop's last page: the first response whose `more` is false |
| SuperJob.GettingSjSalaries | main.py:77-90 | requests pages 0..LastPage in order; it returns `total` of the last response and the concatenated estimates of all requested pages; the payload keeps its keyword and ends on the last page |
| SuperJob.FetchExample | main.py:77-90 | responses with more = true, true, false: three requests, `total` of the third page, estimates of every listing in page order |
| SuperJob.RunsAt | main.py:95-97 | the i-th run of the aggregation is the fetch of the i-th name |
| SuperJob.RunsNames | main.py:95-96 | the runs carry the input list's names, in list order |
| SuperJob.AggregateKeys | main.py:94-106 | a successful aggregation has distinct keys, exactly the names of the input list, in the order of each name's first occurrence |
| SuperJob.AggregateValues | main.py:99-106 | in a successful aggregation, the entry of a name not repeated later in the list is the summary of that name's fetch, which has a known estimate |
| SuperJob.Visit | main.py:96-106 | one loop pass, as for HeadHunter |
| SuperJob.PredictRubSalarySj | main.py:93-107 | the result is `Aggregate` of the runs; the requests issued are those of every run attempted; the payload ends on the last request sent |
| Query.Api.Get | main.py:39-42 | returns the decoded page the payload's keyword and page select, and logs that request |
| Query.PageRequestsAt | main.py:37-46 | a fetch of n pages requests pages 0, 1, …, n − 1 of its keyword, in that order |
| Aggregation.KnownCount | main.py:55 | the number of estimates kept plus the number of `None`s is the number of estimates |
| Aggregation.KnownMembers | main.py:55 | a value is kept iff it occurs as a present estimate |
| Aggregation.KnownBounds | main.py:55 | bounds on the present estimates bound every kept value |
| Aggregation.KnownAppend | main.py:44 | filtering the concatenation of pages' estimates is the concatenation of the filtered pages |
| Aggregation.SumBounds | main.py:61 | n values between lo and hi sum to between n·lo and n·hi |
| Aggregation.MeanBounds | main.py:61 | the mean lies between any lower and upper bound of its elements |
| Aggregation.TruncTowardZero | main.py:61 | `int()` drops the fraction: it rounds down for a non-negative value and up for a negative one, by less than one |
| Aggregation.TruncMonotone | main.py:61 | truncation preserves order |
| Aggregation.SummarizeFields | main.py:55-61 | the recorded found count is the fetched one; processed plus `None`s is the number of listings; the average lies between the truncated least and greatest bounds |
| Aggregation.FinalRequestIsLast | main.py:53-54 | after at least one fetch the payload holds exactly the last logged request |
| Aggregation.FailAt | main.py:52-61 | every run before it has a known estimate and the run at it has none |
| Aggregation.AggregateCases | main.py:52-65 | the aggregation succeeds iff every run has a known estimate, and then fetches all runs; otherwise it fails with the name of the first run without one, which is the last run fetched |
| Aggregation.AggregateStep | main.py:52-64 | a run without a known estimate is where the aggregation fails; otherwise recording it extends the fold; each run adds its own page requests to the log |
| Aggregation.AggregateDone | main.py:52-65 | when every run is recorded, the aggregation returns the built dictionary |
| Aggregation.FoldKeys | main.py:56-64 | the dictionary's keys are distinct and are exactly the names, in order of first occurrence |
| Aggregation.FoldValues | main.py:56-64 | a name's entry holds the statistics of its last run: a repeated name overwrites the earlier entry |

## Left out

- HTTP and JSON are not modelled: `requests.get`, the URL and headers,
  `raise_for_status` and `response.json()`. The `Api` class stands in for
  them, so transport errors and missing fields are out of scope.
- The fixed query parameters (area, specialization code, page size, town
  and search mode) are constant for the whole run and never read by the
  core.
- Floating point: `*1.2`, `*0.9`, `/2`, `float()` and `numpy.mean` are
  exact real arithmetic, so IEEE rounding is not modelled.
- `str(...)` of the three recorded numbers: `Stats` keeps them as integers.
- `creature_table` and printing: they are presentation through an external
  table library.
- `__main__`: loading the environment, the secret key and the hard-coded
  configuration.
- The placeholder `[]` values of `'text'`/`'keyword'` and `'page'`: the
  model types them as a string and a page index.
- Non-termination: a server that never reports the end is excluded by the
  `Terminates` precondition on the finite response sequences. So is a
  request for a page the response sequence does not hold; the model does
  not say what the server would answer to it.
- HeadHunter.Runs and SuperJob.Runs: their contracts state only the length.
  Each run is stated by RunsAt, and their names by RunsNames.
- The server is fixed over time: a repeated request returns the same page.
  So a name listed twice gives the same fetch both times, and the aggregators
  do not model a live server that answers it differently. That a repeated
  name overwrites the earlier entry is proved over arbitrary runs by
  FoldValues.
- The empty-mean crash appears as `Err(EmptyMean(name))` rather than as an
  exception. The model does not distinguish it from other exceptions.
