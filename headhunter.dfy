/** The HeadHunter source: listings whose salary carries a currency, and a
    numbered-pages API whose every response reports the number of pages. */
module HeadHunter {
  import opened Wrappers
  import opened Estimation
  import opened Query
  import opened Aggregation

  /** A listing's `salary` object. */
  datatype Salary = Salary(from: Option<int>, to: Option<int>, currency: string)

  /** A listing; `salary` is `None` when the JSON field is `null`. */
  datatype Vacancy = Vacancy(salary: Option<Salary>)

  /** The decoded body of one page response. */
  datatype Page = Page(items: seq<Vacancy>, found: int, pages: int)

  /** The one currency the estimator accepts. */
  const Rouble := "RUR"

  /** The estimate of one listing: none unless the salary is given in
      roubles, and otherwise the estimator's value for its bounds. */
  function Estimate(v: Vacancy): Option<real>
  {
    if v.salary == None || v.salary.value.currency != Rouble then None
    else PredictSalary(v.salary.value.from, v.salary.value.to)
  }

  /** A listing has an estimate exactly when its salary is in roubles and
      gives at least one nonzero bound. */
  lemma EstimateKnown(v: Vacancy)
    ensures Estimate(v).Some? <==>
      v.salary.Some? && v.salary.value.currency == Rouble &&
      (Given(v.salary.value.from) || Given(v.salary.value.to))
  {
    if v.salary.Some? {
      PredictSalaryCases(v.salary.value.from, v.salary.value.to);
    }
  }

  /** The estimates of a page's listings, in listing order. */
  function Estimates(vs: seq<Vacancy>): seq<Option<real>>
  {
    if vs == [] then [] else Estimates(vs[..|vs| - 1]) + [Estimate(vs[|vs| - 1])]
  }

  /** One estimate per listing, at the listing's position. */
  lemma {:induction false} EstimatesAt(vs: seq<Vacancy>)
    ensures |Estimates(vs)| == |vs|
    ensures forall i :: 0 <= i < |vs| ==> Estimates(vs)[i] == Estimate(vs[i])
  {
    if vs != [] {
      EstimatesAt(vs[..|vs| - 1]);
    }
  }

  /** The estimates of every listing on one page, listing by listing. */
  method CalculatingHhSalaries(vacancies: seq<Vacancy>) returns (salaries: seq<Option<real>>)
    ensures salaries == Estimates(vacancies)
  {
    salaries := [];
    for i := 0 to |vacancies|
      invariant salaries == Estimates(vacancies[..i])
    {
      var vacancy := vacancies[i];
      assert vacancies[..i + 1][..i] == vacancies[..i];
      if vacancy.salary == None || vacancy.salary.value.currency != Rouble {
        salaries := salaries + [None];
      } else {
        var salaryFrom := vacancy.salary.value.from;
        var salaryTo := vacancy.salary.value.to;
        salaries := salaries + [PredictSalary(salaryFrom, salaryTo)];
      }
    }
    assert vacancies[..|vacancies|] == vacancies;
  }

  /** The fetch loop ends after page `k` when the page count that response
      reports is at most `k + 1`. */
  predicate Stops(rs: seq<Page>, k: nat)
    requires k < |rs|
  {
    rs[k].pages <= k + 1
  }

  /** The responses contain a page after which the loop ends. */
  predicate Terminates(rs: seq<Page>)
  {
    exists k: nat :: k < |rs| && Stops(rs, k)
  }

  /** The first page at or after `i` after which the loop stops. */
  function LastPageFrom(rs: seq<Page>, i: nat): (k: nat)
    requires exists k: nat :: i <= k < |rs| && Stops(rs, k)
    ensures i <= k < |rs| && Stops(rs, k)
    ensures forall j: nat :: i <= j < k ==> !Stops(rs, j)
    decreases |rs| - i
  {
    if Stops(rs, i) then i else LastPageFrom(rs, i + 1)
  }

  /** The index of the last page the loop requests: every earlier response
      reports more pages than have been fetched so far, this one does not. */
  function LastPage(rs: seq<Page>): (k: nat)
    requires Terminates(rs)
    ensures k < |rs| && Stops(rs, k)
    ensures forall j: nat :: j < k ==> !Stops(rs, j)
  {
    LastPageFrom(rs, 0)
  }

  /** The estimates of pages 0 to n - 1, concatenated in page order. */
  function PagesSalaries(rs: seq<Page>, n: nat): seq<Option<real>>
    requires n <= |rs|
  {
    if n == 0 then [] else PagesSalaries(rs, n - 1) + Estimates(rs[n - 1].items)
  }

  /** What fetching keyword `name` returns: `found` of the last page requested
      and the estimates of every page requested; it requests pages 0 to the
      last page. */
  function FetchRun(name: string, rs: seq<Page>): Run
    requires Terminates(rs)
  {
    var k := LastPage(rs);
    Run(name, rs[k].found, PagesSalaries(rs, k + 1), k)
  }

  /** Request the pages of the payload's keyword one at a time, 0, 1, ...,
      re-reading the page count from each response. */
  method GettingHhSalaries(api: Api<Page>, payload: Payload)
    returns (vacanciesNumber: int, salaries: seq<Option<real>>)
    requires Terminates(api.responses(payload.keyword))
    modifies api, payload
    ensures payload.keyword == old(payload.keyword)
    ensures payload.page == LastPage(api.responses(payload.keyword))
    ensures api.log == old(api.log) +
      PageRequests(payload.keyword, LastPage(api.responses(payload.keyword)) + 1)
    ensures Run(payload.keyword, vacanciesNumber, salaries, payload.page) ==
      FetchRun(payload.keyword, api.responses(payload.keyword))
  {
    ghost var rs := api.responses(payload.keyword);
    ghost var k := LastPage(rs);
    salaries := [];
    vacanciesNumber := 0;
    var pagesNumber := 1;
    var page := 0;
    while page < pagesNumber
      invariant payload.keyword == old(payload.keyword)
      invariant page <= k + 1
      invariant page < pagesNumber ==> page <= k
      invariant page == 0 ==> pagesNumber == 1
      invariant 0 < page ==> pagesNumber == rs[page - 1].pages
      invariant 0 < page ==> (pagesNumber <= page <==> Stops(rs, page - 1))
      invariant 0 < page ==> vacanciesNumber == rs[page - 1].found && payload.page == page - 1
      invariant salaries == PagesSalaries(rs, page)
      invariant api.log == old(api.log) + PageRequests(payload.keyword, page)
      decreases k + 1 - page
    {
      payload.page := page;
      var response := api.Get(payload);
      var vacancies := response.items;
      vacanciesNumber := response.found;
      var pageSalaries := CalculatingHhSalaries(vacancies);
      salaries := salaries + pageSalaries;
      pagesNumber := response.pages;
      assert PageRequests(payload.keyword, page + 1) ==
        PageRequests(payload.keyword, page) + [Request(payload.keyword, page)];
      page := page + 1;
    }
  }

  /** When every response reports the same page count `p`, the loop requests
      exactly `p` pages, and a single one when p ≤ 1. */
  lemma LastPageConstant(rs: seq<Page>, p: int)
    requires 0 < |rs| && p <= |rs|
    requires forall j :: 0 <= j < |rs| ==> rs[j].pages == p
    ensures Terminates(rs)
    ensures LastPage(rs) + 1 == if p <= 1 then 1 else p
  {
    var k := if p <= 1 then 0 else p - 1;
    assert Stops(rs, k);
  }

  /** A single-page search with one rouble listing from 100000 to 150000 and
      one without a salary. */
  const ExamplePages := [Page([Vacancy(Some(Salary(Some(100000), Some(150000), Rouble))), Vacancy(None)], 2, 1)]

  /** A server that answers every keyword with the example search. */
  function ExampleResponses(keyword: string): seq<Page>
  {
    ExamplePages
  }

  /** Fetching it makes one request, counts both listings as found, and
      gives the estimates 125000 and none. */
  lemma FetchExample()
    ensures Terminates(ExamplePages)
    ensures FetchRun("Python", ExamplePages) == Run("Python", 2, [Some(125000.0), None], 0)
  {
    var rs := ExamplePages;
    assert Stops(rs, 0);
    assert LastPage(rs) == 0;
    var vs := rs[0].items;
    assert Estimates(vs[..1]) == [] + [Some(125000.0)];
    assert Estimates(vs) == Estimates(vs[..1]) + [None];
    assert PagesSalaries(rs, 1) == [Some(125000.0), None];
  }

  /** The statistics of that fetch: found 2, processed 1, average 125000. */
  lemma SummarizeExample()
    ensures Summarize(Run("Python", 2, [Some(125000.0), None], 0)) == Stats(2, 1, 125000)
  {
    assert Known([Some(125000.0), None]) == Known([Some(125000.0)]) == [125000.0];
    assert Sum([125000.0]) == 125000.0;
  }

  /** The runs of the aggregation: one fetch per name, in list order. */
  function Runs(responses: string -> seq<Page>, names: seq<string>): (runs: seq<Run>)
    requires forall i :: 0 <= i < |names| ==> Terminates(responses(names[i]))
    ensures |runs| == |names|
  {
    if names == [] then []
    else
      var last := names[|names| - 1];
      Runs(responses, names[..|names| - 1]) + [FetchRun(last, responses(last))]
  }

  lemma {:induction false} RunsAt(responses: string -> seq<Page>, names: seq<string>, i: nat)
    requires forall i :: 0 <= i < |names| ==> Terminates(responses(names[i]))
    requires i < |names|
    ensures Runs(responses, names)[i] == FetchRun(names[i], responses(names[i]))
  {
    var n := |names| - 1;
    if i < n {
      RunsAt(responses, names[..n], i);
    }
  }

  /** The runs carry the names of the input list, in list order. */
  lemma {:induction false} RunsNames(responses: string -> seq<Page>, names: seq<string>)
    requires forall i :: 0 <= i < |names| ==> Terminates(responses(names[i]))
    ensures Names(Runs(responses, names)) == names
  {
    if names != [] {
      var n := |names| - 1;
      var runs, prefix := Runs(responses, names), Runs(responses, names[..n]);
      RunsNames(responses, names[..n]);
      assert runs == prefix + [FetchRun(names[n], responses(names[n]))];
      assert runs[..n] == prefix;
      assert names == names[..n] + [names[n]];
    }
  }

  /** A successful aggregation holds one key per distinct name of the input
      list, in the order of each name's first occurrence. */
  lemma AggregateKeys(responses: string -> seq<Page>, names: seq<string>)
    requires forall i :: 0 <= i < |names| ==> Terminates(responses(names[i]))
    requires Aggregate(Runs(responses, names)).Ok?
    ensures var d := Aggregate(Runs(responses, names)).value;
      Distinct(d.keys) &&
      (forall k :: k in d.keys <==> k in names) &&
      (forall k :: k in d.values <==> k in names) &&
      forall a, b :: 0 <= a < b < |d.keys| ==> FirstIndex(names, d.keys[a]) < FirstIndex(names, d.keys[b])
  {
    var runs := Runs(responses, names);
    AggregateCases(runs);
    RunsNames(responses, names);
    FoldKeys(runs);
  }

  /** Aggregating the single name "Python" over the example search records
      found 2, processed 1 and average 125000 under that name. */
  lemma AggregateExample()
    ensures Terminates(ExamplePages)
    ensures Aggregate(Runs(ExampleResponses, ["Python"])) ==
      Ok(Dict(["Python"], map["Python" := Stats(2, 1, 125000)]))
  {
    FetchExample();
    SummarizeExample();
    var names := ["Python"];
    var runs := Runs(ExampleResponses, names);
    assert names[..0] == [];
    assert runs == [] + [FetchRun("Python", ExamplePages)];
    var run := Run("Python", 2, [Some(125000.0), None], 0);
    assert runs == [run];
    assert FailAt(runs) == 1;
    assert runs[..0] == [];
    assert Fold(runs) == Put(Dict([], map[]), "Python", Summarize(run));
    assert Put(Dict([], map[]), "Python", Stats(2, 1, 125000)) == Dict(["Python"], map["Python" := Stats(2, 1, 125000)]);
    assert Aggregate(runs) == Ok(Fold(runs));
  }

  /** In a successful aggregation, the entry of the name at position `j` of
      the input list, when no later position repeats it, summarizes that
      position's fetch, which has a known estimate. */
  lemma AggregateValues(responses: string -> seq<Page>, names: seq<string>, j: nat)
    requires forall i :: 0 <= i < |names| ==> Terminates(responses(names[i]))
    requires Aggregate(Runs(responses, names)).Ok?
    requires j < |names|
    requires forall m :: j < m < |names| ==> names[m] != names[j]
    ensures |Known(FetchRun(names[j], responses(names[j])).salaries)| > 0
    ensures names[j] in Aggregate(Runs(responses, names)).value.values
    ensures Aggregate(Runs(responses, names)).value.values[names[j]] ==
      Summarize(FetchRun(names[j], responses(names[j])))
  {
    var runs := Runs(responses, names);
    assert FailAt(runs) == |runs|;
    RunsAt(responses, names, j);
    forall m | j < m < |names|
      ensures runs[m].name != runs[j].name
    {
      RunsAt(responses, names, m);
    }
    FoldValues(runs, j);
  }

  /** One pass of the aggregation loop: point the shared payload at the
      `i`-th name, fetch, and record the known estimates' statistics, or
      report that none is known. */
  method Visit(api: Api<Page>, payload: Payload, names: seq<string>, i: nat, dic: Dict, ghost runs: seq<Run>)
    returns (failed: bool, next: Dict)
    requires forall j :: 0 <= j < |names| ==> Terminates(api.responses(names[j]))
    requires runs == Runs(api.responses, names)
    requires i < |names| && i <= FailAt(runs) && dic == Fold(runs[..i])
    modifies api, payload
    ensures failed <==> |Known(runs[i].salaries)| == 0
    ensures failed ==> Attempted(runs) == i + 1 && Aggregate(runs) == Err(EmptyMean(names[i]))
    ensures !failed ==> i + 1 <= FailAt(runs) && next == Fold(runs[..i + 1])
    ensures api.log == old(api.log) + PageRequests(runs[i].name, runs[i].lastPage + 1)
    ensures Request(payload.keyword, payload.page) == Request(runs[i].name, runs[i].lastPage)
  {
    var name := names[i];
    payload.keyword := name;
    var vacanciesNumber, salaries := GettingHhSalaries(api, payload);
    RunsAt(api.responses, names, i);
    assert Run(name, vacanciesNumber, salaries, payload.page) == runs[i];
    AggregateStep(runs, i, dic);
    var known := Known(salaries);
    failed := |known| == 0;
    next := dic;
    if !failed {
      next := Put(dic, name, Stats(vacanciesNumber, |known|, Trunc(Mean(known))));
    }
  }

  /** For each name in turn: fetch it and record the count and truncated mean
      of its known estimates; an empty mean ends the whole run. */
  method PredictRubSalaryHh(api: Api<Page>, payload: Payload, names: seq<string>)
    returns (r: Result<Dict, AggError>)
    requires forall i :: 0 <= i < |names| ==> Terminates(api.responses(names[i]))
    modifies api, payload
    ensures r == Aggregate(Runs(api.responses, names))
    ensures api.log == old(api.log) + RequestLog(Runs(api.responses, names), Attempted(Runs(api.responses, names)))
    ensures Request(payload.keyword, payload.page) == FinalRequest(
      old(Request(payload.keyword, payload.page)), Runs(api.responses, names), Attempted(Runs(api.responses, names)))
  {
    ghost var runs := Runs(api.responses, names);
    ghost var init := Request(payload.keyword, payload.page);
    var dic := Dict([], map[]);
    var i := 0;
    while i < |names|
      invariant i <= |names| && i <= FailAt(runs)
      invariant dic == Fold(runs[..i])
      invariant api.log == old(api.log) + RequestLog(runs, i)
      invariant Request(payload.keyword, payload.page) == FinalRequest(init, runs, i)
    {
      var failed;
      failed, dic := Visit(api, payload, names, i, dic, runs);
      AppendAssoc(old(api.log), RequestLog(runs, i), PageRequests(runs[i].name, runs[i].lastPage + 1));
      if failed {
        return Err(EmptyMean(names[i]));
      }
      i := i + 1;
    }
    AggregateDone(runs, dic);
    r := Ok(dic);
  }
}
