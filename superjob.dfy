/** The SuperJob source: listings with two payment bounds and no currency,
    and an API whose every response says whether more pages follow. */
module SuperJob {
  import opened Wrappers
  import opened Estimation
  import opened Query
  import opened Aggregation

  /** A listing's `payment_from` and `payment_to`. */
  datatype Vacancy = Vacancy(paymentFrom: Option<int>, paymentTo: Option<int>)

  /** The decoded body of one page response. */
  datatype Page = Page(objects: seq<Vacancy>, more: bool, total: int)

  /** The estimate of one listing: the estimator's value for its bounds. */
  function Estimate(v: Vacancy): Option<real>
  {
    PredictSalary(v.paymentFrom, v.paymentTo)
  }

  /** A listing has an estimate exactly when it gives at least one nonzero
      bound. */
  lemma EstimateKnown(v: Vacancy)
    ensures Estimate(v).Some? <==> Given(v.paymentFrom) || Given(v.paymentTo)
  {
    PredictSalaryCases(v.paymentFrom, v.paymentTo);
  }

  /** The estimates of a page's listings, in listing order. */
  function Estimates(vs: seq<Vacancy>): seq<Option<real>>
  {
    if vs == [] then [] else Estimates(vs[..|vs| - 1]) + [Estimate(vs[|vs| - 1])]
  }

  /** One estimate per listing, at the listing's position. */
  lemma {:induction false} EstimatesAt(vs: seq<Vacancy>)
    ensures |Estimates(vs)| == |vs|
    ensures forall i :: 0 <= i < |vs| ==> Estimates(vs)[i] == Estimate(vs[i])
  {
    if vs != [] {
      EstimatesAt(vs[..|vs| - 1]);
    }
  }

  /** The estimates of every listing on one page, listing by listing. */
  method CalculatingSjSalaries(vacancies: seq<Vacancy>) returns (salaries: seq<Option<real>>)
    ensures salaries == Estimates(vacancies)
  {
    salaries := [];
    for i := 0 to |vacancies|
      invariant salaries == Estimates(vacancies[..i])
    {
      var vacancy := vacancies[i];
      assert vacancies[..i + 1][..i] == vacancies[..i];
      var salaryFrom := vacancy.paymentFrom;
      var salaryTo := vacancy.paymentTo;
      salaries := salaries + [PredictSalary(salaryFrom, salaryTo)];
    }
    assert vacancies[..|vacancies|] == vacancies;
  }

  /** The fetch loop ends after page `k` when that response says no more
      pages follow. */
  predicate Stops(rs: seq<Page>, k: nat)
    requires k < |rs|
  {
    !rs[k].more
  }

  /** The responses contain a page after which the loop ends. */
  predicate Terminates(rs: seq<Page>)
  {
    exists k: nat :: k < |rs| && Stops(rs, k)
  }

  /** The first page at or after `i` whose response has `more` false. */
  function LastPageFrom(rs: seq<Page>, i: nat): (k: nat)
    requires exists k: nat :: i <= k < |rs| && Stops(rs, k)
    ensures i <= k < |rs| && Stops(rs, k)
    ensures forall j: nat :: i <= j < k ==> !Stops(rs, j)
    decreases |rs| - i
  {
    if Stops(rs, i) then i else LastPageFrom(rs, i + 1)
  }

  /** The index of the last page the loop requests: the first response that
      says no more pages follow. */
  function LastPage(rs: seq<Page>): (k: nat)
    requires Terminates(rs)
    ensures k < |rs| && Stops(rs, k)
    ensures forall j: nat :: j < k ==> !Stops(rs, j)
  {
    LastPageFrom(rs, 0)
  }

  /** The estimates of pages 0 to n - 1, concatenated in page order. */
  function PagesSalaries(rs: seq<Page>, n: nat): seq<Option<real>>
    requires n <= |rs|
  {
    if n == 0 then [] else PagesSalaries(rs, n - 1) + Estimates(rs[n - 1].objects)
  }

  /** What fetching keyword `name` returns: `total` of the last page
      requested and the estimates of every page requested; it requests pages
      0 to the last page. */
  function FetchRun(name: string, rs: seq<Page>): Run
    requires Terminates(rs)
  {
    var k := LastPage(rs);
    Run(name, rs[k].total, PagesSalaries(rs, k + 1), k)
  }

  /** Request the pages of the payload's keyword one at a time, 0, 1, ...,
      while the previous response says more pages follow. */
  method GettingSjSalaries(api: Api<Page>, payload: Payload)
    returns (salaries: seq<Option<real>>, vacanciesNumber: int)
    requires Terminates(api.responses(payload.keyword))
    modifies api, payload
    ensures payload.keyword == old(payload.keyword)
    ensures payload.page == LastPage(api.responses(payload.keyword))
    ensures api.log == old(api.log) +
      PageRequests(payload.keyword, LastPage(api.responses(payload.keyword)) + 1)
    ensures Run(payload.keyword, vacanciesNumber, salaries, payload.page) ==
      FetchRun(payload.keyword, api.responses(payload.keyword))
  {
    ghost var rs := api.responses(payload.keyword);
    ghost var k := LastPage(rs);
    var stop := true;
    var pageNumber := 0;
    salaries := [];
    vacanciesNumber := 0;
    while stop
      invariant payload.keyword == old(payload.keyword)
      invariant pageNumber <= k + 1
      invariant stop <==> pageNumber <= k
      invariant 0 < pageNumber ==> vacanciesNumber == rs[pageNumber - 1].total && payload.page == pageNumber - 1
      invariant salaries == PagesSalaries(rs, pageNumber)
      invariant api.log == old(api.log) + PageRequests(payload.keyword, pageNumber)
      decreases k + 1 - pageNumber
    {
      payload.page := pageNumber;
      var vacancies := api.Get(payload);
      var pageSalaries := CalculatingSjSalaries(vacancies.objects);
      salaries := salaries + pageSalaries;
      stop := vacancies.more;
      assert stop <==> !Stops(rs, pageNumber);
      vacanciesNumber := vacancies.total;
      assert PageRequests(payload.keyword, pageNumber + 1) ==
        PageRequests(payload.keyword, pageNumber) + [Request(payload.keyword, pageNumber)];
      pageNumber := pageNumber + 1;
    }
  }

  /** Three responses, the first two saying more pages follow: three
      requests, the `total` of the third page, and the estimates of every
      listing in page order. */
  lemma FetchExample()
    ensures var rs := [Page([Vacancy(Some(100), None)], true, 7), Page([], true, 7),
                       Page([Vacancy(Some(0), Some(200))], false, 8)];
      Terminates(rs) && FetchRun("Java", rs) == Run("Java", 8, [Some(120.0), Some(180.0)], 2)
  {
    var rs := [Page([Vacancy(Some(100), None)], true, 7), Page([], true, 7),
               Page([Vacancy(Some(0), Some(200))], false, 8)];
    assert Stops(rs, 2);
    assert !Stops(rs, 0) && !Stops(rs, 1);
    assert LastPage(rs) == 2;
    assert Estimates(rs[0].objects) == [] + [Some(120.0)];
    assert Estimates(rs[2].objects) == [] + [Some(180.0)];
    assert PagesSalaries(rs, 3) == [Some(120.0)] + [] + [Some(180.0)];
  }

  /** The runs of the aggregation: one fetch per name, in list order. */
  function Runs(responses: string -> seq<Page>, names: seq<string>): (runs: seq<Run>)
    requires forall i :: 0 <= i < |names| ==> Terminates(responses(names[i]))
    ensures |runs| == |names|
  {
    if names == [] then []
    else
      var last := names[|names| - 1];
      Runs(responses, names[..|names| - 1]) + [FetchRun(last, responses(last))]
  }

  /** The run at position `i` is the fetch of the `i`-th name. */
  lemma {:induction false} RunsAt(responses: string -> seq<Page>, names: seq<string>, i: nat)
    requires forall i :: 0 <= i < |names| ==> Terminates(responses(names[i]))
    requires i < |names|
    ensures Runs(responses, names)[i] == FetchRun(names[i], responses(names[i]))
  {
    var n := |names| - 1;
    if i < n {
      RunsAt(responses, names[..n], i);
    }
  }

  /** The runs carry the names of the input list, in list order. */
  lemma {:induction false} RunsNames(responses: string -> seq<Page>, names: seq<string>)
    requires forall i :: 0 <= i < |names| ==> Terminates(responses(names[i]))
    ensures Names(Runs(responses, names)) == names
  {
    if names != [] {
      var n := |names| - 1;
      var runs, prefix := Runs(responses, names), Runs(responses, names[..n]);
      RunsNames(responses, names[..n]);
      assert runs == prefix + [FetchRun(names[n], responses(names[n]))];
      assert runs[..n] == prefix;
      assert names == names[..n] + [names[n]];
    }
  }

  /** A successful aggregation holds one key per distinct name of the input
      list, in the order of each name's first occurrence. */
  lemma AggregateKeys(responses: string -> seq<Page>, names: seq<string>)
    requires forall i :: 0 <= i < |names| ==> Terminates(responses(names[i]))
    requires Aggregate(Runs(responses, names)).Ok?
    ensures var d := Aggregate(Runs(responses, names)).value;
      Distinct(d.keys) &&
      (forall k :: k in d.keys <==> k in names) &&
      (forall k :: k in d.values <==> k in names) &&
      forall a, b :: 0 <= a < b < |d.keys| ==> FirstIndex(names, d.keys[a]) < FirstIndex(names, d.keys[b])
  {
    var runs := Runs(responses, names);
    AggregateCases(runs);
    RunsNames(responses, names);
    FoldKeys(runs);
  }

  /** In a successful aggregation, the entry of the name at position `j` of
      the input list, when no later position repeats it, summarizes that
      position's fetch, which has a known estimate. */
  lemma AggregateValues(responses: string -> seq<Page>, names: seq<string>, j: nat)
    requires forall i :: 0 <= i < |names| ==> Terminates(responses(names[i]))
    requires Aggregate(Runs(responses, names)).Ok?
    requires j < |names|
    requires forall m :: j < m < |names| ==> names[m] != names[j]
    ensures |Known(FetchRun(names[j], responses(names[j])).salaries)| > 0
    ensures names[j] in Aggregate(Runs(responses, names)).value.values
    ensures Aggregate(Runs(responses, names)).value.values[names[j]] ==
      Summarize(FetchRun(names[j], responses(names[j])))
  {
    var runs := Runs(responses, names);
    assert FailAt(runs) == |runs|;
    RunsAt(responses, names, j);
    forall m | j < m < |names|
      ensures runs[m].name != runs[j].name
    {
      RunsAt(responses, names, m);
    }
    FoldValues(runs, j);
  }

  /** One pass of the aggregation loop: point the shared payload at the
      `i`-th name, fetch, and record the known estimates' statistics, or
      report that none is known. */
  method Visit(api: Api<Page>, payload: Payload, names: seq<string>, i: nat, dic: Dict, ghost runs: seq<Run>)
    returns (failed: bool, next: Dict)
    requires forall j :: 0 <= j < |names| ==> Terminates(api.responses(names[j]))
    requires runs == Runs(api.responses, names)
    requires i < |names| && i <= FailAt(runs) && dic == Fold(runs[..i])
    modifies api, payload
    ensures failed <==> |Known(runs[i].salaries)| == 0
    ensures failed ==> Attempted(runs) == i + 1 && Aggregate(runs) == Err(EmptyMean(names[i]))
    ensures !failed ==> i + 1 <= FailAt(runs) && next == Fold(runs[..i + 1])
    ensures api.log == old(api.log) + PageRequests(runs[i].name, runs[i].lastPage + 1)
    ensures Request(payload.keyword, payload.page) == Request(runs[i].name, runs[i].lastPage)
  {
    var name := names[i];
    payload.keyword := name;
    var salaries, vacanciesNumber := GettingSjSalaries(api, payload);
    RunsAt(api.responses, names, i);
    assert Run(name, vacanciesNumber, salaries, payload.page) == runs[i];
    AggregateStep(runs, i, dic);
    var known := Known(salaries);
    failed := |known| == 0;
    next := dic;
    if !failed {
      next := Put(dic, name, Stats(vacanciesNumber, |known|, Trunc(Mean(known))));
    }
  }

  /** For each name in turn: fetch it and record the count and truncated mean
      of its known estimates; an empty mean ends the whole run. */
  method PredictRubSalarySj(api: Api<Page>, payload: Payload, names: seq<string>)
    returns (r: Result<Dict, AggError>)
    requires forall i :: 0 <= i < |names| ==> Terminates(api.responses(names[i]))
    modifies api, payload
    ensures r == Aggregate(Runs(api.responses, names))
    ensures api.log == old(api.log) + RequestLog(Runs(api.responses, names), Attempted(Runs(api.responses, names)))
    ensures Request(payload.keyword, payload.page) == FinalRequest(
      old(Request(payload.keyword, payload.page)), Runs(api.responses, names), Attempted(Runs(api.responses, names)))
  {
    ghost var runs := Runs(api.responses, names);
    ghost var init := Request(payload.keyword, payload.page);
    var dic := Dict([], map[]);
    var i := 0;
    while i < |names|
      invariant i <= |names| && i <= FailAt(runs)
      invariant dic == Fold(runs[..i])
      invariant api.log == old(api.log) + RequestLog(runs, i)
      invariant Request(payload.keyword, payload.page) == FinalRequest(init, runs, i)
    {
      var failed;
      failed, dic := Visit(api, payload, names, i, dic, runs);
      AppendAssoc(old(api.log), RequestLog(runs, i), PageRequests(runs[i].name, runs[i].lastPage + 1));
      if failed {
        return Err(EmptyMean(names[i]));
      }
      i := i + 1;
    }
    AggregateDone(runs, dic);
    r := Ok(dic);
  }
}
