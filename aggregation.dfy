/** The per-specialization aggregation shared by both sources: drop the
    unknown estimates, count the rest, take the truncated mean, and record
    the statistics in an insertion-ordered dictionary keyed by name. */
module Aggregation {
  import opened Wrappers
  import opened Query

  /** `[float(v) for v in s if v != None]`: the known estimates, in order. */
  function Known(s: seq<Option<real>>): seq<real>
  {
    if s == [] then []
    else Known(s[..|s| - 1]) + (if s[|s| - 1].Some? then [s[|s| - 1].value] else [])
  }

  /** The number of known estimates is the number of entries that are not
      `None`. */
  lemma {:induction false} KnownCount(s: seq<Option<real>>)
    ensures |Known(s)| + multiset(s)[None] == |s|
  {
    if s != [] {
      var n := |s| - 1;
      KnownCount(s[..n]);
      assert s == s[..n] + [s[n]];
      assert multiset(s) == multiset(s[..n]) + multiset{s[n]};
    }
  }

  /** The known estimates are exactly the values of the present entries. */
  lemma {:induction false} KnownMembers(s: seq<Option<real>>)
    ensures forall x :: x in Known(s) ==> Some(x) in s
    ensures forall x :: Some(x) in s ==> x in Known(s)
  {
    if s != [] {
      var n := |s| - 1;
      KnownMembers(s[..n]);
      assert s == s[..n] + [s[n]];
    }
  }

  /** Bounds on the present entries are bounds on the known estimates. */
  lemma {:induction false} KnownBounds(s: seq<Option<real>>, lo: real, hi: real)
    requires forall i :: 0 <= i < |s| && s[i].Some? ==> lo <= s[i].value <= hi
    ensures forall i :: 0 <= i < |Known(s)| ==> lo <= Known(s)[i] <= hi
  {
    if s != [] {
      KnownBounds(s[..|s| - 1], lo, hi);
    }
  }

  /** Filtering distributes over concatenation, so the estimates of several
      pages filter page by page. */
  lemma {:induction false} KnownAppend(a: seq<Option<real>>, b: seq<Option<real>>)
    ensures Known(a + b) == Known(a) + Known(b)
  {
    if b == [] {
      assert a + b == a;
    } else {
      var n := |b| - 1;
      KnownAppend(a, b[..n]);
      assert (a + b)[..|a + b| - 1] == a + b[..n];
    }
  }

  function Sum(xs: seq<real>): real
  {
    if xs == [] then 0.0 else Sum(xs[..|xs| - 1]) + xs[|xs| - 1]
  }

  /** `numpy.mean` over exact reals. */
  function Mean(xs: seq<real>): real
    requires |xs| > 0
  {
    Sum(xs) / |xs| as real
  }

  lemma {:induction false} SumBounds(xs: seq<real>, lo: real, hi: real)
    requires forall i :: 0 <= i < |xs| ==> lo <= xs[i] <= hi
    ensures |xs| as real * lo <= Sum(xs) <= |xs| as real * hi
  {
    if xs != [] {
      SumBounds(xs[..|xs| - 1], lo, hi);
    }
  }

  /** The mean lies between any lower and upper bound of its elements. */
  lemma MeanBounds(xs: seq<real>, lo: real, hi: real)
    requires |xs| > 0
    requires forall i :: 0 <= i < |xs| ==> lo <= xs[i] <= hi
    ensures lo <= Mean(xs) <= hi
  {
    SumBounds(xs, lo, hi);
    var n := |xs| as real;
    assert Sum(xs) / n * n == Sum(xs);
  }

  /** `int(x)` for a float: the integer part, dropping the fraction. */
  function Trunc(x: real): int
  {
    if x >= 0.0 then x.Floor else -((-x).Floor)
  }

  /** Truncation rounds toward zero: down for a non-negative value, up for a
      negative one, by less than one. */
  lemma TruncTowardZero(x: real)
    ensures 0.0 <= x ==> Trunc(x) as real <= x < Trunc(x) as real + 1.0
    ensures x < 0.0 ==> Trunc(x) as real - 1.0 < x <= Trunc(x) as real
  {
  }

  lemma TruncMonotone(x: real, y: real)
    requires x <= y
    ensures Trunc(x) <= Trunc(y)
  {
  }

  /** The statistics recorded for one specialization (kept as integers; the
      source stores their decimal strings). */
  datatype Stats = Stats(vacanciesFound: int, vacanciesProcessed: nat, averageSalary: int)

  /** What one fetch for one specialization returned, and the last page it
      requested (it requests pages 0 to `lastPage`). */
  datatype Run = Run(name: string, found: int, salaries: seq<Option<real>>, lastPage: nat)

  /** The requests the fetches of the first `n` runs issue, in order. */
  function RequestLog(runs: seq<Run>, n: nat): seq<Request>
    requires n <= |runs|
  {
    if n == 0 then [] else RequestLog(runs, n - 1) + PageRequests(runs[n - 1].name, runs[n - 1].lastPage + 1)
  }

  /** What the shared payload holds after the first `n` fetches, starting
      from `init`: the keyword and page of the last request sent. */
  function FinalRequest(init: Request, runs: seq<Run>, n: nat): Request
    requires n <= |runs|
  {
    if n == 0 then init else Request(runs[n - 1].name, runs[n - 1].lastPage)
  }

  /** After at least one fetch, the payload holds exactly the last request
      of the log; with none, the log is empty. */
  lemma FinalRequestIsLast(init: Request, runs: seq<Run>, n: nat)
    requires n <= |runs|
    ensures n == 0 <==> RequestLog(runs, n) == []
    ensures n > 0 ==> RequestLog(runs, n)[|RequestLog(runs, n)| - 1] == FinalRequest(init, runs, n)
  {
    if n > 0 {
      PageRequestsAt(runs[n - 1].name, runs[n - 1].lastPage + 1);
    }
  }

  /** The statistics of one run; defined only when some estimate is known. */
  function Summarize(run: Run): Stats
    requires |Known(run.salaries)| > 0
  {
    var known := Known(run.salaries);
    Stats(run.found, |known|, Trunc(Mean(known)))
  }

  /** Each field of the statistics, in terms of the run's estimates: the count
      is the number of non-`None` estimates, and the average lies between
      the truncations of the smallest and the largest of them. */
  lemma SummarizeFields(run: Run, lo: real, hi: real)
    requires |Known(run.salaries)| > 0
    requires forall i :: 0 <= i < |run.salaries| && run.salaries[i].Some? ==>
      lo <= run.salaries[i].value <= hi
    ensures Summarize(run).vacanciesFound == run.found
    ensures Summarize(run).vacanciesProcessed + multiset(run.salaries)[None] == |run.salaries|
    ensures Trunc(lo) <= Summarize(run).averageSalary <= Trunc(hi)
  {
    var known := Known(run.salaries);
    KnownCount(run.salaries);
    KnownBounds(run.salaries, lo, hi);
    MeanBounds(known, lo, hi);
    TruncMonotone(lo, Mean(known));
    TruncMonotone(Mean(known), hi);
  }

  /** The error the source raises: the mean of an empty list is NaN, and
      converting NaN to an integer fails. */
  datatype AggError = EmptyMean(name: string)

  /** An insertion-ordered dictionary: `keys` in insertion order, `values`
      the mapping. */
  datatype Dict = Dict(keys: seq<string>, values: map<string, Stats>)

  /** `d.update({k: v})`: a new key goes to the end, an existing key keeps
      its position and gets the new value. */
  function Put(d: Dict, k: string, v: Stats): Dict
  {
    Dict(if k in d.values then d.keys else d.keys + [k], d.values[k := v])
  }

  predicate Distinct(s: seq<string>)
  {
    forall i, j :: 0 <= i < j < |s| ==> s[i] != s[j]
  }

  /** The names of the runs, in run order. */
  function Names(runs: seq<Run>): (names: seq<string>)
    ensures |names| == |runs|
  {
    if runs == [] then [] else Names(runs[..|runs| - 1]) + [runs[|runs| - 1].name]
  }

  /** The position of the first occurrence of `x` in `s`. */
  function FirstIndex(s: seq<string>, x: string): (i: nat)
    requires x in s
    ensures i < |s| && s[i] == x
    ensures forall j :: 0 <= j < i ==> s[j] != x
  {
    if s[0] == x then 0 else 1 + FirstIndex(s[1..], x)
  }

  lemma FirstIndexAppend(s: seq<string>, y: string, x: string)
    requires x in s
    ensures FirstIndex(s + [y], x) == FirstIndex(s, x)
  {
    var i, i' := FirstIndex(s, x), FirstIndex(s + [y], x);
    assert (s + [y])[i] == x;
  }

  /** The index of the first run without any known estimate, or the number
      of runs when every run has one. */
  function FailAt(runs: seq<Run>): (k: nat)
    ensures k <= |runs|
    ensures forall i :: 0 <= i < k ==> |Known(runs[i].salaries)| > 0
    ensures k < |runs| ==> |Known(runs[k].salaries)| == 0
  {
    if runs == [] then 0
    else if |Known(runs[0].salaries)| == 0 then 0
    else 1 + FailAt(runs[1..])
  }

  /** The dictionary the loop builds when no run fails. */
  function Fold(runs: seq<Run>): Dict
    requires forall i :: 0 <= i < |runs| ==> |Known(runs[i].salaries)| > 0
  {
    if runs == [] then Dict([], map[])
    else
      var last := runs[|runs| - 1];
      Put(Fold(runs[..|runs| - 1]), last.name, Summarize(last))
  }

  lemma FoldStep(runs: seq<Run>, i: nat)
    requires i < FailAt(runs)
    ensures Fold(runs[..i + 1]) == Put(Fold(runs[..i]), runs[i].name, Summarize(runs[i]))
  {
    assert runs[..i + 1][..i] == runs[..i];
  }

  /** The aggregation over runs: the first run without a known estimate
      aborts it with that run's name; otherwise every run is recorded. */
  function Aggregate(runs: seq<Run>): Result<Dict, AggError>
  {
    var k := FailAt(runs);
    if k < |runs| then Err(EmptyMean(runs[k].name)) else Ok(Fold(runs))
  }

  /** How many runs the aggregation fetches: up to and including the one
      that fails, or all of them. */
  function Attempted(runs: seq<Run>): nat
  {
    var k := FailAt(runs);
    if k < |runs| then k + 1 else |runs|
  }

  /** The aggregation succeeds exactly when every run has a known estimate,
      and then fetches every run; otherwise it fails with the name of the
      first run without one, which is the last run it fetches. */
  lemma AggregateCases(runs: seq<Run>)
    ensures Aggregate(runs).Ok? <==> forall i :: 0 <= i < |runs| ==> |Known(runs[i].salaries)| > 0
    ensures Attempted(runs) <= |runs|
    ensures Aggregate(runs).Ok? ==> Attempted(runs) == |runs|
    ensures Aggregate(runs).Err? ==>
      var n := Attempted(runs);
      0 < n && Aggregate(runs).error == EmptyMean(runs[n - 1].name) &&
      |Known(runs[n - 1].salaries)| == 0 &&
      forall i :: 0 <= i < n - 1 ==> |Known(runs[i].salaries)| > 0
  {
  }

  /** One step of the aggregation loop over `runs`, after `i` runs have been
      recorded in `dic`: a run without a known estimate is where the
      aggregation fails, and otherwise recording it extends the fold. */
  lemma AggregateStep(runs: seq<Run>, i: nat, dic: Dict)
    requires i < |runs| && i <= FailAt(runs) && dic == Fold(runs[..i])
    ensures RequestLog(runs, i + 1) == RequestLog(runs, i) + PageRequests(runs[i].name, runs[i].lastPage + 1)
    ensures |Known(runs[i].salaries)| == 0 ==>
      Attempted(runs) == i + 1 && Aggregate(runs) == Err(EmptyMean(runs[i].name))
    ensures |Known(runs[i].salaries)| > 0 ==>
      i + 1 <= FailAt(runs) && Put(dic, runs[i].name, Summarize(runs[i])) == Fold(runs[..i + 1])
  {
    if |Known(runs[i].salaries)| > 0 {
      FoldStep(runs, i);
    }
  }

  /** The end of the aggregation loop: every run has been recorded. */
  lemma AggregateDone(runs: seq<Run>, dic: Dict)
    requires |runs| <= FailAt(runs) && dic == Fold(runs[..|runs|])
    ensures Attempted(runs) == |runs| && Aggregate(runs) == Ok(dic)
  {
    assert runs[..|runs|] == runs;
  }

  /** The dictionary holds one key per distinct name, in the order of each
      name's first occurrence, and nothing else. */
  lemma {:induction false} FoldKeys(runs: seq<Run>)
    requires forall i :: 0 <= i < |runs| ==> |Known(runs[i].salaries)| > 0
    ensures Distinct(Fold(runs).keys)
    ensures forall k :: k in Fold(runs).keys <==> k in Names(runs)
    ensures forall k :: k in Fold(runs).values <==> k in Names(runs)
    ensures forall a, b :: 0 <= a < b < |Fold(runs).keys| ==>
      FirstIndex(Names(runs), Fold(runs).keys[a]) < FirstIndex(Names(runs), Fold(runs).keys[b])
  {
    if runs != [] {
      var n := |runs| - 1;
      var p, last := runs[..n], runs[n];
      FoldKeys(p);
      var d := Fold(p);
      forall k | k in Names(p) ensures FirstIndex(Names(runs), k) == FirstIndex(Names(p), k) {
        FirstIndexAppend(Names(p), last.name, k);
      }
      if last.name !in d.values {
        assert FirstIndex(Names(runs), last.name) == n;
      }
    }
  }

  /** A run that is the last one with its name decides that name's entry:
      a repeated name overwrites the earlier entry. */
  lemma {:induction false} FoldValues(runs: seq<Run>, i: nat)
    requires forall j :: 0 <= j < |runs| ==> |Known(runs[j].salaries)| > 0
    requires i < |runs|
    requires forall j :: i < j < |runs| ==> runs[j].name != runs[i].name
    ensures runs[i].name in Fold(runs).values
    ensures Fold(runs).values[runs[i].name] == Summarize(runs[i])
  {
    var n := |runs| - 1;
    if i < n {
      FoldValues(runs[..n], i);
    }
  }
}
